/** Shutdown budgets: deadlines carved out of deadlines, over exact fractions and a clock that
    never goes back. */
module Ladder {
  import opened Options

  const CHILDREN_SHARE := 0.15
  const CHILDREN_CEILING := 0.5
  const REQUESTS_SHARE := 0.40 / 0.95
  const DRAIN_SHARE := 0.30 / 0.55
  const CLOSE_SHARE := 1.0
  const CANCEL_RESERVE := 1.0 / 3.0

  function Left(deadline: real, now: real): (l: real)
    ensures l >= 0.0
  {
    if deadline > now then deadline - now else 0.0
  }

  function Clamp(of: real): (c: real)
    ensures 0.0 <= c <= 1.0
    ensures 0.0 <= of <= 1.0 ==> c == of
    ensures of < 0.0 ==> c == 0.0
    ensures of > 1.0 ==> c == 1.0
  {
    if of <= 0.0 then 0.0 else if of >= 1.0 then 1.0 else of
  }

  function FractionOf(left: real, fraction: real): real {
    if fraction * left >= left then left else fraction * left
  }

  function Share(deadline: real, now: real, of: real): real {
    deadline - FractionOf(Left(deadline, now), 1.0 - Clamp(of))
  }

  /** The deadline of the work; the tail keeps the whole budget's. */
  function Reserve(deadline: real, now: real, of: real): real {
    deadline - FractionOf(Left(deadline, now), Clamp(of))
  }

  lemma Fraction(left: real, fraction: real)
    requires left >= 0.0 && 0.0 <= fraction <= 1.0
    ensures FractionOf(left, fraction) == fraction * left && 0.0 <= fraction * left <= left
  {
  }

  lemma Distribute(c: real, left: real)
    ensures (1.0 - c) * left == left - c * left
  {
  }

  /** A share ends no later than its parent and lasts exactly its fraction of what was left. */
  lemma ShareWithin(deadline: real, now: real, of: real)
    ensures Share(deadline, now, of) <= deadline
    ensures Left(Share(deadline, now, of), now) == Clamp(of) * Left(deadline, now)
  {
    var left, c := Left(deadline, now), Clamp(of);
    var withheld, part := Parts(left, c);
    ShareIs(deadline, now, of, part);
  }

  /** A fraction of what is left and the rest of it. */
  lemma Parts(left: real, c: real) returns (rest: real, part: real)
    requires left >= 0.0 && 0.0 <= c <= 1.0
    ensures rest == FractionOf(left, 1.0 - c) && part == FractionOf(left, c) && rest + part == left
    ensures rest >= 0.0 && part >= 0.0 && part == c * left && rest == (1.0 - c) * left
  {
    Fraction(left, 1.0 - c);
    Fraction(left, c);
    Distribute(c, left);
    rest, part := (1.0 - c) * left, c * left;
  }

  lemma ShareIs(deadline: real, now: real, of: real, part: real)
    requires FractionOf(Left(deadline, now), 1.0 - Clamp(of)) == Left(deadline, now) - part && 0.0 <= part <= Left(deadline, now)
    ensures Share(deadline, now, of) <= deadline && Left(Share(deadline, now, of), now) == part
  {
  }

  /** However long the work runs, within its own deadline, the tail keeps its slice. */
  lemma ReserveKeeps(deadline: real, now: real, of: real, later: real)
    requires later <= Reserve(deadline, now, of)
    ensures Reserve(deadline, now, of) <= deadline
    ensures deadline - later >= Clamp(of) * Left(deadline, now)
    ensures Left(Reserve(deadline, now, of), now) == (1.0 - Clamp(of)) * Left(deadline, now)
  {
    var left, c := Left(deadline, now), Clamp(of);
    var rest, part := Parts(left, c);
    CutIs(deadline, now, of, part);
  }

  lemma CutIs(deadline: real, now: real, of: real, part: real)
    requires FractionOf(Left(deadline, now), Clamp(of)) == part && 0.0 <= part <= Left(deadline, now)
    ensures Reserve(deadline, now, of) == deadline - part && Left(Reserve(deadline, now, of), now) == Left(deadline, now) - part
  {
  }

  /** Any nesting of shares and reserves, each carved at its own time. */
  datatype Carve = CarveShare(now: real, of: real) | CarveReserve(now: real, of: real)

  function Carved(deadline: real, carves: seq<Carve>): real
    decreases |carves|
  {
    if carves == [] then deadline else
      var d := Carved(deadline, carves[..|carves| - 1]);
      match carves[|carves| - 1]
      case CarveShare(now, of) => Share(d, now, of)
      case CarveReserve(now, of) => Reserve(d, now, of)
  }

  /** No deadline carved from another, at any depth, passes it; and none that is carved in time
      has passed already. */
  lemma {:induction false} CarvedWithin(deadline: real, carves: seq<Carve>, from: nat)
    requires from <= |carves|
    ensures Carved(deadline, carves) <= Carved(deadline, carves[..from])
    decreases |carves|
  {
    if from == |carves| {
      assert carves[..from] == carves;
    } else {
      var init := carves[..|carves| - 1];
      CarvedWithin(deadline, init, from);
      assert init[..from] == carves[..from];
      var d := Carved(deadline, init);
      match carves[|carves| - 1]
      case CarveShare(now, of) => ShareWithin(d, now, of);
      case CarveReserve(now, of) => ReserveKeeps(d, now, of, Reserve(d, now, of));
    }
  }

  // ----- The children tail -----

  /** Its locked share, raised to one settle grace where the budget affords it, never past half. */
  function ChildrenReserve(left: real, settleGrace: real): real {
    var wanted := if left == 0.0 then CHILDREN_CEILING
                  else if settleGrace / left < CHILDREN_CEILING then settleGrace / left else CHILDREN_CEILING;
    if wanted > CHILDREN_SHARE then wanted else CHILDREN_SHARE
  }

  lemma ReserveBounds(left: real, settleGrace: real)
    requires left >= 0.0 && settleGrace > 0.0
    ensures 0.15 <= ChildrenReserve(left, settleGrace) <= 0.5
    ensures left >= 2.0 * settleGrace ==> ChildrenReserve(left, settleGrace) * left >= settleGrace
    ensures left > 0.0 ==>
              var kept := ChildrenReserve(left, settleGrace) * left;
              if settleGrace >= 0.5 * left then kept == 0.5 * left
              else if settleGrace >= 0.15 * left then kept == settleGrace
              else kept == 0.15 * left
  {
    if left > 0.0 { ReserveExact(left, settleGrace); }
  }

  lemma ReserveExact(left: real, settleGrace: real)
    requires left > 0.0 && settleGrace > 0.0
    ensures var kept := ChildrenReserve(left, settleGrace) * left;
            if settleGrace >= 0.5 * left then kept == 0.5 * left
            else if settleGrace >= 0.15 * left then kept == settleGrace
            else kept == 0.15 * left
  {
    var q := settleGrace / left;
    ReserveOf(left, settleGrace);
    Quotient(settleGrace, left, 0.5);
    Quotient(settleGrace, left, 0.15);
  }

  lemma ReserveOf(left: real, settleGrace: real)
    requires left > 0.0
    ensures var q := settleGrace / left;
            ChildrenReserve(left, settleGrace) == if q >= 0.5 then 0.5 else if q >= 0.15 then q else 0.15
  {
  }

  lemma Quotient(a: real, b: real, c: real)
    requires b > 0.0
    ensures a / b >= c <==> a >= c * b
    ensures a / b * b == a
  {
    var q := a / b;
    assert q * b == a;
    Compare(q, c, b);
  }

  lemma Compare(a: real, b: real, c: real)
    requires c > 0.0
    ensures a * c >= b * c <==> a >= b
  {
    if a >= b { Times(b, a, c); } else { Strictly(a, b, c); }
  }

  lemma Strictly(a: real, b: real, c: real)
    requires a < b && c > 0.0
    ensures a * c < b * c
  {
  }

  lemma Times(a: real, b: real, c: real)
    requires a <= b && c >= 0.0
    ensures a * c <= b * c
  {
  }

  // ----- The ladder -----

  datatype Stage = Intake | Requests | ProductDrain | ProductClose | Children

  datatype Drained = Drained(settled: seq<Stage>, abandoned: seq<Stage>)

  function Mark(d: Drained, s: Stage, ok: bool): Drained {
    if ok then d.(settled := d.settled + [s]) else d.(abandoned := d.abandoned + [s])
  }

  /** One stage as it ran: when, until when, and by which deadline; intake has no budget. */
  datatype Slice = Slice(stage: Stage, from: real, until: real, deadline: Option<real>, ok: bool) {
    /** It took no time, or returned by its deadline. */
    predicate InTime() { from <= until && (deadline.Some? ==> until <= from || until <= deadline.value) }

    /** What was left of its slice when its turn came. */
    function Granted(): real
      requires deadline.Some?
    {
      Left(deadline.value, from)
    }
  }

  /** The stages, in order, that ended as `which`. */
  function Reported(ran: seq<Slice>, which: bool): seq<Stage> {
    if ran == [] then [] else
      var last := ran[|ran| - 1];
      Reported(ran[..|ran| - 1], which) + if last.ok == which then [last.stage] else []
  }

  lemma ReportMore(ran: seq<Slice>, s: Slice)
    ensures Drained(Reported(ran + [s], true), Reported(ran + [s], false))
            == Mark(Drained(Reported(ran, true), Reported(ran, false)), s.stage, s.ok)
  {
    assert (ran + [s])[..|ran|] == ran;
    assert Reported(ran, !s.ok) + [] == Reported(ran, !s.ok);
  }

  class Clock {
    var now: real
    /** Every stage this clock saw run. */
    ghost var ran: seq<Slice>

    constructor (now: real)
      ensures this.now == now && ran == []
    {
      this.now, ran := now, [];
    }

    /** Time passes, but a stage that is bounded by a deadline returns by it. */
    method Until(deadline: real)
      modifies this`now
      ensures old(now) <= now && (now <= old(now) || now <= deadline)
    {
      var t: real := *;
      if now <= t <= deadline { now := t; }
    }

    /** A wait that was not answered lasts to its end. */
    method Reach(deadline: real)
      modifies this`now
      ensures now == if old(now) < deadline then deadline else old(now)
    {
      if now < deadline { now := deadline; }
    }

    method Pass()
      modifies this`now
      ensures old(now) <= now
    {
      var t: real := *;
      if now <= t { now := t; }
    }
  }

  /** What the ladder carves before its first stage: the whole deadline, when the children's share of
      it was weighed, and when the work window was cut off. */
  datatype Plan = Plan(deadline: real, weighedAt: real, carvedAt: real, work: real) {
    function Window(): real { Left(work, carvedAt) }

    function Budget(): real { Left(deadline, carvedAt) }
  }

  /** The plan that a shutdown beginning at `start` makes. */
  predicate Planned(p: Plan, start: real, shutdown: real, settleGrace: real) {
    && p.deadline == start + shutdown && start <= p.weighedAt <= p.carvedAt
    && p.work == Reserve(p.deadline, p.carvedAt, ChildrenReserve(Left(p.deadline, p.weighedAt), settleGrace))
  }

  /** Each stage begins when the one before it returned. */
  predicate InTurn(from: real, ran: seq<Slice>, until: real) {
    && |ran| > 0 && ran[0].from == from && ran[|ran| - 1].until == until
    && (forall i :: 0 <= i < |ran| ==> ran[i].InTime())
    && (forall i :: 0 <= i < |ran| - 1 ==> ran[i + 1].from == ran[i].until)
  }

  predicate Stages(p: Plan, product: bool, ran: seq<Slice>) {
    && |ran| == (if product then 5 else 3)
    && ran[0].stage.Intake? && ran[0].deadline.None?
    && ran[1].stage.Requests? && ran[1].deadline == Some(Share(p.work, ran[1].from, REQUESTS_SHARE))
    && (product ==>
          && ran[2].stage.ProductDrain? && ran[2].deadline == Some(Share(p.work, ran[2].from, DRAIN_SHARE))
          && ran[3].stage.ProductClose? && ran[3].deadline == Some(Share(p.work, ran[3].from, CLOSE_SHARE)))
    && ran[|ran| - 1].stage.Children? && ran[|ran| - 1].deadline == Some(p.deadline)
  }

  /** One run of the ladder, from the moment the shutdown began to the moment it returned. */
  predicate LadderRun(p: Plan, start: real, shutdown: real, settleGrace: real, product: bool, ran: seq<Slice>, end: real) {
    Planned(p, start, shutdown, settleGrace) && InTurn(p.carvedAt, ran, end) && Stages(p, product, ran)
  }

  // ----- What every run grants -----

  /** The arithmetic of the two product stages: what is left of the window when requests return. */
  lemma ProductSlices(work: real, window: real, t3: real, t4: real, t5: real)
    requires window > 0.0 && work - t3 >= 0.95 * window
    requires t4 <= t3 || t4 <= Share(work, t3, REQUESTS_SHARE)
    requires t5 <= t4 || t5 <= Share(work, t4, DRAIN_SHARE)
    ensures Left(Share(work, t4, DRAIN_SHARE), t4) >= 0.30 * window
    ensures Left(Share(work, t5, CLOSE_SHARE), t5) >= 0.25 * window
  {
    ShareWithin(work, t3, REQUESTS_SHARE);
    ShareWithin(work, t4, DRAIN_SHARE);
    ShareWithin(work, t5, CLOSE_SHARE);
    assert work - t4 >= 0.55 * window;
    assert work - t5 >= 0.25 * window;
  }

  /** In every run whose intake took at most a twentieth of the work window, product drain is
      granted at least 30% of the window and close at least 25%. */
  lemma ProductGrants(p: Plan, start: real, shutdown: real, settleGrace: real, ran: seq<Slice>, end: real)
    requires LadderRun(p, start, shutdown, settleGrace, true, ran, end)
    requires p.Window() > 0.0 && ran[0].until - ran[0].from <= 0.05 * p.Window()
    ensures ran[2].Granted() >= 0.30 * p.Window() && ran[3].Granted() >= 0.25 * p.Window()
  {
    assert ran[0].InTime() && ran[1].InTime() && ran[2].InTime();
    assert ran[0 + 1].from == ran[0].until && ran[1 + 1].from == ran[1].until && ran[2 + 1].from == ran[2].until;
    ProductSlices(p.work, p.Window(), ran[1].from, ran[2].from, ran[3].from);
  }

  /** And requests at least 40%. */
  lemma RequestsGrant(p: Plan, start: real, shutdown: real, settleGrace: real, product: bool, ran: seq<Slice>, end: real)
    requires LadderRun(p, start, shutdown, settleGrace, product, ran, end)
    requires p.Window() > 0.0 && ran[0].until - ran[0].from <= 0.05 * p.Window()
    ensures ran[1].Granted() >= 0.40 * p.Window()
  {
    assert ran[0 + 1].from == ran[0].until;
    ShareWithin(p.work, ran[1].from, REQUESTS_SHARE);
  }

  /** The locked shares: a run in which intake takes its twentieth and every stage all of its slice
      grants exactly 40%, 30% and 25% of the work window. */
  lemma LockedShares(p: Plan, start: real, shutdown: real, settleGrace: real, ran: seq<Slice>, end: real)
    requires LadderRun(p, start, shutdown, settleGrace, true, ran, end)
    requires p.Window() > 0.0 && ran[0].until - ran[0].from == 0.05 * p.Window()
    requires ran[1].until == ran[1].deadline.value && ran[2].until == ran[2].deadline.value
    ensures ran[1].Granted() == 0.40 * p.Window() && ran[2].Granted() == 0.30 * p.Window() && ran[3].Granted() == 0.25 * p.Window()
  {
    assert ran[0 + 1].from == ran[0].until && ran[1 + 1].from == ran[1].until && ran[2 + 1].from == ran[2].until;
    ShareWithin(p.work, ran[1].from, REQUESTS_SHARE);
    ShareWithin(p.work, ran[2].from, DRAIN_SHARE);
    ShareWithin(p.work, ran[3].from, CLOSE_SHARE);
  }

  lemma {:induction false} ByWork(p: Plan, product: bool, ran: seq<Slice>, end: real, i: nat)
    requires Stages(p, product, ran) && InTurn(p.carvedAt, ran, end) && ran[0].until <= p.work && 0 < i < |ran|
    ensures ran[i].from <= p.work
  {
    assert ran[i - 1 + 1].from == ran[i - 1].until;
    assert ran[i - 1].InTime();
    if i > 1 {
      ByWork(p, product, ran, end, i - 1);
      ShareWithin(p.work, ran[i - 1].from, REQUESTS_SHARE);
      ShareWithin(p.work, ran[i - 1].from, DRAIN_SHARE);
      ShareWithin(p.work, ran[i - 1].from, CLOSE_SHARE);
    }
  }

  /** Whatever the stages before it did within their slices, the tail has what was cut off. */
  lemma TailLeft(p: Plan, product: bool, ran: seq<Slice>, end: real)
    requires Stages(p, product, ran) && InTurn(p.carvedAt, ran, end) && ran[0].until <= p.work
    ensures ran[|ran| - 1].Granted() >= p.deadline - p.work
  {
    ByWork(p, product, ran, end, |ran| - 1);
  }

  /** In every run whose intake ended within the work window the children's tail is granted at least
      its reserve, which is 15% to 50% of the budget; with two settle graces on the clock when it
      was weighed, that is one settle grace, scaled by what was left when it was carved. */
  lemma TailGrant(p: Plan, start: real, shutdown: real, settleGrace: real, product: bool, ran: seq<Slice>, end: real)
    requires LadderRun(p, start, shutdown, settleGrace, product, ran, end) && settleGrace > 0.0
    requires ran[0].until <= p.work
    ensures var reserve, tail := ChildrenReserve(Left(p.deadline, p.weighedAt), settleGrace), ran[|ran| - 1].Granted();
            && tail >= reserve * p.Budget() && 0.15 * p.Budget() <= reserve * p.Budget() <= 0.5 * p.Budget()
            && (Left(p.deadline, p.weighedAt) >= 2.0 * settleGrace ==>
                  tail * Left(p.deadline, p.weighedAt) >= settleGrace * p.Budget())
  {
    TailLeft(p, product, ran, end);
    TailAmounts(p, start, shutdown, settleGrace, ran[|ran| - 1].Granted());
  }

  lemma TailAmounts(p: Plan, start: real, shutdown: real, settleGrace: real, tail: real)
    requires Planned(p, start, shutdown, settleGrace) && settleGrace > 0.0 && tail >= p.deadline - p.work
    ensures var reserve := ChildrenReserve(Left(p.deadline, p.weighedAt), settleGrace);
            && tail >= reserve * p.Budget() && 0.15 * p.Budget() <= reserve * p.Budget() <= 0.5 * p.Budget()
            && (Left(p.deadline, p.weighedAt) >= 2.0 * settleGrace ==>
                  tail * Left(p.deadline, p.weighedAt) >= settleGrace * p.Budget())
  {
    var left := Left(p.deadline, p.weighedAt);
    var reserve := ChildrenReserve(left, settleGrace);
    ReserveBounds(left, settleGrace);
    var kept := CutOff(p.deadline, p.carvedAt, reserve);
    if left >= 2.0 * settleGrace { Scaled(settleGrace, reserve, left, p.Budget(), tail); }
  }

  lemma Scaled(settleGrace: real, reserve: real, left: real, budget: real, tail: real)
    requires reserve * left >= settleGrace && tail >= reserve * budget && left >= 0.0 && budget >= 0.0
    ensures tail * left >= settleGrace * budget
  {
    var x, kept := reserve * left, reserve * budget;
    Times(settleGrace, x, budget);
    Times(kept, tail, left);
    assert x * budget == kept * left;
  }

  /** What a reserve takes off the end. */
  lemma CutOff(deadline: real, now: real, reserve: real) returns (kept: real)
    requires 0.15 <= reserve <= 0.5
    ensures kept == reserve * Left(deadline, now) && Reserve(deadline, now, reserve) == deadline - kept
    ensures 0.15 * Left(deadline, now) <= kept <= 0.5 * Left(deadline, now)
  {
    kept := Product(Left(deadline, now), reserve);
    ReserveIs(deadline, now, reserve, kept);
  }

  lemma Product(left: real, reserve: real) returns (kept: real)
    requires 0.15 <= reserve <= 0.5 && left >= 0.0
    ensures kept == reserve * left && 0.15 * left <= kept <= 0.5 * left
  {
    kept := reserve * left;
    Times(0.15, reserve, left);
    Times(reserve, 0.5, left);
  }

  lemma ReserveIs(deadline: real, now: real, reserve: real, kept: real)
    requires 0.0 <= reserve <= 1.0 && kept == reserve * Left(deadline, now)
    ensures Reserve(deadline, now, reserve) == deadline - kept
  {
    assert Clamp(reserve) == reserve;
    Fraction(Left(deadline, now), reserve);
  }

  /** The work window is at least half of the budget it was carved from. */
  lemma WindowKeepsHalf(p: Plan, start: real, shutdown: real, settleGrace: real)
    requires Planned(p, start, shutdown, settleGrace) && settleGrace > 0.0
    ensures p.Window() >= 0.5 * p.Budget() && p.work <= p.deadline
  {
    var left := Left(p.deadline, p.weighedAt);
    ReserveBounds(left, settleGrace);
    var kept := CutOff(p.deadline, p.carvedAt, ChildrenReserve(left, settleGrace));
  }

  /** No stage's deadline passes the shutdown's. */
  lemma SlicesWithin(p: Plan, start: real, shutdown: real, settleGrace: real, product: bool, ran: seq<Slice>, end: real, i: nat)
    requires LadderRun(p, start, shutdown, settleGrace, product, ran, end) && settleGrace > 0.0 && 0 < i < |ran|
    ensures ran[i].deadline.Some? && ran[i].deadline.value <= start + shutdown
  {
    WindowKeepsHalf(p, start, shutdown, settleGrace);
    ShareWithin(p.work, ran[i].from, REQUESTS_SHARE);
    ShareWithin(p.work, ran[i].from, DRAIN_SHARE);
    ShareWithin(p.work, ran[i].from, CLOSE_SHARE);
  }

  // ----- Running it -----

  /** Mints the budget, weighs the children's share of it and carves their tail off. */
  method CarveTail(clock: Clock, shutdown: real, settleGrace: real) returns (p: Plan)
    modifies clock`now
    ensures Planned(p, old(clock.now), shutdown, settleGrace) && p.carvedAt == clock.now
  {
    var deadline := clock.now + shutdown;
    clock.Pass();
    var weighedAt := clock.now;
    var reserve := ChildrenReserve(Left(deadline, clock.now), settleGrace);
    clock.Pass();
    p := Plan(deadline, weighedAt, clock.now, Reserve(deadline, clock.now, reserve));
  }

  /** Intake does not block, but nothing bounds it either. */
  method CloseIntake(clock: Clock) returns (ok: bool, ghost s: Slice)
    modifies clock
    ensures clock.ran == old(clock.ran) + [s] && s == Slice(Intake, old(clock.now), clock.now, None, ok) && s.InTime()
  {
    clock.Pass();
    ok := *;
    s := Slice(Intake, old(clock.now), clock.now, None, ok);
    clock.ran := clock.ran + [s];
  }

  /** A stage counts as settled when it returned within its slice; the children's only if it also
      proved them gone. */
  method RunStage(clock: Clock, stage: Stage, deadline: real) returns (ok: bool, ghost s: Slice)
    modifies clock
    ensures clock.ran == old(clock.ran) + [s] && s == Slice(stage, old(clock.now), clock.now, Some(deadline), ok) && s.InTime()
  {
    var inTime: bool, proven: bool := *, *;
    clock.Until(deadline);
    ok := inTime && (!stage.Children? || proven);
    s := Slice(stage, old(clock.now), clock.now, Some(deadline), ok);
    clock.ran := clock.ran + [s];
  }

  /** Joins admitted requests within two thirds of the slice: whenever it returns, a third of what
      the slice held at its start is left for the handlers that are cancelled then. */
  method JoinRequests(clock: Clock, deadline: real) returns (joined: bool)
    modifies clock`now
    ensures old(clock.now) <= clock.now
    ensures 3.0 * Left(deadline, clock.now) >= Left(deadline, old(clock.now))
    ensures !joined && deadline > old(clock.now) ==> 3.0 * (clock.now - old(clock.now)) >= 2.0 * (deadline - old(clock.now))
    ensures clock.now <= old(clock.now) || clock.now <= deadline
  {
    var start := clock.now;
    var work := Reserve(deadline, start, CANCEL_RESERVE);
    clock.Until(work);
    joined := *;
    ReserveKeeps(deadline, start, CANCEL_RESERVE, work);
    if !joined && clock.now < work { clock.Reach(work); }
  }

  /** Joins, cancels what is still in flight, joins that within the last third, and waits for the
      acknowledgements. */
  method SettleRequests(clock: Clock, deadline: real) returns (ok: bool, ghost s: Slice)
    modifies clock
    ensures clock.ran == old(clock.ran) + [s] && s == Slice(Requests, old(clock.now), clock.now, Some(deadline), ok) && s.InTime()
  {
    ok := JoinRequests(clock, deadline);
    if !ok {
      clock.Until(deadline);
      ok := *;
    }
    if ok {
      clock.Until(deadline);
      ok := *;
    }
    s := Slice(Requests, old(clock.now), clock.now, Some(deadline), ok);
    clock.ran := clock.ran + [s];
  }

  lemma TurnMore(from: real, ran: seq<Slice>, until: real, s: Slice)
    requires InTurn(from, ran, until) && s.from == until && s.InTime()
    ensures InTurn(from, ran + [s], s.until)
  {
    var more := ran + [s];
    forall i | 0 <= i < |more| - 1 ensures more[i + 1].from == more[i].until {
      if i < |ran| - 1 { assert ran[i + 1].from == ran[i].until; }
    }
  }

  /** What has been reported so far, and the stages it is the report of. */
  ghost predicate Reports(drained: Drained, from: real, ran: seq<Slice>, until: real) {
    InTurn(from, ran, until) && drained == Drained(Reported(ran, true), Reported(ran, false))
  }

  lemma ReportFirst(s: Slice)
    requires s.InTime()
    ensures Reports(Mark(Drained([], []), s.stage, s.ok), s.from, [s], s.until)
  {
    ReportMore([], s);
    assert [] + [s] == [s];
  }

  lemma ReportStage(drained: Drained, from: real, ran: seq<Slice>, until: real, s: Slice)
    requires Reports(drained, from, ran, until) && s.from == until && s.InTime()
    ensures Reports(Mark(drained, s.stage, s.ok), from, ran + [s], s.until)
  {
    TurnMore(from, ran, until, s);
    ReportMore(ran, s);
  }

  method RunRequests(clock: Clock, plan: Plan) returns (drained: Drained, ghost a: Slice, ghost b: Slice)
    modifies clock
    ensures clock.ran == old(clock.ran) + [a, b] && Reports(drained, old(clock.now), [a, b], clock.now)
    ensures a.stage.Intake? && a.deadline.None?
    ensures b.stage.Requests? && b.deadline == Some(Share(plan.work, b.from, REQUESTS_SHARE))
  {
    var ok;
    ok, a := CloseIntake(clock);
    drained := Mark(Drained([], []), Intake, ok);
    ReportFirst(a);
    ghost var until := clock.now;
    ok, b := SettleRequests(clock, Share(plan.work, clock.now, REQUESTS_SHARE));
    ReportStage(drained, old(clock.now), [a], until, b);
    drained := Mark(drained, Requests, ok);
    assert [a] + [b] == [a, b];
  }

  method RunProduct(clock: Clock, plan: Plan, drained0: Drained, ghost from: real, ghost ran: seq<Slice>)
    returns (drained: Drained, ghost c: Slice, ghost d: Slice)
    requires Reports(drained0, from, ran, clock.now)
    modifies clock
    ensures clock.ran == old(clock.ran) + [c, d] && Reports(drained, from, ran + [c] + [d], clock.now)
    ensures c.stage.ProductDrain? && c.deadline == Some(Share(plan.work, c.from, DRAIN_SHARE))
    ensures d.stage.ProductClose? && d.deadline == Some(Share(plan.work, d.from, CLOSE_SHARE))
  {
    var ok;
    ok, c := RunStage(clock, ProductDrain, Share(plan.work, clock.now, DRAIN_SHARE));
    ReportStage(drained0, from, ran, c.from, c);
    drained := Mark(drained0, ProductDrain, ok);
    ok, d := RunStage(clock, ProductClose, Share(plan.work, clock.now, CLOSE_SHARE));
    ReportStage(drained, from, ran + [c], d.from, d);
    drained := Mark(drained, ProductClose, ok);
  }

  /** Runs the stages in order and reports each once, by how it ended: what ran is one of the runs
      above. */
  method RunLadder(clock: Clock, shutdown: real, settleGrace: real, product: bool)
    returns (drained: Drained, ghost p: Plan, ghost ran: seq<Slice>)
    modifies clock
    ensures clock.ran == old(clock.ran) + ran
    ensures LadderRun(p, old(clock.now), shutdown, settleGrace, product, ran, clock.now)
    ensures drained == Drained(Reported(ran, true), Reported(ran, false))
  {
    var plan := CarveTail(clock, shutdown, settleGrace);
    p := plan;
    ghost var a, b, c, d, e;
    drained, a, b := RunRequests(clock, plan);
    ran := [a, b];
    if product {
      drained, c, d := RunProduct(clock, plan, drained, p.carvedAt, ran);
      ran := ran + [c] + [d];
    }
    var ok;
    ok, e := RunStage(clock, Children, plan.deadline);
    ReportStage(drained, p.carvedAt, ran, e.from, e);
    drained, ran := Mark(drained, Children, ok), ran + [e];
  }
}
