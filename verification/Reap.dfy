/** The reap ladder: SIGTERM, a grace share of re-verified polls, SIGKILL, observed absence. */
module Reap {
  import opened Options
  import opened ProcessTable

  const POLL := 10
  const SETTLE_GRACE := 5000

  datatype Outcome = Undetermined | Absent | CrossBoot | Reused | Terminated
  {
    predicate Proven() { !Undetermined? }
  }

  /** Six tenths of what is left, in whole milliseconds, cut so that five seconds stay for SIGKILL and
      settlement. */
  function GraceShare(left: int): (grace: int)
    ensures left <= 5000 ==> grace == 0
    ensures left >= 5000 ==> 0 <= grace <= left - 5000 && 10 * grace <= 6 * left
    ensures left >= 5000 ==> grace == left - 5000 || 10 * (grace + 1) > 6 * left
  {
    var share := if left <= 0 then 0 else left * 6 / 10;
    var cut := if share < left - SETTLE_GRACE then share else left - SETTLE_GRACE;
    if cut < 0 then 0 else cut
  }

  /** Long enough between two signals with this much time left at the first: six tenths of it, or
      all but the last five seconds. */
  predicate Graceful(left: int, waited: int) {
    waited >= 0 && (left >= 5000 ==> waited >= left - 5000 || 10 * (waited + 1) > 6 * left)
  }

  /** The pin `id` was taken of instance `n` before now: the instance has kept its number and
      stamp, and whatever carries both in this boot is that instance. */
  ghost predicate Pinned(w: World, boot: nat, id: Identity, n: nat) {
    && n < w.nextSerial && id.start < w.tick
    && (id.boot != boot ==> !Live(w, id.pid, n))
    && (id.boot == boot && id.pid in w.table ==> (w.table[id.pid].start == id.start <==> w.table[id.pid].serial == n))
  }

  ghost predicate Pins(m: Machine, id: Identity, n: nat)
    reads m
  {
    Pinned(m.world, m.boot, id, n)
  }

  /** A pin stays one however the table moves, reuse of its number included. */
  lemma PinnedLater(w: World, v: World, boot: nat, id: Identity, n: nat)
    requires Pinned(w, boot, id, n) && Evolves(w, v)
    ensures Pinned(v, boot, id, n)
  {
  }

  /** The signals one ladder may have sent: none, SIGTERM, or SIGTERM and, gracefully long after it,
      SIGKILL. */
  ghost predicate Ladder(before: seq<Delivery>, after: seq<Delivery>, deadline: nat) {
    && before <= after && |after| <= |before| + 2
    && (|after| > |before| ==> after[|before|].signal.Term?)
    && (|after| == |before| + 2 ==>
          && after[|before| + 1].signal.Kill?
          && Graceful(deadline - after[|before|].at, after[|before| + 1].at - after[|before|].at))
  }

  /** Every signal since `before` reached instance `n`. */
  ghost predicate Only(before: seq<Delivery>, after: seq<Delivery>, n: nat) {
    before <= after && forall i :: |before| <= i < |after| ==> after[i].target == n
  }

  /** Ends the exact instance `n` that the pin names.  A proven outcome means that instance is not
      running on return, whatever a hold is.  Where a hold pins the instance, or the instance keeps
      its number through the call, every signal reached it or nobody, however processes exit and
      numbers are reused meanwhile; otherwise the call is one of the runs below.  Undetermined is
      returned exactly with an error. */
  method ReapIdentity(m: Machine, id: Identity, deadline: nat, ghost n: nat)
    returns (outcome: Outcome, failed: bool, ghost run: NumberRun)
    requires m.Valid() && Pins(m, id, n)
    modifies m`world, m`now, m`canceled, m`deliveries
    ensures old(m.Expired(deadline)) ==> m.Expired(deadline)
    ensures m.Valid() && Pins(m, id, n) && Evolves(old(m.world), m.world)
    ensures outcome.Proven() <==> !failed
    ensures outcome.Proven() ==> !Live(m.world, id.pid, n)
    ensures outcome.CrossBoot? <==> id.boot != m.boot
    ensures outcome.Reused? ==> id.pid in m.world.table && m.world.table[id.pid].serial != n
    ensures Ladder(old(m.deliveries), m.deliveries, deadline)
    ensures m.pidfd || n in m.world.kept ==> Only(old(m.deliveries), m.deliveries, n)
    ensures !m.pidfd ==> RunFrom(old(m.world), run) && Hit(old(m.deliveries), m.deliveries) <= Struck(id, run)
    ensures m.sound && failed ==> m.Expired(deadline) || id.pid <= 1 || id.pid == m.self
    ensures outcome.Terminated? ==> m.deliveries != old(m.deliveries)
    ensures m.sound && failed && id.pid > 1 && id.pid != m.self ==> m.deliveries != old(m.deliveries)
    ensures m.sound && m.punctual && !old(m.Expired(deadline)) && failed && id.pid > 1 && id.pid != m.self ==>
              |m.deliveries| == |old(m.deliveries)| + 2
    ensures m.sound && id.pid > 1 && id.pid != m.self && !Live(old(m.world), id.pid, n) ==> !failed && m.deliveries == old(m.deliveries)
  {
    run := Still(m.world);
    StillRuns(m.world);
    var over, handle;
    over, outcome, failed, handle := Find(m, id, n);
    if over { return; }
    ghost var probe := m.world;
    outcome, failed, run := ReapOrphan(m, id, deadline, handle, n);
    EvolvesTransitive(old(m.world), probe, m.world);
  }

  /** What comes before the first signal: unless it is over, the pinned instance was found running, and
      what was opened before the probe is a hold on it. */
  method Find(m: Machine, id: Identity, ghost n: nat) returns (over: bool, outcome: Outcome, failed: bool, handle: Option<nat>)
    requires m.Valid() && Pins(m, id, n)
    modifies m`world
    ensures m.Valid() && Pins(m, id, n) && Evolves(old(m.world), m.world)
    ensures over ==> (outcome.Proven() <==> !failed) && (outcome.Proven() ==> !Live(m.world, id.pid, n)) && !outcome.Terminated?
    ensures over && outcome.CrossBoot? <==> id.boot != m.boot
    ensures over && outcome.Reused? ==> id.pid in m.world.table && m.world.table[id.pid].serial != n
    ensures over && m.sound && failed ==> id.pid <= 1 || id.pid == m.self
    ensures !over ==> id.boot == m.boot && Live(m.world, id.pid, n) && (m.pidfd ==> handle == Some(n))
  {
    over, handle := true, None;
    EvolvesReflexive(m.world);
    if id.boot != m.boot { return true, CrossBoot, false, None; }
    if id.pid <= 1 || id.pid == m.self { return true, Undetermined, true, None; }
    failed, handle := m.Hold(id.pid);
    if failed { return true, Undetermined, true, None; }
    ghost var held := m.world;
    var probed := m.ProbePid(id.pid);
    EvolvesTransitive(old(m.world), held, m.world);
    match probed {
      case NoProc => return true, Absent, false, None;
      case ProbeError => return true, Undetermined, true, None;
      case Info(start, _, _, zombie) =>
        if start != id.start { return true, Reused, false, None; }
        if zombie { return true, Absent, false, None; }
    }
    return false, Undetermined, true, handle;
  }

  /** An instance that keeps its number has it. */
  ghost predicate Sure(w: World, pid: nat, n: nat) {
    n in w.kept ==> pid in w.table && w.table[pid].serial == n
  }

  method ReapOrphan(m: Machine, id: Identity, deadline: nat, handle: Option<nat>, ghost n: nat)
    returns (outcome: Outcome, failed: bool, ghost run: NumberRun)
    requires m.Valid() && Pins(m, id, n) && id.boot == m.boot && Live(m.world, id.pid, n)
    requires m.pidfd ==> handle == Some(n)
    modifies m`world, m`now, m`canceled, m`deliveries
    ensures old(m.Expired(deadline)) ==> m.Expired(deadline)
    ensures m.Valid() && Pins(m, id, n) && Evolves(old(m.world), m.world)
    ensures outcome.Proven() <==> !failed
    ensures outcome.Proven() ==> !Live(m.world, id.pid, n)
    ensures !outcome.CrossBoot?
    ensures outcome.Reused? ==> id.pid in m.world.table && m.world.table[id.pid].serial != n
    ensures Ladder(old(m.deliveries), m.deliveries, deadline)
    ensures m.pidfd || n in m.world.kept ==> Only(old(m.deliveries), m.deliveries, n)
    ensures !m.pidfd ==> run.probe == old(m.world) && Chained(run) && Hit(old(m.deliveries), m.deliveries) <= Struck(id, run)
    ensures m.deliveries == old(m.deliveries) ==> outcome.Absent? || (failed && !m.sound)
    ensures m.sound && m.punctual && !old(m.Expired(deadline)) && failed ==> |m.deliveries| == |old(m.deliveries)| + 2
    ensures m.sound && failed ==> m.Expired(deadline)
  {
    ghost var probe := m.world;
    var sent := m.SignalHeld(id.pid, handle, Term);
    ghost var term, calm := m.world, m.deliveries;
    run := NumberRun(probe, term, [], term);
    EvolvesReflexive(term);
    if sent.Denied? { return Undetermined, true, run; }
    if sent.NoSuchProcess? { return Absent, false, run; }
    ghost var a := term.table[id.pid].serial;
    TermLog(old(m.deliveries), calm, a, m.now);
    ghost var polls, kill;
    outcome, failed, polls, kill := Climb(m, id, deadline, handle, n);
    run := NumberRun(probe, term, polls, kill);
    EvolvesTransitive(probe, term, m.world);
    KillLog(old(m.deliveries), calm, m.deliveries, deadline, n);
    ClimbStruck(id, run, calm, m.deliveries);
  }

  lemma TermLog(before: seq<Delivery>, after: seq<Delivery>, a: nat, t: nat)
    requires after == before + [Delivery(Term, a, t)]
    ensures Hit(before, after) == [a]
  {
    var d := [Delivery(Term, a, t)];
    assert after[|before|..] == d && d[..|d| - 1] == [];
    assert Targets(d) == Targets([]) + [a];
  }

  /** What SIGTERM at `calm` and at most one SIGKILL after its grace share add up to. */
  lemma KillLog(before: seq<Delivery>, calm: seq<Delivery>, after: seq<Delivery>, deadline: nat, n: nat)
    requires before <= calm && |calm| == |before| + 1 && calm[|before|].signal.Term?
    requires after == calm || (calm <= after && |after| == |calm| + 1 && after[|calm|].signal.Kill?
                               && after[|calm|].at >= calm[|before|].at + GraceShare(deadline - calm[|before|].at))
    ensures Ladder(before, after, deadline)
    ensures Hit(before, after) == Hit(before, calm) + if after == calm then [] else [after[|calm|].target]
    ensures calm[|before|].target == n && (after != calm ==> after[|calm|].target == n) ==> Only(before, after, n)
  {
    HitMore(before, calm, after);
  }

  /** What was hit is what the run strikes, as far as it got. */
  lemma ClimbStruck(id: Identity, run: NumberRun, calm: seq<Delivery>, after: seq<Delivery>)
    requires Matches(run.probe, id) && id.pid in run.term.table
    requires after == calm || (Killed(calm, after, run.kill, id.pid) && Found(id, run.polls))
    ensures [run.term.table[id.pid].serial] + (if after == calm then [] else [after[|calm|].target]) <= Struck(id, run)
  {
  }

  /** The rest of the ladder once SIGTERM was delivered. */
  method Climb(m: Machine, id: Identity, deadline: nat, handle: Option<nat>, ghost n: nat)
    returns (outcome: Outcome, failed: bool, ghost polls: seq<World>, ghost kill: World)
    requires m.Valid() && Pins(m, id, n) && id.boot == m.boot && Sure(m.world, id.pid, n)
    requires m.pidfd ==> handle == Some(n)
    modifies m`world, m`now, m`canceled, m`deliveries
    ensures old(m.Expired(deadline)) ==> m.Expired(deadline)
    ensures m.Valid() && Pins(m, id, n) && Evolves(old(m.world), m.world)
    ensures Chain(old(m.world), polls) && Evolves(Last(old(m.world), polls), kill)
    ensures outcome.Proven() <==> !failed
    ensures outcome.Proven() ==> !Live(m.world, id.pid, n)
    ensures !outcome.CrossBoot?
    ensures outcome.Reused? ==> id.pid in m.world.table && m.world.table[id.pid].serial != n
    ensures m.deliveries == old(m.deliveries) || Killed(old(m.deliveries), m.deliveries, kill, id.pid)
    ensures m.deliveries != old(m.deliveries) ==>
              && Found(id, polls) && (m.pidfd || n in m.world.kept ==> kill.table[id.pid].serial == n)
              && m.deliveries[|old(m.deliveries)|].at >= old(m.now) + GraceShare(deadline - old(m.now))
    ensures m.sound && m.punctual && !old(m.Expired(deadline)) && failed ==> m.deliveries != old(m.deliveries)
    ensures m.sound && failed ==> m.Expired(deadline)
  {
    var over;
    outcome, failed, over, polls := AwaitGrace(m, id, deadline, n);
    kill := m.world;
    if over { return; }
    ghost var waited := m.world;
    outcome, failed, kill := Finish(m, id, deadline, handle, n);
    EvolvesTransitive(old(m.world), waited, m.world);
    EvolvesTransitive(Last(old(m.world), polls), waited, kill);
  }

  /** One SIGKILL was added, to what the number named in `kill`. */
  ghost predicate Killed(before: seq<Delivery>, after: seq<Delivery>, kill: World, pid: nat) {
    && pid in kill.table && before <= after && |after| == |before| + 1
    && after[|before|].signal.Kill? && after[|before|].target == kill.table[pid].serial
  }

  /** SIGKILL and observed absence. */
  method Finish(m: Machine, id: Identity, deadline: nat, handle: Option<nat>, ghost n: nat)
    returns (outcome: Outcome, failed: bool, ghost kill: World)
    requires m.Valid() && Pins(m, id, n) && id.boot == m.boot && Sure(m.world, id.pid, n)
    requires m.pidfd ==> handle == Some(n)
    modifies m`world, m`now, m`canceled, m`deliveries
    ensures old(m.Expired(deadline)) ==> m.Expired(deadline)
    ensures m.Valid() && Pins(m, id, n) && Evolves(old(m.world), m.world) && Evolves(old(m.world), kill)
    ensures outcome.Proven() <==> !failed
    ensures outcome.Proven() ==> !Live(m.world, id.pid, n)
    ensures !outcome.CrossBoot? && !outcome.Reused?
    ensures m.deliveries == old(m.deliveries) ||
            (id.pid in kill.table && m.deliveries == old(m.deliveries) + [Delivery(Kill, kill.table[id.pid].serial, old(m.now))]
             && (m.pidfd || n in m.world.kept ==> kill.table[id.pid].serial == n))
    ensures m.sound && failed ==> m.deliveries != old(m.deliveries)
    ensures m.sound && failed ==> m.Expired(deadline)
  {
    var sent := m.SignalHeld(id.pid, handle, Kill);
    kill := m.world;
    if sent.Denied? { return Undetermined, true, kill; }
    if sent.NoSuchProcess? { return Terminated, false, kill; }
    outcome, failed := AwaitSettlement(m, id, deadline, n);
    EvolvesTransitive(old(m.world), kill, m.world);
  }

  /** Waits `d` and probes.  `matched` says the pinned start time was found on a live process. */
  method Poll(m: Machine, id: Identity, d: int, deadline: nat, ghost n: nat)
    returns (outcome: Outcome, failed: bool, matched: bool)
    requires m.Valid() && Pins(m, id, n) && id.boot == m.boot
    modifies m`world, m`now, m`canceled
    ensures old(m.Expired(deadline)) ==> m.Expired(deadline)
    ensures m.Valid() && Pins(m, id, n) && Evolves(old(m.world), m.world)
    ensures m.now >= old(m.now) && m.now >= old(m.now) + d
    ensures matched ==> Matches(m.world, id)
    ensures !matched ==> (outcome.Proven() <==> !failed) && (outcome.Proven() ==> !Live(m.world, id.pid, n))
    ensures !outcome.CrossBoot?
    ensures outcome.Reused? ==> id.pid in m.world.table && m.world.table[id.pid].serial != n
    ensures m.punctual ==> m.now == old(m.now) + (if d > 0 then d else 0) && m.canceled == old(m.canceled)
    ensures m.sound && !matched && failed ==> m.Expired(deadline)
  {
    m.After(d);
    ghost var waited := m.world;
    var ended: bool := *;
    if ended && m.Expired(deadline) { return Undetermined, true, false; }
    var probed := m.ProbePid(id.pid);
    EvolvesTransitive(old(m.world), waited, m.world);
    match probed {
      case NoProc => return Terminated, false, false;
      case ProbeError => return Undetermined, true, false;
      case Info(start, _, _, zombie) =>
        if start != id.start { return Reused, false, false; }
        if zombie { return Terminated, false, false; }
    }
    return Undetermined, true, true;
  }

  /** One poll, added to those before it if it matched. */
  method PollOnce(m: Machine, id: Identity, d: int, deadline: nat, ghost n: nat, ghost start: World, ghost had: seq<World>)
    returns (outcome: Outcome, failed: bool, matched: bool, ghost polls: seq<World>)
    requires m.Valid() && Pins(m, id, n) && id.boot == m.boot
    requires Chain(start, had) && Last(start, had) == m.world && Found(id, had)
    modifies m`world, m`now, m`canceled
    ensures old(m.Expired(deadline)) ==> m.Expired(deadline)
    ensures m.Valid() && Pins(m, id, n) && Evolves(start, m.world)
    ensures m.now >= old(m.now) && m.now >= old(m.now) + d
    ensures !outcome.CrossBoot?
    ensures outcome.Reused? ==> id.pid in m.world.table && m.world.table[id.pid].serial != n
    ensures m.punctual ==> m.now == old(m.now) + (if d > 0 then d else 0) && m.canceled == old(m.canceled)
    ensures Chain(start, polls) && Evolves(Last(start, polls), m.world) && Found(id, polls)
    ensures matched ==> Last(start, polls) == m.world
    ensures !matched ==> (outcome.Proven() <==> !failed) && (outcome.Proven() ==> !Live(m.world, id.pid, n))
    ensures m.sound && !matched && failed ==> m.Expired(deadline)
  {
    polls := had;
    ghost var was := m.world;
    outcome, failed, matched := Poll(m, id, d, deadline, n);
    ChainEvolves(start, polls);
    EvolvesTransitive(start, was, m.world);
    if matched {
      ChainMore(start, polls, m.world);
      polls := polls + [m.world];
      EvolvesReflexive(m.world);
    }
  }

  /** Polls through the grace share.  Unless it is over before, every poll found the instance. */
  method AwaitGrace(m: Machine, id: Identity, deadline: nat, ghost n: nat)
    returns (outcome: Outcome, failed: bool, over: bool, ghost polls: seq<World>)
    requires m.Valid() && Pins(m, id, n) && id.boot == m.boot && Sure(m.world, id.pid, n)
    modifies m`world, m`now, m`canceled
    ensures old(m.Expired(deadline)) ==> m.Expired(deadline)
    ensures m.Valid() && Pins(m, id, n) && Evolves(old(m.world), m.world) && Sure(m.world, id.pid, n)
    ensures Chain(old(m.world), polls) && Evolves(Last(old(m.world), polls), m.world)
    ensures over ==> (outcome.Proven() <==> !failed) && (outcome.Proven() ==> !Live(m.world, id.pid, n))
    ensures !over ==> Found(id, polls) && m.now >= old(m.now) + GraceShare(deadline - old(m.now))
    ensures !outcome.CrossBoot?
    ensures outcome.Reused? ==> id.pid in m.world.table && m.world.table[id.pid].serial != n
    ensures m.sound && m.punctual && !old(m.Expired(deadline)) ==> !(over && failed) && !m.Expired(deadline)
    ensures m.sound && over && failed ==> m.Expired(deadline)
  {
    var grace := m.now + GraceShare(deadline - m.now);
    polls := [];
    EvolvesReflexive(m.world);
    while true
      invariant m.Valid() && Pins(m, id, n)
      invariant Chain(old(m.world), polls) && Last(old(m.world), polls) == m.world && Found(id, polls)
      invariant m.punctual ==> m.now <= grace && m.canceled == old(m.canceled)
      invariant old(m.Expired(deadline)) ==> m.Expired(deadline)
      decreases grace - m.now
    {
      var matched;
      outcome, failed, matched, polls := PollOnce(m, id, if POLL < grace - m.now then POLL else grace - m.now, deadline, n, old(m.world), polls);
      if !matched {
        SureLater(old(m.world), m.world, id.pid, n);
        return outcome, failed, true, polls;
      }
      if m.now >= grace { break; }
    }
    ChainEvolves(old(m.world), polls);
    SureLater(old(m.world), m.world, id.pid, n);
    EvolvesReflexive(m.world);
    over := false;
  }

  method AwaitSettlement(m: Machine, id: Identity, deadline: nat, ghost n: nat)
    returns (outcome: Outcome, failed: bool)
    requires m.Valid() && Pins(m, id, n) && id.boot == m.boot
    modifies m`world, m`now, m`canceled
    ensures old(m.Expired(deadline)) ==> m.Expired(deadline)
    ensures m.Valid() && Pins(m, id, n) && Evolves(old(m.world), m.world)
    ensures outcome.Proven() <==> !failed
    ensures outcome.Proven() ==> !Live(m.world, id.pid, n)
    ensures outcome.Terminated? || outcome.Undetermined?
    ensures m.sound && failed ==> m.Expired(deadline)
  {
    EvolvesReflexive(m.world);
    while true
      invariant m.Valid() && Pins(m, id, n) && Evolves(old(m.world), m.world)
      invariant old(m.Expired(deadline)) ==> m.Expired(deadline)
      decreases if m.Expired(deadline) then 0 else 1 + deadline - m.now
    {
      ghost var was := m.world;
      var probed := m.ProbePid(id.pid);
      EvolvesTransitive(old(m.world), was, m.world);
      match probed {
        case NoProc => return Terminated, false;
        case ProbeError => return Undetermined, true;
        case Info(start, _, _, zombie) =>
          if start != id.start || zombie { return Terminated, false; }
      }
      if m.Expired(deadline) { return Undetermined, true; }
      was := m.world;
      m.After(POLL);
      EvolvesTransitive(old(m.world), was, m.world);
    }
  }

  // ----- Where a hold is only the number -----

  /** The tables a ladder over a bare number looks at: at its probe, at SIGTERM, at each poll of the
      grace share, and at SIGKILL. */
  datatype NumberRun = NumberRun(probe: World, term: World, polls: seq<World>, kill: World)

  ghost function Last(w: World, ws: seq<World>): World { if ws == [] then w else ws[|ws| - 1] }

  /** Each table evolves from the one before it. */
  ghost predicate Chain(w: World, ws: seq<World>)
    decreases |ws|
  {
    ws == [] || (Chain(w, ws[..|ws| - 1]) && Evolves(Last(w, ws[..|ws| - 1]), ws[|ws| - 1]))
  }

  lemma {:induction false} ChainEvolves(w: World, ws: seq<World>)
    requires Chain(w, ws)
    ensures Evolves(w, Last(w, ws))
    decreases |ws|
  {
    if ws == [] {
      EvolvesReflexive(w);
    } else {
      ChainEvolves(w, ws[..|ws| - 1]);
      EvolvesTransitive(w, Last(w, ws[..|ws| - 1]), ws[|ws| - 1]);
    }
  }

  lemma SureLater(w: World, v: World, pid: nat, n: nat)
    requires Evolves(w, v) && Sure(w, pid, n)
    ensures Sure(v, pid, n)
  {
  }

  lemma ChainMore(w: World, ws: seq<World>, v: World)
    requires Chain(w, ws) && Evolves(Last(w, ws), v)
    ensures Chain(w, ws + [v])
  {
    assert (ws + [v])[..|ws|] == ws;
  }

  ghost predicate Chained(run: NumberRun) {
    Evolves(run.probe, run.term) && Chain(run.term, run.polls) && Evolves(Last(run.term, run.polls), run.kill)
  }

  ghost predicate RunFrom(w: World, run: NumberRun) {
    Evolves(w, run.probe) && Chained(run)
  }

  /** The run of a ladder that is over before it began. */
  ghost function Still(w: World): NumberRun { NumberRun(w, w, [], w) }

  lemma StillRuns(w: World)
    ensures RunFrom(w, Still(w))
  {
    EvolvesReflexive(w);
  }

  /** A probe of the number finds the pinned start time on a live process. */
  predicate Matches(w: World, id: Identity) {
    id.pid in w.table && w.table[id.pid].start == id.start && !w.table[id.pid].zombie
  }

  predicate Found(id: Identity, polls: seq<World>) {
    forall i :: 0 <= i < |polls| ==> Matches(polls[i], id)
  }

  /** Whom a signal to the number reaches. */
  function Named(w: World, pid: nat): seq<nat> { if pid in w.table then [w.table[pid].serial] else [] }

  /** Whom the ladder's signals reach if nothing but the table stops it: SIGTERM after a match, and
      SIGKILL if SIGTERM reached somebody and every poll matched. */
  function Struck(id: Identity, run: NumberRun): seq<nat> {
    if !Matches(run.probe, id) then []
    else if id.pid !in run.term.table || !Found(id, run.polls) then Named(run.term, id.pid)
    else Named(run.term, id.pid) + Named(run.kill, id.pid)
  }

  function Targets(ds: seq<Delivery>): seq<nat> {
    if ds == [] then [] else Targets(ds[..|ds| - 1]) + [ds[|ds| - 1].target]
  }

  /** The instances signalled since `before`, in order. */
  ghost function Hit(before: seq<Delivery>, after: seq<Delivery>): seq<nat>
    requires before <= after
  {
    Targets(after[|before|..])
  }

  lemma HitMore(a: seq<Delivery>, b: seq<Delivery>, c: seq<Delivery>)
    requires a <= b <= c && |c| <= |b| + 1
    ensures Hit(a, c) == Hit(a, b) + if c == b then [] else [c[|b|].target]
  {
    if c != b { assert c[|a|..][..|c| - |a| - 1] == b[|a|..]; }
  }

  lemma HitJoin(a: seq<Delivery>, b: seq<Delivery>, c: seq<Delivery>)
    requires a <= b <= c && |c| <= |b| + 1
    ensures Hit(a, c) == Hit(a, b) + Hit(b, c)
  {
    HitMore(a, b, c);
    HitMore(b, b, c);
  }

  /** An instance that keeps its number is what the number names, however the table moves. */
  lemma KeptIsNamed(w: World, v: World, pid: nat, n: nat)
    requires Evolves(w, v) && n in w.kept && pid in w.table && w.table[pid].serial == n
    ensures n in v.kept && pid in v.table && v.table[pid].serial == n
  {
  }

  lemma {:induction false} ChainKeeps(w: World, ws: seq<World>, pid: nat, n: nat)
    requires Chain(w, ws) && n in w.kept && pid in w.table && w.table[pid].serial == n
    ensures var v := Last(w, ws); n in v.kept && pid in v.table && v.table[pid].serial == n
    decreases |ws|
  {
    if ws != [] {
      ChainKeeps(w, ws[..|ws| - 1], pid, n);
      KeptIsNamed(Last(w, ws[..|ws| - 1]), ws[|ws| - 1], pid, n);
    }
  }

  lemma KeptStruck(w: World, id: Identity, n: nat, run: NumberRun)
    requires RunFrom(w, run) && n in w.kept && Live(w, id.pid, n)
    ensures forall t :: t in Struck(id, run) ==> t == n
  {
    KeptIsNamed(w, run.probe, id.pid, n);
    KeptIsNamed(run.probe, run.term, id.pid, n);
    ChainKeeps(run.term, run.polls, id.pid, n);
    KeptIsNamed(Last(run.term, run.polls), run.kill, id.pid, n);
  }

  /** The run in which the number passes to a stranger between the probe that matched and SIGTERM. */
  function Stranger(w: World, pid: nat): NumberRun {
    var v := w.(table := w.table[pid := Proc(w.nextSerial, w.tick, pid, pid, false)], nextSerial := w.nextSerial + 1);
    NumberRun(w, v, [v], v)
  }

  lemma StrangerIsHit(w: World, boot: nat, id: Identity, n: nat)
    requires WorldOk(w) && Pinned(w, boot, id, n) && id.boot == boot && Live(w, id.pid, n) && n !in w.kept
    ensures RunFrom(w, Stranger(w, id.pid)) && Struck(id, Stranger(w, id.pid)) == [w.nextSerial] && w.nextSerial != n
  {
    var v := Stranger(w, id.pid).term;
    EvolvesReflexive(w);
    assert Evolves(w, v);
    EvolvesReflexive(v);
    assert [v][..0] == [];
    assert Chain(v, [v][..0]);
    assert !Matches([v][0], id);
  }

  /** Signals by number reach the pinned instance or nobody in every run exactly when the instance
      is not running when the call begins or keeps its number through it, which only its parent
      decides. */
  lemma NumberHoldsExactly(w: World, boot: nat, id: Identity, n: nat)
    requires WorldOk(w) && Pinned(w, boot, id, n) && id.boot == boot
    ensures (forall run :: RunFrom(w, run) ==> forall t :: t in Struck(id, run) ==> t == n)
            <==> n in w.kept || !Live(w, id.pid, n)
  {
    if !Live(w, id.pid, n) {
      forall run | RunFrom(w, run) ensures Struck(id, run) == [] {
        PinnedLater(w, run.probe, boot, id, n);
        DeadStaysDead(w, run.probe, id.pid, n);
      }
    } else if n in w.kept {
      forall run | RunFrom(w, run) ensures forall t :: t in Struck(id, run) ==> t == n { KeptStruck(w, id, n, run); }
    } else {
      StrangerIsHit(w, boot, id, n);
      assert w.nextSerial in Struck(id, Stranger(w, id.pid));
    }
  }

  /** The tables the driver's own ladder over its child's number looks at: when no exit was ready, at
      SIGTERM, and at SIGKILL. */
  datatype ChildRun = ChildRun(check: World, term: World, kill: World)

  ghost predicate ChildRunFrom(w: World, run: ChildRun) {
    Evolves(w, run.check) && Evolves(run.check, run.term) && Evolves(run.term, run.kill)
  }

  predicate Unreaped(w: World, pid: nat, n: nat) { pid in w.table && w.table[pid].serial == n }

  function ChildStruck(pid: nat, n: nat, run: ChildRun): seq<nat> {
    if Unreaped(run.check, pid, n) then Named(run.term, pid) + Named(run.kill, pid) else []
  }

  lemma ReapedStaysReaped(w: World, v: World, pid: nat, n: nat)
    requires Evolves(w, v) && n < w.nextSerial && !Unreaped(w, pid, n)
    ensures !Unreaped(v, pid, n)
  {
  }

  lemma KeptChildStruck(w: World, pid: nat, n: nat, run: ChildRun)
    requires ChildRunFrom(w, run) && n in w.kept && Unreaped(w, pid, n)
    ensures forall t :: t in ChildStruck(pid, n, run) ==> t == n
  {
    KeptIsNamed(w, run.check, pid, n);
    KeptIsNamed(run.check, run.term, pid, n);
    KeptIsNamed(run.term, run.kill, pid, n);
  }

  /** The run in which the wait returns, and the number passes on, between the look for an exit and
      SIGTERM. */
  function ChildStranger(w: World, pid: nat): ChildRun {
    var v := Stranger(w, pid).term;
    ChildRun(w, v, v)
  }

  /** The driver's signals by number reach its child or nobody in every run exactly when the child
      was reaped before or stays unreaped through the ladder; the look for a ready exit before
      the first signal does not decide that. */
  lemma ChildSignalsExactly(w: World, pid: nat, n: nat)
    requires WorldOk(w) && n < w.nextSerial
    ensures (forall run :: ChildRunFrom(w, run) ==> forall t :: t in ChildStruck(pid, n, run) ==> t == n)
            <==> n in w.kept || !Unreaped(w, pid, n)
  {
    if !Unreaped(w, pid, n) {
      forall run | ChildRunFrom(w, run) ensures ChildStruck(pid, n, run) == [] {
        ReapedStaysReaped(w, run.check, pid, n);
      }
    } else if n in w.kept {
      forall run | ChildRunFrom(w, run) ensures forall t :: t in ChildStruck(pid, n, run) ==> t == n {
        KeptChildStruck(w, pid, n, run);
      }
    } else {
      var run := ChildStranger(w, pid);
      EvolvesReflexive(w);
      EvolvesReflexive(run.term);
      assert Evolves(w, run.term);
      assert w.nextSerial in ChildStruck(pid, n, run);
    }
  }

  // ----- Observation without signals -----

  /** Classifies one probe.  `settled` is an absence proof; neither it nor an error means the exact
      instance was running when it was probed. */
  method Observe(m: Machine, id: Identity, ghost n: nat) returns (reap: Outcome, settled: bool, failed: bool)
    requires m.Valid() && Pins(m, id, n)
    modifies m`world
    ensures m.Valid() && Pins(m, id, n) && Evolves(old(m.world), m.world)
    ensures settled ==> !failed && reap.Proven() && !Live(m.world, id.pid, n)
    ensures !settled ==> !reap.Proven()
    ensures reap.CrossBoot? <==> id.boot != m.boot
    ensures !settled && !failed ==> Live(m.world, id.pid, n)
    ensures m.sound ==> !failed
  {
    if id.boot != m.boot { return CrossBoot, true, false; }
    var probed := m.ProbePid(id.pid);
    match probed {
      case NoProc => return Absent, true, false;
      case ProbeError => return Undetermined, false, true;
      case Info(start, _, _, zombie) =>
        if start != id.start { return Reused, true, false; }
        if zombie { return Absent, true, false; }
    }
    return Undetermined, false, false;
  }

  /** Instances that were live members of the session in world `at` and are none of `pids`. */
  ghost predicate Emptied(at: World, now: World, session: nat, pids: set<nat>) {
    forall p: nat, n: nat :: Member(at, session, p, n) && p !in pids ==> !Member(now, session, p, n)
  }

  lemma EmptiedLater(at: World, w: World, v: World, session: nat, pids: set<nat>)
    requires WorldOk(at) && Evolves(at, w) && Evolves(w, v) && Emptied(at, w, session, pids)
    ensures Emptied(at, v, session, pids)
  {
    forall p: nat, n: nat | Member(at, session, p, n) && p !in pids ensures !Member(v, session, p, n) {
      LeftStaysGone(at, w, v, session, p, n);
    }
  }

  ghost function Numbers(ids: set<Identity>): set<nat> { set i | i in ids :: i.pid }

  lemma NumbersAdd(ids: set<Identity>, id: Identity)
    ensures Numbers(ids + {id}) == Numbers(ids) + {id.pid}
  {
  }

  lemma EmptiedMore(at: World, now: World, session: nat, few: set<nat>, many: set<nat>)
    requires Emptied(at, now, session, few) && few <= many
    ensures Emptied(at, now, session, many)
  {
  }

  /** This instance is running, in this session. */
  predicate Seated(w: World, session: nat, i: Identity) {
    i.pid in w.table && w.table[i.pid].start == i.start && w.table[i.pid].session == session && !w.table[i.pid].zombie
  }

  /** It was at some moment between `start` and now. */
  ghost predicate Spotted(start: World, now: World, session: nat, i: Identity) {
    exists v: World :: Evolves(start, v) && Evolves(v, now) && WorldOk(v) && Seated(v, session, i)
  }

  lemma SpottedOne(start: World, mid: World, w: World, v: World, session: nat, i: Identity)
    requires Evolves(start, mid) && Evolves(w, v) && Spotted(mid, w, session, i)
    ensures Spotted(start, v, session, i)
  {
    var u: World :| Evolves(mid, u) && Evolves(u, w) && WorldOk(u) && Seated(u, session, i);
    EvolvesTransitive(start, mid, u);
    EvolvesTransitive(u, w, v);
  }

  /** What was spotted stays so, told from earlier on and until later. */
  lemma SpottedLater(start: World, mid: World, w: World, v: World, session: nat, ids: set<Identity>)
    requires Evolves(start, mid) && Evolves(w, v) && forall i :: i in ids ==> Spotted(mid, w, session, i)
    ensures forall i :: i in ids ==> Spotted(start, v, session, i)
  {
    forall i | i in ids ensures Spotted(start, v, session, i) { SpottedOne(start, mid, w, v, session, i); }
  }

  /** A running member of the session was in no group of its own at some moment between `start` and
      now: the group was 0 or the first process's. */
  ghost predicate Odd(start: World, now: World, session: nat) {
    exists v: World, p: nat ::
      && Evolves(start, v) && Evolves(v, now) && WorldOk(v) && p in v.table && v.table[p].session == session
      && v.table[p].group <= 1 && !v.table[p].zombie
  }

  lemma OddLater(start: World, mid: World, w: World, v: World, session: nat)
    requires Evolves(start, mid) && Evolves(w, v)
    ensures Odd(mid, w, session) ==> Odd(start, v, session)
  {
    if Odd(mid, w, session) {
      var u: World, p: nat :|
        && Evolves(mid, u) && Evolves(u, w) && WorldOk(u) && p in u.table && u.table[p].session == session
        && u.table[p].group <= 1 && !u.table[p].zombie;
      EvolvesTransitive(start, mid, u);
      EvolvesTransitive(u, w, v);
    }
  }

  /** One of the groups these members were found in is 0 or 1. */
  predicate OddGroup(members: map<Identity, nat>) { exists i :: i in members && members[i] <= 1 }

  /** Re-probes every enumerated member, and returns each that is found as it was enumerated with the
      group it is in.  What it does not return had left the session or died: no instance that was a
      live member when the session was enumerated is one still. */
  method VerifiedMembers(m: Machine, session: nat, deadline: nat)
    returns (failed: bool, stable: map<Identity, nat>, ghost at: World)
    requires m.Valid()
    modifies m`world
    ensures m.Valid() && Evolves(old(m.world), at) && Evolves(at, m.world) && WorldOk(at)
    ensures !failed ==> Emptied(at, m.world, session, Numbers(stable.Keys))
    ensures forall i :: i in stable ==> Spotted(at, m.world, session, i)
    ensures OddGroup(stable) ==> Odd(at, m.world, session)
    ensures m.sound && failed ==> m.Expired(deadline)
  {
    stable := map[];
    at := m.world;
    if m.Expired(deadline) { return true, stable, at; }
    var members;
    failed, members, at := m.GroupMembers(session);
    if failed { return; }
    var starts := map p | p in members :: m.world.table[p].start;
    var rest: set<nat> := members;
    assert Numbers(stable.Keys) + rest == members;
    EvolvesReflexive(at);
    while rest != {}
      invariant rest <= members && starts.Keys == members
      invariant m.Valid() && Sifted(at, m.world, session, stable, rest)
      invariant forall p :: p in members ==> p in at.table && starts[p] == at.table[p].start
    {
      var p: nat :| p in rest;
      if m.Expired(deadline) { return true, stable, at; }
      failed, stable := Sift(m, session, p, starts[p], stable, at, rest);
      if failed { return; }
      rest := rest - {p};
    }
    failed := false;
    assert Numbers(stable.Keys) + {} == Numbers(stable.Keys);
  }

  /** Of the members enumerated at `at` those in `stable` were found again, with their groups, and those
      in `rest` are still to be looked for; whoever else there was has gone. */
  ghost predicate Sifted(at: World, now: World, session: nat, stable: map<Identity, nat>, rest: set<nat>) {
    && Evolves(at, now) && WorldOk(at) && Emptied(at, now, session, Numbers(stable.Keys) + rest)
    && (forall i :: i in stable.Keys ==> Spotted(at, now, session, i))
    && (OddGroup(stable) ==> Odd(at, now, session))
  }

  method Sift(m: Machine, session: nat, p: nat, start: nat, had: map<Identity, nat>, ghost at: World, ghost rest: set<nat>)
    returns (failed: bool, stable: map<Identity, nat>)
    requires m.Valid() && Sifted(at, m.world, session, had, rest) && p in rest && p in at.table && at.table[p].start == start
    modifies m`world
    ensures m.Valid() && Sifted(at, m.world, session, stable, if failed then rest else rest - {p})
    ensures m.sound ==> !failed
  {
    stable := had;
    var gone, group;
    failed, gone, group := Recheck(m, session, p, start, at, Numbers(stable.Keys) + rest, stable.Keys);
    if failed { return; }
    if gone {
      EmptiedMore(at, m.world, session, Numbers(stable.Keys) + rest - {p}, Numbers(stable.Keys) + (rest - {p}));
    } else {
      var id := Identity(p, start, m.boot);
      EvolvesReflexive(m.world);
      assert Spotted(at, m.world, session, id);
      SiftedMore(at, m.world, session, stable, rest, id, group);
      stable := stable[id := group];
    }
  }

  lemma SiftedMore(at: World, now: World, session: nat, had: map<Identity, nat>, rest: set<nat>, id: Identity, group: nat)
    requires Evolves(at, now) && WorldOk(at) && Emptied(at, now, session, Numbers(had.Keys) + rest)
    requires (forall i :: i in had.Keys ==> Spotted(at, now, session, i)) && Spotted(at, now, session, id)
    requires OddGroup(had) || group <= 1 ==> Odd(at, now, session)
    ensures Sifted(at, now, session, had[id := group], rest - {id.pid})
  {
    OddMore(had, id, group);
    EmptiedKept(at, now, session, had, rest, id, group);
  }

  lemma OddMore(had: map<Identity, nat>, id: Identity, group: nat)
    ensures OddGroup(had[id := group]) ==> OddGroup(had) || group <= 1
  {
  }

  lemma EmptiedKept(at: World, now: World, session: nat, had: map<Identity, nat>, rest: set<nat>, id: Identity, group: nat)
    requires Emptied(at, now, session, Numbers(had.Keys) + rest)
    ensures had[id := group].Keys == had.Keys + {id}
    ensures Emptied(at, now, session, Numbers(had[id := group].Keys) + (rest - {id.pid}))
  {
    assert had[id := group].Keys == had.Keys + {id};
    NumbersAdd(had.Keys, id);
    EmptiedMore(at, now, session, Numbers(had.Keys) + rest, Numbers(had[id := group].Keys) + (rest - {id.pid}));
  }

  /** Probes one enumerated number again: unless it is found as it was enumerated, whoever had it in
      the session then is not in it still. */
  method Recheck(m: Machine, session: nat, p: nat, start: nat, ghost at: World, ghost left: set<nat>, ghost ids: set<Identity>)
    returns (failed: bool, gone: bool, group: nat)
    requires m.Valid() && WorldOk(at) && Evolves(at, m.world) && p in at.table && at.table[p].start == start
    requires Emptied(at, m.world, session, left) && forall i :: i in ids ==> Spotted(at, m.world, session, i)
    modifies m`world
    ensures m.Valid() && Evolves(at, m.world) && forall i :: i in ids ==> Spotted(at, m.world, session, i)
    ensures Odd(at, old(m.world), session) ==> Odd(at, m.world, session)
    ensures !failed && !gone && group <= 1 ==> Odd(at, m.world, session)
    ensures Emptied(at, m.world, session, if gone then left - {p} else left)
    ensures !failed && !gone ==> Seated(m.world, session, Identity(p, start, m.boot)) && m.world.table[p].group == group
    ensures m.sound ==> !failed
  {
    ghost var before := m.world;
    var probed := m.ProbePid(p);
    EvolvesTransitive(at, before, m.world);
    EmptiedLater(at, before, m.world, session, left);
    EvolvesReflexive(at);
    SpottedLater(at, at, before, m.world, session, ids);
    OddLater(at, at, before, m.world, session);
    EvolvesReflexive(m.world);
    failed := probed.ProbeError?;
    gone := !failed && !(probed.Info? && probed.start == start && probed.session == session && !probed.zombie);
    group := if probed.Info? then probed.group else 0;
  }

  // ----- What an empty result means -----

  ghost predicate Inhabited(w: World, session: nat) {
    exists p: nat, n: nat :: Member(w, session, p, n)
  }

  /** Nobody enters the session but by being forked in it: if it has a live member that was not one
      at `w`, it had a live member at `w`. */
  ghost predicate ForkedOnly(w: World, v: World, session: nat) {
    (exists p: nat, n: nat :: Member(v, session, p, n) && !Member(w, session, p, n)) ==> Inhabited(w, session)
  }

  /** The number after all that are in use. */
  lemma FreshNumber(table: map<nat, Proc>) returns (p: nat)
    ensures p !in table && p != 0
  {
    p := 1;
    var rest := table.Keys;
    while rest != {}
      invariant p > 0 && forall q: nat :: q in table && q !in rest ==> q < p
    {
      var q: nat :| q in rest;
      rest := rest - {q};
      if q >= p { p := q + 1; }
    }
  }

  /** Every live member of the session dies, leaving a child that it forked. */
  ghost function Orphaned(w: World, session: nat, p: nat): World {
    w.(table := (map q | q in w.table ::
                   if w.table[q].session == session then w.table[q].(zombie := true) else w.table[q])
                [p := Proc(w.nextSerial, w.tick, session, session, false)],
       nextSerial := w.nextSerial + 1)
  }

  /** That everything enumerated is gone means that the session is empty, whatever the table did
      meanwhile, exactly when nobody live was in it as it was enumerated: a member that forks and
      dies before it is probed again leaves its child behind. */
  lemma EmptyMeansEmpty(at: World, session: nat)
    requires WorldOk(at)
    ensures (forall v :: Evolves(at, v) && ForkedOnly(at, v, session) && Emptied(at, v, session, {}) ==> !Inhabited(v, session))
            <==> !Inhabited(at, session)
  {
    if Inhabited(at, session) {
      var p := FreshNumber(at.table);
      var v := Orphaned(at, session, p);
      assert Evolves(at, v);
      assert forall q: nat, n: nat :: Member(at, session, q, n) ==> !Member(v, session, q, n);
      assert Emptied(at, v, session, {});
      assert Member(v, session, p, at.nextSerial);
      assert Inhabited(v, session);
    } else {
      forall v | Evolves(at, v) && ForkedOnly(at, v, session) && Emptied(at, v, session, {}) ensures !Inhabited(v, session) {
        assert forall p: nat, n: nat :: !Member(at, session, p, n);
      }
    }
  }

  /** `members` are the instances found live; the leader itself is among them when it is live. */
  datatype Scope = Scope(id: Identity, session: nat, members: set<Identity>, reap: Outcome, excluded: bool, uncertain: bool)
  {
    /** Certain, and without any live member but an excluded leader, the exact instance. */
    predicate Complete() {
      !uncertain && (members == {} || (excluded && members == {id})) && (reap.Proven() || excluded)
    }
  }

  /** The session was enumerated at `at`, after `start`, and since then only instances with the
      given numbers have stayed in it. */
  ghost predicate Enumerated(start: World, at: World, now: World, session: nat, left: set<nat>) {
    Evolves(start, at) && WorldOk(at) && Evolves(at, now) && Emptied(at, now, session, left)
  }

  /** One scope observation.  What it does not list has left the session or died since it was
      enumerated, and a proven reap means the leader is gone and nothing is listed. */
  method ObserveScope(m: Machine, id: Identity, session: nat, deadline: nat, ghost n: nat)
    returns (scope: Scope, failed: bool, ghost at: World)
    requires m.Valid() && Pins(m, id, n)
    modifies m`world
    ensures m.Valid() && Pins(m, id, n) && Evolves(old(m.world), m.world)
    ensures scope.uncertain == failed && !scope.excluded && scope.id == id && Evolves(old(m.world), at)
    ensures scope.reap.Proven() ==> !failed && scope.members == {} && !Live(m.world, id.pid, n)
    ensures !failed && session != 0 && id.boot == m.boot ==>
              Enumerated(old(m.world), at, m.world, session, Numbers(scope.members))
    ensures m.sound && failed ==> m.Expired(deadline) || (session != 0 && (session <= 1 || session != id.pid))
    ensures forall i :: i in scope.members ==>
              Spotted(old(m.world), m.world, session, i) || (i == id && Live(old(m.world), id.pid, n))
    ensures !failed && scope.members == {} ==> scope.reap.Proven()
  {
    scope := Scope(id, session, {}, Undetermined, false, true);
    failed := true;
    at := m.world;
    EvolvesReflexive(at);
    if m.Expired(deadline) { return; }
    var reap, settled, probeFailed := Observe(m, id, n);
    if probeFailed { return; }
    ghost var observed := m.world;
    var members: set<Identity> := if settled then {} else {id};
    if session != 0 && reap != CrossBoot {
      if session <= 1 || session != id.pid { return; }
      var enumFailed, stable;
      enumFailed, stable, at := VerifiedMembers(m, session, deadline);
      EvolvesTransitive(old(m.world), observed, at);
      EvolvesTransitive(observed, at, m.world);
      EvolvesTransitive(old(m.world), observed, m.world);
      DeadStaysDeadIf(observed, m.world, id.pid, n);
      if enumFailed { return; }
      EvolvesReflexive(m.world);
      SpottedLater(old(m.world), at, m.world, m.world, session, stable.Keys);
      EmptiedMore(at, m.world, session, Numbers(stable.Keys), Numbers(members + stable.Keys));
      members := members + stable.Keys;
    }
    if m.Expired(deadline) { return; }
    scope := Scope(id, session, members, if members == {} then reap else Undetermined, false, false);
    failed := false;
  }

  lemma DeadStaysDeadIf(w: World, v: World, pid: nat, n: nat)
    requires Evolves(w, v) && n < w.nextSerial
    ensures !Live(w, pid, n) ==> !Live(v, pid, n)
  {
    if !Live(w, pid, n) { DeadStaysDead(w, v, pid, n); }
  }

  // ----- The session ladder -----

  /** Every member of the pass, and there were some, had its group reported gone. */
  ghost predicate AllGone(pass: Pass) {
    pass.members != map[] && forall i :: i in pass.members ==> pass.members[i] in pass.gone
  }

  /** Why a session counts as settled: since `start` it was enumerated empty; or it was enumerated,
      all that can be left of it are members of one round of group signals since `before`, and
      the kernel reported the group of every one of them gone. */
  ghost predicate SessionOver(start: World, before: seq<Pass>, at: World, now: World, after: seq<Pass>, session: nat) {
    || Enumerated(start, at, now, session, {})
    || exists k :: |before| <= k < |after| && AllGone(after[k]) && Enumerated(start, at, now, session, Numbers(after[k].members.Keys))
  }

  lemma EnumeratedSince(start: World, mid: World, at: World, now: World, session: nat, left: set<nat>)
    requires Evolves(start, mid) && Enumerated(mid, at, now, session, left)
    ensures Enumerated(start, at, now, session, left)
  {
    EvolvesTransitive(start, mid, at);
  }

  lemma EnumeratedLater(start: World, at: World, w: World, v: World, session: nat, left: set<nat>)
    requires Enumerated(start, at, w, session, left) && Evolves(w, v)
    ensures Enumerated(start, at, v, session, left)
  {
    EvolvesTransitive(at, w, v);
    EmptiedLater(at, w, v, session, left);
  }

  lemma OverSince(start: World, before: seq<Pass>, mid: World, told: seq<Pass>, at: World, now: World, after: seq<Pass>, session: nat)
    requires Evolves(start, mid) && before <= told && SessionOver(mid, told, at, now, after, session)
    ensures SessionOver(start, before, at, now, after, session)
  {
    if Enumerated(mid, at, now, session, {}) {
      EnumeratedSince(start, mid, at, now, session, {});
    } else {
      var k :| |told| <= k < |after| && AllGone(after[k]) && Enumerated(mid, at, now, session, Numbers(after[k].members.Keys));
      EnumeratedSince(start, mid, at, now, session, Numbers(after[k].members.Keys));
    }
  }

  /** A session that is over stays so. */
  lemma OverLater(start: World, before: seq<Pass>, at: World, w: World, told: seq<Pass>, v: World, after: seq<Pass>, session: nat)
    requires SessionOver(start, before, at, w, told, session) && Evolves(w, v) && told <= after
    ensures SessionOver(start, before, at, v, after, session)
  {
    if Enumerated(start, at, w, session, {}) {
      EnumeratedLater(start, at, w, v, session, {});
    } else {
      var k :| |before| <= k < |told| && AllGone(told[k]) && Enumerated(start, at, w, session, Numbers(told[k].members.Keys));
      EnumeratedLater(start, at, w, v, session, Numbers(told[k].members.Keys));
      assert after[k] == told[k];
    }
  }

  ghost predicate Round(pass: Pass, sig: Signal, at: nat) { pass.signal == sig && pass.at == at }

  /** Every round since `before` sends SIGKILL, none before `from`. */
  ghost predicate KillRounds(before: nat, after: seq<Pass>, from: int) {
    forall i :: before <= i < |after| ==> after[i].signal.Kill? && after[i].at >= from
  }

  /** The rounds of one session ladder: none, or SIGTERM first and then SIGKILL only, no sooner than
      the grace after it. */
  ghost predicate SessionLadder(before: seq<Pass>, after: seq<Pass>, grace: int) {
    && before <= after
    && (|after| > |before| ==>
          after[|before|].signal.Term? && KillRounds(|before| + 1, after, after[|before|].at + grace))
  }

  /** Signals each group of the verified members, which are all that can be left of the session.
      It is settled if every group was reported gone; after a denied signal only if a fresh
      enumeration finds it empty. */
  method SignalSessionGroups(m: Machine, session: nat, members: map<Identity, nat>, sig: Signal, deadline: nat,
                             ghost start: World, ghost from: World)
    returns (settled: bool, failed: bool, ghost at: World)
    requires m.Valid() && members != map[] && Enumerated(start, from, m.world, session, Numbers(members.Keys)) && Evolves(start, m.world)
    modifies m`world, m`deliveries, m`passes
    ensures m.Valid() && Evolves(start, m.world) && old(m.passes) <= m.passes
    ensures settled ==> !failed && SessionOver(start, old(m.passes), at, m.world, m.passes, session)
    ensures (failed && m.passes == old(m.passes)) ||
            (|m.passes| == |old(m.passes)| + 1 && Round(m.passes[|old(m.passes)|], sig, m.now))
    ensures m.sound && failed ==> m.Expired(deadline) || OddGroup(members)
    ensures if OddGroup(members) then m.world == old(m.world) else |m.passes| == |old(m.passes)| + 1
  {
    at := from;
    if OddGroup(members) { return false, true, at; }
    m.BeginPass(sig, members);
    var groups := set i | i in members :: members[i];
    var rest := groups;
    settled := true;
    ghost var k := |old(m.passes)|;
    while rest != {}
      invariant m.Valid() && Evolves(start, m.world) && rest <= groups
      invariant Enumerated(start, from, m.world, session, Numbers(members.Keys))
      invariant |m.passes| == k + 1 && m.passes[..k] == old(m.passes) && m.passes[k].members == members
      invariant Round(m.passes[k], sig, m.now)
      invariant settled ==> groups - rest <= m.passes[k].gone
    {
      if m.Expired(deadline) { return false, true, at; }
      var g: nat :| g in rest;
      rest := rest - {g};
      var r := SignalOne(m, session, members, g, sig, start, from);
      match r {
        case GroupError => return false, true, at;
        case GroupDenied =>
          settled, failed, at := Revalidate(m, session, deadline, start);
          return;
        case GroupGone =>
        case GroupSignalled => settled := false;
      }
    }
    failed := false;
    if settled {
      assert forall i :: i in members ==> members[i] in groups - rest;
      assert AllGone(m.passes[k]);
    }
  }

  method SignalOne(m: Machine, session: nat, members: map<Identity, nat>, group: nat, sig: Signal, ghost start: World, ghost from: World)
    returns (r: GroupSent)
    requires m.Valid() && |m.passes| > 0 && Evolves(start, m.world)
    requires Enumerated(start, from, m.world, session, Numbers(members.Keys))
    modifies m`world, m`deliveries, m`passes
    ensures m.Valid() && Evolves(start, m.world) && Enumerated(start, from, m.world, session, Numbers(members.Keys))
    ensures m.sound ==> r.GroupSignalled? || r.GroupGone?
    ensures var k := |old(m.passes)| - 1;
            && |m.passes| == k + 1 && m.passes[..k] == old(m.passes)[..k] && m.passes[k].members == old(m.passes)[k].members
            && m.passes[k].gone == old(m.passes)[k].gone + if r.GroupGone? then {group} else {}
    ensures m.passes[|m.passes| - 1].signal == old(m.passes)[|old(m.passes)| - 1].signal && m.passes[|m.passes| - 1].at == old(m.passes)[|old(m.passes)| - 1].at
  {
    ghost var was := m.world;
    r := m.SignalGroup(group, sig);
    EvolvesTransitive(start, was, m.world);
    EnumeratedLater(start, from, was, m.world, session, Numbers(members.Keys));
  }

  /** After a denied signal: only a fresh exact absence proof settles the session. */
  method Revalidate(m: Machine, session: nat, deadline: nat, ghost start: World)
    returns (settled: bool, failed: bool, ghost at: World)
    requires m.Valid() && Evolves(start, m.world)
    modifies m`world
    ensures m.Valid() && Evolves(start, m.world) && settled == !failed
    ensures settled ==> Enumerated(start, at, m.world, session, {})
  {
    var enumFailed, remaining;
    enumFailed, remaining, at := Members(m, session, deadline, start);
    settled := !enumFailed && remaining == map[];
    failed := !settled;
  }

  /** A verified enumeration, told from `start`. */
  method Members(m: Machine, session: nat, deadline: nat, ghost start: World)
    returns (failed: bool, members: map<Identity, nat>, ghost at: World)
    requires m.Valid() && Evolves(start, m.world)
    modifies m`world
    ensures m.Valid() && Evolves(start, m.world)
    ensures !failed ==> Enumerated(start, at, m.world, session, Numbers(members.Keys))
    ensures !failed && members == map[] ==> Enumerated(start, at, m.world, session, {})
    ensures m.sound && failed ==> m.Expired(deadline)
    ensures OddGroup(members) ==> Odd(start, m.world, session)
  {
    ghost var was := m.world;
    failed, members, at := VerifiedMembers(m, session, deadline);
    EvolvesTransitive(was, at, m.world);
    EvolvesTransitive(start, was, m.world);
    EvolvesTransitive(start, was, at);
    EvolvesReflexive(m.world);
    OddLater(start, at, m.world, m.world, session);
    assert members == map[] ==> Numbers(members.Keys) == {};
  }

  /** Terminates every verified member of the dedicated session.  Undetermined is returned exactly
      with an error, and a proven outcome says why the session is over. */
  method SettleSession(m: Machine, session: nat, termGrace: int, deadline: nat)
    returns (outcome: Outcome, failed: bool, ghost at: World)
    requires m.Valid()
    modifies m
    ensures old(m.Expired(deadline)) ==> m.Expired(deadline)
    ensures m.Valid() && Evolves(old(m.world), m.world) && old(m.passes) <= m.passes
    ensures outcome.Proven() <==> !failed
    ensures outcome.Proven() ==> SessionOver(old(m.world), old(m.passes), at, m.world, m.passes, session)
    ensures !outcome.CrossBoot? && !outcome.Reused?
    ensures SessionLadder(old(m.passes), m.passes, termGrace)
    ensures m.sound && failed ==> m.Expired(deadline) || Odd(old(m.world), m.world, session)
    ensures outcome.Terminated? ==> m.passes != old(m.passes)
    ensures m.sound && failed && !old(m.Expired(deadline)) ==> m.passes != old(m.passes) || Odd(old(m.world), m.world, session)
    ensures m.sound && m.punctual && failed && !old(m.canceled) && termGrace < deadline - old(m.now) && old(m.now) < deadline ==>
              |m.passes| >= |old(m.passes)| + 2 || Odd(old(m.world), m.world, session)
  {
    ghost var start, before := m.world, m.passes;
    EvolvesReflexive(start);
    var members;
    failed, members, at := Members(m, session, deadline, start);
    if failed { return Undetermined, true, at; }
    if members == map[] { return Absent, false, at; }
    var settled;
    settled, failed, at := SignalSessionGroups(m, session, members, Term, deadline, start, at);
    if failed { return Undetermined, true, at; }
    if settled { return Absent, false, at; }
    ghost var told := m.passes;
    outcome, failed, at := Outlast(m, session, termGrace, deadline, start);
    EvolvesReflexive(start);
    if outcome.Proven() { OverSince(start, before, start, told, at, m.world, m.passes, session); }
  }

  /** What follows SIGTERM: the grace, and SIGKILL until the session is over. */
  method Outlast(m: Machine, session: nat, termGrace: int, deadline: nat, ghost start: World)
    returns (outcome: Outcome, failed: bool, ghost at: World)
    requires m.Valid() && Evolves(start, m.world)
    modifies m
    ensures old(m.Expired(deadline)) ==> m.Expired(deadline)
    ensures m.Valid() && Evolves(start, m.world) && old(m.passes) <= m.passes
    ensures outcome.Proven() <==> !failed
    ensures outcome.Proven() ==> SessionOver(start, old(m.passes), at, m.world, m.passes, session)
    ensures !outcome.CrossBoot? && !outcome.Reused?
    ensures KillRounds(|old(m.passes)|, m.passes, old(m.now) + termGrace)
    ensures m.sound && failed ==> m.Expired(deadline) || Odd(start, m.world, session)
    ensures m.sound && m.punctual && failed && !old(m.canceled) && termGrace < deadline - old(m.now) && old(m.now) < deadline ==>
              m.passes != old(m.passes) || Odd(start, m.world, session)
  {
    var over;
    outcome, failed, over, at := AwaitSessionGrace(m, session, termGrace, deadline, start);
    if over { return; }
    ghost var mid, told := m.world, m.passes;
    outcome, failed, at := AwaitSessionSettlement(m, session, deadline);
    EvolvesTransitive(start, mid, m.world);
    EvolvesReflexive(m.world);
    OddLater(start, mid, m.world, m.world, session);
    if outcome.Proven() { OverSince(start, told, mid, told, at, m.world, m.passes, session); }
  }

  /** Re-enumerates through the grace share; it is over when the session is empty or on an error. */
  method AwaitSessionGrace(m: Machine, session: nat, termGrace: int, deadline: nat, ghost start: World)
    returns (outcome: Outcome, failed: bool, over: bool, ghost at: World)
    requires m.Valid() && Evolves(start, m.world)
    modifies m`world, m`now, m`canceled
    ensures old(m.Expired(deadline)) ==> m.Expired(deadline)
    ensures m.Valid() && Evolves(start, m.world)
    ensures over ==> (outcome.Proven() <==> !failed) && (outcome.Proven() ==> Enumerated(start, at, m.world, session, {}))
    ensures !over ==> m.now >= old(m.now) + termGrace
    ensures m.sound && over && failed ==> m.Expired(deadline)
    ensures m.sound && m.punctual && !old(m.canceled) && termGrace < deadline - old(m.now) && old(m.now) < deadline ==>
              !(over && failed) && !m.Expired(deadline)
    ensures !outcome.CrossBoot? && !outcome.Reused?
  {
    var grace := m.now + termGrace;
    at := m.world;
    while true
      invariant m.Valid() && Evolves(start, m.world)
      invariant m.punctual ==> (m.now <= grace || m.now == old(m.now)) && m.canceled == old(m.canceled)
      invariant old(m.Expired(deadline)) ==> m.Expired(deadline)
      decreases grace - m.now
    {
      ghost var was := m.world;
      m.After(if POLL < grace - m.now then POLL else grace - m.now);
      EvolvesTransitive(start, was, m.world);
      var ended: bool := *;
      if ended && m.Expired(deadline) { return Undetermined, true, true, at; }
      var members;
      failed, members, at := Members(m, session, deadline, start);
      if failed { return Undetermined, true, true, at; }
      if members == map[] { return Terminated, false, true, at; }
      if m.now >= grace { break; }
    }
    return Undetermined, true, false, at;
  }

  method AwaitSessionSettlement(m: Machine, session: nat, deadline: nat)
    returns (outcome: Outcome, failed: bool, ghost at: World)
    requires m.Valid()
    modifies m
    ensures old(m.Expired(deadline)) ==> m.Expired(deadline)
    ensures m.Valid() && Evolves(old(m.world), m.world) && old(m.passes) <= m.passes
    ensures outcome.Proven() <==> !failed
    ensures outcome.Proven() ==> SessionOver(old(m.world), old(m.passes), at, m.world, m.passes, session)
    ensures !outcome.CrossBoot? && !outcome.Reused?
    ensures KillRounds(|old(m.passes)|, m.passes, old(m.now))
    ensures m.sound && failed ==> m.Expired(deadline) || Odd(old(m.world), m.world, session)
    ensures m.sound && failed && !old(m.Expired(deadline)) ==> m.passes != old(m.passes) || Odd(old(m.world), m.world, session)
  {
    EvolvesReflexive(m.world);
    ghost var start, before := m.world, m.passes;
    while true
      invariant m.Valid() && Evolves(start, m.world) && before <= m.passes
      invariant m.now >= old(m.now) && KillRounds(|before|, m.passes, old(m.now))
      invariant m.passes == before ==> m.now == old(m.now) && m.canceled == old(m.canceled)
      invariant old(m.Expired(deadline)) ==> m.Expired(deadline)
      decreases if m.Expired(deadline) then 0 else 1 + deadline - m.now
    {
      var over;
      over, outcome, failed, at := KillRound(m, session, deadline, start, before);
      if over { return; }
      ghost var was := m.world;
      m.After(POLL);
      EvolvesTransitive(start, was, m.world);
    }
  }

  /** One enumeration and, unless that ends it, SIGKILL to every group found. */
  method KillRound(m: Machine, session: nat, deadline: nat, ghost start: World, ghost before: seq<Pass>)
    returns (over: bool, outcome: Outcome, failed: bool, ghost at: World)
    requires m.Valid() && Evolves(start, m.world) && before <= m.passes
    modifies m`world, m`deliveries, m`passes
    ensures m.Valid() && Evolves(start, m.world) && old(m.passes) <= m.passes
    ensures over ==> (outcome.Proven() <==> !failed) && (outcome.Terminated? || outcome.Undetermined?)
    ensures over && outcome.Proven() ==> SessionOver(start, before, at, m.world, m.passes, session)
    ensures KillRounds(|old(m.passes)|, m.passes, m.now)
    ensures !over ==> m.passes != old(m.passes) && !m.Expired(deadline)
    ensures m.sound && over && failed ==> m.Expired(deadline) || Odd(start, m.world, session)
  {
    over := true;
    var members;
    failed, members, at := Members(m, session, deadline, start);
    if failed { return true, Undetermined, true, at; }
    if members == map[] { return true, Terminated, false, at; }
    if m.Expired(deadline) { return true, Undetermined, true, at; }
    ghost var told := m.passes;
    var settled;
    settled, failed, at := SignalSessionGroups(m, session, members, Kill, deadline, start, at);
    if failed { return true, Undetermined, true, at; }
    if settled {
      EvolvesReflexive(start);
      OverSince(start, before, start, told, at, m.world, m.passes, session);
      return true, Terminated, false, at;
    }
    return false, Undetermined, true, at;
  }

  /** The session is the one this process founded, and it is not ours or the first. */
  predicate Led(m: Machine, id: Identity, session: nat) {
    id.pid > 1 && id.pid != m.self && session > 1 && session == id.pid
  }

  /** A recorded identity that led a session of its own.  A proven outcome means the boot is over,
      the leader's number names another instance, or the session is over. */
  method ReapSession(m: Machine, id: Identity, session: nat, termGrace: int, deadline: nat, ghost n: nat)
    returns (outcome: Outcome, failed: bool, ghost at: World)
    requires m.Valid() && Pins(m, id, n)
    modifies m
    ensures old(m.Expired(deadline)) ==> m.Expired(deadline)
    ensures m.Valid() && Pins(m, id, n) && Evolves(old(m.world), m.world) && old(m.passes) <= m.passes
    ensures outcome.Proven() <==> !failed
    ensures outcome.CrossBoot? <==> id.boot != m.boot
    ensures outcome.Reused? ==> id.pid in m.world.table && m.world.table[id.pid].serial != n
    ensures outcome.Absent? || outcome.Terminated? ==>
              SessionOver(old(m.world), old(m.passes), at, m.world, m.passes, session)
    ensures SessionLadder(old(m.passes), m.passes, termGrace)
    ensures m.sound && failed ==> m.Expired(deadline) || Odd(old(m.world), m.world, session) || !Led(m, id, session)
    ensures outcome.Terminated? ==> m.passes != old(m.passes)
    ensures m.sound && m.punctual && failed && !old(m.canceled) && termGrace < deadline - old(m.now) && old(m.now) < deadline ==>
              |m.passes| >= |old(m.passes)| + 2 || Odd(old(m.world), m.world, session) || !Led(m, id, session)
  {
    at := m.world;
    EvolvesReflexive(at);
    if id.boot != m.boot { return CrossBoot, false, at; }
    if id.pid <= 1 || id.pid == m.self { return Undetermined, true, at; }
    var leader := m.ProbePid(id.pid);
    if session <= 1 || session != id.pid { return Undetermined, true, at; }
    if leader.Info? && leader.start != id.start { return Reused, false, at; }
    if leader.ProbeError? { return Undetermined, true, at; }
    ghost var mid, told := m.world, m.passes;
    outcome, failed, at := SettleSession(m, session, termGrace, deadline);
    EvolvesTransitive(old(m.world), mid, m.world);
    PinnedLater(mid, m.world, m.boot, id, n);
    EvolvesReflexive(m.world);
    OddLater(old(m.world), mid, m.world, m.world, session);
    if outcome.Proven() { OverSince(old(m.world), old(m.passes), mid, told, at, m.world, m.passes, session); }
  }
}
