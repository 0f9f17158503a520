/** The driver of one owned child: from the exit or the stop demand to the published terminal. */
module Driver {
  import opened Options
  import opened Policies
  import opened ProcessTable
  import opened Reap

  datatype RecordFate = RecordRemoved | RecordAbandoned

  datatype Exit = Exit(reap: Outcome, record: RecordFate)

  /** A durable record; `serial` is the instance it was written for, which no caller can see. */
  datatype Record = Record(id: Identity, session: nat, policy: Policy, generation: nat, serial: nat)

  /** The numbers that may stay in the record's session. */
  function Spared(r: Record, spared: bool): set<nat> { if spared then {r.id.pid} else {} }

  /** The record's leader is gone and everything its session held at some moment since `start`
      has left it; a spared leader, and only it, may be there still. */
  ghost predicate Quiet(start: World, now: World, boot: nat, r: Record, spared: bool) {
    && (!spared ==> !Live(now, r.id.pid, r.serial))
    && (r.session != 0 && r.id.boot == boot ==>
          exists at: World :: Enumerated(start, at, now, r.session, Spared(r, spared)))
  }

  lemma QuietLater(start: World, w: World, v: World, boot: nat, r: Record, spared: bool)
    requires r.serial < w.nextSerial && Evolves(w, v) && Quiet(start, w, boot, r, spared)
    ensures Quiet(start, v, boot, r, spared)
  {
    if r.session != 0 && r.id.boot == boot {
      var left := Spared(r, spared);
      var at: World :| Enumerated(start, at, w, r.session, left);
      EvolvesTransitive(at, w, v);
      EmptiedLater(at, w, v, r.session, left);
      assert Enumerated(start, at, v, r.session, left);
    }
  }

  lemma QuietSince(start: World, later: World, now: World, boot: nat, r: Record, spared: bool)
    requires Evolves(start, later) && Quiet(later, now, boot, r, spared)
    ensures Quiet(start, now, boot, r, spared)
  {
    if r.session != 0 && r.id.boot == boot {
      var left := Spared(r, spared);
      var at: World :| Enumerated(later, at, now, r.session, left);
      EvolvesTransitive(start, later, at);
      assert Enumerated(start, at, now, r.session, left);
    }
  }

  /** Somebody of the record's scope was there at some moment between `start` and now: a leader that is
      not spared was running, or another member was found in its session. */
  ghost predicate Occupied(start: World, now: World, r: Record, spared: bool) {
    || (!spared && Alive(start, now, r))
    || exists i: Identity :: Spotted(start, now, r.session, i) && !(spared && i == r.id)
  }

  /** The record's own process was running at some moment between `start` and now. */
  ghost predicate Alive(start: World, now: World, r: Record) {
    exists v: World :: Evolves(start, v) && Evolves(v, now) && WorldOk(v) && Live(v, r.id.pid, r.serial)
  }

  lemma OccupiedLater(start: World, mid: World, w: World, v: World, r: Record, spared: bool)
    requires Evolves(start, mid) && Evolves(w, v) && Occupied(mid, w, r, spared)
    ensures Occupied(start, v, r, spared)
  {
    if !spared && Alive(mid, w, r) {
      var u: World :| Evolves(mid, u) && Evolves(u, w) && WorldOk(u) && Live(u, r.id.pid, r.serial);
      EvolvesTransitive(start, mid, u);
      EvolvesTransitive(u, w, v);
    } else {
      var i: Identity :| Spotted(mid, w, r.session, i) && !(spared && i == r.id);
      SpottedOne(start, mid, w, v, r.session, i);
    }
  }

  /** What may stand in the way of one of these records: a session that is not its leader's own, a
      removal that does not land, or somebody in its scope. */
  ghost predicate Blocked(start: World, now: World, rs: set<Record>, producers: set<Record>, lands: set<Record>) {
    exists r :: r in rs && (!Durable(r) || r !in lands || Occupied(start, now, r, r in producers))
  }

  lemma BlockedLater(start: World, mid: World, w: World, v: World, rs: set<Record>, more: set<Record>, producers: set<Record>, lands: set<Record>)
    requires Evolves(start, mid) && Evolves(w, v) && rs <= more && Blocked(mid, w, rs, producers, lands)
    ensures Blocked(start, v, more, producers, lands)
  {
    var r :| r in rs && (!Durable(r) || r !in lands || Occupied(mid, w, r, r in producers));
    if Occupied(mid, w, r, r in producers) { OccupiedLater(start, mid, w, v, r, r in producers); }
  }

  /** The record's session, if it has one, is the one its leader founded. */
  predicate Durable(r: Record) { r.session == 0 || (r.session > 1 && r.session == r.id.pid) }

  class Child {
    const id: Identity
    const session: nat
    /** The kernel's own handle on the child, which only its parent's wait uses. */
    const serial: nat
    /** A demand is waiting in the channel. */
    var demand: bool
    /** The driver acted on a demand. */
    var demanded: bool
    var settled: Option<Exit>
    /** Somebody demanded the end. */
    ghost var asked: bool

    constructor (id: Identity, session: nat, serial: nat)
      ensures this.id == id && this.session == session && this.serial == serial
      ensures !demand && !demanded && settled == None && !asked
    {
      this.id, this.session, this.serial := id, session, serial;
      demand, demanded, settled, asked := false, false, None, false;
    }

    /** A demand is idempotent: a second one finds the channel full. */
    method Demand()
      modifies this`demand, this`asked
      ensures demand && asked
    {
      demand, asked := true, true;
    }
  }

  class Store {
    const policy: Policy
    const m: Machine
    const generation: nat
    var closed: bool
    var deadline: nat
    var records: set<Record>
    /** Every record there ever was, and those whose process somebody demanded the end of. */
    ghost var seen: set<Record>
    ghost var demanded: set<Record>

    constructor (policy: Policy, m: Machine, generation: nat)
      ensures this.policy == policy && this.m == m && this.generation == generation && !closed && records == {} && seen == {}
    {
      this.policy, this.m, this.generation := policy, m, generation;
      closed, deadline, records := false, 0, {};
      seen, demanded := {}, {};
    }

    ghost predicate Drives(c: Child)
      reads this, m, c
    {
      m.Valid() && Pins(m, c.id, c.serial) && c.id.boot == m.boot && c.settled.None? && (c.demand || c.demanded ==> c.asked)
    }

    /** Others may demand the child's end or close the store at any time. */
    method Meanwhile(c: Child)
      requires Drives(c)
      modifies this`closed, m`world, c`demand, c`asked
      ensures Drives(c) && Evolves(old(m.world), m.world)
    {
      m.Interfere();
      var asks: bool, closes: bool := *, *;
      if asks { c.Demand(); }
      if closes { closed := true; }
    }

    /** A ready exit wins before any signal; otherwise SIGTERM is sent, six tenths of the time left are
        given for the exit, and SIGKILL is sent; a child that does not go is undetermined.  What its
        signals by number reach is what one of the child's runs strikes. */
    method TerminateChild(c: Child) returns (reap: Outcome, ghost run: ChildRun)
      requires Drives(c)
      modifies m`world, m`deliveries, m`now, m`canceled
      ensures Drives(c) && Evolves(old(m.world), m.world)
      ensures reap.Proven() ==> !Live(m.world, c.id.pid, c.serial)
      ensures reap.Absent? || reap.Terminated? || reap.Undetermined?
      ensures ChildRunFrom(old(m.world), run) && (reap.Absent? <==> !Unreaped(run.check, c.id.pid, c.serial))
      ensures ChildLadder(c, old(m.deliveries), m.deliveries, run, deadline, old(m.now))
      ensures reap.Absent? ==> m.deliveries == old(m.deliveries)
      ensures reap.Undetermined? ==> Hit(old(m.deliveries), m.deliveries) == ChildStruck(c.id.pid, c.serial, run)
    {
      var exited := m.Reaped(c.id.pid, c.serial);
      ghost var check := m.world;
      run := ChildRun(check, check, check);
      EvolvesReflexive(check);
      if exited { return Absent, run; }
      ghost var term, kill;
      exited, term, kill := SignalTwice(c);
      EvolvesTransitive(old(m.world), check, m.world);
      run := ChildRun(check, term, kill);
      reap := if exited then Terminated else Undetermined;
    }

    /** What was sent is SIGTERM to whom the number named then and, six tenths of the time left later,
        SIGKILL to whom it named by then, as far as the run got. */
    ghost predicate ChildLadder(c: Child, before: seq<Delivery>, after: seq<Delivery>, run: ChildRun, deadline: nat, start: nat)
      reads c
    {
      && before <= after && Hit(before, after) <= ChildStruck(c.id.pid, c.serial, run)
      && TwoSignals(before, after, deadline, start)
    }

    static ghost predicate TwoSignals(before: seq<Delivery>, after: seq<Delivery>, deadline: nat, start: nat) {
      forall i :: |before| <= i < |after| ==>
        && (after[i].signal.Term? ==> after[i].at == start)
        && (after[i].signal.Kill? ==>
              after[i].at >= start && (deadline > start ==> 10 * (after[i].at - start + 1) > 6 * (deadline - start)))
        && (i > |before| ==> after[i - 1].signal.Term? && after[i].signal.Kill?)
    }

    /** SIGTERM, the grace, and SIGKILL unless the exit was seen. */
    method SignalTwice(c: Child) returns (exited: bool, ghost term: World, ghost kill: World)
      requires Drives(c)
      modifies m`world, m`deliveries, m`now, m`canceled
      ensures Drives(c) && Evolves(old(m.world), m.world) && (exited ==> !Live(m.world, c.id.pid, c.serial))
      ensures Evolves(old(m.world), term) && Evolves(term, kill) && old(m.deliveries) <= m.deliveries
      ensures TwoSignals(old(m.deliveries), m.deliveries, deadline, old(m.now))
      ensures Hit(old(m.deliveries), m.deliveries) <= Named(term, c.id.pid) + Named(kill, c.id.pid)
      ensures !exited ==> Hit(old(m.deliveries), m.deliveries) == Named(term, c.id.pid) + Named(kill, c.id.pid)
    {
      var left := deadline - m.now;
      var grace := if left > 0 then left * 6 / 10 else 0;
      exited, term := SignalAndWait(c, Term, grace);
      kill := term;
      EvolvesReflexive(term);
      if exited { return; }
      ghost var mid, calm := m.world, m.deliveries;
      exited, kill := SignalAndWait(c, Kill, deadline - m.now);
      EvolvesTransitive(old(m.world), mid, m.world);
      EvolvesTransitive(term, mid, kill);
      HitJoin(old(m.deliveries), calm, m.deliveries);
    }

    /** One signal, to whatever the number names, and a wait of at least `d` for the exit. */
    method SignalAndWait(c: Child, sig: Signal, d: int) returns (exited: bool, ghost at: World)
      requires Drives(c)
      modifies m`world, m`deliveries, m`now, m`canceled
      ensures Drives(c) && Evolves(old(m.world), m.world) && (exited ==> !Live(m.world, c.id.pid, c.serial))
      ensures Evolves(old(m.world), at) && Evolves(at, m.world)
      ensures m.now >= old(m.now) && (!exited ==> m.now >= old(m.now) + d)
      ensures m.deliveries == old(m.deliveries) +
                if c.id.pid in at.table then [Delivery(sig, at.table[c.id.pid].serial, old(m.now))] else []
      ensures Hit(old(m.deliveries), m.deliveries) == Named(at, c.id.pid)
    {
      m.SignalPid(c.id.pid, sig);
      at := m.world;
      HitMore(old(m.deliveries), old(m.deliveries), m.deliveries);
      exited := m.Waited(c.id.pid, c.serial);
      EvolvesTransitive(old(m.world), at, m.world);
      if exited { return; }
      ghost var mid := m.world;
      m.After(d);
      EvolvesTransitive(old(m.world), mid, m.world);
      EvolvesTransitive(at, mid, m.world);
    }

    /** Polls until the exit or a demand; `ended` is false when neither came. */
    method AwaitTerminal(c: Child, polls: nat) returns (ended: bool, reap: Outcome, ghost run: ChildRun)
      requires Drives(c) && !c.demanded
      modifies this`closed, m`world, m`deliveries, m`now, m`canceled, c`demand, c`asked, c`demanded
      ensures Drives(c) && Evolves(old(m.world), m.world)
      ensures reap.Proven() ==> ended && !Live(m.world, c.id.pid, c.serial)
      ensures !c.demanded ==> m.deliveries == old(m.deliveries) && m.now == old(m.now)
      ensures ended && !c.demanded ==> reap.Absent?
      ensures !ended ==> !c.demanded
      ensures !ended && polls > 0 ==> !c.demand && Unreaped(m.world, c.id.pid, c.serial)
      ensures c.demanded ==> ChildLadder(c, old(m.deliveries), m.deliveries, run, deadline, old(m.now))
      ensures c.demanded && reap.Undetermined? ==>
                Hit(old(m.deliveries), m.deliveries) == ChildStruck(c.id.pid, c.serial, run)
    {
      EvolvesReflexive(m.world);
      run := ChildRun(m.world, m.world, m.world);
      for i := 0 to polls
        invariant Drives(c) && !c.demanded && m.deliveries == old(m.deliveries) && Evolves(old(m.world), m.world)
        invariant m.now == old(m.now) && (i > 0 ==> !c.demand && Unreaped(m.world, c.id.pid, c.serial))
      {
        ghost var was := m.world;
        var exited := LookForExit(c);
        EvolvesTransitive(old(m.world), was, m.world);
        if exited { return true, Absent, run; }
        if c.demand {
          c.demand, c.demanded := false, true;
          was := m.world;
          reap, run := TerminateChild(c);
          EvolvesTransitive(old(m.world), was, m.world);
          return true, reap, run;
        }
      }
      return false, Undetermined, run;
    }

    /** An exit is seen, unless there is a demand that may be taken instead. */
    method LookForExit(c: Child) returns (exited: bool)
      requires Drives(c)
      modifies this`closed, m`world, c`demand, c`asked
      ensures Drives(c) && Evolves(old(m.world), m.world) && (exited ==> !Live(m.world, c.id.pid, c.serial))
      ensures !exited && !c.demand ==> Unreaped(m.world, c.id.pid, c.serial)
    {
      Meanwhile(c);
      ghost var was := m.world;
      exited := m.Reaped(c.id.pid, c.serial);
      EvolvesTransitive(old(m.world), was, m.world);
      var other: bool := *;
      if other && c.demand { exited := false; }
    }

    /** Watches a preserved child's scope without signalling; it ends with a complete observation,
        which enumerated the child's session empty since the watch began, with a demand, or
        unpublished when the store closes. */
    method AwaitNaturalScope(c: Child, polls: nat) returns (ok: bool, reap: Outcome, ghost at: World)
      requires Drives(c) && !c.demanded && !Live(m.world, c.id.pid, c.serial)
      modifies this`closed, m`world, c`demand, c`asked, c`demanded
      ensures Drives(c) && Evolves(old(m.world), m.world) && !Live(m.world, c.id.pid, c.serial)
      ensures if ok then reap.Proven() else !c.demanded
      ensures ok && !c.demanded && c.session != 0 ==> Enumerated(old(m.world), at, m.world, c.session, {})
      ensures !ok && polls > 0 ==> !c.demand
      ensures m.sound && !ok && polls > 0 ==> closed || m.Expired(deadline) || Populated(c, old(m.world), m.world)
    {
      at := m.world;
      EvolvesReflexive(m.world);
      for i := 0 to polls
        invariant Drives(c) && !c.demanded && Evolves(old(m.world), m.world) && !Live(m.world, c.id.pid, c.serial)
        invariant i > 0 ==> !c.demand && (m.sound ==> closed || m.Expired(deadline) || Populated(c, old(m.world), m.world))
      {
        var complete;
        complete, reap, at := Watch(c, old(m.world));
        if complete {
          DeadStaysDead(old(m.world), m.world, c.id.pid, c.serial);
          return true, reap, at;
        }
        ghost var was := m.world;
        Meanwhile(c);
        EvolvesTransitive(old(m.world), was, m.world);
        PopulatedLater(c, old(m.world), was, m.world);
        DeadStaysDead(old(m.world), m.world, c.id.pid, c.serial);
        if c.demand {
          c.demand, c.demanded := false, true;
          return true, Absent, at;
        }
        if closed { return false, Undetermined, at; }
      }
      DeadStaysDead(old(m.world), m.world, c.id.pid, c.serial);
      return false, Undetermined, at;
    }

    /** Somebody else was found in the child's session between `start` and now, or the session is not its
        own. */
    static ghost predicate Populated(c: Child, start: World, now: World) {
      || (c.session != 0 && (c.session <= 1 || c.session != c.id.pid))
      || exists i: Identity :: Spotted(start, now, c.session, i)
    }

    static lemma PopulatedLater(c: Child, start: World, w: World, v: World)
      requires Evolves(w, v)
      ensures Populated(c, start, w) ==> Populated(c, start, v)
    {
      if i: Identity :| Spotted(start, w, c.session, i) {
        EvolvesReflexive(start);
        SpottedOne(start, start, w, v, c.session, i);
      }
    }

    static lemma PopulatedSince(c: Child, start: World, mid: World, now: World)
      requires Evolves(start, mid)
      ensures Populated(c, mid, now) ==> Populated(c, start, now)
    {
      if i: Identity :| Spotted(mid, now, c.session, i) {
        EvolvesReflexive(now);
        SpottedOne(start, mid, now, now, c.session, i);
      }
    }

    /** One observation of the child's scope, told from `start`. */
    method Watch(c: Child, ghost start: World) returns (complete: bool, reap: Outcome, ghost at: World)
      requires Drives(c) && Evolves(start, m.world) && !Live(m.world, c.id.pid, c.serial)
      modifies m`world
      ensures Drives(c) && Evolves(start, m.world)
      ensures m.sound && !complete ==> m.Expired(deadline) || Populated(c, start, m.world)
      ensures complete ==> reap.Proven() && (c.session != 0 ==> Enumerated(start, at, m.world, c.session, {}))
    {
      ghost var was := m.world;
      var scope, failed;
      scope, failed, at := ObserveScope(m, c.id, c.session, deadline, c.serial);
      EvolvesTransitive(start, was, m.world);
      complete, reap := !failed && scope.Complete(), scope.reap;
      if !failed && !complete {
        var i :| i in scope.members;
        EvolvesReflexive(m.world);
        SpottedOne(start, was, m.world, m.world, c.session, i);
      }
      if complete && c.session != 0 {
        assert Numbers(scope.members) == {};
        EvolvesTransitive(start, was, at);
      }
    }

    /** Five seconds for the session of a child that exited, cut to the deadline of a demand. */
    function SessionDeadline(now: nat, demanded: bool): (until: nat)
      reads this`deadline
      ensures until <= now + 5000 && (demanded ==> until <= deadline)
      ensures until == now + 5000 || (demanded && until == deadline)
    {
      if !demanded || now + SETTLE_GRACE < deadline then now + SETTLE_GRACE else deadline
    }

    /** Settles the dedicated session after its leader's exit: a false return keeps the record.  Of the
        time there is, six tenths pass between SIGTERM and SIGKILL. */
    method SettleSessionSurvivors(c: Child, until: nat) returns (outcome: Outcome, ok: bool, ghost at: World)
      requires Drives(c)
      modifies m
      ensures Drives(c) && Evolves(old(m.world), m.world) && (ok <==> outcome.Proven())
      ensures ok ==> Survived(c, old(m.world), old(m.passes), at)
      ensures m.sound && !ok ==> m.Expired(until) || Odd(old(m.world), m.world, c.session) || !Led(m, c.id, c.session)
      ensures SessionLadder(old(m.passes), m.passes, if until > old(m.now) then (until - old(m.now)) * 6 / 10 else 0)
    {
      var grace := if until > m.now then (until - m.now) * 6 / 10 else 0;
      var failed;
      outcome, failed, at := ReapSession(m, c.id, c.session, grace, until, c.serial);
      ok := !failed;
    }

    /** Why nothing of the child's session is taken to be left: since `start` it is over, or the
        leader's number is another's. */
    ghost predicate Survived(c: Child, start: World, before: seq<Pass>, at: World)
      reads m, c
    {
      || SessionOver(start, before, at, m.world, m.passes, c.session)
      || (c.id.pid in m.world.table && m.world.table[c.id.pid].serial != c.serial)
    }

    /** Drives one child; `lands` says whether the removal of its record lands in time.  A published
        terminal has its record removed exactly with a proof, and says why the child's session is over.
        Under PreserveOwned, without a demand, no signal is sent, and a terminal is published only after
        an observation that found the leader gone and its session empty since the drive began.  It is
        not published only while the child is unreaped or its preserved scope populated. */
    method DriveExit(c: Child, polls: nat, lands: bool) returns (ghost at: World)
      requires Drives(c) && !c.demanded
      modifies this`closed, m, c`demand, c`asked, c`demanded, c`settled
      ensures c.settled.Some? ==> (c.settled.value.record.RecordRemoved? <==> c.settled.value.reap.Proven() && lands)
      ensures c.settled.Some? && c.settled.value.record.RecordRemoved? && c.session != 0 ==>
                Survived(c, old(m.world), old(m.passes), at)
      ensures policy.PreserveOwned? && !c.demanded ==> m.deliveries == old(m.deliveries)
      ensures policy.PreserveOwned? && !c.demanded && c.settled.Some? ==>
                && c.settled.value.reap.Proven() && !Live(m.world, c.id.pid, c.serial)
                && (c.session != 0 ==> Enumerated(old(m.world), at, m.world, c.session, {}))
      ensures c.settled.None? ==> !c.demanded && (polls > 0 ==> !c.demand)
      ensures c.settled.None? && polls > 0 ==>
                || Unreaped(m.world, c.id.pid, c.serial)
                || (policy.PreserveOwned? && (m.sound ==> closed || m.Expired(deadline) || Populated(c, old(m.world), m.world)))
      ensures m.sound && c.settled.Some? && !c.demanded && !c.settled.value.reap.Proven() ==>
                && c.session != 0 && !policy.PreserveOwned?
                && (m.Expired(old(m.now) + 5000) || Odd(old(m.world), m.world, c.session) || !Led(m, c.id, c.session))
      ensures c.demanded ==> c.asked
    {
      at := m.world;
      var ended, reap;
      ghost var run;
      ended, reap, run := AwaitTerminal(c, polls);
      if !ended { return; }
      ghost var exited := m.world;
      if policy.PreserveOwned? && !c.demanded {
        var ok;
        ok, reap, at := AwaitNaturalScope(c, polls);
        PopulatedSince(c, old(m.world), exited, m.world);
        if !ok { return; }
        if c.session != 0 && !c.demanded { EvolvesTransitive(old(m.world), exited, at); }
        EvolvesTransitive(old(m.world), exited, m.world);
      }
      ghost var mid := m.world;
      at := Publish(c, reap, lands, at, old(m.world), old(m.passes));
      EvolvesReflexive(m.world);
      OddLater(old(m.world), mid, m.world, m.world, c.session);
    }

    /** Settles the session of a child that ended by a demand or under TerminateOwned, retires the
        record if all of it is proven, and publishes. */
    method Publish(c: Child, ended: Outcome, lands: bool, ghost seen: World, ghost start: World, ghost passes: seq<Pass>) returns (ghost at: World)
      requires Drives(c) && Evolves(start, m.world) && passes <= m.passes
      requires policy.PreserveOwned? && !c.demanded ==>
                 && ended.Proven() && !Live(m.world, c.id.pid, c.serial)
                 && (c.session != 0 ==> Enumerated(start, seen, m.world, c.session, {}))
      modifies m, c`settled
      ensures c.settled.Some? && m.Valid() && Evolves(old(m.world), m.world)
      ensures c.session == 0 || !ended.Proven() ==> c.settled.value.reap == ended && m.deliveries == old(m.deliveries)
      ensures m.sound && ended.Proven() && !c.settled.value.reap.Proven() ==>
                || m.Expired(SessionDeadline(old(m.now), c.demanded))
                || Odd(old(m.world), m.world, c.session) || !Led(m, c.id, c.session)
      ensures c.settled.value.record.RecordRemoved? <==> c.settled.value.reap.Proven() && lands
      ensures c.settled.value.record.RecordRemoved? && c.session != 0 ==> Survived(c, start, passes, at)
      ensures policy.PreserveOwned? && !c.demanded ==>
                && m.deliveries == old(m.deliveries) && m.world == old(m.world) && at == seen
                && c.settled.value.reap.Proven()
    {
      at := seen;
      EvolvesReflexive(m.world);
      var reap, settled, sessionSettled := ended, ended.Proven(), true;
      if settled && c.session != 0 && (policy != PreserveOwned || c.demanded) {
        ghost var mid, told := m.world, m.passes;
        var outcome, ok;
        outcome, ok, at := SettleSessionSurvivors(c, SessionDeadline(m.now, c.demanded));
        sessionSettled := ok;
        if ok && SessionOver(mid, told, at, m.world, m.passes, c.session) {
          OverSince(start, passes, mid, told, at, m.world, m.passes, c.session);
        }
        if !ok { reap := Undetermined; } else if outcome != Absent { reap := outcome; }
      }
      var fate := RecordAbandoned;
      if settled && sessionSettled && lands { fate := RecordRemoved; }
      c.settled := Some(Exit(reap, fate));
    }

    ghost predicate Recorded()
      reads this, m
    {
      && m.Valid() && records <= seen
      && (forall r :: r in records ==> Pins(m, r.id, r.serial))
      && (forall r :: r in seen ==> r.serial < m.world.nextSerial)
    }

    lemma SomebodyThere(start: World, now: World, scope: Scope, r: Record, spared: bool)
      requires !scope.uncertain && !scope.excluded && scope.id == r.id && !scope.(excluded := spared).Complete()
      requires scope.members == {} ==> scope.reap.Proven()
      requires forall i :: i in scope.members ==>
                 Spotted(start, now, r.session, i) || (i == r.id && Live(start, r.id.pid, r.serial))
      requires WorldOk(start) && Evolves(start, now)
      ensures Occupied(start, now, r, spared)
    {
      EvolvesReflexive(start);
      if spared {
        assert scope.members <= {r.id} ==> scope.members == {} || scope.members == {r.id};
        var i :| i in scope.members && i != r.id;
      } else {
        var i :| i in scope.members;
      }
    }

    /** A look at one more record carries over what stood in the way before it, and adds what it met. */
    lemma Advance(start: World, mid: World, now: World, r: Record, rs: set<Record>, producers: set<Record>, lands: set<Record>)
      requires Evolves(start, mid) && Evolves(mid, now) && r in rs
      ensures Blocked(start, mid, rs, producers, lands) ==> Blocked(start, now, rs, producers, lands)
      ensures !Durable(r) || r !in lands || Occupied(mid, now, r, r in producers) ==> Blocked(start, now, rs, producers, lands)
    {
      EvolvesReflexive(start);
      if Blocked(start, mid, rs, producers, lands) { BlockedLater(start, start, mid, now, rs, rs, producers, lands); }
      EvolvesReflexive(now);
      if Occupied(mid, now, r, r in producers) { OccupiedLater(start, mid, now, now, r, r in producers); }
    }

    /** Observes the recorded scope; a producer's leader does not stand in the way. */
    method ObserveRecord(r: Record, spared: bool) returns (complete: bool)
      requires m.Valid() && Pins(m, r.id, r.serial)
      modifies m`world
      ensures m.Valid() && Pins(m, r.id, r.serial) && Evolves(old(m.world), m.world)
      ensures complete ==> Quiet(old(m.world), m.world, m.boot, r, spared)
      ensures m.sound && !complete && Durable(r) ==> m.Expired(deadline) || Occupied(old(m.world), m.world, r, spared)
    {
      var scope, failed;
      ghost var at;
      scope, failed, at := ObserveScope(m, r.id, r.session, deadline, r.serial);
      complete := !failed && scope.(excluded := spared).Complete();
      if !failed && !complete { SomebodyThere(old(m.world), m.world, scope, r, spared); }
      if complete && r.session != 0 && r.id.boot == m.boot {
        assert Numbers(scope.members) <= Spared(r, spared);
        EmptiedMore(at, m.world, r.session, Numbers(scope.members), Spared(r, spared));
        assert Enumerated(old(m.world), at, m.world, r.session, Spared(r, spared));
      }
    }

    /** The observation a natural drain waits for: complete only if every recorded scope is quiet,
        the producers' leaders excepted, and nothing was signalled to make it so. */
    method Observe(producers: set<Record>) returns (complete: bool)
      requires Recorded()
      modifies m`world
      ensures Recorded() && Evolves(old(m.world), m.world)
      ensures complete ==> forall r :: r in records ==> Quiet(old(m.world), m.world, m.boot, r, r in producers)
      ensures m.sound && !complete ==>
                m.Expired(deadline) || Blocked(old(m.world), m.world, records, producers, records)
    {
      complete := true;
      var rest := records;
      while rest != {}
        invariant Recorded() && rest <= records && Evolves(old(m.world), m.world)
        invariant complete ==> forall r :: r in records - rest ==> Quiet(old(m.world), m.world, m.boot, r, r in producers)
        invariant m.sound && !complete ==>
                    m.Expired(deadline) || Blocked(old(m.world), m.world, records, producers, records)
      {
        var r :| r in rest;
        ghost var before := m.world;
        var quiet := ObserveRecord(r, r in producers);
        complete := complete && quiet;
        Advance(old(m.world), before, m.world, r, records, producers, records);
        EvolvesTransitive(old(m.world), before, m.world);
        forall q | q in records ensures Pinned(m.world, m.boot, q.id, q.serial) {
          PinnedLater(before, m.world, m.boot, q.id, q.serial);
        }
        if complete {
          QuietSince(old(m.world), before, m.world, m.boot, r, r in producers);
          forall q | q in records - rest ensures Quiet(old(m.world), m.world, m.boot, q, q in producers) {
            QuietLater(old(m.world), before, m.world, m.boot, q, q in producers);
          }
        }
        rest := rest - {r};
      }
    }

    /** Observes one record's scope twice, as a listing and again before it is retired; `lands` says
        whether the removal then lands in time. */
    method RetireQuietScope(r: Record, lands: bool) returns (ok: bool, ghost mid: World)
      requires m.Valid() && Pins(m, r.id, r.serial)
      modifies this`records, m`world
      ensures m.Valid() && Evolves(old(m.world), m.world)
      ensures ok ==> Quiet(old(m.world), m.world, m.boot, r, false) && records == old(records) - {r}
      ensures ok ==> && Evolves(old(m.world), mid) && Evolves(mid, m.world)
                     && Quiet(old(m.world), mid, m.boot, r, false) && Quiet(mid, m.world, m.boot, r, false)
      ensures !ok ==> records == old(records)
      ensures m.sound && !ok && lands && Durable(r) ==> m.Expired(deadline) || Occupied(old(m.world), m.world, r, false)
    {
      var listed := ObserveRecord(r, false);
      mid := m.world;
      if !listed { return false, mid; }
      var quiet := ObserveRecord(r, false);
      EvolvesTransitive(old(m.world), mid, m.world);
      EvolvesReflexive(m.world);
      if Occupied(mid, m.world, r, false) { OccupiedLater(old(m.world), mid, m.world, m.world, r, false); }
      if !quiet { return false, mid; }
      QuietSince(old(m.world), mid, m.world, m.boot, r, false);
      ok := lands;
      if ok { records := records - {r}; }
    }

    /** Retires quiet records only, and sends nothing.  What it retired has its leader gone and its
        session emptied, whatever the table does meanwhile; success leaves no record. */
    method RetireQuiet(lands: set<Record>) returns (ok: bool)
      requires Recorded()
      modifies this`records, m`world
      ensures Recorded() && records <= old(records) && Evolves(old(m.world), m.world)
      ensures forall r :: r in old(records) - records ==> Quiet(old(m.world), m.world, m.boot, r, false)
      ensures ok ==> records == {}
      ensures m.sound && !ok ==>
                m.Expired(deadline) || Blocked(old(m.world), m.world, old(records), {}, lands)
    {
      ok := true;
      EvolvesReflexive(m.world);
      var rest := records;
      while rest != {}
        invariant Recorded() && rest <= records <= old(records) && Evolves(old(m.world), m.world)
        invariant forall r :: r in old(records) - records ==>
                    r.serial < m.world.nextSerial && Quiet(old(m.world), m.world, m.boot, r, false)
        invariant ok ==> records == rest
        invariant m.sound && !ok ==>
                    m.Expired(deadline) || Blocked(old(m.world), m.world, old(records), {}, lands)
      {
        var r :| r in rest;
        rest := rest - {r};
        ghost var before, had := m.world, records;
        ghost var mid;
        var retired;
        retired, mid := RetireQuietScope(r, r in lands);
        Advance(old(m.world), before, m.world, r, old(records), {}, lands);
        EvolvesTransitive(old(m.world), before, m.world);
        forall q | q in had ensures Pinned(m.world, m.boot, q.id, q.serial) {
          PinnedLater(before, m.world, m.boot, q.id, q.serial);
        }
        forall q | q in old(records) - had ensures Quiet(old(m.world), m.world, m.boot, q, false) {
          QuietLater(old(m.world), before, m.world, m.boot, q, false);
        }
        if retired { QuietSince(old(m.world), before, m.world, m.boot, r, false); } else { ok := false; }
      }
    }

    // ----- Recovery -----

    predicate Preserves(r: Record) { policy.PreserveOwned? || r.policy.PreserveOwned? }

    /** The leader's number named another instance at some moment since `start`. */
    ghost predicate Replaced(r: Record, start: World, now: World) {
      exists w: World :: Evolves(start, w) && Evolves(w, now) && r.id.pid in w.table && w.table[r.id.pid].serial != r.serial
    }

    /** What reclaiming the record rests on; once it holds it stays. */
    ghost predicate Grounds(r: Record, start: World, before: seq<Pass>, now: World, after: seq<Pass>) {
      if Preserves(r) then Quiet(start, now, m.boot, r, false)
      else if r.session == 0 then !Live(now, r.id.pid, r.serial)
      else || r.id.boot != m.boot || Replaced(r, start, now)
           || exists at: World :: SessionOver(start, before, at, now, after, r.session)
    }

    lemma GroundsLater(r: Record, start: World, before: seq<Pass>, w: World, told: seq<Pass>, v: World, after: seq<Pass>)
      requires Grounds(r, start, before, w, told) && Evolves(w, v) && told <= after && r.serial < w.nextSerial
      ensures Grounds(r, start, before, v, after)
    {
      if Preserves(r) {
        QuietLater(start, w, v, m.boot, r, false);
      } else if r.session == 0 {
        DeadStaysDead(w, v, r.id.pid, r.serial);
      } else if r.id.boot == m.boot {
        if Replaced(r, start, w) {
          var u: World :| Evolves(start, u) && Evolves(u, w) && r.id.pid in u.table && u.table[r.id.pid].serial != r.serial;
          EvolvesTransitive(u, w, v);
        } else {
          var at: World :| SessionOver(start, before, at, w, told, r.session);
          OverLater(start, before, at, w, told, v, after, r.session);
        }
      }
    }

    lemma GroundsSince(r: Record, start: World, before: seq<Pass>, mid: World, told: seq<Pass>, now: World, after: seq<Pass>)
      requires Grounds(r, mid, told, now, after) && Evolves(start, mid) && before <= told
      ensures Grounds(r, start, before, now, after)
    {
      if Preserves(r) {
        QuietSince(start, mid, now, m.boot, r, false);
      } else if r.session != 0 && r.id.boot == m.boot {
        if Replaced(r, mid, now) {
          var u: World :| Evolves(mid, u) && Evolves(u, now) && r.id.pid in u.table && u.table[r.id.pid].serial != r.serial;
          EvolvesTransitive(start, mid, u);
        } else {
          var at: World :| SessionOver(mid, told, at, now, after, r.session);
          OverSince(start, before, mid, told, at, now, after, r.session);
        }
      }
    }

    /** Why a record cannot be reclaimed in any time: a preserved scope is occupied, or its session is not
        its leader's own; a process, or a session, is one the ladder does not touch. */
    ghost predicate Stuck(r: Record, start: World, now: World) {
      if Preserves(r) then !Durable(r) || Occupied(start, now, r, false)
      else if r.session == 0 then r.id.pid <= 1 || r.id.pid == m.self
      else !Led(m, r.id, r.session) || Odd(start, now, r.session)
    }

    lemma StuckLater(r: Record, start: World, mid: World, w: World, v: World)
      requires Evolves(start, mid) && Evolves(w, v)
      ensures Stuck(r, mid, w) ==> Stuck(r, start, v)
    {
      OddLater(start, mid, w, v, r.session);
      if Occupied(mid, w, r, false) { OccupiedLater(start, mid, w, v, r, false); }
    }

    /** Some of these records was not reclaimed, and could not be. */
    ghost predicate SomeStuck(rs: set<Record>, done: map<Record, Exit>, start: World, now: World) {
      exists r :: r in rs && r !in done && Stuck(r, start, now)
    }

    /** Settles one record of an earlier generation.  It is removed only with a proven outcome and
        on grounds; a preserved one is observed, never signalled. */
    method RecoverOne(r: Record, lands: bool) returns (reclaimed: Option<Exit>)
      requires m.Valid() && Pins(m, r.id, r.serial)
      modifies this`records, m
      ensures m.Valid() && Evolves(old(m.world), m.world) && old(m.passes) <= m.passes
      ensures reclaimed.Some? ==>
                reclaimed.value.reap.Proven() && Grounds(r, old(m.world), old(m.passes), m.world, m.passes)
      ensures records == if reclaimed.Some? && reclaimed.value.record.RecordRemoved? then old(records) - {r} else old(records)
      ensures Preserves(r) ==> m.deliveries == old(m.deliveries)
      ensures reclaimed.Some? ==> (reclaimed.value.record.RecordRemoved? <==> lands)
      ensures m.sound && reclaimed.None? ==> m.Expired(deadline) || Stuck(r, old(m.world), m.world)
      ensures !Preserves(r) && r.session == 0 ==> Ladder(old(m.deliveries), m.deliveries, deadline)
      ensures !Preserves(r) && r.session != 0 ==>
                SessionLadder(old(m.passes), m.passes, GraceShare(deadline - old(m.now)))
      ensures old(m.Expired(deadline)) ==> m.Expired(deadline)
    {
      var outcome, failed;
      if Preserves(r) {
        outcome, failed := ObserveRecovered(r);
      } else if r.session == 0 {
        outcome, failed := ReapSingle(r);
      } else {
        ghost var at;
        var left := deadline - m.now;
        outcome, failed, at := ReapSession(m, r.id, r.session, GraceShare(left), deadline, r.serial);
        assert !failed && (outcome.Absent? || outcome.Terminated?) ==>
          SessionOver(old(m.world), old(m.passes), at, m.world, m.passes, r.session);
        EvolvesReflexive(m.world);
      }
      if failed { return None; }
      if lands { records := records - {r}; }
      reclaimed := Some(Exit(outcome, if lands then RecordRemoved else RecordAbandoned));
    }

    method ReapSingle(r: Record) returns (outcome: Outcome, failed: bool)
      requires m.Valid() && Pins(m, r.id, r.serial)
      modifies m`world, m`now, m`canceled, m`deliveries
      ensures m.Valid() && Evolves(old(m.world), m.world)
      ensures old(m.Expired(deadline)) ==> m.Expired(deadline)
      ensures outcome.Proven() <==> !failed
      ensures !failed ==> !Live(m.world, r.id.pid, r.serial)
      ensures m.pidfd || r.serial in m.world.kept ==> Only(old(m.deliveries), m.deliveries, r.serial)
      ensures Ladder(old(m.deliveries), m.deliveries, deadline)
      ensures m.sound && failed ==> m.Expired(deadline) || r.id.pid <= 1 || r.id.pid == m.self
    {
      ghost var run;
      outcome, failed, run := ReapIdentity(m, r.id, deadline, r.serial);
    }

    method ObserveRecovered(r: Record) returns (outcome: Outcome, failed: bool)
      requires m.Valid() && Pins(m, r.id, r.serial)
      modifies m`world
      ensures m.Valid() && Evolves(old(m.world), m.world)
      ensures !failed ==> outcome.Proven() && Quiet(old(m.world), m.world, m.boot, r, false)
      ensures m.sound && failed && Durable(r) ==> m.Expired(deadline) || Occupied(old(m.world), m.world, r, false)
    {
      var scope;
      ghost var at;
      scope, failed, at := ObserveScope(m, r.id, r.session, deadline, r.serial);
      outcome := scope.reap;
      if !failed && !scope.Complete() {
        assert scope.(excluded := false) == scope;
        SomebodyThere(old(m.world), m.world, scope, r, false);
        failed := true;
      }
      if !failed && r.session != 0 && r.id.boot == m.boot {
        assert Numbers(scope.members) == {};
        assert Enumerated(old(m.world), at, m.world, r.session, Spared(r, false));
      }
    }

    /** The records of earlier generations. */
    ghost function Earlier(rs: set<Record>): set<Record> { set r | r in rs && r.generation != generation }

    /** Settles every record of an earlier generation and no other.  Each one reclaimed has a proven
        outcome on grounds that still hold, and is gone from the store exactly if its record was
        removed; success is that every one was.  Under PreserveOwned nothing is signalled. */
    method RecoverAll(lands: set<Record>) returns (ok: bool, reclaimed: map<Record, Exit>)
      requires Recorded()
      modifies this`records, m
      ensures Recorded()
      ensures reclaimed.Keys <= Earlier(old(records)) && (ok <==> reclaimed.Keys == Earlier(old(records)))
      ensures forall r :: r in reclaimed ==>
                reclaimed[r].reap.Proven() && Grounds(r, old(m.world), old(m.passes), m.world, m.passes)
      ensures records == set r | r in old(records) && !(r in reclaimed && r in lands)
      ensures forall r :: r in reclaimed ==> (reclaimed[r].record.RecordRemoved? <==> r in lands)
      ensures policy.PreserveOwned? ==> m.deliveries == old(m.deliveries)
      ensures m.sound && !ok ==> m.Expired(deadline) || SomeStuck(Earlier(old(records)), reclaimed, old(m.world), m.world)
    {
      reclaimed := map[];
      EvolvesReflexive(m.world);
      var all := set r | r in records && r.generation != generation;
      var rest := all;
      while rest != {}
        invariant Recorded() && rest <= all && reclaimed.Keys <= all - rest && rest <= records
        invariant Evolves(old(m.world), m.world) && old(m.passes) <= m.passes
        invariant Reclaimed(reclaimed, old(m.world), old(m.passes), m.world, m.passes)
        invariant records == set r | r in old(records) && !(r in reclaimed && r in lands)
        invariant forall r :: r in reclaimed ==> (reclaimed[r].record.RecordRemoved? <==> r in lands)
        invariant policy.PreserveOwned? ==> m.deliveries == old(m.deliveries)
        invariant m.sound && !m.Expired(deadline) ==>
                    reclaimed.Keys == all - rest || SomeStuck(all - rest, reclaimed, old(m.world), m.world)
      {
        var r :| r in rest;
        assert all - (rest - {r}) == (all - rest) + {r};
        rest := rest - {r};
        reclaimed := RecoverNext(r, r in lands, reclaimed, old(m.world), old(m.passes), all - rest - {r});
      }
      ok := reclaimed.Keys == all;
      assert all - rest == all;
    }

    method RecoverNext(r: Record, lands: bool, done: map<Record, Exit>, ghost start: World, ghost passes: seq<Pass>, ghost before: set<Record>)
      returns (reclaimed: map<Record, Exit>)
      requires Recorded() && r in records && r !in done && Evolves(start, m.world) && passes <= m.passes
      requires Reclaimed(done, start, passes, m.world, m.passes)
      requires r !in before
      requires m.sound && !m.Expired(deadline) ==> done.Keys == before || SomeStuck(before, done, start, m.world)
      modifies this`records, m
      ensures Recorded() && Evolves(start, m.world) && passes <= m.passes
      ensures Reclaimed(reclaimed, start, passes, m.world, m.passes)
      ensures reclaimed == done || (r in reclaimed && reclaimed == done[r := reclaimed[r]])
      ensures records == if r in reclaimed && lands then old(records) - {r} else old(records)
      ensures r in reclaimed ==> (reclaimed[r].record.RecordRemoved? <==> lands)
      ensures Preserves(r) ==> m.deliveries == old(m.deliveries)
      ensures m.sound && !m.Expired(deadline) ==>
                reclaimed.Keys == before + {r} || SomeStuck(before + {r}, reclaimed, start, m.world)
    {
      reclaimed := done;
      ghost var was, told, had := m.world, m.passes, records;
      var one := RecoverOne(r, lands);
      EvolvesTransitive(start, was, m.world);
      StillRecorded(was, had);
      ReclaimedLater(done, start, passes, was, told, m.world, m.passes);
      if one.Some? {
        GroundsSince(r, start, passes, was, told, m.world, m.passes);
        reclaimed := done[r := one.value];
      }
      StuckOn(r, before, done, reclaimed, start, was, m.world);
    }

    lemma StuckOn(r: Record, before: set<Record>, done: map<Record, Exit>, reclaimed: map<Record, Exit>, start: World, w: World, v: World)
      requires Evolves(start, w) && Evolves(w, v) && r !in before && r !in done
      requires reclaimed == done || (r in reclaimed && reclaimed == done[r := reclaimed[r]])
      ensures SomeStuck(before, done, start, w) ==> SomeStuck(before + {r}, reclaimed, start, v)
      ensures r !in reclaimed && Stuck(r, w, v) ==> SomeStuck(before + {r}, reclaimed, start, v)
    {
      if SomeStuck(before, done, start, w) {
        var q :| q in before && q !in done && Stuck(q, start, w);
        EvolvesReflexive(start);
        StuckLater(q, start, start, w, v);
        assert q in before + {r} && q !in reclaimed;
      }
      EvolvesReflexive(v);
      StuckLater(r, start, w, v, v);
      assert r in before + {r};
    }

    lemma StillRecorded(before: World, had: set<Record>)
      requires m.Valid() && Evolves(before, m.world) && records <= had <= seen
      requires forall r :: r in had ==> Pinned(before, m.boot, r.id, r.serial)
      requires forall r :: r in seen ==> r.serial < before.nextSerial
      ensures Recorded()
    {
      forall q | q in had ensures Pinned(m.world, m.boot, q.id, q.serial) {
        PinnedLater(before, m.world, m.boot, q.id, q.serial);
      }
    }

    ghost predicate Reclaimed(done: map<Record, Exit>, start: World, before: seq<Pass>, now: World, after: seq<Pass>) {
      forall r :: r in done ==> done[r].reap.Proven() && r.serial < now.nextSerial && Grounds(r, start, before, now, after)
    }

    lemma ReclaimedLater(done: map<Record, Exit>, start: World, before: seq<Pass>, w: World, told: seq<Pass>, v: World, after: seq<Pass>)
      requires Reclaimed(done, start, before, w, told) && Evolves(w, v) && told <= after
      ensures Reclaimed(done, start, before, v, after)
    {
      forall r | r in done ensures Grounds(r, start, before, v, after) {
        GroundsLater(r, start, before, w, told, v, after);
      }
    }
  }
}
