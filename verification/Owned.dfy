/** The scope as an object: every verb's critical section updates its fields in place, and the
    settles loop over snapshots while every other verb keeps running between their steps. */
module Owned {
  import opened Options
  import opened Policies
  import opened Ownership

  class Owned {
    const policy: Policy
    var closed: bool
    var drain: Option<nat>
    var admissions: nat
    var reservations: seq<Reservation>
    var starting: set<nat>
    var childs: seq<Child>
    var children: set<nat>
    var adopted: seq<Adopted>
    var tracked: set<nat>
    var leases: seq<Lease>
    /** How many waits ended with their context, and how many stops failed. */
    ghost var lapses: nat

    ghost function View(): State
      reads this
    {
      State(policy, closed, drain, admissions, reservations, starting, childs, children, adopted, tracked, leases)
    }

    ghost predicate Valid()
      reads this
    {
      Inv(View())
    }

    constructor (policy: Policy)
      ensures Valid() && View() == Fresh(policy)
    {
      this.policy := policy;
      closed, drain, admissions, reservations, starting := false, None, 0, [], {};
      childs, children, adopted, tracked, leases := [], {}, [], {}, [];
      lapses := 0;
    }

    method Reserve() returns (res: Option<nat>)
      modifies this
      ensures View() == Step(old(View()), DoReserve) && lapses == old(lapses)
      ensures res == if Admits(old(View())) then Some(|old(reservations)|) else None
    {
      if closed { return None; }
      if drain.Some? { return None; }
      admissions := admissions + 1;
      res := Some(|reservations|);
      starting := starting + {|reservations|};
      reservations := reservations + [Reservation(None, None, false, Starting, 0)];
    }

    method Resolve(r: nat)
      requires r < |reservations|
      modifies this`starting, this`reservations
      ensures View() == Ownership.Resolve(old(View()), r) && lapses == old(lapses)
    {
      if r !in starting { return; }
      starting := starting - {r};
      reservations := reservations[r := reservations[r].(closes := reservations[r].closes + 1)];
    }

    method Hold(r: nat)
      modifies this
      ensures View() == Step(old(View()), DoHold(r)) && lapses == old(lapses)
    {
      if r >= |reservations| || !reservations[r].phase.Starting? { return; }
      reservations := reservations[r := reservations[r].(child := Some(|childs|), phase := Acted)];
      children := children + {|childs|};
      childs := childs + [Child(r, Running)];
      Resolve(r);
    }

    method Track(r: nat)
      modifies this
      ensures View() == Step(old(View()), DoTrack(r)) && lapses == old(lapses)
    {
      if r >= |reservations| || !reservations[r].phase.Starting? { return; }
      reservations := reservations[r := reservations[r].(tracked := Some(|adopted|), phase := Acted)];
      tracked := tracked + {|adopted|};
      adopted := adopted + [Adopted(r, false)];
      Resolve(r);
    }

    method MarkUnproven(r: nat)
      modifies this
      ensures View() == Step(old(View()), DoMarkUnproven(r)) && lapses == old(lapses)
    {
      if r >= |reservations| || !reservations[r].phase.Starting? || policy != PreserveOwned { return; }
      reservations := reservations[r := reservations[r].(unproven := true, phase := Acted)];
    }

    method Abandon(r: nat)
      modifies this
      ensures View() == Step(old(View()), DoAbandon(r)) && lapses == old(lapses)
    {
      if r >= |reservations| || reservations[r].phase.Over? { return; }
      reservations := reservations[r := reservations[r].(phase := Over)];
      if reservations[r].unproven { return; }
      Resolve(r);
    }

    method ReleaseOnExit(c: nat)
      modifies this
      ensures View() == Step(old(View()), DoReleaseOnExit(c)) && lapses == old(lapses)
    {
      if c < |childs| && childs[c].exit.Proven? { children := children - {c}; }
    }

    method ChildExits(c: nat, proven: bool)
      modifies this
      ensures View() == Step(old(View()), DoChildExits(c, proven)) && lapses == old(lapses)
    {
      if c < |childs| && childs[c].exit.Running? {
        childs := childs[c := childs[c].(exit := if proven then Proven else Undetermined)];
      }
    }

    method Untrack(t: nat)
      modifies this
      ensures View() == Step(old(View()), DoUntrack(t)) && lapses == old(lapses)
    {
      if t < |adopted| {
        adopted := adopted[t := adopted[t].(settled := true)];
        tracked := tracked - {t};
      }
    }

    method BeginNaturalDrain(producers: set<nat>) returns (lease: Option<nat>)
      modifies this
      ensures View() == Step(old(View()), DoBegin(producers)) && lapses == old(lapses)
      ensures lease == if Leasable(old(View()), producers) then Some(|old(leases)|) else None
    {
      if policy != PreserveOwned || closed || drain.Some? || !(producers <= children) { return None; }
      lease := Some(|leases|);
      drain := lease;
      leases := leases + [Lease(admissions, 0, false)];
    }

    method Mint(d: nat) returns (proof: Option<Proof>)
      modifies this
      ensures View() == Step(old(View()), DoMint(d)) && lapses == old(lapses)
      ensures proof == Ownership.Mint(old(View()), d).1
    {
      if d >= |leases| || drain != Some(d) || leases[d].committed || starting != {} { return None; }
      leases := leases[d := leases[d].(serial := leases[d].serial + 1)];
      proof := Some(Proof(d, leases[d].admissions, leases[d].serial));
    }

    method Commit(d: nat, p: Proof) returns (ok: bool)
      modifies this
      ensures View() == Step(old(View()), DoCommit(d, p)) && lapses == old(lapses)
      ensures ok == Commits(old(View()), d, p)
    {
      if d >= |leases| || drain != Some(d) || leases[d].committed || p.lease != d || p.serial == 0
         || p.serial != leases[d].serial || p.admissions != leases[d].admissions
         || admissions != leases[d].admissions || starting != {} {
        return false;
      }
      leases := leases[d := leases[d].(committed := true)];
      closed := true;
      ok := true;
    }

    method Abort(d: nat) returns (ok: bool)
      modifies this
      ensures View() == Step(old(View()), DoAbort(d)) && lapses == old(lapses)
      ensures ok == (HoldsLease(old(View()), d) && !old(closed))
      ensures if ok then Admits(View()) && leases == old(leases) && admissions == old(admissions) else View() == old(View())
    {
      if d >= |leases| || drain != Some(d) || leases[d].committed || closed { return false; }
      drain := None;
      ok := true;
    }

    /** Closes admission on behalf of a settle. */
    method Shut() returns (ok: bool)
      requires Valid()
      modifies this
      ensures View() == Step(old(View()), DoShut) && lapses == old(lapses)
      ensures if ok then closed else View() == old(View())
      ensures ok <==> !(policy.PreserveOwned? && old(drain).Some? && !old(leases)[old(drain).value].committed)
    {
      if policy.PreserveOwned? && drain.Some? && !leases[drain.value].committed { return false; }
      closed := true;
      ok := true;
    }

    /** Any number of other verbs, in any order, with any arguments. */
    method Interfere()
      requires Valid()
      modifies this
      ensures Valid() && Later(old(View()), View()) && lapses == old(lapses)
    {
      ghost var start := View();
      ghost var events: seq<Event> := [];
      var steps: nat := *;
      assert Run(start, []) == start;
      while steps > 0
        invariant View() == Run(start, events) && lapses == old(lapses)
      {
        var i: nat, p: bool, ps: set<nat>, proof: Proof := *, *, *, *;
        ghost var e := DoReserve;
        RunLater(start, events);
        if {
          case true => var _ := Reserve();
          case true => e := DoHold(i); Hold(i);
          case true => e := DoTrack(i); Track(i);
          case true => e := DoMarkUnproven(i); MarkUnproven(i);
          case true => e := DoAbandon(i); Abandon(i);
          case true => e := DoReleaseOnExit(i); ReleaseOnExit(i);
          case true => e := DoChildExits(i, p); ChildExits(i, p);
          case true => e := DoUntrack(i); Untrack(i);
          case true => e := DoBegin(ps); var _ := BeginNaturalDrain(ps);
          case true => e := DoMint(i); var _ := Mint(i);
          case true => e := DoCommit(i, proof); var _ := Commit(i, proof);
          case true => e := DoAbort(i); var _ := Abort(i);
          case true => e := DoShut; var _ := Shut();
        }
        RunAppend(start, events, e);
        events := events + [e];
        steps := steps - 1;
      }
      RunLater(start, events);
    }

    // ----- Settling -----

    /** Waits out the verbs that were starting when admission closed.  `timedOut` stands for the
        context ending first. */
    method AwaitStarting(snapshot: set<nat>, waited0: set<nat>, stopped0: set<nat>, ghost s: State)
      returns (ok: bool, waited: set<nat>, stopped: set<nat>)
      requires Valid() && Later(s, View()) && snapshot <= s.starting
      requires (forall r :: r in s.starting ==> r < |s.reservations|) && forall c :: c in waited0 ==> c < |childs|
      modifies this
      ensures Valid() && Later(s, View())
      ensures waited0 <= waited && stopped0 <= stopped
      ensures ok ==> Collected(View(), snapshot, waited, stopped)
      ensures lapses >= old(lapses) && (ok <==> lapses == old(lapses))
      ensures forall c :: c in waited ==> c < |childs|
    {
      ok, waited, stopped := true, waited0, stopped0;
      var rest := snapshot;
      while rest != {}
        invariant Valid() && Later(s, View())
        invariant rest <= snapshot && waited0 <= waited && stopped0 <= stopped
        invariant ok ==> Collected(View(), snapshot - rest, waited, stopped)
        invariant forall c :: c in waited ==> c < |childs|
        invariant lapses >= old(lapses) && (ok <==> lapses == old(lapses))
      {
        var r :| r in rest;
        ghost var done := snapshot - rest;
        ok, waited, stopped := AwaitOne(r, ok, waited, stopped, s, done);
        rest := rest - {r};
        assert snapshot - rest == done + {r};
      }
    }

    /** Waits for one reservation's done channel and adds what it resolved to; it may time out. */
    method AwaitOne(r: nat, fine: bool, waited0: set<nat>, stopped0: set<nat>, ghost s: State, ghost done: set<nat>)
      returns (ok: bool, waited: set<nat>, stopped: set<nat>)
      requires Valid() && Later(s, View()) && r < |s.reservations|
      requires fine ==> Collected(View(), done, waited0, stopped0)
      requires forall c :: c in waited0 ==> c < |childs|
      modifies this
      ensures Valid() && Later(s, View()) && waited0 <= waited && stopped0 <= stopped
      ensures ok ==> fine && Collected(View(), done + {r}, waited, stopped)
      ensures lapses >= old(lapses) && (ok <==> fine && lapses == old(lapses))
      ensures forall c :: c in waited ==> c < |childs|
    {
      waited, stopped := waited0, stopped0;
      ghost var before := View();
      var resolved, child, record := AwaitDone(r);
      LaterTransitive(s, before, View());
      ok := fine && resolved;
      if !ok { return; }
      CollectedLater(before, View(), done, waited, stopped);
      if child.Some? { waited := waited + {child.value}; }
      if record.Some? { stopped := stopped + {record.value}; }
      CollectedOne(View(), done, r, waited, stopped);
    }

    method AwaitDone(r: nat) returns (resolved: bool, child: Option<nat>, record: Option<nat>)
      requires Valid() && r < |reservations|
      modifies this
      ensures Valid() && Later(old(View()), View()) && r < |reservations|
      ensures resolved ==> r !in starting && child == reservations[r].child && record == reservations[r].tracked
      ensures lapses == old(lapses) + if resolved then 0 else 1
    {
      var timedOut: bool := *;
      Interfere();
      resolved := r !in starting && !timedOut;
      if !resolved { lapses := lapses + 1; }
      child, record := reservations[r].child, reservations[r].tracked;
    }

    /** Waits for one child's exit, which may go unproven; it may time out. */
    method AwaitExit(c: nat) returns (proven: bool)
      requires Valid() && c < |childs|
      modifies this
      ensures Valid() && Later(old(View()), View()) && c < |childs|
      ensures proven ==> childs[c].exit.Proven?
      ensures lapses >= old(lapses) && (proven ==> lapses == old(lapses))
      ensures !proven && lapses == old(lapses) ==> childs[c].exit.Undetermined?
    {
      var timedOut: bool := *;
      Interfere();
      if timedOut || childs[c].exit.Running? {
        lapses := lapses + 1;
        return false;
      }
      proven := childs[c].exit.Proven?;
    }

    method AwaitChildren(waited: set<nat>, ghost s: State) returns (ok: bool)
      requires Valid() && Later(s, View()) && forall c :: c in waited ==> c < |childs|
      modifies this
      ensures Valid() && Later(s, View())
      ensures ok ==> AllExited(View(), waited)
      ensures lapses >= old(lapses) && (ok ==> lapses == old(lapses))
      ensures !ok && lapses == old(lapses) ==> exists c :: 0 <= c < |childs| && childs[c].exit.Undetermined?
    {
      ok := true;
      var rest := waited;
      while rest != {}
        invariant Valid() && Later(s, View())
        invariant ok ==> AllExited(View(), waited - rest)
        invariant forall c :: c in rest ==> c < |childs|
        invariant lapses >= old(lapses) && (ok ==> lapses == old(lapses))
        invariant !ok && lapses == old(lapses) ==> exists c :: 0 <= c < |childs| && childs[c].exit.Undetermined?
      {
        var c :| c in rest;
        ghost var before := View();
        var proven := AwaitExit(c);
        LaterTransitive(s, before, View());
        AllLater(before, View(), waited - rest, {});
        if !proven { ok := false; }
        assert waited - (rest - {c}) <= (waited - rest) + {c};
        rest := rest - {c};
      }
      assert waited - {} == waited;
    }

    /** Stops one adopted record, which may fail, while everything else goes on. */
    method StopOne(a: nat) returns (ok: bool)
      requires Valid()
      modifies this
      ensures Valid() && Later(old(View()), View())
      ensures ok ==> a < |adopted| && adopted[a].settled
      ensures lapses == old(lapses) + if ok then 0 else 1
    {
      Interfere();
      var failed: bool := *;
      if failed || a >= |adopted| {
        lapses := lapses + 1;
        return false;
      }
      ghost var mid := View();
      RunLater(mid, [DoUntrack(a)]);
      assert Run(mid, [DoUntrack(a)]) == Run(Step(mid, DoUntrack(a)), []);
      Untrack(a);
      LaterTransitive(old(View()), mid, View());
      ok := true;
    }

    method StopTracked(stopped: set<nat>, ghost s: State) returns (ok: bool)
      requires Valid() && Later(s, View())
      modifies this
      ensures Valid() && Later(s, View())
      ensures ok ==> AllSettled(View(), stopped)
      ensures lapses >= old(lapses) && (ok <==> lapses == old(lapses))
    {
      ok := true;
      var rest := stopped;
      while rest != {}
        invariant Valid() && Later(s, View())
        invariant ok ==> AllSettled(View(), stopped - rest)
        invariant lapses >= old(lapses) && (ok <==> lapses == old(lapses))
      {
        var a :| a in rest;
        ghost var before := View();
        var fine := StopOne(a);
        LaterTransitive(s, before, View());
        AllLater(before, View(), {}, stopped - rest);
        ok := ok && fine;
        assert stopped - (rest - {a}) <= (stopped - rest) + {a};
        rest := rest - {a};
      }
      assert stopped - {} == stopped;
    }

    /** TerminateOwned: when it returns success, whatever raced it, every child ever held has a
        proven exit, every adopted record was stopped or released, and nothing is admitted again. */
    method Settle() returns (ok: bool)
      requires Valid() && policy == TerminateOwned
      modifies this
      ensures Valid() && closed && Later(old(View()), View())
      ensures ok ==> Drained(View())
      ensures lapses >= old(lapses) && (ok ==> lapses == old(lapses))
      ensures !ok && lapses == old(lapses) ==> exists c :: 0 <= c < |childs| && childs[c].exit.Undetermined?
    {
      ghost var first := View();
      StepInv(first, DoShut);
      RunLater(first, [DoShut]);
      assert Run(first, [DoShut]) == Run(Step(first, DoShut), []);
      closed := true;
      ghost var s := View();
      LaterReflexive(s);
      var fine1, waited, stopped := AwaitStarting(starting, children, tracked, s);
      ok := FinishSettle(fine1, s, waited, stopped);
      LaterTransitive(first, s, View());
    }

    method FinishSettle(fine: bool, ghost s: State, waited: set<nat>, stopped: set<nat>) returns (ok: bool)
      requires Valid() && Inv(s) && s.closed && Later(s, View())
      requires s.children <= waited && s.tracked <= stopped && forall c :: c in waited ==> c < |childs|
      requires fine ==> Collected(View(), s.starting, waited, stopped)
      modifies this
      ensures Valid() && Later(s, View())
      ensures ok ==> Drained(View())
      ensures lapses >= old(lapses) && (ok ==> fine && lapses == old(lapses))
      ensures !ok && fine && lapses == old(lapses) ==> exists c :: 0 <= c < |childs| && childs[c].exit.Undetermined?
    {
      ghost var t1 := View();
      LaterReflexive(t1);
      var fine2 := AwaitChildren(waited, t1);
      ghost var t2 := View();
      LaterTransitive(s, t1, t2);
      LaterReflexive(t2);
      var fine3 := StopTracked(stopped, t2);
      ok := fine && fine2 && fine3;
      LaterTransitive(t1, t2, View());
      LaterTransitive(s, t2, View());
      if ok {
        CollectedLater(t1, View(), s.starting, waited, stopped);
        AllLater(t2, View(), waited, stopped);
        SnapshotsCover(s, View(), waited, stopped);
      }
    }

    /** PreserveOwned: refused under an uncommitted lease; otherwise success means no verb is
        unresolved, an unproven start included, and every child ever held exited provably. */
    method AwaitNatural() returns (ok: bool)
      requires Valid() && policy == PreserveOwned
      modifies this
      ensures Valid()
      ensures old(drain).Some? && !old(leases)[old(drain).value].committed ==> !ok && View() == old(View())
      ensures ok ==> closed && starting == {} && forall c :: 0 <= c < |childs| ==> childs[c].exit.Proven?
      ensures lapses >= old(lapses) && (ok ==> lapses == old(lapses))
      ensures !ok && lapses == old(lapses) ==>
                || (old(drain).Some? && !old(leases)[old(drain).value].committed)
                || exists c :: 0 <= c < |childs| && childs[c].exit.Undetermined?
    {
      StepInv(View(), DoShut);
      ok := Shut();
      if !ok { return; }
      ghost var s := View();
      LaterReflexive(s);
      var waited, stopped;
      ok, waited, stopped := AwaitStarting(starting, {}, {}, s);
      if !ok { return; }
      ghost var t := View();
      ResolvedMeansEmpty(s, t, waited, stopped);
      LaterReflexive(t);
      ok := AwaitChildren(children, t);
      if ok { NothingNew(t, View()); }
    }
  }

  lemma ResolvedMeansEmpty(s: State, t: State, waited: set<nat>, stopped: set<nat>)
    requires Inv(s) && Inv(t) && Later(s, t) && s.closed && Collected(t, s.starting, waited, stopped)
    ensures t.starting == {} && t.closed
  {
  }

  lemma LaterReflexive(s: State)
    ensures Later(s, s)
  {
  }

  lemma {:induction false} RunAppend(s: State, es: seq<Event>, e: Event)
    ensures Run(s, es + [e]) == Step(Run(s, es), e)
    decreases |es|
  {
    if es == [] {
      assert Run(s, [e]) == Run(Step(s, e), []);
    } else {
      RunAppend(Step(s, es[0]), es[1..], e);
      assert (es + [e])[1..] == es[1..] + [e];
    }
  }
}
