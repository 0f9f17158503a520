/** The natural drain: a lease over the scope's admissions, observations of the recorded processes
    under it, and the observational settlement. */
module Drain {
  import opened Options
  import opened Policies
  import opened ProcessTable
  import opened Ownership
  import Reap
  import Driver
  import Owned

  /** Since `start` every recorded scope was enumerated empty and its leader is gone; of a
      producer's scope only its leader may be left. */
  ghost predicate AllQuiet(start: World, store: Driver.Store, records: set<Driver.Record>, producers: set<Driver.Record>)
    reads store, store.m
  {
    forall r :: r in records ==> Driver.Quiet(start, store.m.world, store.m.boot, r, r in producers)
  }

  /** Any processes of this boot that were not recorded before. */
  method NewRecords(store: Driver.Store) returns (spawned: set<Driver.Record>)
    requires store.m.Valid()
    ensures forall r :: r in spawned ==> Reap.Pins(store.m, r.id, r.serial)
  {
    spawned := {};
    var count: int :| count >= 0;
    for i := 0 to count
      invariant forall r :: r in spawned ==> Reap.Pins(store.m, r.id, r.serial)
    {
      var p: nat, session: nat, policy: Policy := *, *, *;
      var w := store.m.world;
      if p in w.table && w.table[p].start < w.tick {
        var id := Identity(p, w.table[p].start, store.m.boot);
        spawned := spawned + {Driver.Record(id, session, policy, store.generation, w.table[p].serial)};
      }
    }
  }

  method Record(store: Driver.Store)
    requires store.Recorded()
    modifies store`records, store`seen
    ensures store.Recorded() && old(store.records) <= store.records && old(store.seen) <= store.seen
    ensures store.seen - old(store.seen) <= store.records
  {
    var spawned := NewRecords(store);
    store.records := store.records + spawned;
    store.seen := store.seen + spawned;
  }

  /** Why a record is no longer there: its leader is gone, and unless somebody demanded its end it
      was retired on an observation since `start` that found its session empty. */
  ghost predicate Ended(start: World, store: Driver.Store, r: Driver.Record)
    reads store, store.m
  {
    && !Live(store.m.world, r.id.pid, r.serial)
    && (r !in store.demanded ==> Driver.Quiet(start, store.m.world, store.m.boot, r, false))
  }

  /** Each of these records is still there or has ended since `start`. */
  ghost predicate Accounted(start: World, store: Driver.Store, was: set<Driver.Record>)
    reads store, store.m
  {
    was <= store.seen && forall r :: r in was ==> r in store.records || Ended(start, store, r)
  }

  /** Verbs, processes and the drivers of children go on.  Records of new processes come only from
      verbs that were starting or were admitted meanwhile. */
  method Disturb(owner: Owned.Owned, store: Driver.Store)
    requires owner.Valid() && store.Recorded()
    modifies owner, store`records, store`seen, store`demanded, store.m`world
    ensures owner.Valid() && store.Recorded() && owner.lapses == old(owner.lapses)
    ensures Later(old(owner.View()), owner.View()) && Evolves(old(store.m.world), store.m.world)
    ensures old(owner.starting) == {} && owner.admissions == old(owner.admissions) ==> store.records <= old(store.records)
    ensures Moved(old(store.seen), old(store.demanded), store)
    ensures Accounted(old(store.m.world), store, old(store.records))
  {
    var starting, admissions := owner.starting, owner.admissions;
    owner.Interfere();
    MoveOn(store);
    if starting != {} || owner.admissions != admissions { Record(store); }
  }

  /** What was seen or demanded stays so, and what is newly seen is recorded. */
  ghost predicate Moved(seen: set<Driver.Record>, demanded: set<Driver.Record>, store: Driver.Store)
    reads store
  {
    seen <= store.seen && store.seen - seen <= store.records && demanded <= store.demanded
  }

  /** Processes move on, ends are demanded, and drivers retire records: of a demanded end when its
      leader is gone, of any other on an observation that found its scope quiet. */
  method MoveOn(store: Driver.Store)
    requires store.Recorded()
    modifies store`records, store`demanded, store.m`world
    ensures store.Recorded() && Evolves(old(store.m.world), store.m.world) && store.records <= old(store.records)
    ensures old(store.demanded) <= store.demanded
    ensures Accounted(old(store.m.world), store, old(store.records))
  {
    ghost var before := store.m.world;
    store.m.Interfere();
    store.StillRecorded(before, store.records);
    var steps: int :| steps >= 0;
    for i := 0 to steps
      invariant store.Recorded() && Evolves(before, store.m.world) && store.records <= old(store.records)
      invariant old(store.demanded) <= store.demanded
      invariant Accounted(before, store, old(store.records))
    {
      var r: Driver.Record, kind: bool := *, *;
      ghost var w, had := store.m.world, store.records;
      if r in store.records {
        if kind { EndDemanded(store, r); } else { RetireOne(store, r); }
        EvolvesTransitive(before, w, store.m.world);
        AccountedLater(before, w, store, old(store.records), had);
      }
    }
  }

  method EndDemanded(store: Driver.Store, r: Driver.Record)
    requires store.Recorded() && r in store.records
    modifies store`records, store`demanded
    ensures store.Recorded() && store.records <= old(store.records) && old(store.demanded) <= store.demanded
    ensures forall q :: q in old(store.records) - store.records ==> q in store.demanded && !Live(store.m.world, q.id.pid, q.serial)
  {
    store.demanded := store.demanded + {r};
    var w := store.m.world;
    if !Live(w, r.id.pid, r.serial) { store.records := store.records - {r}; }
  }

  method RetireOne(store: Driver.Store, r: Driver.Record)
    requires store.Recorded() && r in store.records
    modifies store`records, store.m`world
    ensures store.Recorded() && Evolves(old(store.m.world), store.m.world) && store.records <= old(store.records)
    ensures forall q :: q in old(store.records) - store.records ==>
              Driver.Quiet(old(store.m.world), store.m.world, store.m.boot, q, false)
  {
    ghost var w, had := store.m.world, store.records;
    var lands: bool := *;
    var ok;
    ghost var mid;
    ok, mid := store.RetireQuietScope(r, lands);
    store.StillRecorded(w, had);
  }

  /** Accounting goes on over a step that ended some of the records that were there. */
  lemma AccountedLater(start: World, w: World, store: Driver.Store, was: set<Driver.Record>, had: set<Driver.Record>)
    requires Evolves(start, w) && Evolves(w, store.m.world) && was <= store.seen
    requires forall r :: r in was && r !in had ==>
               && r.serial < w.nextSerial && !Live(w, r.id.pid, r.serial)
               && (r !in store.demanded ==> Driver.Quiet(start, w, store.m.boot, r, false))
    requires forall r :: r in had - store.records ==>
               && !Live(store.m.world, r.id.pid, r.serial)
               && (r !in store.demanded ==> Driver.Quiet(w, store.m.world, store.m.boot, r, false))
    ensures Accounted(start, store, was)
  {
    forall r | r in was && r !in store.records ensures Ended(start, store, r) {
      if r in had {
        if r !in store.demanded { Driver.QuietSince(start, w, store.m.world, store.m.boot, r, false); }
      } else {
        DeadStaysDead(w, store.m.world, r.id.pid, r.serial);
        if r !in store.demanded { Driver.QuietLater(start, w, store.m.world, store.m.boot, r, false); }
      }
    }
  }

  lemma QuietOn(start: World, w: World, store: Driver.Store, records: set<Driver.Record>, producers: set<Driver.Record>)
    requires Evolves(w, store.m.world)
    requires forall r :: r in records ==> r.serial < w.nextSerial && Driver.Quiet(start, w, store.m.boot, r, r in producers)
    ensures AllQuiet(start, store, records, producers)
  {
    forall r | r in records ensures Driver.Quiet(start, store.m.world, store.m.boot, r, r in producers) {
      Driver.QuietLater(start, w, store.m.world, store.m.boot, r, r in producers);
    }
  }

  lemma QuietFrom(start: World, w: World, store: Driver.Store, records: set<Driver.Record>, producers: set<Driver.Record>)
    requires Evolves(start, w) && AllQuiet(w, store, records, producers)
    ensures AllQuiet(start, store, records, producers)
  {
    forall r | r in records ensures Driver.Quiet(start, store.m.world, store.m.boot, r, r in producers) {
      Driver.QuietSince(start, w, store.m.world, store.m.boot, r, r in producers);
    }
  }

  class NaturalDrain {
    const owner: Owned.Owned
    const store: Driver.Store
    const lease: nat
    const producers: set<Driver.Record>

    constructor (owner: Owned.Owned, store: Driver.Store, lease: nat, producers: set<Driver.Record>)
      ensures this.owner == owner && this.store == store && this.lease == lease && this.producers == producers
    {
      this.owner, this.store, this.lease, this.producers := owner, store, lease, producers;
    }

    ghost predicate Valid()
      reads this, owner, store, store.m
    {
      owner.Valid() && store.Recorded() && lease < |owner.leases|
    }

    predicate Held()
      reads this, owner
    {
      lease < |owner.leases| && owner.drain == Some(lease) && !owner.leases[lease].committed
    }

    /** What may keep an observation since `start` from being complete, besides a verb that is starting:
        the time was up, or a record there was, or somebody in its scope, stood in the way. */
    ghost predicate Delayed(start: World)
      reads this, store, store.m
    {
      store.m.Expired(store.deadline) || Driver.Blocked(start, store.m.world, store.seen, producers, store.seen)
    }

    /** One observation under the lease, between two looks at the scope while everything goes on.
        A result that is not busy saw the lease held and one admission count at both ends; a
        complete one also found nothing starting, at either end, and every recorded scope quiet. */
    method Observe() returns (busy: bool, complete: bool)
      requires Valid()
      modifies owner, store`records, store`seen, store`demanded, store.m`world
      ensures Valid() && Later(old(owner.View()), owner.View()) && Evolves(old(store.m.world), store.m.world)
      ensures !busy ==> old(Held()) && Held() && owner.admissions == old(owner.admissions)
      ensures busy ==> !Held()
      ensures store.m.sound && !busy && !complete ==> old(owner.starting) != {} || Delayed(old(store.m.world))
      ensures complete ==> !busy && old(owner.starting) == {} && owner.starting == {}
      ensures complete ==> AllQuiet(old(store.m.world), store, store.records, producers)
    {
      Owned.LaterReflexive(owner.View());
      EvolvesReflexive(store.m.world);
      if !Held() { return true, false; }
      ghost var s := owner.View();
      var admissions, pending := owner.admissions, owner.starting;
      var quiet := Look();
      if Held() { HeldMeansQuiet(s, owner.View(), lease); }
      busy := owner.admissions != admissions || !Held();
      complete := !busy && quiet && pending == {};
    }

    /** The observation itself, with everything going on before and after it. */
    method Look() returns (quiet: bool)
      requires Valid()
      modifies owner, store`records, store`seen, store`demanded, store.m`world
      ensures Valid() && Later(old(owner.View()), owner.View()) && Evolves(old(store.m.world), store.m.world)
      ensures quiet && old(Held()) && Held() && old(owner.starting) == {} ==>
                AllQuiet(old(store.m.world), store, store.records, producers)
      ensures store.m.sound && !quiet ==> Delayed(old(store.m.world))
    {
      ghost var s, w := owner.View(), store.m.world;
      quiet := LookNow();
      ghost var s1, w1, records, seen := owner.View(), store.m.world, store.records, store.seen;
      ghost var blocked := Driver.Blocked(w, w1, seen, producers, seen);
      Disturb(owner, store);
      LaterTransitive(s, s1, owner.View());
      EvolvesTransitive(w, w1, store.m.world);
      EvolvesReflexive(w);
      if blocked { StillBlocked(w, w, w1, seen); }
      if quiet && HoldsLease(s, lease) && Held() && s.starting == {} {
        Between(s, s1, owner.View(), lease);
        QuietOn(w, w1, store, records, producers);
      }
    }

    method LookNow() returns (quiet: bool)
      requires Valid()
      modifies owner, store`records, store`seen, store`demanded, store.m`world
      ensures Valid() && Later(old(owner.View()), owner.View()) && Evolves(old(store.m.world), store.m.world)
      ensures quiet ==> AllQuiet(old(store.m.world), store, store.records, producers)
      ensures store.m.sound && !quiet ==> Delayed(old(store.m.world))
    {
      ghost var w := store.m.world;
      Disturb(owner, store);
      ghost var w1 := store.m.world;
      quiet := store.Observe(producers);
      EvolvesTransitive(w, w1, store.m.world);
      EvolvesReflexive(store.m.world);
      if quiet {
        QuietFrom(w, w1, store, store.records, producers);
      } else if store.m.sound && !store.m.Expired(store.deadline) {
        StillBlocked(w, w1, store.m.world, store.records);
      }
    }

    lemma StillBlocked(start: World, mid: World, w: World, records: set<Driver.Record>)
      requires Evolves(start, mid) && Evolves(w, store.m.world) && records <= store.seen
      requires Driver.Blocked(mid, w, records, producers, records)
      ensures Driver.Blocked(start, store.m.world, store.seen, producers, store.seen)
    {
      var r :| r in records && (!Driver.Durable(r) || Driver.Occupied(mid, w, r, r in producers));
      if Driver.Occupied(mid, w, r, r in producers) {
        Driver.OccupiedLater(start, mid, w, store.m.world, r, r in producers);
      }
    }

    /** Polls until an observation is complete.  A proof it returns is the lease's latest, minted
        while the lease is held and nothing is starting, after an observation under that lease
        which found every recorded scope quiet; they are quiet still. */
    method Wait(polls: nat) returns (proof: Option<Proof>)
      requires Valid()
      modifies owner, store`records, store`seen, store`demanded, store.m`world
      ensures Valid() && Evolves(old(store.m.world), store.m.world)
      ensures proof.Some? ==>
                && Held() && owner.starting == {} && Commits(owner.View(), lease, proof.value)
                && AllQuiet(old(store.m.world), store, store.records, producers)
      ensures proof.None? && store.m.sound && polls > 0 ==> !Held() || old(owner.starting) != {} || Delayed(old(store.m.world))
      ensures Later(old(owner.View()), owner.View())
    {
      EvolvesReflexive(store.m.world);
      Owned.LaterReflexive(owner.View());
      for i := 0 to polls
        invariant Valid() && Evolves(old(store.m.world), store.m.world) && Later(old(owner.View()), owner.View())
        invariant if i > 0 then old(Held()) && Held() else owner.View() == old(owner.View())
        invariant i > 0 && store.m.sound ==> old(owner.starting) != {} || Delayed(old(store.m.world))
      {
        var busy, complete := ObserveSince(old(store.m.world), old(owner.View()));
        if busy { return None; }
        if complete {
          ghost var s := owner.View();
          proof := MintQuiet(old(store.m.world));
          LaterTransitive(old(owner.View()), s, owner.View());
          return;
        }
      }
      proof := None;
    }

    /** One observation, told from the beginning of the wait. */
    method ObserveSince(ghost start: World, ghost s: State) returns (busy: bool, complete: bool)
      requires Valid() && Evolves(start, store.m.world) && Inv(s) && Later(s, owner.View())
      requires owner.View() == s || (HoldsLease(s, lease) && Held())
      modifies owner, store`records, store`seen, store`demanded, store.m`world
      ensures Valid() && Evolves(start, store.m.world) && Later(s, owner.View())
      ensures if busy then !Held() else HoldsLease(s, lease) && Held()
      ensures complete ==> !busy && owner.starting == {} && AllQuiet(start, store, store.records, producers)
      ensures store.m.sound && !busy && !complete ==> s.starting != {} || Delayed(start)
    {
      ghost var w, t := store.m.world, owner.View();
      if Held() && HoldsLease(s, lease) { HeldMeansQuiet(s, t, lease); }
      busy, complete := Observe();
      EvolvesTransitive(start, w, store.m.world);
      LaterTransitive(s, t, owner.View());
      if complete { QuietFrom(start, w, store, store.records, producers); }
      if Driver.Blocked(w, store.m.world, store.seen, producers, store.seen) {
        EvolvesReflexive(store.m.world);
        StillBlocked(start, w, store.m.world, store.seen);
      }
    }

    /** Everything goes on once more, and then a proof is minted if the lease is still held. */
    method MintQuiet(ghost start: World) returns (proof: Option<Proof>)
      requires Valid() && Held() && owner.starting == {} && AllQuiet(start, store, store.records, producers)
      requires Evolves(start, store.m.world)
      modifies owner, store`records, store`seen, store`demanded, store.m`world
      ensures Valid() && Evolves(start, store.m.world) && Later(old(owner.View()), owner.View())
      ensures proof.Some? ==>
                && Held() && owner.starting == {} && Commits(owner.View(), lease, proof.value)
                && AllQuiet(start, store, store.records, producers)
      ensures proof.None? ==> !Held()
    {
      ghost var s, w, records := owner.View(), store.m.world, store.records;
      Disturb(owner, store);
      EvolvesTransitive(start, w, store.m.world);
      ghost var t := owner.View();
      StepInv(t, DoMint(lease));
      if Held() {
        HeldMeansQuiet(s, t, lease);
        QuietOn(start, w, store, records, producers);
      }
      proof := owner.Mint(lease);
      MintLater(s, t, lease);
    }

    /** Everything goes on, and then the proof is committed if nothing came between. */
    method CommitQuiet(proof: Proof, ghost start: World) returns (ok: bool)
      requires Valid() && Held() && owner.starting == {} && AllQuiet(start, store, store.records, producers)
      modifies owner, store`records, store`seen, store`demanded, store.m`world
      ensures owner.Valid() && store.Recorded()
      ensures ok ==> owner.closed && owner.starting == {} && AllQuiet(start, store, store.records, producers)
      ensures !ok ==> !Commits(owner.View(), lease, proof) && Later(old(owner.View()), owner.View())
    {
      ghost var s, w, records := owner.View(), store.m.world, store.records;
      Disturb(owner, store);
      ghost var t := owner.View();
      CommitStep(s, t, lease, proof);
      if Commits(t, lease, proof) { QuietOn(start, w, store, records, producers); }
      ok := owner.Commit(lease, proof);
    }
  }

  lemma MintLater(s: State, t: State, d: nat)
    requires Inv(t) && Later(s, t)
    ensures Later(s, Step(t, DoMint(d)))
  {
    RunLater(t, [DoMint(d)]);
    assert Run(t, [DoMint(d)]) == Run(Step(t, DoMint(d)), []);
    LaterTransitive(s, t, Step(t, DoMint(d)));
  }

  lemma CommitStep(s: State, t: State, d: nat, p: Proof)
    requires Inv(s) && Inv(t) && Later(s, t) && HoldsLease(s, d) && s.starting == {}
    ensures Inv(Step(t, DoCommit(d, p)))
    ensures Commits(t, d, p) ==> t.admissions == s.admissions && Step(t, DoCommit(d, p)).closed && Step(t, DoCommit(d, p)).starting == {}
  {
    StepInv(t, DoCommit(d, p));
    if Commits(t, d, p) { HeldMeansQuiet(s, t, d); }
  }

  lemma Between(s: State, m: State, t: State, d: nat)
    requires Inv(s) && Inv(m) && Inv(t) && Later(s, m) && Later(m, t) && Later(s, t)
    requires HoldsLease(s, d) && HoldsLease(t, d) && s.starting == {}
    ensures m.starting == {} && m.admissions == t.admissions && t.starting == {}
  {
    HeldMeansQuiet(s, t, d);
  }

  /** The records of these children. */
  function RecordsOf(children: set<nat>, recordOf: map<nat, Driver.Record>): set<Driver.Record> {
    set c | c in children && c in recordOf :: recordOf[c]
  }

  /** Begin, wait and commit, where `recordOf` names the record of each child the scope holds.
      Success closes the scope with nothing starting; the producers were children it held, and since
      the lease began every recorded scope was found quiet, the leaders of the producers' own
      records excepted; all are still. */
  method DrainNaturally(owner: Owned.Owned, store: Driver.Store, producers: set<nat>, recordOf: map<nat, Driver.Record>, polls: nat)
    returns (ok: bool)
    requires owner.Valid() && store.Recorded()
    modifies owner, store`records, store`seen, store`demanded, store.m`world
    ensures owner.Valid() && store.Recorded()
    ensures ok ==> && producers <= old(owner.children) && owner.closed && owner.starting == {}
                   && AllQuiet(old(store.m.world), store, store.records, RecordsOf(producers, recordOf))
    ensures !ok && store.m.sound && polls > 0 && Leasable(old(owner.View()), producers) ==>
              var lease := |old(owner.leases)|;
              || !HoldsLease(owner.View(), lease) || owner.leases[lease].serial > 1
              || old(owner.starting) != {} || store.m.Expired(store.deadline)
              || Driver.Blocked(old(store.m.world), store.m.world, store.seen, RecordsOf(producers, recordOf), store.seen)
  {
    StepInv(owner.View(), DoBegin(producers));
    var lease := owner.BeginNaturalDrain(producers);
    if lease.None? { return false; }
    var drain := new NaturalDrain(owner, store, lease.value, RecordsOf(producers, recordOf));
    var proof := drain.Wait(polls);
    if proof.None? { return false; }
    ok := drain.CommitQuiet(proof.value, old(store.m.world));
  }

  /** PreserveOwned settlement: refused under an uncommitted lease.  Success means the scope is closed
      with nothing unresolved, every child ever held exited provably, no record is left, and every
      record that was there at any time during the call has ended: its leader is gone, and unless
      somebody demanded its end its session was observed empty since the call began. */
  method SettleNatural(owner: Owned.Owned, store: Driver.Store, polls: nat, lands: set<Driver.Record>) returns (ok: bool)
    requires owner.Valid() && owner.policy == PreserveOwned && store.Recorded()
    modifies owner, store`records, store`seen, store`demanded, store.m`world
    ensures owner.Valid() && store.Recorded()
    ensures old(owner.drain).Some? && !old(owner.leases)[old(owner.drain).value].committed ==>
              !ok && owner.View() == old(owner.View()) && store.records == old(store.records)
    ensures ok ==> && owner.closed && owner.starting == {} && store.records == {}
                   && forall c :: 0 <= c < |owner.childs| ==> owner.childs[c].exit.Proven?
    ensures ok ==> forall r :: r in store.seen && (r in old(store.records) || r !in old(store.seen)) ==>
                     Ended(old(store.m.world), store, r)
    ensures !ok && owner.lapses == old(owner.lapses) && polls > 0 && store.m.sound ==>
              || (old(owner.drain).Some? && !old(owner.leases)[old(owner.drain).value].committed)
              || (exists c :: 0 <= c < |owner.childs| && owner.childs[c].exit.Undetermined?)
              || store.m.Expired(store.deadline)
              || Driver.Blocked(old(store.m.world), store.m.world, store.seen, {}, lands)
    ensures owner.lapses >= old(owner.lapses) && (ok ==> owner.lapses == old(owner.lapses))
  {
    ok := owner.AwaitNatural();
    if !ok { return; }
    Record(store);
    ok := RetireUntil(owner, store, polls, lands, old(store.seen) - old(store.records));
    EvolvesReflexive(store.m.world);
  }

  /** Retires quiet records, poll after poll, until none is left. */
  method RetireUntil(owner: Owned.Owned, store: Driver.Store, polls: nat, lands: set<Driver.Record>, ghost early: set<Driver.Record>)
    returns (ok: bool)
    requires owner.Valid() && store.Recorded() && store.seen - early <= store.records
    requires owner.closed && owner.starting == {} && forall c :: 0 <= c < |owner.childs| ==> owner.childs[c].exit.Proven?
    modifies owner, store`records, store`seen, store`demanded, store.m`world
    ensures owner.Valid() && store.Recorded() && owner.lapses == old(owner.lapses) && old(store.seen) <= store.seen
    ensures ok ==> && owner.closed && owner.starting == {} && store.records == {}
                   && (forall c :: 0 <= c < |owner.childs| ==> owner.childs[c].exit.Proven?)
                   && Accounted(old(store.m.world), store, store.seen - early)
    ensures !ok && polls > 0 && store.m.sound ==>
              store.m.Expired(store.deadline) || Driver.Blocked(old(store.m.world), store.m.world, store.seen, {}, lands)
  {
    ghost var s, start := owner.View(), store.m.world;
    Owned.LaterReflexive(s);
    EvolvesReflexive(start);
    for i := 0 to polls
      invariant owner.Valid() && store.Recorded() && Later(s, owner.View()) && Evolves(start, store.m.world)
      invariant Accounted(start, store, store.seen - early) && owner.lapses == old(owner.lapses) && old(store.seen) <= store.seen
      invariant i > 0 && store.m.sound ==>
                  store.m.Expired(store.deadline) || Driver.Blocked(start, store.m.world, store.seen, {}, lands)
    {
      ok := RetireAll(store, start, store.seen - early, lands);
      if ok {
        NothingNew(s, owner.View());
        return;
      }
      ghost var t := owner.View();
      DisturbAccounted(owner, store, start, early, lands);
      LaterTransitive(s, t, owner.View());
    }
    ok := false;
  }

  method RetireAll(store: Driver.Store, ghost start: World, ghost was: set<Driver.Record>, lands: set<Driver.Record>) returns (ok: bool)
    requires store.Recorded() && Evolves(start, store.m.world) && Accounted(start, store, was)
    modifies store`records, store.m`world
    ensures store.Recorded() && Evolves(start, store.m.world) && Accounted(start, store, was)
    ensures ok ==> store.records == {}
    ensures store.m.sound && !ok ==>
              store.m.Expired(store.deadline) || Driver.Blocked(start, store.m.world, store.seen, {}, lands)
  {
    ghost var w, had := store.m.world, store.records;
    ok := store.RetireQuiet(lands);
    EvolvesTransitive(start, w, store.m.world);
    EvolvesReflexive(store.m.world);
    if Driver.Blocked(w, store.m.world, had, {}, lands) {
      Driver.BlockedLater(start, w, store.m.world, store.m.world, had, store.seen, {}, lands);
    }
    AccountedLater(start, w, store, was, had);
  }

  method DisturbAccounted(owner: Owned.Owned, store: Driver.Store, ghost start: World, ghost early: set<Driver.Record>, ghost lands: set<Driver.Record>)
    requires owner.Valid() && store.Recorded() && Evolves(start, store.m.world) && Accounted(start, store, store.seen - early)
    modifies owner, store`records, store`seen, store`demanded, store.m`world
    ensures owner.Valid() && store.Recorded() && Later(old(owner.View()), owner.View())
    ensures Evolves(start, store.m.world) && Accounted(start, store, store.seen - early)
    ensures owner.lapses == old(owner.lapses) && old(store.seen) <= store.seen
    ensures Driver.Blocked(start, old(store.m.world), old(store.seen), {}, lands) ==>
              Driver.Blocked(start, store.m.world, store.seen, {}, lands)
  {
    ghost var w, had, was, seen := store.m.world, store.records, store.seen - early, store.seen;
    Disturb(owner, store);
    EvolvesReflexive(start);
    if Driver.Blocked(start, w, seen, {}, lands) {
      Driver.BlockedLater(start, start, w, store.m.world, seen, store.seen, {}, lands);
    }
    EvolvesTransitive(start, w, store.m.world);
    AccountedLater(start, w, store, was, had);
  }
}
