/** The ownership scope: reservations, held children, adopted records and the natural-drain
    lease, all behind one mutex.  Reservations, children, records and leases are named by the
    order in which they came into being; each event is one critical section. */
module Ownership {
  import opened Options
  import opened Policies

  /** How far the verb behind a reservation has come. */
  datatype Phase = Starting | Acted | Over

  /** `closes` counts how often the done channel was closed. */
  datatype Reservation = Reservation(
    child: Option<nat>, tracked: Option<nat>, unproven: bool, phase: Phase, closes: nat)

  datatype Exit = Running | Proven | Undetermined

  datatype Child = Child(owner: nat, exit: Exit)

  /** An adopted record; `settled` once it was stopped or released. */
  datatype Adopted = Adopted(owner: nat, settled: bool)

  datatype Lease = Lease(admissions: nat, serial: nat, committed: bool)

  datatype Proof = Proof(lease: nat, admissions: nat, serial: nat)

  datatype State = State(
    policy: Policy,
    closed: bool,
    drain: Option<nat>,
    admissions: nat,
    reservations: seq<Reservation>,
    starting: set<nat>,
    childs: seq<Child>,
    children: set<nat>,
    adopted: seq<Adopted>,
    tracked: set<nat>,
    leases: seq<Lease>)

  function Fresh(policy: Policy): State {
    State(policy, false, None, 0, [], {}, [], {}, [], {}, [])
  }

  // ----- Admission -----

  predicate Admits(s: State) { !s.closed && s.drain.None? }

  function Reserve(s: State): State {
    if !Admits(s) then s
    else s.(admissions := s.admissions + 1,
            reservations := s.reservations + [Reservation(None, None, false, Starting, 0)],
            starting := s.starting + {|s.reservations|})
  }

  function Resolve(s: State, r: nat): State
    requires r < |s.reservations|
  {
    if r !in s.starting then s
    else
      var res := s.reservations[r];
      s.(starting := s.starting - {r}, reservations := s.reservations[r := res.(closes := res.closes + 1)])
  }

  /** Whether the verb of reservation `r` may still act. */
  predicate Acting(s: State, r: nat) { r < |s.reservations| && s.reservations[r].phase.Starting? }

  function Hold(s: State, r: nat): State {
    if !Acting(s, r) then s
    else
      var res := s.reservations[r].(child := Some(|s.childs|), phase := Acted);
      Resolve(s.(reservations := s.reservations[r := res], childs := s.childs + [Child(r, Running)],
                 children := s.children + {|s.childs|}), r)
  }

  function Track(s: State, r: nat): State {
    if !Acting(s, r) then s
    else
      var res := s.reservations[r].(tracked := Some(|s.adopted|), phase := Acted);
      Resolve(s.(reservations := s.reservations[r := res], adopted := s.adopted + [Adopted(r, false)],
                 tracked := s.tracked + {|s.adopted|}), r)
  }

  /** Under PreserveOwned a failed start that proves no exit keeps its admission. */
  function MarkUnproven(s: State, r: nat): State {
    if !Acting(s, r) || !s.policy.PreserveOwned? then s
    else s.(reservations := s.reservations[r := s.reservations[r].(unproven := true, phase := Acted)])
  }

  function Abandon(s: State, r: nat): State {
    if r >= |s.reservations| || s.reservations[r].phase.Over? then s
    else
      var t := s.(reservations := s.reservations[r := s.reservations[r].(phase := Over)]);
      if t.reservations[r].unproven then t else Resolve(t, r)
  }

  // ----- The world moves -----

  function ChildExits(s: State, c: nat, proven: bool): State {
    if c >= |s.childs| || !s.childs[c].exit.Running? then s
    else s.(childs := s.childs[c := s.childs[c].(exit := if proven then Proven else Undetermined)])
  }

  function ReleaseOnExit(s: State, c: nat): State {
    if c < |s.childs| && s.childs[c].exit.Proven? then s.(children := s.children - {c}) else s
  }

  /** Stop or Release succeeded for an adopted record, by whoever asked. */
  function Untrack(s: State, t: nat): State {
    if t >= |s.adopted| then s
    else s.(adopted := s.adopted[t := s.adopted[t].(settled := true)], tracked := s.tracked - {t})
  }

  /** Closing admission: the first section of either settle. */
  function Shut(s: State): State {
    if s.policy.PreserveOwned? && s.drain.Some? && s.drain.value < |s.leases|
       && !s.leases[s.drain.value].committed
    then s
    else s.(closed := true)
  }

  // ----- The natural-drain lease -----

  predicate Leasable(s: State, producers: set<nat>) {
    s.policy.PreserveOwned? && !s.closed && s.drain.None? && producers <= s.children
  }

  function Begin(s: State, producers: set<nat>): State {
    if !Leasable(s, producers) then s
    else s.(leases := s.leases + [Lease(s.admissions, 0, false)], drain := Some(|s.leases|))
  }

  predicate HoldsLease(s: State, d: nat) {
    d < |s.leases| && s.drain == Some(d) && !s.leases[d].committed
  }

  /** The last section of a wait whose observation was complete. */
  function Mint(s: State, d: nat): (State, Option<Proof>) {
    if !HoldsLease(s, d) || s.starting != {} then (s, None)
    else
      var lease := s.leases[d].(serial := s.leases[d].serial + 1);
      (s.(leases := s.leases[d := lease]), Some(Proof(d, lease.admissions, lease.serial)))
  }

  predicate Commits(s: State, d: nat, p: Proof) {
    && HoldsLease(s, d) && p.lease == d && p.serial != 0 && p.serial == s.leases[d].serial
    && p.admissions == s.leases[d].admissions && s.admissions == s.leases[d].admissions
    && s.starting == {}
  }

  function Commit(s: State, d: nat, p: Proof): State {
    if !Commits(s, d, p) then s
    else s.(leases := s.leases[d := s.leases[d].(committed := true)], closed := true)
  }

  function Abort(s: State, d: nat): State {
    if HoldsLease(s, d) && !s.closed then s.(drain := None) else s
  }

  // ----- Runs -----

  datatype Event =
    | DoReserve | DoHold(r: nat) | DoTrack(r: nat) | DoMarkUnproven(r: nat) | DoAbandon(r: nat)
    | DoChildExits(c: nat, proven: bool) | DoReleaseOnExit(c: nat) | DoUntrack(t: nat) | DoShut
    | DoBegin(producers: set<nat>) | DoMint(d: nat) | DoCommit(d: nat, proof: Proof) | DoAbort(d: nat)

  function Step(s: State, e: Event): State {
    match e
    case DoReserve => Reserve(s)
    case DoHold(r) => Hold(s, r)
    case DoTrack(r) => Track(s, r)
    case DoMarkUnproven(r) => MarkUnproven(s, r)
    case DoAbandon(r) => Abandon(s, r)
    case DoChildExits(c, p) => ChildExits(s, c, p)
    case DoReleaseOnExit(c) => ReleaseOnExit(s, c)
    case DoUntrack(t) => Untrack(s, t)
    case DoShut => Shut(s)
    case DoBegin(ps) => Begin(s, ps)
    case DoMint(d) => Mint(s, d).0
    case DoCommit(d, p) => Commit(s, d, p)
    case DoAbort(d) => Abort(s, d)
  }

  function Run(s: State, es: seq<Event>): State
    decreases |es|
  {
    if es == [] then s else Run(Step(s, es[0]), es[1..])
  }

  // ----- The invariant -----

  ghost predicate ReservationsOk(s: State) {
    && s.admissions == |s.reservations|
    && (forall r :: r in s.starting ==> r < |s.reservations|)
    && (forall r :: 0 <= r < |s.reservations| ==>
          var res := s.reservations[r];
          && res.closes == (if r in s.starting then 0 else 1)
          && (r in s.starting ==> res.child.None? && res.tracked.None?)
          && (res.phase.Starting? ==> r in s.starting && !res.unproven)
          && (res.child.Some? ==> res.child.value < |s.childs|)
          && (res.tracked.Some? ==> res.tracked.value < |s.adopted|)
          && (res.unproven ==> s.policy.PreserveOwned?)
          && (!res.unproven && !res.phase.Starting? ==> r !in s.starting))
  }

  ghost predicate HoldingsOk(s: State) {
    && (forall c :: c in s.children ==> c < |s.childs|)
    && (forall c :: 0 <= c < |s.childs| ==>
          && s.childs[c].owner < |s.reservations|
          && s.reservations[s.childs[c].owner].child == Some(c)
          && (c in s.children || s.childs[c].exit.Proven?))
    && (forall t :: t in s.tracked ==> t < |s.adopted|)
    && (forall t :: 0 <= t < |s.adopted| ==>
          && s.adopted[t].owner < |s.reservations|
          && s.reservations[s.adopted[t].owner].tracked == Some(t)
          && (t in s.tracked || s.adopted[t].settled))
  }

  ghost predicate LeasesOk(s: State) {
    && (s.drain.Some? ==>
          && s.drain.value < |s.leases| && s.leases[s.drain.value].admissions == s.admissions
          && s.policy.PreserveOwned?)
    && (forall d :: 0 <= d < |s.leases| && s.leases[d].committed ==>
          s.drain == Some(d) && s.closed && s.starting == {})
  }

  ghost predicate Inv(s: State) { ReservationsOk(s) && HoldingsOk(s) && LeasesOk(s) }

  lemma HoldReservations(s: State, r: nat)
    requires Inv(s)
    ensures ReservationsOk(Hold(s, r))
  {
  }

  lemma TrackReservations(s: State, r: nat)
    requires Inv(s)
    ensures ReservationsOk(Track(s, r))
  {
  }

  lemma AbandonReservations(s: State, r: nat)
    requires ReservationsOk(s)
    ensures ReservationsOk(Abandon(s, r))
  {
  }

  lemma MarkReservations(s: State, r: nat)
    requires ReservationsOk(s)
    ensures ReservationsOk(MarkUnproven(s, r))
  {
  }

  /** Steps that leave the reservations alone. */
  lemma QuietReservations(s: State, t: State)
    requires ReservationsOk(s)
    requires t.reservations == s.reservations && t.starting == s.starting && t.policy == s.policy
    requires t.admissions == s.admissions && |t.childs| >= |s.childs| && |t.adopted| >= |s.adopted|
    ensures ReservationsOk(t)
  {
  }

  lemma StepReservations(s: State, e: Event)
    requires Inv(s)
    ensures ReservationsOk(Step(s, e))
  {
    match e
    case DoReserve =>
    case DoHold(r) => HoldReservations(s, r);
    case DoTrack(r) => TrackReservations(s, r);
    case DoMarkUnproven(r) => MarkReservations(s, r);
    case DoAbandon(r) => AbandonReservations(s, r);
    case _ => QuietReservations(s, Step(s, e));
  }

  lemma HoldHoldings(s: State, r: nat)
    requires Inv(s)
    ensures HoldingsOk(Hold(s, r))
  {
  }

  /** Steps that keep what each reservation holds. */
  lemma QuietHoldings(s: State, t: State)
    requires HoldingsOk(s)
    requires t.children == s.children && t.childs == s.childs && t.tracked == s.tracked && t.adopted == s.adopted
    requires |t.reservations| >= |s.reservations|
    requires forall r :: 0 <= r < |s.reservations| ==>
               t.reservations[r].child == s.reservations[r].child && t.reservations[r].tracked == s.reservations[r].tracked
    ensures HoldingsOk(t)
  {
  }

  lemma AbandonHoldings(s: State, r: nat)
    requires Inv(s)
    ensures HoldingsOk(Abandon(s, r)) && HoldingsOk(MarkUnproven(s, r))
  {
    QuietHoldings(s, Abandon(s, r));
    QuietHoldings(s, MarkUnproven(s, r));
  }

  lemma TrackHoldings(s: State, r: nat)
    requires Inv(s)
    ensures HoldingsOk(Track(s, r))
  {
  }

  lemma StepHoldings(s: State, e: Event)
    requires Inv(s)
    ensures HoldingsOk(Step(s, e))
  {
    match e
    case DoHold(r) => HoldHoldings(s, r);
    case DoTrack(r) => TrackHoldings(s, r);
    case DoMarkUnproven(r) => AbandonHoldings(s, r);
    case DoAbandon(r) => AbandonHoldings(s, r);
    case DoChildExits(c, p) => ExitHoldings(s, c, p);
    case DoReleaseOnExit(c) => ReleaseHoldings(s, c);
    case DoUntrack(t) => UntrackHoldings(s, t);
    case DoReserve => QuietHoldings(s, Reserve(s));
    case DoShut => QuietHoldings(s, Shut(s));
    case DoBegin(ps) => QuietHoldings(s, Begin(s, ps));
    case DoMint(d) => QuietHoldings(s, Mint(s, d).0);
    case DoCommit(d, p) => QuietHoldings(s, Commit(s, d, p));
    case DoAbort(d) => QuietHoldings(s, Abort(s, d));
  }

  lemma ExitHoldings(s: State, c: nat, proven: bool)
    requires HoldingsOk(s)
    ensures HoldingsOk(ChildExits(s, c, proven))
  {
  }

  lemma ReleaseHoldings(s: State, c: nat)
    requires HoldingsOk(s)
    ensures HoldingsOk(ReleaseOnExit(s, c))
  {
  }

  lemma UntrackHoldings(s: State, t: nat)
    requires HoldingsOk(s)
    ensures HoldingsOk(Untrack(s, t))
  {
  }

  lemma StepLeases(s: State, e: Event)
    requires LeasesOk(s)
    ensures LeasesOk(Step(s, e))
  {
  }

  lemma StepInv(s: State, e: Event)
    requires Inv(s)
    ensures Inv(Step(s, e))
  {
    StepReservations(s, e);
    StepHoldings(s, e);
    StepLeases(s, e);
  }

  // ----- What every run keeps -----

  /** A resolved reservation stays resolved with what it resolved to, and a closed scope
      admits nothing. */
  ghost predicate LaterVerbs(s: State, t: State) {
    && t.policy == s.policy
    && (s.closed ==> t.closed && t.admissions == s.admissions)
    && |s.reservations| <= |t.reservations|
    && (forall r :: 0 <= r < |s.reservations| && r !in s.starting ==>
          && r !in t.starting
          && t.reservations[r].child == s.reservations[r].child
          && t.reservations[r].tracked == s.reservations[r].tracked)
    && (forall r :: r in t.starting ==> r in s.starting || |s.reservations| <= r)
  }

  /** Proofs are kept, and what is new belongs to a verb that was still starting or is new itself. */
  ghost predicate LaterChilds(s: State, t: State) {
    && |s.childs| <= |t.childs|
    && (forall c :: 0 <= c < |s.childs| ==>
          t.childs[c].owner == s.childs[c].owner && (!s.childs[c].exit.Running? ==> t.childs[c].exit == s.childs[c].exit))
    && (forall c :: |s.childs| <= c < |t.childs| ==>
          t.childs[c].owner in s.starting || |s.reservations| <= t.childs[c].owner)
  }

  ghost predicate LaterAdopted(s: State, t: State) {
    && |s.adopted| <= |t.adopted|
    && (forall a :: 0 <= a < |s.adopted| ==>
          t.adopted[a].owner == s.adopted[a].owner && (s.adopted[a].settled ==> t.adopted[a].settled))
    && (forall a :: |s.adopted| <= a < |t.adopted| ==>
          t.adopted[a].owner in s.starting || |s.reservations| <= t.adopted[a].owner)
  }

  /** A lease that is not held is never held again. */
  ghost predicate LaterLeases(s: State, t: State) {
    && |s.leases| <= |t.leases|
    && (forall d :: 0 <= d < |s.leases| ==>
          && t.leases[d].admissions == s.leases[d].admissions && s.leases[d].serial <= t.leases[d].serial
          && (s.leases[d].committed ==> t.leases[d].committed)
          && (s.drain != Some(d) ==> t.drain != Some(d)))
  }

  /** How the scope may change between two moments, whatever the verbs do. */
  ghost predicate Later(s: State, t: State) {
    LaterVerbs(s, t) && LaterChilds(s, t) && LaterAdopted(s, t) && LaterLeases(s, t)
  }

  lemma StepLaterVerbs(s: State, e: Event)
    requires ReservationsOk(s)
    ensures LaterVerbs(s, Step(s, e))
  {
  }

  lemma StepLaterHoldings(s: State, e: Event)
    requires ReservationsOk(s)
    ensures LaterChilds(s, Step(s, e)) && LaterAdopted(s, Step(s, e))
  {
  }

  lemma StepLaterLeases(s: State, e: Event)
    requires LeasesOk(s)
    ensures LaterLeases(s, Step(s, e))
  {
  }

  lemma LaterTransitive(s: State, t: State, u: State)
    requires Later(s, t) && Later(t, u)
    ensures Later(s, u)
  {
  }

  lemma {:induction false} RunLater(s: State, es: seq<Event>)
    requires Inv(s)
    ensures Inv(Run(s, es)) && Later(s, Run(s, es))
    decreases |es|
  {
    if es != [] {
      var t := Step(s, es[0]);
      StepInv(s, es[0]);
      StepLaterVerbs(s, es[0]);
      StepLaterHoldings(s, es[0]);
      StepLaterLeases(s, es[0]);
      RunLater(t, es[1..]);
      LaterTransitive(s, t, Run(t, es[1..]));
    }
  }

  /** Whatever races, no reservation's done channel is closed twice, a child leaves the scope
      only with a proven exit, and an adopted record only once it was stopped or released. */
  lemma ScopeAccounts(policy: Policy, es: seq<Event>)
    ensures var s := Run(Fresh(policy), es);
            && (forall r :: 0 <= r < |s.reservations| ==> s.reservations[r].closes <= 1)
            && (forall c :: 0 <= c < |s.childs| ==> c in s.children || s.childs[c].exit.Proven?)
            && (forall a :: 0 <= a < |s.adopted| ==> a in s.tracked || s.adopted[a].settled)
  {
    RunLater(Fresh(policy), es);
  }

  /** While one lease is held the admission count stands still. */
  lemma LeaseFreezesAdmission(policy: Policy, es: seq<Event>, more: seq<Event>)
    ensures var s := Run(Fresh(policy), es);
            var t := Run(s, more);
            s.drain.Some? && t.drain == s.drain ==> t.admissions == s.admissions
  {
    var s := Run(Fresh(policy), es);
    RunLater(Fresh(policy), es);
    RunLater(s, more);
  }

  /** A proof is good only under the lease it was minted for and only until that lease mints
      another: once either is gone, no commit accepts it in any continuation. */
  lemma StaleProofRefusedForever(policy: Policy, es: seq<Event>, more: seq<Event>, d: nat, p: Proof)
    requires var s := Run(Fresh(policy), es);
             p.lease < |s.leases| && (s.drain != Some(p.lease) || p.serial < s.leases[p.lease].serial)
    ensures !Commits(Run(Run(Fresh(policy), es), more), d, p)
  {
    var s := Run(Fresh(policy), es);
    RunLater(Fresh(policy), es);
    RunLater(s, more);
  }

  /** A closed scope with nothing starting gains nothing. */
  lemma NothingNew(s: State, t: State)
    requires ReservationsOk(s) && Inv(t) && Later(s, t) && s.closed && s.starting == {}
    ensures t.closed && t.starting == {} && |t.childs| == |s.childs| && |t.adopted| == |s.adopted|
  {
    assert t.childs != [] ==> t.childs[|t.childs| - 1].owner < |t.reservations|;
    assert t.adopted != [] ==> t.adopted[|t.adopted| - 1].owner < |t.reservations|;
  }

  /** A commit finds nothing starting and the very admissions of its lease, and nothing is ever
      admitted, started or unresolved after it. */
  lemma CommitIsFinal(policy: Policy, es: seq<Event>, d: nat, p: Proof, more: seq<Event>)
    requires Commits(Run(Fresh(policy), es), d, p)
    ensures var s := Run(Fresh(policy), es);
            var t := Run(Commit(s, d, p), more);
            && s.starting == {} && s.admissions == s.leases[d].admissions
            && t.closed && !Admits(t) && t.admissions == s.admissions && t.starting == {}
            && |t.childs| == |s.childs| && |t.adopted| == |s.adopted|
  {
    var s := Run(Fresh(policy), es);
    RunLater(Fresh(policy), es);
    CommitCloses(s, d, p);
    RunLater(Commit(s, d, p), more);
    NothingNew(Commit(s, d, p), Run(Commit(s, d, p), more));
  }

  lemma CommitCloses(s: State, d: nat, p: Proof)
    requires Inv(s) && Commits(s, d, p)
    ensures var t := Commit(s, d, p);
            && Inv(t) && t.closed && t.starting == {} && s.starting == {} && t.admissions == s.admissions
            && s.admissions == s.leases[d].admissions && t.childs == s.childs && t.adopted == s.adopted
  {
    StepInv(s, DoCommit(d, p));
  }

  /** A proof commits exactly when its lease is still held, uncommitted, has minted nothing
      since and nothing is starting; the one just minted always does. */
  lemma FreshProofCommits(policy: Policy, es: seq<Event>, d: nat)
    requires HoldsLease(Run(Fresh(policy), es), d) && Run(Fresh(policy), es).starting == {}
    ensures var (t, p) := Mint(Run(Fresh(policy), es), d); p.Some? && Commits(t, d, p.value)
  {
    RunLater(Fresh(policy), es);
  }

  /** Between two moments at which one lease is held nothing was admitted, so if nothing was
      starting at the first, nothing is at the second. */
  lemma HeldMeansQuiet(s: State, t: State, d: nat)
    requires Inv(s) && Inv(t) && Later(s, t) && HoldsLease(s, d) && HoldsLease(t, d)
    ensures t.admissions == s.admissions && |t.reservations| == |s.reservations|
    ensures s.starting == {} ==> t.starting == {}
  {
  }

  // ----- What a settle proves -----

  /** The reservations in `rs` are resolved, and `waited` and `stopped` name what they started. */
  ghost predicate Collected(t: State, rs: set<nat>, waited: set<nat>, stopped: set<nat>) {
    forall r :: r in rs ==>
      && r < |t.reservations| && r !in t.starting
      && (t.reservations[r].child.Some? ==> t.reservations[r].child.value in waited)
      && (t.reservations[r].tracked.Some? ==> t.reservations[r].tracked.value in stopped)
  }

  ghost predicate AllExited(t: State, waited: set<nat>) {
    forall c :: c in waited ==> c < |t.childs| && t.childs[c].exit.Proven?
  }

  ghost predicate AllSettled(t: State, stopped: set<nat>) {
    forall a :: a in stopped ==> a < |t.adopted| && t.adopted[a].settled
  }

  /** Nothing the scope ever held is unaccounted for. */
  ghost predicate Drained(t: State) {
    && t.starting == {}
    && (forall c :: 0 <= c < |t.childs| ==> t.childs[c].exit.Proven?)
    && (forall a :: 0 <= a < |t.adopted| ==> t.adopted[a].settled)
  }

  /** Snapshots taken as admission closed, plus what the starting verbs resolved to, cover every
      child and record there ever was. */
  lemma SnapshotsCover(s: State, t: State, waited: set<nat>, stopped: set<nat>)
    requires Inv(s) && Inv(t) && Later(s, t) && s.closed
    requires s.children <= waited && s.tracked <= stopped
    requires Collected(t, s.starting, waited, stopped) && AllExited(t, waited) && AllSettled(t, stopped)
    ensures Drained(t)
  {
    forall c | 0 <= c < |t.childs| ensures t.childs[c].exit.Proven? {
      var r := t.childs[c].owner;
      assert t.reservations[r].child == Some(c);
      if c < |s.childs| { assert c in s.children || s.childs[c].exit.Proven?; }
    }
    forall a | 0 <= a < |t.adopted| ensures t.adopted[a].settled {
      var r := t.adopted[a].owner;
      assert t.reservations[r].tracked == Some(a);
      if a < |s.adopted| { assert a in s.tracked || s.adopted[a].settled; }
    }
  }

  lemma CollectedLater(s: State, t: State, rs: set<nat>, waited: set<nat>, stopped: set<nat>)
    requires Later(s, t) && Collected(s, rs, waited, stopped)
    ensures Collected(t, rs, waited, stopped)
  {
  }

  /** One more resolved reservation, with what it started added. */
  lemma CollectedOne(t: State, rs: set<nat>, r: nat, waited: set<nat>, stopped: set<nat>)
    requires r < |t.reservations| && r !in t.starting
    requires t.reservations[r].child.Some? ==> t.reservations[r].child.value in waited
    requires t.reservations[r].tracked.Some? ==> t.reservations[r].tracked.value in stopped
    requires exists w, p :: w <= waited && p <= stopped && Collected(t, rs, w, p)
    ensures Collected(t, rs + {r}, waited, stopped)
  {
  }

  lemma AllLater(s: State, t: State, waited: set<nat>, stopped: set<nat>)
    requires Later(s, t)
    ensures AllExited(s, waited) ==> AllExited(t, waited)
    ensures AllSettled(s, stopped) ==> AllSettled(t, stopped)
  {
  }
}
