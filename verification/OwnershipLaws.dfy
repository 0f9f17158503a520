/** What each verb does to the ownership scope, told by what the scope admits, holds and still waits
    for, in every state a run reaches. */
module OwnershipLaws {
  import opened Options
  import opened Policies
  import opened Ownership

  lemma Reached(policy: Policy, es: seq<Event>)
    ensures Inv(Run(Fresh(policy), es))
  {
    RunLater(Fresh(policy), es);
  }

  /** What the scope holds: children, adopted records and leases. */
  ghost predicate SameHoldings(s: State, t: State) {
    t.childs == s.childs && t.children == s.children && t.adopted == s.adopted && t.tracked == s.tracked
  }

  ghost predicate SameAdmission(s: State, t: State) {
    t.closed == s.closed && t.drain == s.drain && t.leases == s.leases && t.admissions == s.admissions
  }

  /** A verb is admitted exactly when the scope is open and no lease is held; it is then starting. */
  lemma ReserveDoes(policy: Policy, es: seq<Event>)
    ensures var s := Run(Fresh(policy), es);
            var t := Step(s, DoReserve);
            if !s.closed && s.drain.None? then
              && t.admissions == s.admissions + 1 && t.starting == s.starting + {|s.reservations|}
              && |s.reservations| !in s.starting && SameHoldings(s, t) && t.drain == s.drain && !t.closed
            else t == s
  {
    Reached(policy, es);
  }

  /** The verb of a reservation can still act. */
  predicate Pending(s: State, r: nat) { r < |s.reservations| && s.reservations[r].phase.Starting? }

  /** A started child is held, belongs to its reservation, and resolves it: nothing else moves. */
  lemma HoldDoes(policy: Policy, es: seq<Event>, r: nat)
    ensures var s := Run(Fresh(policy), es);
            var t := Step(s, DoHold(r));
            if Pending(s, r) then
              && t.childs == s.childs + [Child(r, Running)] && t.children == s.children + {|s.childs|}
              && r in s.starting && t.starting == s.starting - {r} && t.reservations[r].child == Some(|s.childs|)
              && t.reservations[r].closes == 1 && t.adopted == s.adopted && t.tracked == s.tracked && SameAdmission(s, t)
            else t == s
  {
    Reached(policy, es);
  }

  /** And so is an adopted record. */
  lemma TrackDoes(policy: Policy, es: seq<Event>, r: nat)
    ensures var s := Run(Fresh(policy), es);
            var t := Step(s, DoTrack(r));
            if Pending(s, r) then
              && t.adopted == s.adopted + [Adopted(r, false)] && t.tracked == s.tracked + {|s.adopted|}
              && r in s.starting && t.starting == s.starting - {r} && t.reservations[r].tracked == Some(|s.adopted|)
              && t.reservations[r].closes == 1 && t.childs == s.childs && t.children == s.children && SameAdmission(s, t)
            else t == s
  {
    Reached(policy, es);
  }

  /** A verb that ends resolves its reservation, unless its start went unproven under PreserveOwned:
      that one is never resolved. */
  lemma AbandonDoes(policy: Policy, es: seq<Event>, r: nat)
    requires r < |Run(Fresh(policy), es).reservations|
    ensures var s := Run(Fresh(policy), es);
            var t := Step(s, DoAbandon(r));
            && SameHoldings(s, t) && SameAdmission(s, t)
            && t.starting == (if s.reservations[r].unproven then s.starting else s.starting - {r})
  {
    Reached(policy, es);
    AbandonOf(Run(Fresh(policy), es), r);
  }

  lemma AbandonOf(s: State, r: nat)
    requires ReservationsOk(s) && r < |s.reservations|
    ensures var t := Abandon(s, r);
            && SameHoldings(s, t) && SameAdmission(s, t)
            && t.starting == (if s.reservations[r].unproven then s.starting else s.starting - {r})
  {
  }

  lemma StepUnproven(s: State, e: Event, r: nat)
    requires Inv(s) && r < |s.reservations| && s.reservations[r].unproven && r in s.starting
    requires !s.reservations[r].phase.Starting?
    ensures var t := Step(s, e);
            r < |t.reservations| && t.reservations[r].unproven && r in t.starting && !t.reservations[r].phase.Starting?
  {
    match e
    case DoHold(q) =>
    case DoTrack(q) =>
    case DoMarkUnproven(q) =>
    case DoAbandon(q) =>
    case _ =>
  }

  lemma {:induction false} RunUnproven(s: State, more: seq<Event>, r: nat)
    requires Inv(s) && r < |s.reservations| && s.reservations[r].unproven && r in s.starting
    requires !s.reservations[r].phase.Starting?
    ensures r in Run(s, more).starting
    decreases |more|
  {
    if more != [] {
      StepUnproven(s, more[0], r);
      StepInv(s, more[0]);
      RunUnproven(Step(s, more[0]), more[1..], r);
    }
  }

  /** A start that went unproven keeps its reservation open in every continuation. */
  lemma UnprovenStaysOpen(policy: Policy, es: seq<Event>, r: nat, more: seq<Event>)
    requires policy.PreserveOwned? && Pending(Run(Fresh(policy), es), r)
    ensures r in Run(Step(Run(Fresh(policy), es), DoMarkUnproven(r)), more).starting
  {
    Reached(policy, es);
    PolicyKept(Fresh(policy), es);
    var s := Run(Fresh(policy), es);
    StepInv(s, DoMarkUnproven(r));
    MarkOf(s, r);
    RunUnproven(Step(s, DoMarkUnproven(r)), more, r);
  }

  lemma MarkOf(s: State, r: nat)
    requires ReservationsOk(s) && s.policy.PreserveOwned? && Pending(s, r)
    ensures var t := MarkUnproven(s, r);
            r < |t.reservations| && t.reservations[r].unproven && r in t.starting && !t.reservations[r].phase.Starting?
  {
  }

  lemma {:induction false} PolicyKept(s: State, es: seq<Event>)
    ensures Run(s, es).policy == s.policy
    decreases |es|
  {
    if es != [] {
      assert Step(s, es[0]).policy == s.policy;
      PolicyKept(Step(s, es[0]), es[1..]);
    }
  }

  /** A child is let go exactly when its exit is proven, and an adopted record when it was settled. */
  lemma LetGoDoes(policy: Policy, es: seq<Event>, c: nat, a: nat)
    ensures var s := Run(Fresh(policy), es);
            var t, u := Step(s, DoReleaseOnExit(c)), Step(s, DoUntrack(a));
            && t == s.(children := if c < |s.childs| && s.childs[c].exit.Proven? then s.children - {c} else s.children)
            && (a < |s.adopted| ==>
                  && u.adopted[a].settled && u.tracked == s.tracked - {a} && |u.adopted| == |s.adopted|
                  && (forall b :: 0 <= b < |s.adopted| && b != a ==> u.adopted[b] == s.adopted[b])
                  && u.childs == s.childs && u.children == s.children && u.starting == s.starting && SameAdmission(s, u))
            && (a >= |s.adopted| ==> u == s)
  {
  }

  /** A settle closes the scope, unless an uncommitted lease is held. */
  lemma ShutDoes(policy: Policy, es: seq<Event>)
    ensures var s := Run(Fresh(policy), es);
            var t := Step(s, DoShut);
            && SameHoldings(s, t) && t.starting == s.starting && t.drain == s.drain && t.leases == s.leases
            && (s.drain.Some? ==> s.drain.value < |s.leases|)
            && (t.closed <==> s.closed || s.drain.None? || s.leases[s.drain.value].committed)
  {
    Reached(policy, es);
  }

  /** A lease is minted exactly when the policy is PreserveOwned, the scope is open and unleased, and
      every producer is held; from then on nothing is admitted. */
  lemma BeginDoes(policy: Policy, es: seq<Event>, producers: set<nat>)
    ensures var s := Run(Fresh(policy), es);
            var t := Step(s, DoBegin(producers));
            if policy.PreserveOwned? && !s.closed && s.drain.None? && producers <= s.children then
              && HoldsLease(t, |s.leases|) && t.leases == s.leases + [Lease(s.admissions, 0, false)]
              && Step(t, DoReserve) == t && SameHoldings(s, t) && t.starting == s.starting && !t.closed
            else t == s
  {
    Reached(policy, es);
    PolicyKept(Fresh(policy), es);
  }

  /** A proof is minted exactly for the held lease with nothing starting, one above the last. */
  lemma MintDoes(policy: Policy, es: seq<Event>, d: nat)
    ensures var s := Run(Fresh(policy), es);
            var (t, p) := Mint(s, d);
            && t == Step(s, DoMint(d)) && (p.Some? <==> HoldsLease(s, d) && s.starting == {})
            && (p.None? ==> t == s)
            && (p.Some? ==> && p.value == Proof(d, s.admissions, s.leases[d].serial + 1)
                            && t.leases[d].serial == s.leases[d].serial + 1 && SameHoldings(s, t) && t.drain == s.drain)
  {
    Reached(policy, es);
  }

  /** A commit of anything but the held lease's latest proof with nothing starting changes nothing;
      that one closes the scope. */
  lemma CommitDoes(policy: Policy, es: seq<Event>, d: nat, p: Proof)
    ensures var s := Run(Fresh(policy), es);
            var t := Step(s, DoCommit(d, p));
            if HoldsLease(s, d) && p == Proof(d, s.admissions, s.leases[d].serial) && p.serial != 0 && s.starting == {} then
              t.closed && t.leases[d].committed && SameHoldings(s, t) && t.admissions == s.admissions
            else t == s
  {
    Reached(policy, es);
  }

  /** Aborting a held, uncommitted lease of an open scope reopens admission, and no proof of that lease
      commits in any continuation; anything else changes nothing. */
  lemma AbortDoes(policy: Policy, es: seq<Event>, d: nat)
    ensures var s := Run(Fresh(policy), es);
            var t := Step(s, DoAbort(d));
            if HoldsLease(s, d) && !s.closed then
              && !t.closed && t.drain.None? && Step(t, DoReserve).admissions == s.admissions + 1
              && SameHoldings(s, t) && t.starting == s.starting && t.leases == s.leases && t.admissions == s.admissions
            else t == s
  {
    Reached(policy, es);
  }

  lemma AbortedNeverCommits(policy: Policy, es: seq<Event>, d: nat, more: seq<Event>, e: nat, p: Proof)
    requires HoldsLease(Run(Fresh(policy), es), d) && !Run(Fresh(policy), es).closed && p.lease == d
    ensures !Commits(Run(Step(Run(Fresh(policy), es), DoAbort(d)), more), e, p)
  {
    Reached(policy, es);
    var s := Run(Fresh(policy), es);
    StepInv(s, DoAbort(d));
    RunLater(Step(s, DoAbort(d)), more);
    Unleased(Step(s, DoAbort(d)), Run(Step(s, DoAbort(d)), more), d, e, p);
  }

  lemma Unleased(s: State, t: State, d: nat, e: nat, p: Proof)
    requires LaterLeases(s, t) && d < |s.leases| && s.drain != Some(d) && p.lease == d
    ensures !Commits(t, e, p)
  {
  }
}
