/** The crash-resumable bundle swap.

    The filesystem is a map from slots to trees.  Every primitive draws one fault from the
    plan: it may run clean, fail or crash, and a failed or crashed primitive may or may not
    have taken effect.  A removal that is cut short leaves its tree's root in place over
    arbitrary contents. */
module Swap {
  import opened Options

  datatype Slot = Canonical | Prior | Candidate | Removed

  type FileId = nat

  /** Everything an attestation reports about a bundle except where it sits. */
  datatype Bytes = Bytes(version: nat, digest: nat, signature: nat)

  /** `Torn` is what no attestation accepts. */
  datatype Content = Signed(bytes: Bytes) | Torn

  datatype Tree = Tree(content: Content, id: FileId)

  datatype Generation = Generation(path: Slot, bytes: Bytes, id: FileId)
  {
    predicate SameBytes(other: Generation) { bytes == other.bytes }

    predicate SameTree(other: Generation) { id == other.id && SameBytes(other) }

    function AsTree(): Tree { Tree(Signed(bytes), id) }
  }

  /** Which generation the canonical path held, and which one is to land there. */
  datatype SwapRecord = SwapRecord(prior: Option<Generation>, candidate: Generation)
  {
    predicate Valid() {
      && candidate.path == Canonical
      && (prior.Some? ==> prior.value.path == Canonical && prior.value.id != candidate.id)
    }
  }

  datatype Fault =
    | Clean
    | Fail(landed: bool, residue: Content)
    | Crash(landed: bool, residue: Content)

  datatype Status = Ok | Failed | Crashed

  type Slots = map<Slot, Tree>

  predicate Holds(slots: Slots, at: Slot, t: Tree) { at in slots && slots[at] == t }

  /** No two occupied slots name one inode. */
  predicate DistinctIds(slots: Slots) {
    forall a, b :: a in slots && b in slots && a != b ==> slots[a].id != slots[b].id
  }

  predicate SameExcept(a: Slots, b: Slots, but: set<Slot>) {
    forall s :: s !in but ==> (s in a <==> s in b) && (s in a ==> a[s] == b[s])
  }

  /** Neither rename has landed. */
  predicate BeforeSwap(slots: Slots, r: SwapRecord) {
    r.prior.Some? && Holds(slots, Canonical, r.prior.value.AsTree()) && Holds(slots, Candidate, r.candidate.AsTree())
  }

  /** The canonical path is empty and the recorded prior, if there is one, is whole and aside. */
  predicate MidSwap(slots: Slots, r: SwapRecord) {
    && Canonical !in slots && Holds(slots, Candidate, r.candidate.AsTree())
    && (r.prior.Some? ==> Holds(slots, Prior, r.prior.value.AsTree()))
  }

  predicate AfterSwap(slots: Slots, r: SwapRecord) {
    Holds(slots, Canonical, r.candidate.AsTree()) && Candidate !in slots
  }

  /** Every state a crash can leave behind: the candidate exists exactly once, and the prior is
      whole until the candidate is in place. */
  predicate Resumable(slots: Slots, r: SwapRecord) {
    r.Valid() && (BeforeSwap(slots, r) || MidSwap(slots, r) || AfterSwap(slots, r))
  }

  /** What a crash may not cost: the candidate sits in exactly one of the two slots, and until
      it is at the canonical path the recorded prior is whole at the canonical path or aside. */
  lemma NothingLost(slots: Slots, r: SwapRecord)
    requires Resumable(slots, r)
    ensures Holds(slots, Candidate, r.candidate.AsTree()) <==> !Holds(slots, Canonical, r.candidate.AsTree())
    ensures r.prior.Some? && !Holds(slots, Canonical, r.candidate.AsTree()) ==>
              Holds(slots, Canonical, r.prior.value.AsTree()) || Holds(slots, Prior, r.prior.value.AsTree())
  {
  }

  /** The canonical path holds an attested bundle of this version and digest. */
  predicate AsAsked(slots: Slots, version: nat, digest: nat) {
    && Canonical in slots && slots[Canonical].content.Signed?
    && slots[Canonical].content.bytes.version == version && slots[Canonical].content.bytes.digest == digest
  }

  /** The bundle to be installed is there and is what was asked for. */
  predicate Offers(source: Option<Bytes>, version: nat, digest: nat) {
    source.Some? && source.value.version == version && source.value.digest == digest
  }

  /** The candidate slot holds an attested tree that is what is asked for, or that is not. */
  predicate StagedAs(slots: Slots, version: nat, digest: nat) {
    && Candidate in slots && slots[Candidate].content.Signed?
    && slots[Candidate].content.bytes.version == version && slots[Candidate].content.bytes.digest == digest
  }

  predicate StagedOther(slots: Slots, version: nat, digest: nat) {
    Candidate in slots && slots[Candidate].content.Signed? && !StagedAs(slots, version, digest)
  }

  /** An install finds the canonical path empty, a supersede an attested bundle at it. */
  predicate Admissible(slots: Slots, supersede: bool) {
    if supersede then Canonical in slots && slots[Canonical].content.Signed? else Canonical !in slots
  }

  class Deployment {
    var slots: Slots
    var swap: Option<SwapRecord>
    var activation: bool
    var removal: bool
    var plan: seq<Fault>
    ghost var spare: FileId
    /** How often the gate was passed. */
    ghost var gates: nat

    /** No two trees share an inode, and `spare` is one the filesystem may hand out next. */
    ghost predicate Inodes()
      reads this
    {
      DistinctIds(slots) && forall s :: s in slots ==> slots[s].id != spare
    }

    /** The record on disk, or the record just retired, describes what the slots hold. */
    ghost predicate Committed(r: SwapRecord)
      reads this
    {
      Resumable(slots, r) && (swap == Some(r) || Retired(r))
    }

    /** The swap of `r` is over and nothing of it is left. */
    ghost predicate Retired(r: SwapRecord)
      reads this
    {
      && AfterSwap(slots, r) && swap.None? && !activation && !removal
      && (r.prior.Some? ==> Prior !in slots)
    }

    // ----- Primitives -----

    method NextFault() returns (f: Fault)
      modifies this`plan
      ensures old(plan) == [] ==> f == Clean && plan == []
    {
      if plan == [] { return Clean; }
      f := plan[0];
      plan := plan[1..];
    }

    method RemoveTree(at: Slot) returns (e: Status)
      modifies this`slots, this`plan
      ensures slots == old(slots) - {at} || (e != Ok && at in old(slots) &&
              exists c: Content :: slots == old(slots)[at := Tree(c, old(slots)[at].id)])
      ensures e == Ok ==> at !in slots
      ensures old(plan) == [] ==> e == Ok && plan == []
    {
      var f := NextFault();
      if at !in slots { slots := slots - {at}; return Ok; }
      if f.Clean? || f.landed {
        slots := slots - {at};
      } else {
        slots := slots[at := Tree(f.residue, slots[at].id)];
      }
      e := StatusOf(f);
    }

    method Rename(from: Slot, to: Slot) returns (e: Status)
      requires from in slots && to !in slots && from != to
      modifies this`slots, this`plan
      ensures slots == old(slots) || slots == old(slots)[to := old(slots)[from]] - {from}
      ensures e == Ok ==> slots == old(slots)[to := old(slots)[from]] - {from}
      ensures old(plan) == [] ==> e == Ok && plan == []
    {
      var f := NextFault();
      if f.Clean? || f.landed { slots := slots[to := slots[from]] - {from}; }
      e := StatusOf(f);
    }

    function StatusOf(f: Fault): Status {
      match f
      case Clean => Ok
      case Fail(_, _) => Failed
      case Crash(_, _) => Crashed
    }

    method RemoveActivation() returns (e: Status)
      modifies this`activation, this`plan
      ensures activation ==> old(activation) && e != Ok
      ensures old(plan) == [] ==> e == Ok && plan == []
    {
      var f := NextFault();
      if f.Clean? || f.landed { activation := false; }
      e := StatusOf(f);
    }

    method RemoveRemoval() returns (e: Status)
      modifies this`removal, this`plan
      ensures removal ==> old(removal) && e != Ok
      ensures old(plan) == [] ==> e == Ok && plan == []
    {
      var f := NextFault();
      if f.Clean? || f.landed { removal := false; }
      e := StatusOf(f);
    }

    method RemoveSwap() returns (e: Status)
      modifies this`swap, this`plan
      ensures swap == old(swap) || swap.None?
      ensures e == Ok ==> swap.None?
      ensures old(plan) == [] ==> e == Ok && plan == []
    {
      var f := NextFault();
      if f.Clean? || f.landed { swap := None; }
      e := StatusOf(f);
    }

    /** An honest attestation of one slot.  It changes nothing and may fail for its own reasons. */
    method Inspect(at: Slot) returns (e: Status, g: Generation)
      modifies this`plan
      ensures e == Ok ==> Holds(slots, at, g.AsTree()) && g.path == at
      ensures old(plan) == [] ==> plan == []
      ensures old(plan) == [] && at in slots && slots[at].content.Signed? ==> e == Ok
    {
      g := Generation(at, Bytes(0, 0, 0), 0);
      var f := NextFault();
      if !f.Clean? { return StatusOf(f), g; }
      if at !in slots || !slots[at].content.Signed? { return Failed, g; }
      e, g := Ok, Generation(at, slots[at].content.bytes, slots[at].id);
    }

    method Attest(expected: Generation) returns (e: Status)
      modifies this`plan
      ensures e == Ok ==> Holds(slots, expected.path, expected.AsTree())
      ensures old(plan) == [] ==> plan == []
      ensures old(plan) == [] && Holds(slots, expected.path, expected.AsTree()) ==> e == Ok
    {
      var g;
      e, g := Inspect(expected.path);
      if e == Ok && g != expected { e := Failed; }
    }

    // ----- The swap -----

    method SettleSwap(r: SwapRecord) returns (e: Status)
      requires Resumable(slots, r)
      modifies this`slots, this`plan
      ensures Resumable(slots, r)
      ensures old(Inodes()) ==> Inodes()
      ensures e == Ok ==> AfterSwap(slots, r)
      ensures old(AfterSwap(slots, r)) ==> slots == old(slots)
      ensures r.prior.None? ==> SameExcept(slots, old(slots), {Canonical, Candidate})
      ensures old(plan) == [] ==> e == Ok && plan == []
    {
      if Canonical in slots {
        var done;
        e, done := MoveAside(r);
        if e != Ok || done { return; }
      }
      e := MoveIn(r);
      if e != Ok { return; }
      var landed;
      e, landed := Inspect(Canonical);
      if e == Ok && !landed.SameTree(r.candidate) { e := Failed; }
    }

    /** Takes the recorded prior off the canonical path, unless the candidate is there already. */
    method MoveAside(r: SwapRecord) returns (e: Status, done: bool)
      requires Resumable(slots, r) && Canonical in slots
      modifies this`slots, this`plan
      ensures Resumable(slots, r)
      ensures old(Inodes()) ==> Inodes()
      ensures e == Ok ==> if done then AfterSwap(slots, r) else MidSwap(slots, r)
      ensures old(AfterSwap(slots, r)) ==> slots == old(slots) && (e == Ok ==> done)
      ensures r.prior.None? ==> slots == old(slots)
      ensures old(plan) == [] ==> e == Ok && plan == []
    {
      done := false;
      var occupant;
      e, occupant := Inspect(Canonical);
      if e != Ok { return; }
      if occupant.SameTree(r.candidate) { return Ok, true; }
      if r.prior.None? || !occupant.SameBytes(r.prior.value) { return Failed, false; }
      e := Attest(r.prior.value);
      if e != Ok { return; }
      e := RemoveTree(Prior);
      if e != Ok { return; }
      e := Rename(Canonical, Prior);
    }

    method MoveIn(r: SwapRecord) returns (e: Status)
      requires MidSwap(slots, r) && r.Valid()
      modifies this`slots, this`plan
      ensures Resumable(slots, r)
      ensures old(Inodes()) ==> Inodes()
      ensures e == Ok ==> AfterSwap(slots, r)
      ensures SameExcept(slots, old(slots), {Canonical, Candidate})
      ensures old(plan) == [] ==> e == Ok && plan == []
    {
      if Candidate in slots {
        e := Attest(r.candidate.(path := Candidate));
        if e != Ok { return; }
        if Canonical in slots { return Failed; }
        e := Rename(Candidate, Canonical);
        if e != Ok { return; }
      }
    }

    method RetireSwap(r: SwapRecord) returns (e: Status)
      requires r.Valid() && AfterSwap(slots, r) && swap == Some(r)
      modifies this`slots, this`swap, this`activation, this`removal, this`plan
      ensures Committed(r) && AfterSwap(slots, r)
      ensures old(Inodes()) ==> Inodes()
      ensures e == Ok ==> Retired(r)
      ensures old(Prior !in slots) || r.prior.None? ==> slots == old(slots)
      ensures old(plan) == [] ==> e == Ok && plan == []
    {
      var first := RemoveActivation();
      if first == Crashed { return Crashed; }
      var second := RemoveRemoval();
      if second == Crashed { return Crashed; }
      var third := Ok;
      if r.prior.Some? {
        third := RemoveTree(Prior);
        if third == Crashed { return Crashed; }
      }
      if first != Ok || second != Ok || third != Ok { return Failed; }
      e := RemoveSwap();
    }

    // ----- Resuming -----

    /** Whether driving the record to its end still moves or destroys a generation. */
    method ResumeDestroys(r: SwapRecord) returns (e: Status, destroys: bool)
      requires Resumable(slots, r)
      modifies this`plan
      ensures e == Ok ==> (destroys <==> r.prior.Some? && (Prior in slots || !AfterSwap(slots, r)))
      ensures old(plan) == [] ==> e == Ok && plan == []
    {
      e, destroys := Ok, false;
      if r.prior.None? { return; }
      if Prior in slots || Canonical !in slots { return Ok, true; }
      var occupant;
      e, occupant := Inspect(Canonical);
      destroys := !occupant.SameTree(r.candidate);
    }

    /** The daemon is proved gone, its executables empty and its services away, or the verb stops. */
    method Gate() returns (e: Status)
      modifies this`plan, this`gates
      ensures old(plan) == [] ==> e == Ok && plan == []
      ensures gates == if e == Ok then old(gates) + 1 else old(gates)
    {
      var f := NextFault();
      e := StatusOf(f);
      if e == Ok { gates := gates + 1; }
    }

    method Recover() returns (e: Status, gated: bool)
      requires swap.Some? ==> Resumable(slots, swap.value)
      modifies this`slots, this`swap, this`activation, this`removal, this`plan, this`gates
      ensures old(swap).None? ==>
                e == Ok && unchanged(`slots, `swap, `activation, `removal, `plan, `gates)
      ensures gates == if gated then old(gates) + 1 else old(gates)
      ensures gated || (e == Ok && old(swap).Some?) ==>
                var r := old(swap).value;
                gated <==> r.prior.Some? && (Prior in old(slots) || !AfterSwap(old(slots), r))
      ensures old(swap).Some? ==> Committed(old(swap).value)
      ensures old(Inodes()) ==> Inodes()
      ensures old(swap).Some? && e == Ok ==> Retired(old(swap).value)
      ensures !gated && old(swap).Some? && old(swap).value.prior.Some? ==> slots == old(slots)
      ensures !gated ==> SameExcept(slots, old(slots), {Canonical, Candidate})
      ensures old(plan) == [] ==> e == Ok && plan == []
    {
      e, gated := Ok, false;
      if swap.None? { return; }
      var r := swap.value;
      var destroys;
      e, destroys := ResumeDestroys(r);
      if e != Ok { return; }
      if destroys {
        e := Gate();
        if e != Ok { return; }
        gated := true;
      }
      e := SettleSwap(r);
      if e != Ok { return; }
      e := RetireSwap(r);
    }

    /** Any number of interrupted resumes, each with faults of its own, then one that is left
        alone: the candidate's very tree is at the canonical path and nothing of the swap remains. */
    method CrashesThenRecover(r: SwapRecord, plans: seq<seq<Fault>>)
      requires swap == Some(r) && Resumable(slots, r)
      modifies this
      ensures Retired(r)
    {
      for i := 0 to |plans|
        invariant Committed(r)
      {
        plan := plans[i];
        var _, _ := Recover();
      }
      plan := [];
      var e, _ := Recover();
    }

    // ----- Landing a candidate -----

    method Stage(version: nat, digest: nat, source: Option<Bytes>, inode: FileId)
      returns (e: Status, staged: Generation)
      requires Inodes() && inode == spare
      modifies this`slots, this`plan, this`gates
      ensures DistinctIds(slots) && SameExcept(slots, old(slots), {Candidate}) && old(gates) <= gates
      ensures Candidate in old(slots) && !old(slots)[Candidate].content.Signed? ==> e != Ok && slots == old(slots)
      ensures old(plan) == [] && StagedAs(old(slots), version, digest) ==>
                e == Ok && slots == old(slots) && staged.AsTree() == slots[Candidate]
      ensures old(plan) == [] && StagedOther(old(slots), version, digest) && Offers(source, version, digest) ==>
                e == Ok && Holds(slots, Candidate, Tree(Signed(source.value), inode)) && gates == old(gates) + 1
      ensures e == Ok ==> Holds(slots, Candidate, staged.AsTree())
      ensures e == Ok ==> staged.bytes.version == version && staged.bytes.digest == digest
      ensures old(plan) == [] ==> plan == []
      ensures old(plan) == [] && Candidate !in old(slots) && Offers(source, version, digest) ==>
                e == Ok && Holds(slots, Candidate, Tree(Signed(source.value), inode))
    {
      staged := Generation(Candidate, Bytes(0, 0, 0), 0);
      if Candidate in slots {
        e, staged := Inspect(Candidate);
        if e != Ok { return; }
        if staged.bytes.version == version && staged.bytes.digest == digest { return; }
        e := Gate();
        if e != Ok { return; }
        e := RemoveTree(Candidate);
        if e != Ok { return; }
      }
      var f := NextFault();
      if !f.Clean? { return StatusOf(f), staged; }
      if !Offers(source, version, digest) { return Failed, staged; }
      f := NextFault();
      if f.Clean? || f.landed {
        slots := slots[Candidate := Tree(Signed(source.value), inode)];
      }
      if !f.Clean? { return StatusOf(f), staged; }
      e, staged := Inspect(Candidate);
      if e == Ok && staged.bytes != source.value { e := Failed; }
    }

    method WriteSwap(r: SwapRecord) returns (e: Status)
      modifies this`swap, this`plan
      ensures swap == old(swap) || swap == Some(r)
      ensures e == Ok ==> swap == Some(r)
      ensures old(plan) == [] ==> e == Ok && plan == []
    {
      var f := NextFault();
      if f.Clean? || f.landed { swap := Some(r); }
      e := StatusOf(f);
    }

    /** Install, or supersede when `supersede` is set.  However it ends, a record left on disk
        can be resumed, and without one the canonical path is what it was after the recovery
        this verb starts with, empty included, or the landed candidate.  `recovered` is what that
        recovery left: everything, if there was no record to resume. */
    method Land(version: nat, digest: nat, source: Option<Bytes>, inode: FileId, supersede: bool)
      returns (e: Status, landed: Generation, ghost recovered: Slots)
      requires swap.Some? ==> Resumable(slots, swap.value)
      requires Inodes() && inode == spare
      modifies this
      ensures swap.Some? ==> Resumable(slots, swap.value)
      ensures if old(swap).None? then recovered == old(slots) else Resumable(recovered, old(swap).value)
      ensures e == Ok ==> && swap.None? && Candidate !in slots && AsAsked(slots, version, digest)
                          && (supersede <==> Canonical in recovered)
                          && landed.path == Canonical && Holds(slots, Canonical, landed.AsTree())
      ensures e != Ok && swap.None? ==>
                || (Canonical !in recovered && Canonical !in slots)
                || (Canonical in recovered && Holds(slots, Canonical, recovered[Canonical]))
                || AsAsked(slots, version, digest)
      ensures e == Ok && supersede ==> gates >= old(gates) + 2
      ensures old(plan) == [] && old(swap).None? && Admissible(old(slots), supersede) && StagedAs(old(slots), version, digest) ==>
                e == Ok && Holds(slots, Canonical, old(slots)[Candidate])
      ensures old(plan) == [] && old(swap).None? && Admissible(old(slots), supersede) && Offers(source, version, digest)
              && (Candidate !in old(slots) || StagedOther(old(slots), version, digest)) ==>
                e == Ok && Holds(slots, Canonical, Tree(Signed(source.value), inode))
      ensures old(plan) == [] && old(swap).None? && (Canonical in old(slots)) != supersede ==> e != Ok && slots == old(slots)
    {
      landed := Generation(Canonical, Bytes(0, 0, 0), 0);
      var gated;
      e, gated := Recover();
      recovered := slots;
      if e != Ok { return; }
      if (Canonical in slots) != supersede { return Failed, landed, recovered; }
      var r;
      e, r := CommitSwap(version, digest, source, inode, supersede);
      if e != Ok { return; }
      e, landed := Complete(r);
    }

    /** Everything up to the record: what is there is inspected, the candidate staged, the gate passed
        twice over a bundle that is replaced, and the record written. */
    method CommitSwap(version: nat, digest: nat, source: Option<Bytes>, inode: FileId, supersede: bool)
      returns (e: Status, r: SwapRecord)
      requires swap.None? && Inodes() && inode == spare && (Canonical in slots <==> supersede)
      modifies this
      ensures SameExcept(slots, old(slots), {Candidate}) && old(gates) <= gates
      ensures swap.Some? ==> swap == Some(r) && Resumable(slots, r)
      ensures e == Ok ==> swap == Some(r) && (supersede ==> gates >= old(gates) + 2)
      ensures swap.Some? ==> r.candidate.bytes.version == version && r.candidate.bytes.digest == digest
      ensures old(plan) == [] ==> plan == []
      ensures old(plan) == [] && Admissible(old(slots), supersede) && StagedAs(old(slots), version, digest) ==>
                e == Ok && r.candidate.AsTree() == old(slots)[Candidate]
      ensures old(plan) == [] && Admissible(old(slots), supersede) && Offers(source, version, digest)
              && (Candidate !in old(slots) || StagedOther(old(slots), version, digest)) ==>
                e == Ok && r.candidate.AsTree() == Tree(Signed(source.value), inode)
    {
      var prior := None;
      r := SwapRecord(None, Generation(Canonical, Bytes(0, 0, 0), 0));
      if supersede {
        var incumbent;
        e, incumbent := Inspect(Canonical);
        if e != Ok { return; }
        prior := Some(incumbent);
      }
      var staged;
      e, staged := Stage(version, digest, source, inode);
      if e != Ok { return; }
      r := SwapRecord(prior, staged.(path := Canonical));
      if supersede {
        e := Gate();
        if e != Ok { return; }
        e := Gate();
        if e != Ok { return; }
      }
      e := WriteSwap(r);
    }

    /** Everything from the record on. */
    method Complete(r: SwapRecord) returns (e: Status, landed: Generation)
      requires swap == Some(r) && Resumable(slots, r)
      modifies this`slots, this`swap, this`activation, this`removal, this`plan
      ensures Committed(r)
      ensures e == Ok ==> Retired(r) && landed.path == Canonical && Holds(slots, Canonical, landed.AsTree())
      ensures old(plan) == [] ==> e == Ok
    {
      landed := r.candidate;
      e := SettleSwap(r);
      if e != Ok { return; }
      e := RetireSwap(r);
      if e != Ok { return; }
      e, landed := Inspect(Canonical);
    }
  }
}
