/** The durable services record beside the labels launchd holds for this deployment. */
module Services {
  import opened Labels

  /** `machine` is every label launchd holds and `applied` those of them this deployment put there.
      `record` is the file: no labels means no file.  A method that returns false was stopped by
      an error or by a crash at that point, so what it promises then holds at every such point. */
  class Deployment {
    /** Neither the disk nor launchd ever fails. */
    const steady: bool
    var record: seq<Label>
    var machine: set<Label>
    ghost var applied: set<Label>

    /** Every label this deployment has applied is one its record names, and the record is one
        that its own validation accepts. */
    ghost predicate Valid()
      reads this
    {
      applied <= machine && applied <= Elements(record) && Recorded(record)
    }

    static ghost predicate Recorded(labels: seq<Label>) {
      labels == [] || Validates(labels)
    }

    constructor (machine: set<Label>, steady: bool)
      ensures Valid() && record == [] && this.machine == machine && applied == {} && this.steady == steady
    {
      this.machine, record, applied, this.steady := machine, [], {}, steady;
    }

    /** An interrupted write leaves the old record or the new one. */
    method RecordServices(labels: seq<Label>) returns (ok: bool)
      requires Valid() && Recorded(labels) && applied <= Elements(labels)
      modifies this`record
      ensures Valid() && (record == labels || (!ok && record == old(record)))
      ensures steady ==> ok
    {
      var lands: bool := *;
      ok := *;
      ok := ok || steady;
      if ok || lands { record := labels; }
    }

    /** launchd holds the label after a success, and may after a failure. */
    method ApplyAgent(agent: Label) returns (ok: bool)
      requires Valid() && agent in record
      modifies this`machine, this`applied
      ensures Valid()
      ensures (machine == old(machine) + {agent} && applied == old(applied) + {agent}) ||
              (!ok && machine == old(machine) && applied == old(applied))
      ensures steady ==> ok
    {
      var lands: bool := *;
      ok := *;
      ok := ok || steady;
      if ok || lands { machine, applied := machine + {agent}, applied + {agent}; }
    }

    method RemoveAgent(name: Label) returns (ok: bool)
      requires Valid()
      modifies this`machine, this`applied
      ensures Valid()
      ensures (machine == old(machine) - {name} && applied == old(applied) - {name}) ||
              (!ok && machine == old(machine) && applied == old(applied))
      ensures steady ==> ok
    {
      var lands: bool := *;
      ok := *;
      ok := ok || steady;
      if ok || lands { machine, applied := machine - {name}, applied - {name}; }
    }

    /** Applies each agent in turn. */
    method ApplyAll(agents: seq<Label>) returns (ok: bool)
      requires Valid() && Elements(agents) <= Elements(record)
      modifies this`machine, this`applied
      ensures Valid()
      ensures old(applied) <= applied <= old(applied) + Elements(agents)
      ensures old(machine) <= machine <= old(machine) + Elements(agents)
      ensures ok ==> applied == old(applied) + Elements(agents)
      ensures steady ==> ok
    {
      for i := 0 to |agents|
        invariant Valid()
        invariant old(machine) <= machine <= old(machine) + Elements(agents)
        invariant applied == old(applied) + Elements(agents[..i])
      {
        assert agents[i] in Elements(agents);
        assert Elements(agents[..i + 1]) == Elements(agents[..i]) + {agents[i]};
        ok := ApplyAgent(agents[i]);
        if !ok { return; }
      }
      assert agents[..|agents|] == agents;
      ok := true;
    }

    /** Takes one label away, and then out of the record. */
    method TakeAway(name: Label, held: seq<Label>) returns (ok: bool, kept: seq<Label>)
      requires Valid() && record == held && StrictlySorted(held) && "" !in held
      modifies this
      ensures Valid() && (record == kept || record == held) && (ok ==> record == kept)
      ensures StrictlySorted(kept) && "" !in kept && Elements(kept) == Elements(held) - {name}
      ensures old(machine) - machine <= {name} && machine <= old(machine)
      ensures old(applied) - applied <= {name} && applied <= old(applied)
      ensures steady ==> ok
    {
      WithoutStrict(held, name);
      kept := Without(held, name);
      ok := RemoveAgent(name);
      if !ok { return; }
      ValidatesIff(kept);
      ok := RecordServices(kept);
    }

    /** Takes away each label the record named and the agents do not, dropping it from the record
        as its removal lands: of those taken away only `last` may be recorded still. */
    method RemoveRest(previous: seq<Label>, desired: seq<Label>, held: seq<Label>) returns (ok: bool, ghost last: Label)
      requires Valid() && record == held && Elements(held) == Elements(previous) + Elements(desired)
      requires StrictlySorted(held) && "" !in held
      modifies this
      ensures Valid() && applied <= old(applied) && machine <= old(machine)
      ensures old(applied) - applied <= Elements(previous) - Elements(desired)
      ensures old(machine) - machine <= Elements(previous) - Elements(desired)
      ensures ok ==> applied <= Elements(desired)
      ensures (old(machine) - machine) * Elements(record) <= {last} && (old(applied) - applied) * Elements(record) <= {last}
      ensures steady ==> ok
    {
      var kept := held;
      last := "";
      for i := 0 to |previous|
        invariant Valid() && record == kept && StrictlySorted(kept) && "" !in kept
        invariant Elements(kept) <= Elements(previous[i..]) + Elements(desired)
        invariant Elements(desired) <= Elements(kept)
        invariant applied <= old(applied) && machine <= old(machine)
        invariant old(applied) - applied <= Elements(previous) - Elements(desired)
        invariant old(machine) - machine <= Elements(previous) - Elements(desired)
        invariant (old(machine) - machine) !! Elements(kept) && (old(applied) - applied) !! Elements(kept)
      {
        var name := previous[i];
        assert name in Elements(previous);
        assert Elements(previous[i..]) == {name} + Elements(previous[i + 1..]);
        if name !in desired {
          last := name;
          ghost var m, a := machine, applied;
          ok, kept := TakeAway(name, kept);
          assert name in Elements(previous) - Elements(desired);
          assert old(machine) - machine <= (old(machine) - m) + {name} && old(applied) - applied <= (old(applied) - a) + {name};
          if !ok { return; }
        }
      }
      ok := true;
    }

    /** Drives launchd to exactly `agents`.  Wherever it stops, what this deployment applied is in
        its record and the record validates; only labels it had recorded are taken away; a
        success leaves launchd with exactly the agents and the record naming exactly them.  Of the
        labels taken away only `last` may be recorded still, so that a restore can tell them. */
    method Converge(agents: seq<Label>) returns (ok: bool, ghost last: Label)
      requires Valid() && "" !in agents
      modifies this
      ensures Valid()
      ensures old(machine) - machine <= Elements(old(record)) - Elements(agents)
      ensures machine - old(machine) <= Elements(agents) && applied <= old(applied) + Elements(agents)
      ensures ok ==> applied == Elements(agents) && record == Normal(agents)
      ensures (old(machine) - machine) * Elements(record) <= {last} && (old(applied) - applied) * Elements(record) <= {last}
      ensures steady ==> ok
    {
      last := "";
      var desired := Normal(agents);
      var previous := record;
      var held := Normal(previous + desired);
      NormalStrict(agents);
      NormalStrict(previous + desired);
      assert Elements(previous + desired) == Elements(previous) + Elements(desired);
      Named(held, previous, desired);
      ValidatesIff(held);
      ok := RecordServices(held);
      if !ok { return; }
      ok := ApplyAll(agents);
      if !ok { return; }
      ok, last := RemoveRest(previous, desired, held);
      if !ok { return; }
      ValidatesIff(desired);
      assert "" !in Elements(agents);
      ok := RecordServices(desired);
    }

    lemma Named(held: seq<Label>, previous: seq<Label>, desired: seq<Label>)
      requires Elements(held) == Elements(previous) + Elements(desired)
      requires Recorded(previous) && forall l :: l in desired ==> l != ""
      ensures "" !in held
    {
      assert "" in held ==> "" in Elements(held);
    }

    /** The labels that are not recorded any more. */
    method Removed(labels: seq<Label>) returns (removed: seq<Label>)
      ensures Elements(removed) == Elements(labels) - Elements(record)
    {
      removed := [];
      for i := 0 to |labels|
        invariant Elements(removed) == Elements(labels[..i]) - Elements(record)
      {
        assert Elements(labels[..i + 1]) == Elements(labels[..i]) + {labels[i]};
        if labels[i] !in record {
          assert Elements(removed + [labels[i]]) == Elements(removed) + {labels[i]};
          removed := removed + [labels[i]];
        }
      }
      assert labels[..|labels|] == labels;
    }

    /** Puts back what an aborted converge took away: the labels recorded before it.  It is refused
        where the canonical path does not hold the incumbent any more. */
    method Restore(labels: seq<Label>, ready: bool, configured: set<Label>, refused: bool) returns (ok: bool)
      requires Valid() && Recorded(labels) && applied <= Elements(labels)
      modifies this
      ensures Valid() && applied <= Elements(labels) && old(applied) <= applied && old(machine) <= machine
      ensures ok && !ready ==> applied == Elements(labels) && record == labels
      ensures ok && ready ==> applied >= old(applied) + (Elements(labels) - Elements(old(record)))
      ensures ok && !ready ==> Elements(labels) <= configured
      ensures refused ==> !ok && unchanged(`record, `machine, `applied)
      ensures steady && !refused ==>
                (ok <==> (if ready then Elements(labels) - Elements(old(record)) else Elements(labels)) <= configured)
    {
      if refused { return false; }
      var removed := Removed(labels);
      if ready && removed == [] { return true; }
      var apply := if ready then removed else labels;
      ok := RecordServices(labels);
      if !ok { return; }
      ok := ApplyConfigured(apply, configured);
    }

    method ApplyConfigured(labels: seq<Label>, configured: set<Label>) returns (ok: bool)
      requires Valid() && Elements(labels) <= Elements(record)
      modifies this`machine, this`applied
      ensures Valid()
      ensures old(applied) <= applied && old(machine) <= machine
      ensures ok ==> applied == old(applied) + Elements(labels) && Elements(labels) <= configured
      ensures steady ==> (ok <==> Elements(labels) <= configured)
    {
      for i := 0 to |labels|
        invariant Valid() && old(machine) <= machine && Elements(labels[..i]) <= configured
        invariant applied == old(applied) + Elements(labels[..i])
      {
        assert labels[i] in Elements(labels);
        assert Elements(labels[..i + 1]) == Elements(labels[..i]) + {labels[i]};
        if labels[i] !in configured { return false; }
        ok := ApplyAgent(labels[i]);
        if !ok { return; }
      }
      assert labels[..|labels|] == labels;
      ok := true;
    }

    /** A supersede's service side: converge to nothing once the daemon is gone, and restore what was
        there if that or the record of the swap fails.  An aborted one whose restore succeeds over a
        stopped daemon has every label applied again, and over a daemon that stayed all but one. */
    method CommitSupersede(quiesced: bool, sealed: bool, crashes: bool, ready: bool, configured: set<Label>, refused: bool)
      returns (committed: bool, restored: bool, ghost last: Label)
      requires Valid()
      modifies this
      ensures Valid() && applied <= Elements(old(record))
      ensures committed ==> quiesced && sealed && applied == {} && record == []
      ensures steady && quiesced && sealed ==> committed
      ensures !committed && restored && !ready ==> applied == Elements(old(record)) && record == old(record)
      ensures !committed && restored && ready ==> old(applied) - {last} <= applied
      ensures steady && !committed && !crashes && !refused && Elements(old(record)) <= configured ==> restored
      ensures !quiesced && crashes ==> unchanged(`record, `machine, `applied)
    {
      var labels := record;
      restored, committed, last := false, quiesced, "";
      if quiesced { committed, last := Converge([]); }
      committed := committed && sealed;
      if committed || crashes { return; }
      assert Elements([]) == {};
      restored := Restore(labels, ready, configured, refused);
    }
  }
}
