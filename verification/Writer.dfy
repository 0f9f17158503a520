/** The writer as the source holds it: fields updated in place, one method per critical
    section, each refining the event of the same name. */
module Writer {
  import opened Counts
  import opened SessionWriter
  import opened WriterTheorems

  lemma {:induction false} RunAppend(s: State, es: seq<Event>, e: Event)
    ensures Run(s, es + [e]) == Step(Run(s, es), e)
    decreases |es|
  {
    if es == [] {
      assert Run(s, [e]) == Run(Step(s, e), []);
    } else {
      RunAppend(Step(s, es[0]), es[1..], e);
      assert (es + [e])[1..] == es[1..] + [e];
    }
  }

  /** The executing entry is not also waiting on the serial queue. */
  lemma RunningOnce(limit: nat, es: seq<Event>)
    requires Legal(es)
    ensures var s := Run(Fresh(limit), es); s.block.Running? ==> s.block.id !in s.dispatch
  {
    FreshInv(limit);
    RunInv(Fresh(limit), es);
    var s := Run(Fresh(limit), es);
    if s.block.Running? {
      assert s.InFlight()[1..] == s.dispatch;
      assert Places(s, s.block.id) <= 1;
      CountMember(s.dispatch, s.block.id);
    }
  }

  ghost function Members(ids: seq<Id>): set<Id> { set id | id in ids }

  /** Finish in its two halves: the block retires, then the writer fails or advances. */
  function Retired(s: State, wrote: bool): State
    requires s.block.Running?
  {
    s.(block := Idle, broken := s.broken || (s.block.verdict.Write? && !wrote))
  }

  function Advanced(s: State): State {
    if s.queues.IsEmpty() then s.(queues := s.queues.(turnUsed := false))
    else if !s.accepting then s
    else s.(queues := Select(s.queues).1, block := Selected(Select(s.queues).0))
  }

  lemma FinishHalves(s: State, wrote: bool)
    requires s.block.Running?
    ensures var t, o := Retired(s, wrote), Result(s.block.verdict, wrote);
            Finish(s, wrote) ==
            (if o.Failed? then SessionWriter.Reject(t.(terminal := true)) else Advanced(t)).Completed([s.block.id], o)
  {
  }

  class Writer {
    const limit: nat
    var frames: seq<Frame>
    var accepting: bool
    var admitted: int
    var queues: Queues
    var active: set<Id>
    var terminal: bool
    var dispatch: seq<Id>
    var block: Block
    var started: set<Id>
    var canceled: set<Id>
    var superseded: set<Id>
    var written: seq<Id>
    var broken: bool
    var log: Log
    ghost var trace: seq<Event>

    ghost function View(): State
      reads this
    {
      State(limit, frames, accepting, terminal, queues, dispatch, block,
            started, canceled, superseded, written, broken, log)
    }

    /** The object is in a state some run reaches; `admitted` and `active` are what the source
        keeps instead of the in-flight list. */
    ghost predicate Valid()
      reads this
    {
      Legal(trace) && View() == Run(Fresh(limit), trace) && Consistent()
    }

    ghost predicate Consistent()
      reads this`admitted, this`active, this`block, this`dispatch
    {
      admitted == |Flying()| && active == Members(Flying())
    }

    /** View().InFlight(), by the two fields it depends on. */
    ghost function Flying(): seq<Id>
      reads this`block, this`dispatch
    {
      match block
      case Idle => dispatch
      case Running(id, _) => [id] + dispatch
      case Selected(id) => [id] + dispatch
    }

    constructor (limit: nat)
      ensures Valid() && View() == Fresh(limit)
    {
      this.limit := limit;
      frames, accepting, admitted, queues, active := [], true, 0, NO_QUEUES, {};
      terminal, dispatch, block, started, canceled, superseded := false, [], Idle, {}, {}, {};
      written, broken, log := [], false, Log([], [], []);
      trace := [];
    }

    lemma Extend(es: seq<Event>, e: Event)
      ensures Run(Fresh(limit), es + [e]) == Step(Run(Fresh(limit), es), e)
    {
      RunAppend(Fresh(limit), es, e);
    }

    /** Calls the completion of every listed entry with a failure. */
    method FailAll(rejected: seq<Id>)
      modifies this`log
      ensures log == old(log).Add(rejected, Failed)
    {
      for i := 0 to |rejected|
        invariant log == old(log).Add(rejected[..i], Failed)
      {
        log := log.Add([rejected[i]], Failed);
        assert rejected[..i + 1] == rejected[..i] + [rejected[i]];
      }
      assert rejected[..|rejected|] == rejected;
    }

    method Complete(id: Id, o: Outcome)
      modifies this`log
      ensures View() == old(View()).Completed([id], o)
    {
      log := log.Add([id], o);
    }

    method Register(f: Frame) returns (id: Id)
      modifies this`frames
      ensures id == |old(frames)| && View() == old(View()).(frames := old(frames) + [f])
    {
      id := |frames|;
      frames := frames + [f];
    }

    method Submit(f: Frame, preCanceled: bool)
      requires Valid() && !f.priority.Closing?
      modifies this
      ensures View() == Step(old(View()), DoSubmit(f, preCanceled))
      ensures Valid() && trace == old(trace) + [DoSubmit(f, preCanceled)]
    {
      Extend(trace, DoSubmit(f, preCanceled));
      Place(f, preCanceled);
      trace := trace + [DoSubmit(f, preCanceled)];
    }

    method Place(f: Frame, preCanceled: bool)
      requires Consistent()
      modifies this
      ensures View() == SessionWriter.Submit(old(View()), f, preCanceled) && Consistent() && trace == old(trace)
    {
      var id := Register(f);
      if preCanceled {
        Complete(id, Canceled);
      } else if !accepting {
        Complete(id, Failed);
      } else if admitted >= 1 {
        Queue(f.priority, id);
      } else {
        Admit(f.priority, id);
      }
    }

    method Queue(p: Priority, id: Id)
      requires Consistent()
      modifies this`superseded, this`queues, this`log
      ensures View() == Enqueue(old(View()), p, id)
    {
      if p.Lifecycle? {
        superseded := superseded + set x | x in active && x < |frames| && frames[x].lifecycle && x !in started;
        assert superseded == old(superseded) + Supersedable(old(View()));
      }
      match Push(queues, limit, p, id) {
        case Stored(q) =>
          queues := q;
        case Displaced(q, evicted) =>
          queues := q;
          log := log.Add([evicted], Success);
        case Full =>
          log := log.Add([id], Failed);
      }
    }

    method Admit(p: Priority, id: Id)
      requires Consistent() && Flying() == []
      modifies this`admitted, this`active, this`queues, this`dispatch
      ensures Consistent() && View() == old(View()).(dispatch := [id], queues := old(queues).Admitting(p, id))
    {
      admitted := admitted + 1;
      active := active + {id};
      queues := queues.Admitting(p, id);
      dispatch := dispatch + [id];
    }

    method Close()
      requires Valid()
      modifies this
      ensures View() == Step(old(View()), DoClose)
      ensures Valid() && trace == old(trace) + [DoClose]
    {
      Extend(trace, DoClose);
      Shut();
      trace := trace + [DoClose];
    }

    method Shut()
      requires Consistent()
      modifies this
      ensures View() == SessionWriter.Close(old(View())) && Consistent() && trace == old(trace)
    {
      var id := Register(Frame(Closing, false));
      if !accepting {
        Complete(id, Failed);
      } else {
        Reject();
        Dispatch(id);
      }
    }

    method Dispatch(id: Id)
      requires Consistent()
      modifies this`admitted, this`active, this`dispatch
      ensures Consistent() && View() == old(View()).(dispatch := old(dispatch) + [id])
    {
      assert Flying() + [id] == match block case Idle => dispatch + [id]
                                             case Running(x, _) => [x] + (dispatch + [id])
                                             case Selected(x) => [x] + (dispatch + [id]);
      active := active + {id};
      admitted := admitted + 1;
      dispatch := dispatch + [id];
    }

    method Abort()
      requires Valid()
      modifies this
      ensures View() == Step(old(View()), DoAbort)
      ensures Valid() && trace == old(trace) + [DoAbort]
    {
      Extend(trace, DoAbort);
      Reject();
      trace := trace + [DoAbort];
    }

    method Cancel(id: Id)
      requires Valid()
      modifies this
      ensures View() == Step(old(View()), DoCancel(id))
      ensures Valid() && trace == old(trace) + [DoCancel(id)]
    {
      Extend(trace, DoCancel(id));
      Withdraw(id);
      trace := trace + [DoCancel(id)];
    }

    method Withdraw(id: Id)
      requires Consistent()
      modifies this`queues, this`log, this`canceled
      ensures View() == CancelEntry(old(View()), id)
    {
      if id in queues.waiting {
        queues := Drop(queues, id);
        log := log.Add([id], Canceled);
      } else if id in active && id !in started {
        canceled := canceled + {id};
      }
    }

    method Preflight()
      requires Valid()
      modifies this
      ensures View() == Step(old(View()), DoPreflight)
      ensures Valid() && trace == old(trace) + [DoPreflight]
    {
      Extend(trace, DoPreflight);
      if block.Idle? && dispatch != [] { Begin(); }
      trace := trace + [DoPreflight];
    }

    method Begin()
      requires block.Idle? && dispatch != []
      modifies this`dispatch, this`block, this`started, this`written
      ensures View() == SessionWriter.Preflight(old(View())) && Flying() == old(Flying())
    {
      var id := dispatch[0];
      dispatch := dispatch[1..];
      if id in superseded {
        block := Running(id, Skip);
      } else if id in canceled {
        block := Running(id, Verdict.Cancel);
      } else {
        started := started + {id};
        if terminal {
          block := Running(id, Refuse);
        } else {
          block := Running(id, Write);
          written := written + [id];
        }
      }
    }

    /** Refuses everything from here on and fails what was queued. */
    method Reject()
      modifies this`accepting, this`queues, this`log
      ensures View() == SessionWriter.Reject(old(View()))
    {
      accepting := false;
      var rejected := queues.Listed();
      queues := queues.Cleared();
      FailAll(rejected);
    }

    /** Admits the next queued entry, if there is one to admit. */
    method Advance()
      requires Consistent() && block.Idle?
      modifies this`queues, this`admitted, this`active, this`block
      ensures View() == Advanced(old(View())) && Consistent()
    {
      if queues.IsEmpty() {
        queues := queues.(turnUsed := false);
      } else if accepting {
        var (next, q) := Select(queues);
        queues := q;
        admitted := admitted + 1;
        active := active + {next};
        block := Selected(next);
      }
    }

    method Retire(wrote: bool)
      requires Consistent() && block.Running? && block.id !in dispatch
      modifies this`active, this`admitted, this`broken, this`block
      ensures Consistent() && block.Idle? && View() == Retired(old(View()), wrote)
    {
      active := active - {block.id};
      admitted := admitted - 1;
      broken := broken || (block.verdict.Write? && !wrote);
      block := Idle;
      assert active == Members(dispatch);
    }

    method Finish(wrote: bool)
      requires Valid()
      modifies this
      ensures View() == Step(old(View()), DoFinish(wrote))
      ensures Valid() && trace == old(trace) + [DoFinish(wrote)]
    {
      Extend(trace, DoFinish(wrote));
      RunningOnce(limit, trace);
      if block.Running? { Settle(wrote); }
      trace := trace + [DoFinish(wrote)];
    }

    method Settle(wrote: bool)
      requires Consistent() && block.Running? && block.id !in dispatch
      modifies this
      ensures View() == SessionWriter.Finish(old(View()), wrote) && Consistent() && trace == old(trace)
    {
      FinishHalves(View(), wrote);
      var id, result := block.id, Result(block.verdict, wrote);
      Retire(wrote);
      if result.Failed? {
        terminal := true;
        Reject();
      } else {
        Advance();
      }
      Complete(id, result);
    }

    method EnqueueNext()
      requires Valid()
      modifies this
      ensures View() == Step(old(View()), DoEnqueueNext)
      ensures Valid() && trace == old(trace) + [DoEnqueueNext]
    {
      Extend(trace, DoEnqueueNext);
      if block.Selected? {
        dispatch := dispatch + [block.next];
        block := Idle;
      }
      trace := trace + [DoEnqueueNext];
    }
  }
}
