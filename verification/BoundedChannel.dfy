/** The channel as it is written: fields changed in place by actor methods. */
module BoundedChannel {
  import opened Options
  import opened Channel
  import opened ChannelTheorems

  class BoundedChannel<T> {
    const capacity: nat
    var buffer: seq<T>
    var high: nat
    var receivers: seq<nat>
    var senders: seq<Item<T>>
    var terminal: Option<End>
    /** Identifiers of calls are handed out in arrival order. */
    var issued: nat
    ghost var log: Log<T>

    ghost function Abs(): View<T>
      reads this
    {
      View(State(capacity, buffer, high, receivers, senders, terminal), log)
    }

    ghost predicate Valid()
      reads this
    {
      Inv(Abs()) && issued == log.issued
    }

    constructor (capacity: int)
      ensures Valid() && Abs() == Fresh(capacity)
    {
      this.capacity := if capacity < 1 then 1 else capacity;
      buffer, high, receivers, senders, terminal, issued := [], 0, [], [], None, 0;
      log := Log(0, [], [], [], [], map[]);
      new;
      assert Run(Fresh(capacity), []) == Abs();
      ChannelRun<T>(capacity, []);
    }

    /** `None` is a call that waits. */
    method Send(x: T, canceled: bool) returns (id: nat, reply: Option<bool>)
      requires Valid()
      modifies this
      ensures Valid() && Abs() == Step(old(Abs()), Event.Send(x, canceled))
      ensures id == old(issued) && (reply.Some? <==> id in log.replies)
      ensures reply.Some? ==> log.replies[id] == Sent(reply.value)
    {
      StepInv(Abs(), Event.Send(x, canceled));
      Unanswered(Abs(), issued);
      id := Number();
      if canceled || terminal.Some? {
        log := Resume(log, id, Sent(false));
        return id, Some(false);
      }
      var taken := Place(Item(id, x));
      if taken {
        log := Resume(log, id, Sent(true));
        return id, Some(true);
      }
      senders := senders + [Item(id, x)];
      reply := None;
    }

    method Offer(x: T) returns (ok: bool)
      requires Valid()
      modifies this
      ensures Valid() && Abs() == Step(old(Abs()), Event.Offer(x))
      ensures old(issued) in log.replies && log.replies[old(issued)] == Sent(ok)
    {
      StepInv(Abs(), Event.Offer(x));
      var id := Number();
      if terminal.Some? {
        ok := false;
      } else {
        ok := Place(Item(id, x));
      }
      log := Resume(log, id, Sent(ok));
    }

    method Number() returns (id: nat)
      requires issued == log.issued
      modifies this`issued, this`log
      ensures id == old(issued) && issued == id + 1 && log == Issue(old(log))
    {
      id := issued;
      issued := issued + 1;
      log := Issue(log);
    }

    /** Hands the element to a waiting receiver or buffers it. */
    method Place(item: Item<T>) returns (ok: bool)
      modifies this`receivers, this`buffer, this`high, this`log
      ensures ok == Room(old(Abs()).s)
      ensures Abs() == if ok then Accept(old(Abs()), item) else old(Abs())
    {
      if receivers != [] {
        var r := receivers[0];
        receivers := receivers[1..];
        log := log.(accepted := log.accepted + [item], delivered := log.delivered + [Item(r, item.value)]);
        log := Resume(log, r, Got(item.value));
        return true;
      }
      if |buffer| >= capacity { return false; }
      Push(item.value);
      log := log.(accepted := log.accepted + [item]);
      ok := true;
    }

    method Push(x: T)
      modifies this`buffer, this`high
      ensures Abs() == View(Append(old(Abs()).s, x), old(log))
    {
      buffer := buffer + [x];
      high := if high < |buffer| then |buffer| else high;
    }

    method Next(canceled: bool) returns (id: nat, reply: Option<Reply<T>>)
      requires Valid()
      modifies this
      ensures Valid() && Abs() == Step(old(Abs()), Event.Next(canceled))
      ensures id == old(issued) && (reply.Some? <==> id in log.replies)
      ensures reply.Some? ==> log.replies[id] == reply.value
    {
      StepInv(Abs(), Event.Next(canceled));
      Unanswered(Abs(), issued);
      id := Number();
      reply := None;
      if canceled {
        reply := Some(Canceled);
      } else if buffer != [] {
        var x := buffer[0];
        buffer := buffer[1..];
        log := log.(delivered := log.delivered + [Item(id, x)]);
        AdmitSender();
        reply := Some(Got(x));
      } else if terminal.Some? {
        reply := Some(Ended(terminal.value));
      } else {
        receivers := receivers + [id];
      }
      if reply.Some? { log := Resume(log, id, reply.value); }
    }

    method AdmitSender()
      modifies this`senders, this`buffer, this`high, this`log
      ensures Abs() == Admit(old(Abs()))
    {
      if terminal.Some? || senders == [] { return; }
      var first := senders[0];
      senders := senders[1..];
      Push(first.value);
      log := Resume(log.(accepted := log.accepted + [first]), first.id, Sent(true));
    }

    method CancelSender(id: nat)
      requires Valid()
      modifies this
      ensures Valid() && Abs() == Step(old(Abs()), Event.CancelSender(id))
    {
      StepInv(Abs(), Event.CancelSender(id));
      var k := Index(Ids(senders), id);
      if k == |senders| { return; }
      senders := senders[..k] + senders[k + 1..];
      log := Resume(log, id, Sent(false));
    }

    method CancelReceiver(id: nat)
      requires Valid()
      modifies this
      ensures Valid() && Abs() == Step(old(Abs()), Event.CancelReceiver(id))
    {
      StepInv(Abs(), Event.CancelReceiver(id));
      var k := Index(receivers, id);
      if k == |receivers| { return; }
      receivers := receivers[..k] + receivers[k + 1..];
      log := Resume(log, id, Canceled);
    }

    method Finish(end: End, discarding: bool)
      requires Valid()
      modifies this
      ensures Valid() && Abs() == Step(old(Abs()), Event.Finish(end, discarding))
    {
      StepInv(Abs(), Event.Finish(end, discarding));
      FinishPlaces(Abs(), end, discarding, 0);
      if terminal.None? { Shut(end, discarding); }
    }

    method Shut(end: End, discarding: bool)
      requires terminal.None?
      modifies this`terminal, this`buffer, this`receivers, this`senders, this`log
      ensures Abs() == FinishWith(old(Abs()), end, discarding)
    {
      terminal := Some(end);
      if discarding {
        log := log.(lost := log.lost + buffer);
        buffer := [];
      } else {
        assert log.lost + [] == log.lost;
      }
      var ending := if buffer == [] then receivers else [];
      if buffer == [] { receivers := []; }
      var refused := Ids(senders);
      senders := [];
      ResumeEach(refused, Sent(false));
      ResumeEach(ending, Ended(end));
    }

    method ResumeEach(ids: seq<nat>, r: Reply<T>)
      modifies this`log
      ensures log == ResumeAll(old(log), ids, r)
    {
      for i := 0 to |ids|
        invariant log == ResumeAll(old(log), ids[..i], r)
      {
        assert ids[..i + 1][..i] == ids[..i];
        log := Resume(log, ids[i], r);
      }
      assert ids[..|ids|] == ids;
    }
  }
}
