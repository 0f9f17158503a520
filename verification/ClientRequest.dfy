/** The request sender and its settlement as they are written: each method is what an actor or a
    lock holder does between two suspension points, changing fields in place. */
module ClientRequest {
  import opened RequestSender

  class ClientRequest {
    var ended: bool
    var next: nat
    var exhausted: bool
    var inFlight: nat
    var drainWaiters: nat
    var turn: Turn
    var turnWaiters: seq<Call>
    var tickets: nat
    var arriving: seq<bool>
    var leaving: nat
    var drained: nat
    var phase: Phase
    var intent: Outcome
    var published: seq<Outcome>
    var latecomers: nat
    var told: seq<Outcome>
    var disconnected: bool
    var handed: seq<Frame>
    var passed: seq<Frame>
    ghost var order: seq<nat>
    ghost var trace: seq<Event>
    ghost var started: bool

    ghost function Abs(): State
      reads this
    {
      State(Sender(ended, Sequence(next, exhausted), turn, arriving, turnWaiters, leaving, inFlight, drainWaiters, drained, tickets),
            Settlement(phase, intent, published, latecomers, told), disconnected, handed, passed, order)
    }

    /** Every state an object reaches is one a run of the step system reaches. */
    ghost predicate Valid()
      reads this
    {
      Abs() == Run(Fresh(started), trace)
    }

    /** The object moved by one step. */
    twostate predicate Stepped(e: Event)
      reads this
    {
      Abs() == Step(old(Abs()), e) && trace == old(trace) + [e] && started == old(started)
    }

    constructor (ended: bool)
      ensures Valid() && Abs() == Fresh(ended) && trace == []
    {
      this.ended, next, exhausted, inFlight, drainWaiters := ended, 0, false, 0, 0;
      turn, turnWaiters, arriving, leaving, drained := Free, [], [], 0, 0;
      phase, intent, published, latecomers, told := Idle, Error(0), [], 0, [];
      disconnected, handed, passed, order, tickets := false, [], [], [], 0;
      trace, started := [], ended;
    }

    ghost method Record(e: Event, before: State)
      requires before == Run(Fresh(started), trace) && Abs() == Step(before, e)
      modifies this`trace
      ensures Valid() && trace == old(trace) + [e]
    {
      var more := RunSnoc(Fresh(started), trace, e);
      trace := more;
    }

    method Enter(end: bool) returns (ok: bool)
      requires Valid()
      modifies this
      ensures Valid() && Stepped(Event.Enter(end)) && ok == !old(ended)
    {
      ghost var before := Abs();
      ok := !ended;
      if ok {
        inFlight := inFlight + 1;
        arriving := arriving + [end];
      }
      Record(Event.Enter(end), before);
    }

    method Acquire(k: nat)
      requires Valid() && k < |arriving|
      modifies this
      ensures Valid() && Stepped(Event.Acquire(k))
    {
      ghost var before := Abs();
      Ask(k);
      Record(Event.Acquire(k), before);
    }

    method Ask(k: nat)
      requires k < |arriving|
      modifies this`tickets, this`arriving, this`turn, this`turnWaiters
      ensures Abs() == old(Abs()).(s := DoAcquire(old(Abs()).s, k))
    {
      var call := Call(tickets, arriving[k]);
      tickets := tickets + 1;
      arriving := arriving[..k] + arriving[k + 1..];
      if turn.Free? { turn := Granted(call); } else { turnWaiters := turnWaiters + [call]; }
    }

    method Number() returns (ok: bool)
      requires Valid() && turn.Granted?
      modifies this
      ensures Valid() && Stepped(Event.Number) && ok == (!old(ended) && !old(exhausted))
    {
      ghost var before := Abs();
      ok := !ended && !exhausted;
      if ok { TakeNumber(); } else { Release(); }
      Record(Event.Number, before);
    }

    method TakeNumber()
      requires turn.Granted? && !ended && !exhausted
      modifies this`next, this`exhausted, this`turn
      ensures Abs() == DoNumber(old(Abs()))
    {
      var number := Take();
      turn := Numbered(number, turn.call);
    }

    /** The last number is handed out once, and then none. */
    method Take() returns (number: nat)
      requires !exhausted
      modifies this`next, this`exhausted
      ensures number == old(next) && Sequence(next, exhausted) == old(Sequence(next, exhausted)).Take()
    {
      number := next;
      if next == LIMIT - 1 { exhausted := true; } else { next := next + 1; }
    }

    method Hand()
      requires Valid() && turn.Numbered?
      modifies this
      ensures Valid() && Stepped(Event.Hand)
    {
      ghost var before := Abs();
      if ended { Release(); } else { GiveFrame(); }
      Record(Event.Hand, before);
    }

    method GiveFrame()
      requires turn.Numbered? && !ended
      modifies this`turn, this`handed, this`passed, this`order
      ensures Abs() == DoHand(old(Abs()))
    {
      var f := Frame(turn.number, turn.call.end);
      order := order + [turn.call.ticket];
      turn := Writing(f, !disconnected);
      handed := handed + [f];
      if !disconnected { passed := passed + [f]; }
    }

    method Wrote(ok: bool)
      requires Valid() && turn.Writing?
      modifies this
      ensures Valid() && Stepped(Event.Wrote(ok))
    {
      ghost var before := Abs();
      Report(ok && turn.open);
      Release();
      Record(Event.Wrote(ok), before);
    }

    /** The end frame ends the stream once it is written; a failed write ends the connection. */
    method Report(ok: bool)
      requires turn.Writing?
      modifies this`ended, this`disconnected
      ensures Abs() == if ok then old(Abs()).(s := old(Abs()).s.(ended := old(ended) || turn.frame.end))
                       else old(Abs()).(disconnected := true)
    {
      if ok {
        if turn.frame.end { ended := true; }
      } else {
        disconnected := true;
      }
    }

    method Depart()
      requires Valid() && leaving > 0
      modifies this
      ensures Valid() && Stepped(Event.Depart)
    {
      ghost var before := Abs();
      leaving := leaving - 1;
      FinishSend();
      Record(Event.Depart, before);
    }

    /** Gives the turn up and leaves. */
    method Release()
      modifies this`turn, this`turnWaiters, this`leaving, this`inFlight, this`drainWaiters, this`drained, this`phase
      ensures Abs() == Leave(old(Abs()))
    {
      if ended {
        leaving := leaving + |turnWaiters|;
        turn, turnWaiters := Free, [];
      } else if turnWaiters == [] {
        turn := Free;
      } else {
        turn, turnWaiters := Granted(turnWaiters[0]), turnWaiters[1..];
      }
      FinishSend();
    }

    method FinishSend()
      modifies this`inFlight, this`drainWaiters, this`drained, this`phase
      ensures Abs() == RequestSender.FinishSend(old(Abs()))
    {
      if inFlight > 0 { inFlight := inFlight - 1; }
      if inFlight != 0 { return; }
      drained, drainWaiters := drained + drainWaiters, 0;
      if phase.Draining? { phase := Closed; }
    }

    /** `returned` is false for a close that waits for the sends in flight. */
    method Close() returns (returned: bool)
      requires Valid()
      modifies this
      ensures Valid() && Stepped(Event.Close) && ended
      ensures returned ==> inFlight == 0
    {
      ghost var before := Abs();
      ended := true;
      returned := inFlight == 0;
      if returned { drained := drained + 1; } else { drainWaiters := drainWaiters + 1; }
      Record(Event.Close, before);
    }

    method Disconnect()
      requires Valid()
      modifies this
      ensures Valid() && Stepped(Event.Disconnect)
    {
      ghost var before := Abs();
      disconnected := true;
      Record(Event.Disconnect, before);
    }

    /** Only one finisher ever claims the settlement. */
    method Finish(o: Outcome) returns (claimed: bool)
      requires Valid()
      modifies this
      ensures Valid() && Stepped(Event.Finish(o)) && claimed == old(phase).Idle?
    {
      ghost var before := Abs();
      claimed := phase.Idle?;
      if claimed { phase, intent := Claimed, o; } else { latecomers := latecomers + 1; }
      Record(Event.Finish(o), before);
    }

    method CloseForFinish()
      requires Valid() && phase.Claimed?
      modifies this
      ensures Valid() && Stepped(Event.CloseForFinish) && ended
    {
      ghost var before := Abs();
      ended := true;
      phase := if inFlight == 0 then Closed else Draining;
      Record(Event.CloseForFinish, before);
    }

    /** The terminal goes out once, with nothing in flight. */
    method Publish(hookError: nat) returns (o: Outcome)
      requires Valid() && phase.Closed?
      modifies this
      ensures Valid() && Stepped(Event.Publish(hookError))
      ensures published == [o] && inFlight == 0 && ended
    {
      PublishReady(started, trace);
      ghost var before := Abs();
      o := if intent.Result? && hookError != 0 then Error(hookError) else intent;
      published := published + [o];
      phase := Published;
      Record(Event.Publish(hookError), before);
    }

    method Learn() returns (o: Outcome)
      requires Valid() && phase.Published? && latecomers > 0
      modifies this
      ensures Valid() && Stepped(Event.Learn) && [o] == published
    {
      PublishReady(started, trace);
      ghost var before := Abs();
      o := published[0];
      latecomers := latecomers - 1;
      told := told + [o];
      Record(Event.Learn, before);
    }
  }
}
