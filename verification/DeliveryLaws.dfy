/** When the replay loop goes on and when it must stop, told by what happened to the request and not
    by how the loop decides. */
module DeliveryLaws {
  import opened Options
  import opened SessionWriter
  import opened Delivery

  /** The errors that prove a session went away under a call. */
  const TRANSITIONS: set<Error> := {
    Wire(SystemCall("read", ECONNRESET)), Wire(SystemCall("read", ECONNABORTED)),
    Wire(SystemCall("read", EPIPE)), Wire(SystemCall("read", ENOTCONN)),
    Wire(SystemCall("send", ECONNRESET)), Wire(SystemCall("send", ECONNABORTED)),
    Wire(SystemCall("send", EPIPE)), Wire(SystemCall("send", ENOTCONN)),
    Wire(SystemCall("poll", ECONNRESET)), Wire(SystemCall("poll", ECONNABORTED)),
    Wire(SystemCall("poll", EPIPE)), Wire(SystemCall("poll", ENOTCONN)),
    Wire(CancellationDidNotSettle), Wire(Disconnected)}

  lemma TransitionsListed(e: Error)
    ensures ProvesSessionTransition(e) <==> e in TRANSITIONS
  {
    if ProvesSessionTransition(e) && e.transport.SystemCall? {
      assert e == Wire(SystemCall(e.transport.operation, e.transport.errno));
    }
  }

  /** The time ran out on this error: the call's own deadline, or a system call's. */
  ghost predicate TimedOut(e: Error) {
    e == CallDeadlineExceeded || exists op :: e == Wire(SystemCall(op, ETIMEDOUT))
  }

  lemma TimedOutIs(e: Error)
    ensures IsDeadlineExpiry(e) <==> TimedOut(e)
  {
    if IsDeadlineExpiry(e) && e.Wire? { assert e == Wire(SystemCall(e.transport.operation, ETIMEDOUT)); }
  }

  /** The error the request met, if it was not answered: on its way in, at the writer, or waiting. */
  function Met(r: Round): Option<Error>
    requires r.Ready?
  {
    match r.open
    case Invalid(e) => Some(e)
    case SessionClosed => Some(Wire(Disconnected))
    case CanceledBeforeSubmit => Some(Cancellation)
    case Written(_, _, id, failure, canceledAfter) =>
      if id in r.open.Writer().log.succeeded then
        if canceledAfter then Some(Cancellation)
        else match r.settlement
          case Answered(_) => None
          case ResponseFailed(e) => Some(e)
          case TaskCanceled => Some(Cancellation)
          case DeadlinePassed => Some(CallDeadlineExceeded)
      else if id in r.open.Writer().log.canceled then Some(Cancellation)
      else Some(failure)
  }

  /** The request was answered, and this is the answer. */
  predicate AnsweredWith(r: Round, t: Terminal) {
    r.Ready? && Met(r).None? && r.settlement == Answered(t)
  }

  /** An attempt the caller is given: delivered, or rejected for a reason of the product's own. */
  predicate Delivers(r: Round, t: Terminal) {
    AnsweredWith(r, t) && (!t.rejected || t.code.OtherCode?)
  }

  /** The server answered that it was starting or draining. */
  predicate Away(r: Round) {
    r.Ready? && Met(r).None? && r.settlement.Answered? && r.settlement.terminal.rejected
    && (r.settlement.terminal.code.RuntimeStarting? || r.settlement.terminal.code.RuntimeDraining?)
  }

  /** The request may be tried again: nothing of it reached the codec, or the call may be repeated,
      and what it met is a timeout with time left or proves that the session went away. */
  ghost predicate Repeatable(r: Round, replay: Replay) {
    && r.Ready? && Met(r).Some? && (!r.open.Handed() || replay.Idempotent?)
    && ((TimedOut(Met(r).value) && !r.expired) || Met(r).value in TRANSITIONS)
  }

  lemma MadeOf(r: Round)
    requires r.Ready?
    ensures match Met(r)
            case Some(e) => r.Made().error == Some(e) && !r.Made().outcome.Delivered? && !r.Made().outcome.Rejected?
            case None =>
              && r.settlement.Answered?
              && r.Made() == Attempt(if r.settlement.terminal.rejected then Rejected else Delivered, Some(r.settlement.terminal), None)
  {
  }

  lemma HandedOf(r: Round)
    requires r.Ready? && r.Valid() && Met(r).Some?
    ensures r.Made().outcome.PreSendFailure? <==> !r.open.Handed()
  {
    ClassifiedByCodec(r.open);
    MadeOf(r);
  }

  /** What is decided on an attempt, by what it met. */
  lemma VerdictExactly(r: Round, replay: Replay)
    requires r.Ready? && r.Valid()
    ensures r.Verdict(replay).Again? <==> Away(r) || Repeatable(r, replay)
    ensures forall t :: r.Verdict(replay) == Return(t) <==> Delivers(r, t)
    ensures AnsweredWith(r, Terminal(true, BuildMismatch)) ==> r.Verdict(replay) == Throw(OtherError)
    ensures Met(r).Some? && !Repeatable(r, replay) ==>
              r.Verdict(replay) == Throw(if TimedOut(Met(r).value) && r.expired then DeadlineExceeded else Met(r).value)
  {
    MadeOf(r);
    if Met(r).Some? {
      HandedOf(r);
      TimedOutIs(Met(r).value);
      TransitionsListed(Met(r).value);
      Disjoint(Met(r).value);
    }
  }

  /** What an attempt costs, by what it met: its session is given up when it was turned away, ran out
      of a time that is not the call's own, or saw the session go; the client's lifetime ends on
      another build, and on any error that is none of these, not a cancellation and not a frame
      that was never sent for what it was. */
  lemma CostExactly(r: Round, replay: Replay)
    requires r.Ready? && r.Valid()
    ensures r.Retires(replay) <==>
              Away(r) || (Met(r).Some? && ((TimedOut(Met(r).value) && !r.expired) || Met(r).value in TRANSITIONS))
    ensures r.Fatal(replay) <==>
              || AnsweredWith(r, Terminal(true, BuildMismatch))
              || (&& Met(r).Some? && !TimedOut(Met(r).value) && Met(r).value != Cancellation && Met(r).value !in TRANSITIONS
                  && (r.open.Handed() || Met(r).value !in {Wire(InvalidFrame), Wire(FrameTooLarge)}))
  {
    MadeOf(r);
    if Met(r).Some? {
      HandedOf(r);
      TimedOutIs(Met(r).value);
      TransitionsListed(Met(r).value);
      Disjoint(Met(r).value);
    }
  }

  lemma Disjoint(e: Error)
    ensures e in TRANSITIONS ==> !e.Cancellation? && !IsLocalCallFailure(e) && !IsDeadlineExpiry(e)
  {
  }

  /** The loop goes past this round. */
  ghost predicate Passes(r: Round, replay: Replay) {
    r.NotReady? || Away(r) || Repeatable(r, replay)
  }

  /** The rounds in which an attempt was possible. */
  function Attempts(rounds: seq<Round>): seq<Round> {
    if rounds == [] then [] else (if rounds[0].Ready? then [rounds[0]] else []) + Attempts(rounds[1..])
  }

  /** However many rounds pass, the first that does not decides the call, and every attempt possible
      up to it was made: a delivered one is the answer, a refusal or any other failure is the error. */
  lemma {:induction false} FirstThatCounts(rounds: seq<Round>, replay: Replay, k: nat)
    requires forall i :: 0 <= i < |rounds| ==> rounds[i].Valid()
    requires k < |rounds| && !Passes(rounds[k], replay) && forall i :: 0 <= i < k ==> Passes(rounds[i], replay)
    ensures Decide(rounds, replay).1 == Attempts(rounds[..k + 1])
    ensures forall t :: Delivers(rounds[k], t) ==> Decide(rounds, replay).0 == Answer(t)
    ensures rounds[k].Refused? ==> Decide(rounds, replay).0 == Failure(rounds[k].error)
    ensures rounds[k].Ready? && Met(rounds[k]).Some? ==>
              Decide(rounds, replay).0 ==
              Failure(if TimedOut(Met(rounds[k]).value) && rounds[k].expired then DeadlineExceeded else Met(rounds[k]).value)
    decreases k
  {
    var first, rest := rounds[0], rounds[1..];
    assert rounds[..k + 1][0] == first && rounds[..k + 1][1..] == rest[..k];
    if first.Ready? { VerdictExactly(first, replay); }
    if k == 0 {
      assert rest[..0] == [] && Attempts([]) == [];
      assert [first] + [] == [first];
    } else {
      assert forall i :: 0 <= i < |rest| ==> rest[i] == rounds[i + 1];
      assert Passes(rounds[0], replay);
      FirstThatCounts(rest, replay, k - 1);
      assert rest[k - 1] == rounds[k];
    }
  }

  /** If every round passes the call is still waiting, with every possible attempt made. */
  lemma {:induction false} NothingCounts(rounds: seq<Round>, replay: Replay)
    requires forall i :: 0 <= i < |rounds| ==> rounds[i].Valid() && Passes(rounds[i], replay)
    ensures Decide(rounds, replay) == (StillWaiting, Attempts(rounds))
  {
    if rounds != [] {
      var rest := rounds[1..];
      assert forall i :: 0 <= i < |rest| ==> rest[i] == rounds[i + 1];
      assert Passes(rounds[0], replay);
      if rounds[0].Ready? { VerdictExactly(rounds[0], replay); }
      NothingCounts(rest, replay);
      assert [] + Attempts(rest) == Attempts(rest);
    }
  }
}
