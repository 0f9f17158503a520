/** From the writer's completion to the delivery proof of one attempt, and from the
    delivery proof to the reconnect-and-replay loop of one logical call. */
module Delivery {
  import opened Options
  import opened Counts
  import opened SessionWriter
  import opened WriterTheorems

  // ----- Errors and their classifiers -----

  datatype Errno = ETIMEDOUT | ECONNRESET | ECONNABORTED | EPIPE | ENOTCONN | ENOENT | ECONNREFUSED | OtherErrno

  datatype Transport =
    | SystemCall(operation: string, errno: Errno)
    | InvalidFrame | FrameTooLarge | CancellationDidNotSettle | Disconnected
    | OtherTransport

  datatype Error =
    | Cancellation
    | CallDeadlineExceeded
    | Wire(transport: Transport)
    | MalformedAttempt
    | DeadlineExceeded
    | OtherError

  predicate IsDeadlineExpiry(e: Error) {
    e.CallDeadlineExceeded? || (e.Wire? && e.transport.SystemCall? && e.transport.errno == ETIMEDOUT)
  }

  predicate IsLocalCallFailure(e: Error) {
    e.Wire? && (e.transport.InvalidFrame? || e.transport.FrameTooLarge?)
  }

  predicate ProvesSessionTransition(e: Error) {
    e.Wire? &&
    match e.transport
    case SystemCall(op, code) =>
      op in {"read", "send", "poll"} && code in {ECONNRESET, ECONNABORTED, EPIPE, ENOTCONN}
    case CancellationDidNotSettle => true
    case Disconnected => true
    case _ => false
  }

  // ----- One open -----

  datatype CallOutcome = Delivered | PreSendFailure | Rejected | PostSendFailure | DeliveryUnknown

  /** What one opening request meets.  `events` is everything that happened to the session's
      writer up to the completion of the request's entry, which is entry `id`. */
  datatype Open =
    | Invalid(cause: Error)
    | SessionClosed
    | CanceledBeforeSubmit
    | Written(limit: nat, events: seq<Event>, id: Id, failure: Error, canceledAfter: bool)
  {
    /** The request is an ordinary frame whose completion was called, and the codec throws no
        cancellation of its own. */
    ghost predicate Valid() {
      Written? ==>
        && Legal(events) && !failure.Cancellation?
        && id < |Writer().frames| && Writer().frames[id] == Frame(Ordinary, false)
        && Completions(Writer().log, id) > 0
    }

    function Writer(): State
      requires Written?
    {
      Run(Fresh(limit), events)
    }

    /** The start observer ran, which it does immediately before the codec is called. */
    predicate Started()
      requires Written?
    {
      id in Writer().written
    }

    /** Bytes of the request may have reached the wire. */
    predicate Handed() { Written? && Started() }
  }

  datatype Opened = Call | OpenFailure(outcome: CallOutcome, cause: Error)

  /** The writer's completion as the awaiting task sees it. */
  function WriteError(o: Open): Option<Error>
    requires o.Written?
  {
    var log := o.Writer().log;
    if o.id in log.succeeded then None
    else if o.id in log.canceled then Some(Cancellation)
    else Some(o.failure)
  }

  function ClassifyOpenFailure(e: Error, committed: bool, started: bool): Opened {
    if committed then OpenFailure(PostSendFailure, e)
    else OpenFailure(if started then DeliveryUnknown else PreSendFailure, e)
  }

  function SettleCanceledOpen(committed: bool): Opened {
    OpenFailure(if committed then PostSendFailure else PreSendFailure, Cancellation)
  }

  function OpenClassified(o: Open): Opened {
    match o
    case Invalid(e) => OpenFailure(PreSendFailure, e)
    case SessionClosed => OpenFailure(PreSendFailure, Wire(Disconnected))
    case CanceledBeforeSubmit => SettleCanceledOpen(false)
    case Written(_, _, _, _, canceledAfter) =>
      match WriteError(o)
      case Some(Cancellation) => SettleCanceledOpen(false)
      case Some(e) => ClassifyOpenFailure(e, false, o.Started())
      case None => if canceledAfter then SettleCanceledOpen(true) else Call
  }

  /** The classification is exact about the codec: a pre-send failure means it never saw the
      request, and every other outcome means it was handed the request. */
  lemma ClassifiedByCodec(o: Open)
    requires o.Valid()
    ensures (OpenClassified(o).OpenFailure? && OpenClassified(o).outcome.PreSendFailure?) <==> !o.Handed()
  {
    if o.Written? {
      CompletionProof(o.limit, o.events, o.id);
      var log := o.Writer().log;
      CountMember(log.succeeded, o.id);
      CountMember(log.canceled, o.id);
      CountMember(log.failed, o.id);
    }
  }

  // ----- One attempt -----

  datatype ResponseCode = RuntimeStarting | RuntimeDraining | BuildMismatch | OtherCode

  datatype Terminal = Terminal(rejected: bool, code: ResponseCode)

  /** What the polling loop of an attempt finds first once the request is open. */
  datatype Settlement = Answered(terminal: Terminal) | ResponseFailed(e: Error) | TaskCanceled | DeadlinePassed

  datatype Attempt = Attempt(outcome: CallOutcome, terminal: Option<Terminal>, error: Option<Error>)

  function MakeAttempt(o: Open, s: Settlement): Attempt {
    match OpenClassified(o)
    case OpenFailure(outcome, cause) => Attempt(outcome, None, Some(cause))
    case Call =>
      match s
      case Answered(t) => Attempt(if t.rejected then Rejected else Delivered, Some(t), None)
      case ResponseFailed(e) => Attempt(PostSendFailure, None, Some(e))
      case TaskCanceled => Attempt(PostSendFailure, None, Some(Cancellation))
      case DeadlinePassed => Attempt(PostSendFailure, None, Some(CallDeadlineExceeded))
  }

  // ----- The replay loop -----

  datatype Replay = ProvenNonDispatch | Idempotent

  datatype Decision = Return(terminal: Terminal) | Throw(error: Error) | Again

  /** `fatal` reports that the service lifetime ended with this failure. */
  datatype Handled = Handled(verdict: Decision, retire: bool, fatal: bool)

  function HandleCallFailure(e: Error, replay: Replay, sent: bool, expired: bool): Handled {
    if IsDeadlineExpiry(e) then
      if expired then Handled(Throw(DeadlineExceeded), false, false)
      else if !sent || replay.Idempotent? then Handled(Again, true, false)
      else Handled(Throw(e), true, false)
    else if e.Cancellation? || (!sent && IsLocalCallFailure(e)) then Handled(Throw(e), false, false)
    else if !ProvesSessionTransition(e) then Handled(Throw(e), false, true)
    else if !sent || replay.Idempotent? then Handled(Again, true, false)
    else Handled(Throw(e), true, false)
  }

  function Handle(a: Attempt, replay: Replay, expired: bool): Handled {
    match a.outcome
    case Delivered =>
      if a.terminal.None? then Handled(Throw(MalformedAttempt), false, false)
      else Handled(Return(a.terminal.value), false, false)
    case Rejected =>
      if a.terminal.None? then Handled(Throw(MalformedAttempt), false, false)
      else
        (match a.terminal.value.code
         case RuntimeStarting => Handled(Again, true, false)
         case RuntimeDraining => Handled(Again, true, false)
         case BuildMismatch => Handled(Throw(OtherError), false, true)
         case OtherCode => Handled(Return(a.terminal.value), false, false))
    case PreSendFailure =>
      if a.error.None? then Handled(Throw(MalformedAttempt), false, false)
      else HandleCallFailure(a.error.value, replay, false, expired)
    case _ =>
      if a.error.None? then Handled(Throw(MalformedAttempt), false, false)
      else HandleCallFailure(a.error.value, replay, true, expired)
  }

  /** One turn of the loop: the session was not ready, the client or deadline check threw,
      or an attempt ran. */
  datatype Round =
    | NotReady
    | Refused(error: Error)
    | Ready(open: Open, settlement: Settlement, expired: bool)
  {
    ghost predicate Valid() { Ready? ==> open.Valid() }

    function Made(): Attempt
      requires Ready?
    {
      MakeAttempt(open, settlement)
    }

    /** The server answered that it was starting or draining and ran nothing. */
    predicate TurnedAway() {
      && Ready? && Made().outcome.Rejected? && Made().terminal.Some?
      && (Made().terminal.value.code.RuntimeStarting? || Made().terminal.value.code.RuntimeDraining?)
    }

    /** The request may have been executed by a server. */
    predicate MayHaveRun() { Ready? && open.Handed() && !TurnedAway() }

    /** What the loop decides on the attempt. */
    function Verdict(replay: Replay): Decision
      requires Ready?
    {
      Handle(Made(), replay, expired).verdict
    }

    /** The session of the attempt is given up. */
    predicate Retires(replay: Replay)
      requires Ready?
    {
      Handle(Made(), replay, expired).retire
    }

    /** The attempt ends the client's whole lifetime. */
    predicate Fatal(replay: Replay)
      requires Ready?
    {
      Handle(Made(), replay, expired).fatal
    }
  }

  /** Only a proof of non-dispatch lets a guarded call try again. */
  lemma AgainMeansNotRun(r: Round)
    requires r.Ready? && r.Valid()
    requires Handle(r.Made(), ProvenNonDispatch, r.expired).verdict.Again?
    ensures !r.MayHaveRun()
  {
    ClassifiedByCodec(r.open);
  }

  /** How many attempts may have run. */
  function Runs(made: seq<Round>): nat {
    if made == [] then 0 else (if made[0].MayHaveRun() then 1 else 0) + Runs(made[1..])
  }

  datatype CallResult = Answer(terminal: Terminal) | Failure(error: Error) | StillWaiting

  /** What one logical call comes to over the given rounds, and the attempts it makes: it waits out
      a session that is not ready, ends at a refusal or at the first attempt that decides it, and
      goes on after any other. */
  function Decide(rounds: seq<Round>, replay: Replay): (CallResult, seq<Round>) {
    if rounds == [] then (StillWaiting, []) else
      match rounds[0]
      case NotReady => Decide(rounds[1..], replay)
      case Refused(e) => (Failure(e), [])
      case Ready(_, _, _) =>
        match rounds[0].Verdict(replay)
        case Return(t) => (Answer(t), [rounds[0]])
        case Throw(e) => (Failure(e), [rounds[0]])
        case Again => var (result, made) := Decide(rounds[1..], replay); (result, [rounds[0]] + made)
  }

  ghost predicate AllAgain(made: seq<Round>, replay: Replay) {
    forall i :: 0 <= i < |made| ==> made[i].Ready? && made[i].Verdict(replay).Again?
  }

  /** How a call that made these attempts may have ended: with the verdict on the last of them, with
      a refusal, or not at all; every attempt before that was judged to be tried again. */
  ghost predicate EndsAs(result: CallResult, made: seq<Round>, rounds: seq<Round>, replay: Replay) {
    || (AllAgain(made, replay) && (result.StillWaiting? || (result.Failure? && Refused(result.error) in rounds)))
    || (made != [] && AllAgain(made[..|made| - 1], replay) && DecidedBy(result, made[|made| - 1], replay))
  }

  predicate DecidedBy(result: CallResult, r: Round, replay: Replay) {
    r.Ready? &&
    match r.Verdict(replay)
    case Return(t) => result == Answer(t)
    case Throw(e) => result == Failure(e)
    case Again => false
  }

  lemma {:induction false} Decided(rounds: seq<Round>, replay: Replay)
    ensures EndsAs(Decide(rounds, replay).0, Decide(rounds, replay).1, rounds, replay)
    decreases |rounds|
  {
    if rounds != [] {
      Decided(rounds[1..], replay);
      assert forall r :: r in rounds[1..] ==> r in rounds;
      if rounds[0].Ready? {
        var (result, made) := Decide(rounds[1..], replay);
        assert [rounds[0]][..0] == [];
        if rounds[0].Verdict(replay).Again? { EndsLater(result, made, rounds, replay); }
      }
    }
  }

  lemma EndsLater(result: CallResult, made: seq<Round>, rounds: seq<Round>, replay: Replay)
    requires rounds != [] && rounds[0].Ready? && rounds[0].Verdict(replay).Again?
    requires EndsAs(result, made, rounds[1..], replay)
    ensures EndsAs(result, [rounds[0]] + made, rounds, replay)
  {
    var all := [rounds[0]] + made;
    assert forall r :: r in rounds[1..] ==> r in rounds;
    if made != [] { assert all[..|all| - 1] == [rounds[0]] + made[..|made| - 1]; }
  }

  /** The attempts so far, and what the rest of the rounds comes to. */
  function Resumed(made: seq<Round>, rounds: seq<Round>, replay: Replay): (CallResult, seq<Round>) {
    (Decide(rounds, replay).0, made + Decide(rounds, replay).1)
  }

  lemma Resuming(made: seq<Round>, rounds: seq<Round>, replay: Replay)
    requires rounds != []
    ensures rounds[0].NotReady? ==> Resumed(made, rounds, replay) == Resumed(made, rounds[1..], replay)
    ensures rounds[0].Refused? ==> Resumed(made, rounds, replay) == (Failure(rounds[0].error), made)
    ensures rounds[0].Ready? ==>
              Resumed(made, rounds, replay) ==
              match rounds[0].Verdict(replay)
              case Return(t) => (Answer(t), made + [rounds[0]])
              case Throw(e) => (Failure(e), made + [rounds[0]])
              case Again => Resumed(made + [rounds[0]], rounds[1..], replay)
  {
    var more := Decide(rounds[1..], replay).1;
    assert made + [] == made;
    assert made + ([rounds[0]] + more) == made + [rounds[0]] + more;
  }

  /** At most one attempt may have run, and it is the last. */
  ghost predicate AtMostLast(made: seq<Round>) {
    Runs(made) <= 1 && (made != [] ==> Runs(made[..|made| - 1]) == 0)
  }

  /** Under the guarded policy at most one attempt of a whole call may have run, over any rounds. */
  lemma {:induction false} AtMostOnce(rounds: seq<Round>)
    requires forall i :: 0 <= i < |rounds| ==> rounds[i].Valid()
    ensures AtMostLast(Decide(rounds, ProvenNonDispatch).1)
    decreases |rounds|
  {
    if rounds != [] {
      AtMostOnce(rounds[1..]);
      if rounds[0].Ready? { FirstAttempt(rounds[0], Decide(rounds[1..], ProvenNonDispatch).1); }
    }
  }

  lemma FirstAttempt(r: Round, more: seq<Round>)
    requires r.Ready? && r.Valid() && AtMostLast(more)
    ensures AtMostLast([r])
    ensures r.Verdict(ProvenNonDispatch).Again? ==> AtMostLast([r] + more)
  {
    assert Runs([r]) == (if r.MayHaveRun() then 1 else 0) + Runs([]);
    assert [r][..0] == [];
    if r.Verdict(ProvenNonDispatch).Again? {
      AgainMeansNotRun(r);
      RunsCons(r, more);
      if more != [] {
        RunsCons(r, more[..|more| - 1]);
        assert ([r] + more)[..|more|] == [r] + more[..|more| - 1];
      }
    }
  }

  lemma RunsCons(r: Round, more: seq<Round>)
    ensures Runs([r] + more) == (if r.MayHaveRun() then 1 else 0) + Runs(more)
  {
    assert ([r] + more)[1..] == more;
  }

  /** A call leaves the client ended exactly if its last attempt was fatal, and then with its error. */
  ghost predicate Ends(result: CallResult, made: seq<Round>, terminal: Option<Error>, replay: Replay) {
    (terminal.Some? <==> Ruined(made, replay)) && (terminal.Some? ==> result == Failure(terminal.value))
  }

  predicate Ruined(made: seq<Round>, replay: Replay) {
    made != [] && made[|made| - 1].Ready? && made[|made| - 1].Fatal(replay)
  }

  lemma RuinedByLast(made: seq<Round>, r: Round, replay: Replay)
    requires r.Ready?
    ensures Ruined(made + [r], replay) <==> r.Fatal(replay)
  {
  }

  class ServiceClient {
    var generation: Option<nat>
    var nextGeneration: nat
    var terminal: Option<Error>
    /** Every attempt this client ever made. */
    ghost var attempts: seq<Round>

    constructor ()
      ensures generation == None && nextGeneration == 1 && terminal == None && attempts == []
    {
      generation, nextGeneration, terminal, attempts := None, 1, None, [];
    }

    /** Drops the session only if it is still the current one. */
    method Retire(id: nat)
      modifies this`generation
      ensures generation == if old(generation) == Some(id) then None else old(generation)
    {
      if generation == Some(id) { generation := None; }
    }

    method Fail(e: Error)
      modifies this`terminal, this`generation
      ensures old(terminal).Some? ==> terminal == old(terminal) && generation == old(generation)
      ensures old(terminal).None? ==> terminal == Some(e) && generation == None
    {
      if terminal.None? {
        terminal := Some(e);
        generation := None;
      }
    }

    /** One attempt in the current session, and what is decided on it.  Under the guarded policy
        the loop goes on only after an attempt that provably ran nowhere. */
    method Try(round: Round, replay: Replay) returns (verdict: Decision)
      requires round.Valid() && round.Ready? && terminal.None?
      modifies this
      ensures attempts == old(attempts) + [round] && verdict == round.Verdict(replay)
      ensures terminal == if round.Fatal(replay) && verdict.Throw? then Some(verdict.error) else None
      ensures round.Fatal(replay) ==> verdict.Throw?
      ensures verdict.Again? && replay.ProvenNonDispatch? ==> !round.MayHaveRun()
      ensures verdict.Return? ==> round.Made().terminal == Some(verdict.terminal)
      ensures nextGeneration == old(nextGeneration) + if old(generation).None? then 1 else 0
      ensures generation ==
                if round.Retires(replay) || round.Fatal(replay) then None
                else if old(generation).Some? then old(generation) else Some(old(nextGeneration))
    {
      if generation.None? {
        generation := Some(nextGeneration);
        nextGeneration := nextGeneration + 1;
      }
      attempts := attempts + [round];
      AgainWhenNotRun(round, replay);
      verdict := Conclude(generation.value, Handle(round.Made(), replay, round.expired));
    }

    method Conclude(id: nat, handled: Handled) returns (verdict: Decision)
      requires generation == Some(id) && terminal.None? && (handled.fatal ==> handled.verdict.Throw?)
      modifies this`generation, this`terminal
      ensures verdict == handled.verdict
      ensures terminal == if handled.fatal then Some(verdict.error) else None
      ensures generation == if handled.retire || handled.fatal then None else Some(id)
    {
      if handled.retire { Retire(id); }
      if handled.verdict.Throw? && handled.fatal { Fail(handled.verdict.error); }
      verdict := handled.verdict;
    }

    /** One logical call over the given rounds: it makes the attempts and comes to the result that
        `Decide` names.  Under the guarded policy every attempt but the last provably ran nowhere, so
        at most one of them may have run. */
    method Call(rounds: seq<Round>, replay: Replay) returns (result: CallResult, made: seq<Round>)
      requires forall i :: 0 <= i < |rounds| ==> rounds[i].Valid()
      modifies this
      ensures attempts == old(attempts) + made
      ensures (result, made) ==
                if old(terminal).Some? then (Failure(old(terminal).value), []) else Decide(rounds, replay)
      ensures replay.ProvenNonDispatch? ==> AtMostLast(made)
      ensures nextGeneration >= old(nextGeneration)
      ensures old(terminal).Some? ==> terminal == old(terminal)
      ensures old(terminal).None? ==> Ends(result, made, terminal, replay)
    {
      if terminal.Some? { return Failure(terminal.value), []; }
      result, made := Go(rounds, replay);
      if replay.ProvenNonDispatch? { AtMostOnce(rounds); }
    }

    method Go(rounds: seq<Round>, replay: Replay) returns (result: CallResult, made: seq<Round>)
      requires terminal.None? && forall i :: 0 <= i < |rounds| ==> rounds[i].Valid()
      modifies this
      ensures attempts == old(attempts) + made && (result, made) == Decide(rounds, replay)
      ensures nextGeneration >= old(nextGeneration) && Ends(result, made, terminal, replay)
    {
      made := [];
      assert rounds[0..] == rounds && [] + Decide(rounds, replay).1 == Decide(rounds, replay).1;
      for i := 0 to |rounds|
        invariant attempts == old(attempts) + made
        invariant Decide(rounds, replay) == Resumed(made, rounds[i..], replay)
        invariant terminal.None? && nextGeneration >= old(nextGeneration)
        invariant !Ruined(made, replay)
      {
        var round := rounds[i];
        assert rounds[i..][0] == round && rounds[i..][1..] == rounds[i + 1..];
        Resuming(made, rounds[i..], replay);
        if round.Refused? { return Failure(round.error), made; }
        if round.Ready? {
          RuinedByLast(made, round, replay);
          var verdict := Try(round, replay);
          made := made + [round];
          match verdict {
            case Return(t) => return Answer(t), made;
            case Throw(e) => return Failure(e), made;
            case Again =>
          }
        }
      }
      assert made + [] == made;
      result := StillWaiting;
    }
  }

  lemma AgainWhenNotRun(r: Round, replay: Replay)
    requires r.Ready? && r.Valid()
    ensures replay.ProvenNonDispatch? && Handle(r.Made(), replay, r.expired).verdict.Again? ==> !r.MayHaveRun()
    ensures var v := Handle(r.Made(), replay, r.expired).verdict; v.Return? ==> r.Made().terminal == Some(v.terminal)
    ensures r.Fatal(replay) ==> r.Verdict(replay).Throw?
  {
    ReturnsTerminal(r.Made(), replay, r.expired);
    if replay.ProvenNonDispatch? && Handle(r.Made(), replay, r.expired).verdict.Again? { AgainMeansNotRun(r); }
  }

  lemma ReturnsTerminal(a: Attempt, replay: Replay, expired: bool)
    ensures var v := Handle(a, replay, expired).verdict; v.Return? ==> a.terminal == Some(v.terminal)
  {
  }
}
