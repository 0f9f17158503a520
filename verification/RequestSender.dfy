/** One request's outgoing stream and its settlement, as the interleaved steps of concurrent
    sends, closes and finishers. */
module RequestSender {

  const LIMIT: nat := 0x1_0000_0000

  /** The stream numbers: the last one is handed out once and nothing follows it. */
  datatype Sequence = Sequence(next: nat, exhausted: bool) {
    ghost predicate Valid() { next < LIMIT && (exhausted ==> next == LIMIT - 1) }

    /** How many numbers were taken. */
    function Taken(): nat { next + if exhausted then 1 else 0 }

    function Take(): Sequence
      requires !exhausted
    {
      if next == LIMIT - 1 then this.(exhausted := true) else this.(next := next + 1)
    }
  }

  datatype Frame = Frame(sequence: nat, end: bool)

  /** A send that asked for the turn; tickets are given in the order of asking. */
  datatype Call = Call(ticket: nat, end: bool)

  /** Where the call that has the turn stands; `open` says whether the client took its frame. */
  datatype Turn =
    | Free
    | Granted(call: Call)
    | Numbered(number: nat, call: Call)
    | Writing(frame: Frame, open: bool)

  /** `arriving` calls passed the first guard, `waiters` queue for the turn, and `leaving` ones
      were refused it; all of them are in flight. */
  datatype Sender = Sender(
    ended: bool, sequence: Sequence, turn: Turn,
    arriving: seq<bool>, waiters: seq<Call>, leaving: nat, inFlight: nat,
    draining: nat, drained: nat, tickets: nat)

  datatype Phase = Idle | Claimed | Draining | Closed | Published

  datatype Outcome = Result(value: nat) | Error(code: nat)

  /** `latecomers` found the settlement claimed and wait for it; `told` is what they were shown. */
  datatype Settlement = Settlement(
    phase: Phase, intent: Outcome, published: seq<Outcome>, latecomers: nat, told: seq<Outcome>)

  /** `handed` are the frames given to the client, `order` the tickets of the calls that gave them,
      and `passed` the frames the client gave to its writer. */
  datatype State = State(
    s: Sender, t: Settlement, disconnected: bool, handed: seq<Frame>, passed: seq<Frame>, order: seq<nat>)

  function Fresh(ended: bool): State {
    State(Sender(ended, Sequence(0, false), Free, [], [], 0, 0, 0, 0, 0),
          Settlement(Idle, Error(0), [], 0, []), false, [], [], [])
  }

  datatype Event =
    | Enter(end: bool)
    | Acquire(index: nat)
    | Number
    | Hand
    | Wrote(ok: bool)
    | Depart
    | Close
    | Disconnect
    | Finish(outcome: Outcome)
    | CloseForFinish
    | Publish(hookError: nat)
    | Learn

  // ----- Steps -----

  /** The last call out resumes everyone who waits for the drain. */
  function FinishSend(v: State): State {
    var s := v.s.(inFlight := if v.s.inFlight == 0 then 0 else v.s.inFlight - 1);
    if s.inFlight != 0 then v.(s := s) else
      v.(s := s.(draining := 0, drained := s.drained + s.draining),
         t := if v.t.phase.Draining? then v.t.(phase := Closed) else v.t)
  }

  function ReleaseTurn(s: Sender): Sender {
    if s.ended then s.(turn := Free, waiters := [], leaving := s.leaving + |s.waiters|)
    else if s.waiters == [] then s.(turn := Free)
    else s.(turn := Granted(s.waiters[0]), waiters := s.waiters[1..])
  }

  function Leave(v: State): State {
    FinishSend(v.(s := ReleaseTurn(v.s)))
  }

  function DoAcquire(s: Sender, k: nat): Sender
    requires k < |s.arriving|
  {
    var call := Call(s.tickets, s.arriving[k]);
    var rest := s.(arriving := s.arriving[..k] + s.arriving[k + 1..], tickets := s.tickets + 1);
    if s.turn.Free? then rest.(turn := Granted(call)) else rest.(waiters := rest.waiters + [call])
  }

  function DoNumber(v: State): State {
    if !v.s.turn.Granted? then v
    else if v.s.ended || v.s.sequence.exhausted then Leave(v)
    else v.(s := v.s.(sequence := v.s.sequence.Take(), turn := Numbered(v.s.sequence.next, v.s.turn.call)))
  }

  function DoHand(v: State): State {
    if !v.s.turn.Numbered? then v
    else if v.s.ended then Leave(v)
    else
      var f := Frame(v.s.turn.number, v.s.turn.call.end);
      v.(s := v.s.(turn := Writing(f, !v.disconnected)), handed := v.handed + [f], order := v.order + [v.s.turn.call.ticket],
         passed := if v.disconnected then v.passed else v.passed + [f])
  }

  /** A write that fails takes the connection down with it. */
  function DoWrote(v: State, ok: bool): State {
    if !v.s.turn.Writing? then v
    else if ok && v.s.turn.open then Leave(v.(s := v.s.(ended := v.s.ended || v.s.turn.frame.end)))
    else Leave(v.(disconnected := true))
  }

  function DoClose(s: Sender): Sender {
    if s.inFlight == 0 then s.(ended := true, drained := s.drained + 1)
    else s.(ended := true, draining := s.draining + 1)
  }

  function DoFinish(t: Settlement, o: Outcome): Settlement {
    if t.phase.Idle? then t.(phase := Claimed, intent := o) else t.(latecomers := t.latecomers + 1)
  }

  function DoCloseForFinish(v: State): State {
    if !v.t.phase.Claimed? then v else
      v.(s := v.s.(ended := true), t := v.t.(phase := if v.s.inFlight == 0 then Closed else Draining))
  }

  /** A result is published unless the hook that runs before it fails; an error is published as it is. */
  function DoPublish(t: Settlement, hookError: nat): Settlement {
    if !t.phase.Closed? then t else
      var o := if t.intent.Result? && hookError != 0 then Error(hookError) else t.intent;
      t.(phase := Published, published := t.published + [o])
  }

  function Step(v: State, e: Event): State {
    match e
    case Enter(end) =>
      if v.s.ended then v else v.(s := v.s.(arriving := v.s.arriving + [end], inFlight := v.s.inFlight + 1))
    case Acquire(k) => if k < |v.s.arriving| then v.(s := DoAcquire(v.s, k)) else v
    case Number => DoNumber(v)
    case Hand => DoHand(v)
    case Wrote(ok) => DoWrote(v, ok)
    case Depart => if v.s.leaving == 0 then v else FinishSend(v.(s := v.s.(leaving := v.s.leaving - 1)))
    case Close => v.(s := DoClose(v.s))
    case Disconnect => v.(disconnected := true)
    case Finish(o) => v.(t := DoFinish(v.t, o))
    case CloseForFinish => DoCloseForFinish(v)
    case Publish(hookError) => v.(t := DoPublish(v.t, hookError))
    case Learn =>
      if v.t.phase.Published? && v.t.latecomers > 0 && v.t.published != [] then
        v.(t := v.t.(latecomers := v.t.latecomers - 1, told := v.t.told + [v.t.published[0]]))
      else v
  }

  function Run(v: State, es: seq<Event>): State
    decreases |es|
  {
    if es == [] then v else Step(Run(v, es[..|es| - 1]), es[|es| - 1])
  }

  // ----- What every step keeps -----

  ghost predicate Accounts(s: Sender) {
    && s.inFlight == |s.arriving| + |s.waiters| + s.leaving + (if s.turn.Free? then 0 else 1)
    && (s.turn.Free? ==> s.waiters == [])
    && (s.draining > 0 ==> s.ended && s.inFlight > 0)
    && (s.drained > 0 ==> s.ended && s.inFlight == 0)
  }

  ghost predicate Contiguous(fs: seq<Frame>) {
    |fs| <= LIMIT && forall k :: 0 <= k < |fs| ==> fs[k].sequence == k
  }

  ghost predicate Numbers(v: State) {
    && v.s.sequence.Valid() && Contiguous(v.handed) && |v.handed| <= v.s.sequence.Taken()
    && (v.s.turn.Numbered? ==> v.s.turn.number < LIMIT)
    && (!v.s.ended && v.s.turn.Numbered? ==> v.s.turn.number == |v.handed| && v.s.sequence.Taken() == |v.handed| + 1)
    && (!v.s.ended && !v.s.turn.Numbered? ==> v.s.sequence.Taken() == |v.handed|)
  }

  ghost predicate EndsOnce(fs: seq<Frame>) {
    forall k :: 0 <= k < |fs| - 1 ==> !fs[k].end
  }

  ghost predicate Passes(v: State) {
    && v.passed <= v.handed && EndsOnce(v.passed)
    && (!v.disconnected ==> v.passed == v.handed)
    && (v.s.turn.Writing? ==> v.handed != [] && v.handed[|v.handed| - 1] == v.s.turn.frame)
    && (v.s.turn.Writing? && !v.s.turn.open ==> v.disconnected)
    && (v.passed != [] && v.passed[|v.passed| - 1].end && !v.disconnected ==> v.s.ended || v.s.turn.Writing?)
  }

  ghost predicate Publishes(v: State) {
    && (v.t.phase.Published? <==> |v.t.published| == 1)
    && (!v.t.phase.Published? ==> v.t.published == [] && v.t.told == [])
    && (forall i :: 0 <= i < |v.t.told| ==> v.t.published != [] && v.t.told[i] == v.t.published[0])
    && (v.t.phase.Draining? ==> v.s.ended && v.s.inFlight > 0)
    && (v.t.phase.Closed? || v.t.phase.Published? ==> v.s.ended && v.s.inFlight == 0)
  }

  ghost predicate Inv(v: State) {
    Accounts(v.s) && Numbers(v) && Passes(v) && Publishes(v)
  }

  lemma LeaveAccounts(v: State)
    requires Accounts(v.s.(draining := 0)) && !v.s.turn.Free? && (v.s.draining > 0 ==> v.s.ended)
    ensures Accounts(Leave(v).s)
  {
    var r := ReleaseTurn(v.s);
    assert r.inFlight == |r.arriving| + |r.waiters| + r.leaving + 1 + (if r.turn.Free? then 0 else 1);
  }

  lemma NumberAccounts(v: State)
    requires Accounts(v.s)
    ensures Accounts(DoNumber(v).s)
  {
    if v.s.turn.Granted? { LeaveAccounts(v); }
  }

  lemma HandAccounts(v: State)
    requires Accounts(v.s)
    ensures Accounts(DoHand(v).s)
  {
    if v.s.turn.Numbered? { LeaveAccounts(v); }
  }

  lemma WroteAccounts(v: State, ok: bool)
    requires Accounts(v.s)
    ensures Accounts(DoWrote(v, ok).s)
  {
    if v.s.turn.Writing? {
      LeaveAccounts(v.(s := v.s.(ended := v.s.ended || v.s.turn.frame.end)));
      LeaveAccounts(v.(disconnected := true));
    }
  }

  lemma AcquireAccounts(s: Sender, k: nat)
    requires Accounts(s) && k < |s.arriving|
    ensures Accounts(DoAcquire(s, k))
  {
  }

  lemma DepartAccounts(v: State)
    requires Accounts(v.s) && v.s.leaving > 0
    ensures Accounts(FinishSend(v.(s := v.s.(leaving := v.s.leaving - 1))).s)
  {
  }

  lemma StepAccounts(v: State, e: Event)
    requires Accounts(v.s)
    ensures Accounts(Step(v, e).s)
  {
    match e
    case Acquire(k) => if k < |v.s.arriving| { AcquireAccounts(v.s, k); }
    case Number => NumberAccounts(v);
    case Hand => HandAccounts(v);
    case Wrote(ok) => WroteAccounts(v, ok);
    case Depart => if v.s.leaving > 0 { DepartAccounts(v); }
    case _ =>
  }

  /** Leaving moves no number; a turn that was numbered may only be left by a sender that ended. */
  lemma LeaveNumbers(v: State)
    requires Numbers(v) && (v.s.ended || !v.s.turn.Numbered?)
    ensures Numbers(Leave(v))
  {
    assert Leave(v).handed == v.handed && Leave(v).s.sequence == v.s.sequence && Leave(v).s.ended == v.s.ended;
    assert !Leave(v).s.turn.Numbered?;
  }

  lemma NumberNumbers(v: State)
    requires Numbers(v)
    ensures Numbers(DoNumber(v))
  {
    if v.s.turn.Granted? && (v.s.ended || v.s.sequence.exhausted) { LeaveNumbers(v); }
  }

  lemma HandNumbers(v: State)
    requires Numbers(v)
    ensures Numbers(DoHand(v))
  {
    if v.s.turn.Numbered? && v.s.ended { LeaveNumbers(v); }
  }

  lemma WroteNumbers(v: State, ok: bool)
    requires Numbers(v)
    ensures Numbers(DoWrote(v, ok))
  {
    if v.s.turn.Writing? {
      LeaveNumbers(v.(s := v.s.(ended := v.s.ended || v.s.turn.frame.end)));
      LeaveNumbers(v.(disconnected := true));
    }
  }

  lemma StepNumbers(v: State, e: Event)
    requires Numbers(v)
    ensures Numbers(Step(v, e))
  {
    match e
    case Number => NumberNumbers(v);
    case Hand => HandNumbers(v);
    case Wrote(ok) => WroteNumbers(v, ok);
    case _ =>
  }

  lemma LeavePasses(v: State)
    requires Passes(v.(s := v.s.(turn := Free)))
    ensures Passes(Leave(v))
  {
  }

  lemma StepPasses(v: State, e: Event)
    requires Passes(v)
    ensures Passes(Step(v, e))
  {
    match e
    case Number => if v.s.turn.Granted? { LeavePasses(v); }
    case Hand => HandPasses(v);
    case Wrote(ok) => WrotePasses(v, ok);
    case _ =>
  }

  lemma WrotePasses(v: State, ok: bool)
    requires Passes(v)
    ensures Passes(DoWrote(v, ok))
  {
    if v.s.turn.Writing? {
      if ok && v.s.turn.open { LeavePasses(v.(s := v.s.(ended := v.s.ended || v.s.turn.frame.end))); }
      else { LeavePasses(v.(disconnected := true)); }
    }
  }

  lemma HandPasses(v: State)
    requires Passes(v)
    ensures Passes(DoHand(v))
  {
    if v.s.turn.Numbered? && v.s.ended { LeavePasses(v); }
  }

  lemma StepPublishes(v: State, e: Event)
    requires Accounts(v.s) && Publishes(v)
    ensures Publishes(Step(v, e))
  {
  }

  lemma {:induction false} RunInv(v: State, es: seq<Event>)
    requires Inv(v)
    ensures Inv(Run(v, es))
    decreases |es|
  {
    if es != [] {
      var w, e := Run(v, es[..|es| - 1]), es[|es| - 1];
      RunInv(v, es[..|es| - 1]);
      StepAccounts(w, e);
      StepNumbers(w, e);
      StepPasses(w, e);
      StepPublishes(w, e);
    }
  }

  // ----- Over every run -----

  /** The k-th frame given to the client carries number k, without wrap-around, and nothing follows
      an end frame on the way to the writer. */
  lemma FramesInSequence(ended: bool, es: seq<Event>)
    ensures Contiguous(Run(Fresh(ended), es).handed)
    ensures Run(Fresh(ended), es).passed <= Run(Fresh(ended), es).handed && EndsOnce(Run(Fresh(ended), es).passed)
  {
    RunInv(Fresh(ended), es);
  }

  /** What has been written, published or closed is never taken back. */
  ghost predicate Extends(v: State, w: State) {
    && v.handed <= w.handed && v.passed <= w.passed && v.t.published <= w.t.published && v.t.told <= w.t.told
    && (v.s.ended ==> w.s.ended && w.handed == v.handed)
    && (v.s.ended && v.s.inFlight == 0 ==> w.s.inFlight == 0)
  }

  lemma LeaveExtends(v: State, w: State)
    requires Accounts(v.s) && w.handed == v.handed && w.passed == v.passed && w.t == v.t
    requires w.s == v.s.(ended := w.s.ended) && (v.s.ended ==> w.s.ended)
    ensures Extends(v, Leave(w))
  {
  }

  lemma NumberExtends(v: State)
    requires Accounts(v.s)
    ensures Extends(v, DoNumber(v))
  {
    LeaveExtends(v, v);
  }

  lemma HandExtends(v: State)
    requires Accounts(v.s)
    ensures Extends(v, DoHand(v))
  {
    LeaveExtends(v, v);
  }

  lemma WroteExtends(v: State, ok: bool)
    requires Accounts(v.s)
    ensures Extends(v, DoWrote(v, ok))
  {
    if v.s.turn.Writing? {
      LeaveExtends(v, v.(s := v.s.(ended := v.s.ended || v.s.turn.frame.end)));
      LeaveExtends(v, v.(disconnected := true));
    }
  }

  lemma StepExtends(v: State, e: Event)
    requires Accounts(v.s)
    ensures Extends(v, Step(v, e))
  {
    match e
    case Number => NumberExtends(v);
    case Hand => HandExtends(v);
    case Wrote(ok) => WroteExtends(v, ok);
    case _ =>
  }

  lemma {:induction false} RunExtends(v: State, es: seq<Event>)
    requires Inv(v)
    ensures Extends(v, Run(v, es))
    decreases |es|
  {
    if es != [] {
      RunExtends(v, es[..|es| - 1]);
      RunInv(v, es[..|es| - 1]);
      StepExtends(Run(v, es[..|es| - 1]), es[|es| - 1]);
    }
  }

  /** Once a close returned, or the terminal was published, no send is in flight, and however the
      run goes on none ever is and no further frame is handed over. */
  lemma ClosedIsFinal(ended: bool, es: seq<Event>, more: seq<Event>)
    requires var v := Run(Fresh(ended), es); v.s.drained > 0 || v.t.phase.Published?
    ensures var v, w := Run(Fresh(ended), es), Run(Run(Fresh(ended), es), more);
            v.s.inFlight == 0 && w.s.inFlight == 0 && w.handed == v.handed
  {
    RunInv(Fresh(ended), es);
    RunExtends(Run(Fresh(ended), es), more);
  }

  /** The terminal is published at most once, and every later finisher is told that one. */
  lemma PublishedOnce(ended: bool, es: seq<Event>, more: seq<Event>)
    ensures var v, w := Run(Fresh(ended), es), Run(Run(Fresh(ended), es), more);
            && |v.t.published| <= 1
            && (v.t.published != [] ==> w.t.published == v.t.published && forall o :: o in w.t.told ==> o == v.t.published[0])
  {
    RunInv(Fresh(ended), es);
    var v := Run(Fresh(ended), es);
    RunExtends(v, more);
    RunInv(v, more);
  }

  /** What a publishing finisher and a latecomer rely on. */
  lemma PublishReady(ended: bool, es: seq<Event>)
    ensures var v := Run(Fresh(ended), es);
            && (v.t.phase.Closed? ==> v.t.published == [] && v.s.ended && v.s.inFlight == 0)
            && (v.t.phase.Published? ==> |v.t.published| == 1)
  {
    RunInv(Fresh(ended), es);
  }

  // ----- Turns -----

  function Tickets(calls: seq<Call>): seq<nat> {
    seq(|calls|, i requires 0 <= i < |calls| => calls[i].ticket)
  }

  /** Everybody who handed a frame over, has the turn, or waits for it, in this order. */
  function Line(v: State): seq<nat> {
    v.order
    + (match v.s.turn case Granted(c) => [c.ticket] case Numbered(_, c) => [c.ticket] case _ => [])
    + Tickets(v.s.waiters)
  }

  ghost predicate Rising(q: seq<nat>, below: nat) {
    (forall i, j :: 0 <= i < j < |q| ==> q[i] < q[j]) && (forall i :: 0 <= i < |q| ==> q[i] < below)
  }

  ghost predicate InLine(v: State) {
    Rising(Line(v), v.s.tickets) && (v.s.turn.Free? ==> v.s.waiters == [])
  }

  lemma RisingCut(a: seq<nat>, b: seq<nat>, c: seq<nat>, below: nat)
    requires Rising(a + b + c, below)
    ensures Rising(a + c, below) && Rising(a, below)
  {
    var q, r := a + b + c, a + c;
    forall i, j | 0 <= i < j < |r| ensures r[i] < r[j] {
      assert r[i] == q[if i < |a| then i else i + |b|] && r[j] == q[if j < |a| then j else j + |b|];
    }
    forall i | 0 <= i < |r| ensures r[i] < below { assert r[i] == q[if i < |a| then i else i + |b|]; }
    assert forall i :: 0 <= i < |a| ==> a[i] == q[i];
  }

  lemma LeaveLine(v: State)
    requires Rising(v.order + Tickets(v.s.waiters), v.s.tickets)
    ensures InLine(Leave(v))
  {
    var w := Leave(v);
    var waiters := v.s.waiters;
    if !v.s.ended && waiters != [] {
      assert Tickets(waiters) == [waiters[0].ticket] + Tickets(waiters[1..]);
      assert Line(w) == v.order + Tickets(waiters);
    } else {
      assert Tickets([]) == [] && Line(w) == v.order;
      RisingCut(v.order, Tickets(waiters), [], v.s.tickets);
    }
  }

  /** Whoever has the turn steps out of the line. */
  lemma OutOfTurn(v: State)
    requires InLine(v)
    ensures Rising(v.order + Tickets(v.s.waiters), v.s.tickets)
  {
    var b := match v.s.turn case Granted(c) => [c.ticket] case Numbered(_, c) => [c.ticket] case _ => [];
    RisingCut(v.order, b, Tickets(v.s.waiters), v.s.tickets);
  }

  lemma AcquireLine(v: State, k: nat)
    requires InLine(v) && k < |v.s.arriving|
    ensures InLine(v.(s := DoAcquire(v.s, k)))
  {
    var w := v.(s := DoAcquire(v.s, k));
    if v.s.turn.Free? {
      assert Tickets([]) == [];
      assert Line(w) == Line(v) + [v.s.tickets];
    } else {
      var call := Call(v.s.tickets, v.s.arriving[k]);
      assert Tickets(v.s.waiters + [call]) == Tickets(v.s.waiters) + [call.ticket];
      assert Line(w) == Line(v) + [v.s.tickets];
    }
  }

  lemma HandLine(v: State)
    requires InLine(v)
    ensures InLine(DoHand(v))
  {
    if v.s.turn.Numbered? {
      OutOfTurn(v);
      if v.s.ended { LeaveLine(v); } else { assert Line(DoHand(v)) == Line(v); }
    }
  }

  lemma WroteLine(v: State, ok: bool)
    requires InLine(v)
    ensures InLine(DoWrote(v, ok))
  {
    if v.s.turn.Writing? {
      OutOfTurn(v);
      LeaveLine(v.(s := v.s.(ended := v.s.ended || v.s.turn.frame.end)));
      LeaveLine(v.(disconnected := true));
    }
  }

  lemma NumberLine(v: State)
    requires InLine(v)
    ensures InLine(DoNumber(v))
  {
    if v.s.turn.Granted? {
      OutOfTurn(v);
      if v.s.ended || v.s.sequence.exhausted { LeaveLine(v); } else { assert Line(DoNumber(v)) == Line(v); }
    }
  }

  lemma StepLine(v: State, e: Event)
    requires InLine(v)
    ensures InLine(Step(v, e))
  {
    match e
    case Acquire(k) => if k < |v.s.arriving| { AcquireLine(v, k); }
    case Number => NumberLine(v);
    case Hand => HandLine(v);
    case Wrote(ok) => WroteLine(v, ok);
    case _ => assert Line(Step(v, e)) == Line(v);
  }

  /** Sends hand their frames over in the order in which they asked for the turn, one frame each. */
  lemma {:induction false} TurnsInOrder(ended: bool, es: seq<Event>)
    ensures var v := Run(Fresh(ended), es); |v.order| == |v.handed| && Rising(v.order, v.s.tickets) && InLine(v)
    decreases |es|
  {
    if es == [] {
      assert Line(Fresh(ended)) == [];
    } else {
      var v := Run(Fresh(ended), es[..|es| - 1]);
      TurnsInOrder(ended, es[..|es| - 1]);
      StepLine(v, es[|es| - 1]);
      OrderGrows(v, es[|es| - 1]);
      var w := Step(v, es[|es| - 1]);
      OutOfTurn(w);
      RisingCut(w.order, Tickets(w.s.waiters), [], w.s.tickets);
      assert w.order + Tickets(w.s.waiters) + [] == w.order + Tickets(w.s.waiters);
    }
  }

  lemma OrderGrows(v: State, e: Event)
    requires |v.order| == |v.handed|
    ensures |Step(v, e).order| == |Step(v, e).handed|
  {
  }

  // ----- The claimant's terminal -----

  ghost predicate NoFinish(es: seq<Event>) { forall i :: 0 <= i < |es| ==> !es[i].Finish? }

  lemma {:induction false} UnclaimedIsIdle(ended: bool, es: seq<Event>)
    requires NoFinish(es)
    ensures Run(Fresh(ended), es).t == Fresh(ended).t
    decreases |es|
  {
    if es != [] {
      UnclaimedIsIdle(ended, es[..|es| - 1]);
      UnclaimedStep(Run(Fresh(ended), es[..|es| - 1]), es[|es| - 1]);
    }
  }

  lemma UnclaimedStep(v: State, e: Event)
    requires v.t.phase.Idle? && !e.Finish?
    ensures Step(v, e).t == v.t
  {
  }

  /** What the first finisher brought, or the error of the hook that ran before its result. */
  ghost predicate ComesFrom(t: Settlement, o: Outcome, es: seq<Event>) {
    && t.intent == o && !t.phase.Idle?
    && forall p :: p in t.published ==> p == o || (o.Result? && exists h :: h != 0 && Publish(h) in es && p == Error(h))
  }

  lemma ClaimedStep(v: State, e: Event, o: Outcome, es: seq<Event>)
    requires ComesFrom(v.t, o, es)
    ensures ComesFrom(Step(v, e).t, o, es + [e])
  {
    assert forall x :: x in es ==> x in es + [e];
    assert e in es + [e];
  }

  /** The terminal is the first finisher's own outcome, or for a result the error of the hook that runs
      before it; later finishers change nothing. */
  lemma {:induction false} FirstFinisherDecides(ended: bool, es: seq<Event>, i: nat)
    requires i < |es| && es[i].Finish? && NoFinish(es[..i])
    ensures ComesFrom(Run(Fresh(ended), es).t, es[i].outcome, es)
    decreases |es|
  {
    var init, last := es[..|es| - 1], es[|es| - 1];
    assert es == init + [last];
    if i == |es| - 1 {
      UnclaimedIsIdle(ended, init);
    } else {
      assert init[..i] == es[..i];
      FirstFinisherDecides(ended, init, i);
      ClaimedStep(Run(Fresh(ended), init), last, es[i].outcome, init);
    }
  }

  /** A result goes out as it is unless the hook failed, and an error always does. */
  lemma PublishDoes(ended: bool, es: seq<Event>, i: nat, hookError: nat)
    requires i < |es| && es[i].Finish? && NoFinish(es[..i]) && Run(Fresh(ended), es).t.phase.Closed?
    ensures Step(Run(Fresh(ended), es), Publish(hookError)).t.published ==
            [if es[i].outcome.Result? && hookError != 0 then Error(hookError) else es[i].outcome]
  {
    FirstFinisherDecides(ended, es, i);
    PublishReady(ended, es);
    PublishOf(Run(Fresh(ended), es), es[i].outcome, hookError);
  }

  lemma PublishOf(v: State, o: Outcome, hookError: nat)
    requires v.t.phase.Closed? && v.t.intent == o && v.t.published == []
    ensures Step(v, Publish(hookError)).t.published == [if o.Result? && hookError != 0 then Error(hookError) else o]
  {
  }

  // ----- After the end frame -----

  /** A further frame can still reach the client. */
  predicate CanHand(v: State) {
    !v.s.ended && (v.s.turn.Numbered? || !v.s.sequence.exhausted)
  }

  lemma StepCanHand(v: State, e: Event)
    requires !CanHand(v)
    ensures !CanHand(Step(v, e)) && Step(v, e).handed == v.handed
  {
  }

  lemma {:induction false} NeverHands(v: State, es: seq<Event>)
    requires !CanHand(v)
    ensures !CanHand(Run(v, es)) && Run(v, es).handed == v.handed
    decreases |es|
  {
    if es != [] {
      NeverHands(v, es[..|es| - 1]);
      StepCanHand(Run(v, es[..|es| - 1]), es[|es| - 1]);
    }
  }

  lemma {:induction false} RunAppend(v: State, a: seq<Event>, b: seq<Event>)
    ensures Run(v, a + b) == Run(Run(v, a), b)
    decreases |b|
  {
    if b == [] {
      assert a + b == a;
    } else {
      var c := a + b;
      assert c[..|c| - 1] == a + b[..|b| - 1];
      RunAppend(v, a, b[..|b| - 1]);
    }
  }

  lemma RunOne(v: State, e: Event)
    ensures Run(v, [e]) == Step(v, e)
  {
    assert [e][..0] == [];
  }

  ghost predicate Hands(v: State, es: seq<Event>) { |Run(v, es).handed| > |v.handed| }

  lemma Onward(v: State, e: Event, rest: seq<Event>)
    requires Hands(Step(v, e), rest) && Step(v, e).handed == v.handed
    ensures Hands(v, [e] + rest)
  {
    RunAppend(v, [e], rest);
    RunOne(v, e);
  }

  /** A run that hands one more frame. */
  lemma NumberedHands(v: State)
    requires !v.s.ended && v.s.turn.Numbered?
    ensures Hands(v, [Hand])
  {
    RunOne(v, Hand);
  }

  lemma GrantedHands(v: State)
    requires CanHand(v) && v.s.turn.Granted?
    ensures Hands(v, [Number] + [Hand])
  {
    NumberedHands(Step(v, Number));
    Onward(v, Number, [Hand]);
  }

  lemma FreeHands(v: State) returns (es: seq<Event>)
    requires CanHand(v) && v.s.turn.Free?
    ensures Hands(v, es)
  {
    var w := Step(v, Enter(false));
    var k := |v.s.arriving|;
    assert w.s.arriving[k] == false;
    GrantedHands(Step(w, Acquire(k)));
    Onward(w, Acquire(k), [Number] + [Hand]);
    Onward(v, Enter(false), [Acquire(k)] + ([Number] + [Hand]));
    es := [Enter(false)] + ([Acquire(k)] + ([Number] + [Hand]));
  }

  lemma StillHands(v: State) returns (es: seq<Event>)
    requires CanHand(v)
    ensures Hands(v, es)
  {
    match v.s.turn
    case Free => es := FreeHands(v);
    case Granted(_) => GrantedHands(v); es := [Number] + [Hand];
    case Numbered(_, _) => NumberedHands(v); es := [Hand];
    case Writing(_, _) =>
      var w := Step(v, Wrote(false));
      var rest;
      if w.s.turn.Free? { rest := FreeHands(w); } else { GrantedHands(w); rest := [Number] + [Hand]; }
      Onward(v, Wrote(false), rest);
      es := [Wrote(false)] + rest;
  }

  /** Whatever was handed so far, an end frame included, is the last frame in every continuation
      exactly when the sender has ended or has no number left. */
  lemma LastFrame(v: State)
    ensures (forall es :: Run(v, es).handed == v.handed) <==> !CanHand(v)
  {
    if CanHand(v) {
      var es := StillHands(v);
      assert Run(v, es).handed != v.handed;
    } else {
      forall es ensures Run(v, es).handed == v.handed { NeverHands(v, es); }
    }
  }

  /** An end frame whose write failed did not end the sender, so another frame is handed after it;
      the client is down by then and passes nothing on. */
  lemma FailedEndIsFollowed()
    ensures exists es ::
              var v := Run(Fresh(false), es);
              |v.handed| == 2 && v.handed[0].end && !v.handed[1].end && v.passed == [v.handed[0]]
  {
    var v0 := Fresh(false);
    var e1 := [Enter(true)];
    RunOne(v0, Enter(true));
    var e2 := RunSnoc(v0, e1, Acquire(0));
    var e3 := RunSnoc(v0, e2, Number);
    var e4 := RunSnoc(v0, e3, Hand);
    var e5 := RunSnoc(v0, e4, Wrote(false));
    var e6 := RunSnoc(v0, e5, Enter(false));
    var e7 := RunSnoc(v0, e6, Acquire(0));
    var e8 := RunSnoc(v0, e7, Number);
    var e9 := RunSnoc(v0, e8, Hand);
    assert Run(v0, e9).passed == [Run(v0, e9).handed[0]];
  }

  lemma RunSnoc(v: State, es: seq<Event>, e: Event) returns (more: seq<Event>)
    ensures more == es + [e] && Run(v, more) == Step(Run(v, es), e)
  {
    more := es + [e];
    assert more[..|more| - 1] == es;
  }

  // ----- Nobody waits for ever -----

  /** One step of a call that is in flight, given that its write succeeds. */
  function NextEvent(v: State): Event {
    match v.s.turn
    case Granted(_) => Number
    case Numbered(_, _) => Hand
    case Writing(_, _) => Wrote(true)
    case Free => if v.s.leaving > 0 then Depart else Acquire(0)
  }

  function Work(s: Sender): nat {
    5 * |s.arriving| + 4 * |s.waiters| + s.leaving +
    match s.turn
    case Free => 0
    case Granted(_) => 3
    case Numbered(_, _) => 2
    case Writing(_, _) => 1
  }

  lemma LeaveWork(v: State)
    requires !v.s.turn.Free?
    ensures Work(Leave(v).s) < Work(v.s)
  {
  }

  lemma Progress(v: State)
    requires Accounts(v.s) && v.s.inFlight > 0
    ensures Work(Step(v, NextEvent(v)).s) < Work(v.s)
  {
    match v.s.turn
    case Free =>
    case Granted(_) => LeaveWork(v);
    case Numbered(_, _) => LeaveWork(v);
    case Writing(frame, _) =>
      LeaveWork(v.(s := v.s.(ended := v.s.ended || frame.end)));
      LeaveWork(v.(disconnected := true));
  }

  /** The turn is never lost: from every reachable state the sends in flight, going on by
      themselves, all end, and with them every close that waits. */
  lemma EverySendEnds(ended: bool, es: seq<Event>) returns (more: seq<Event>)
    ensures forall i :: 0 <= i < |more| ==> !more[i].Enter?
    ensures var w := Run(Run(Fresh(ended), es), more).s; w.inFlight == 0 && w.draining == 0
  {
    RunInv(Fresh(ended), es);
    more := DrainFrom(Run(Fresh(ended), es));
  }

  lemma {:induction false} DrainFrom(v: State) returns (more: seq<Event>)
    requires Inv(v)
    ensures forall i :: 0 <= i < |more| ==> !more[i].Enter? && !more[i].Finish? && !more[i].Learn?
    ensures Run(v, more).s.inFlight == 0 && Run(v, more).s.draining == 0
    decreases Work(v.s)
  {
    if v.s.inFlight == 0 {
      more := [];
    } else {
      var e := NextEvent(v);
      Progress(v);
      RunInv(v, [e]);
      RunOne(v, e);
      var rest := DrainFrom(Step(v, e));
      more := [e] + rest;
      RunAppend(v, [e], rest);
    }
  }

  /** Nor is the terminal: once a finisher came, the run can go on by itself until one outcome is
      published, no send is in flight and every later finisher was told. */
  lemma EveryFinisherIsTold(ended: bool, es: seq<Event>) returns (more: seq<Event>)
    requires !NoFinish(es)
    ensures NoFinish(more) && forall i :: 0 <= i < |more| ==> !more[i].Enter?
    ensures var w := Run(Run(Fresh(ended), es), more);
            && w.t.phase.Published? && |w.t.published| == 1 && w.t.latecomers == 0 && w.s.inFlight == 0
            && |w.t.told| == |Run(Fresh(ended), es).t.told| + Run(Fresh(ended), es).t.latecomers
  {
    var v := Run(Fresh(ended), es);
    RunInv(Fresh(ended), es);
    SomebodyClaimed(ended, es);
    var drain := DrainFrom(v);
    DrainKeeps(v, drain);
    RunInv(v, drain);
    var w := Run(v, drain);
    var publish := PublishFrom(w);
    RunAppend(v, drain, publish);
    RunInv(v, drain + publish);
    var learn := TellAll(Run(v, drain + publish));
    RunAppend(v, drain + publish, learn);
    more := drain + publish + learn;
  }

  lemma PublishFrom(v: State) returns (es: seq<Event>)
    requires Inv(v) && !v.t.phase.Idle? && v.s.inFlight == 0
    ensures es == [CloseForFinish, Publish(0)]
    ensures var w := Run(v, es); w.t.phase.Published? && w.t.latecomers == v.t.latecomers && w.t.told == v.t.told
  {
    es := [CloseForFinish, Publish(0)];
    assert es == [CloseForFinish] + [Publish(0)];
    RunAppend(v, [CloseForFinish], [Publish(0)]);
    RunOne(v, CloseForFinish);
    RunOne(Step(v, CloseForFinish), Publish(0));
  }

  lemma {:induction false} SomebodyClaimed(ended: bool, es: seq<Event>)
    requires !NoFinish(es)
    ensures !Run(Fresh(ended), es).t.phase.Idle?
    decreases |es|
  {
    var v, e := Run(Fresh(ended), es[..|es| - 1]), es[|es| - 1];
    if NoFinish(es[..|es| - 1]) {
      assert e.Finish?;
    } else {
      SomebodyClaimed(ended, es[..|es| - 1]);
      ClaimStays(v, e);
    }
  }

  lemma ClaimStays(v: State, e: Event)
    requires !v.t.phase.Idle?
    ensures !Step(v, e).t.phase.Idle?
    ensures !e.Finish? && !e.Learn? ==> Step(v, e).t.latecomers == v.t.latecomers && Step(v, e).t.told == v.t.told
  {
  }

  /** Sends that go on by themselves leave the claim and those who wait for it alone. */
  lemma {:induction false} DrainKeeps(v: State, es: seq<Event>)
    requires !v.t.phase.Idle? && NoFinish(es) && forall i :: 0 <= i < |es| ==> !es[i].Learn?
    ensures var w := Run(v, es); !w.t.phase.Idle? && w.t.latecomers == v.t.latecomers && w.t.told == v.t.told
    decreases |es|
  {
    if es != [] {
      DrainKeeps(v, es[..|es| - 1]);
      ClaimStays(Run(v, es[..|es| - 1]), es[|es| - 1]);
    }
  }

  lemma {:induction false} TellAll(v: State) returns (es: seq<Event>)
    requires v.t.phase.Published? && |v.t.published| == 1
    ensures forall i :: 0 <= i < |es| ==> es[i].Learn?
    ensures Run(v, es) == v.(t := v.t.(latecomers := 0, told := Run(v, es).t.told))
    ensures |Run(v, es).t.told| == |v.t.told| + v.t.latecomers
    decreases v.t.latecomers
  {
    if v.t.latecomers == 0 {
      es := [];
    } else {
      var w := Step(v, Learn);
      var rest := TellAll(w);
      RunAppend(v, [Learn], rest);
      RunOne(v, Learn);
      es := [Learn] + rest;
    }
  }

  // ----- The receiving side -----

  datatype Receiver = Receiver(sequence: Sequence, ended: bool, discarding: bool)

  /** What the receiver does with one frame: discard it, refuse it, or take it as a chunk. */
  datatype Received = Discarded | Refused | Chunk(frame: Frame)

  function Receive(r: Receiver, f: Frame): (Receiver, Received) {
    if r.discarding then (r, Discarded)
    else if r.ended || r.sequence.exhausted then (r, Refused)
    else if f.sequence != r.sequence.next then (r.(sequence := r.sequence.Take()), Refused)
    else (r.(sequence := r.sequence.Take(), ended := f.end), Chunk(f))
  }

  /** Every frame of the stream is taken. */
  predicate AcceptsAll(r: Receiver, fs: seq<Frame>)
    decreases |fs|
  {
    fs == [] || (Receive(r, fs[0]).1.Chunk? && AcceptsAll(Receive(r, fs[0]).0, fs[1..]))
  }

  lemma {:induction false} AcceptsFrom(r: Receiver, fs: seq<Frame>)
    requires r.sequence.Valid() && !r.discarding
    ensures AcceptsAll(r, fs) <==>
              || fs == []
              || (!r.ended && r.sequence.Taken() + |fs| <= LIMIT && EndsOnce(fs) &&
                  forall k :: 0 <= k < |fs| ==> fs[k].sequence == r.sequence.Taken() + k)
    decreases |fs|
  {
    if fs != [] {
      var n := Receive(r, fs[0]).0;
      var rest := fs[1..];
      AcceptsFrom(n, rest);
      assert forall k :: 0 <= k < |rest| ==> rest[k] == fs[k + 1];
      if rest != [] { assert EndsOnce(fs) ==> !fs[0].end; }
      assert forall k :: 0 < k < |fs| ==> fs[k] == rest[k - 1];
    }
  }

  /** A stream is taken whole exactly when it is numbered from zero and nothing follows its end. */
  lemma AcceptedStreams(fs: seq<Frame>)
    ensures AcceptsAll(Receiver(Sequence(0, false), false, false), fs) <==> Contiguous(fs) && EndsOnce(fs)
  {
    AcceptsFrom(Receiver(Sequence(0, false), false, false), fs);
  }

  /** A receiver takes everything any run of a sender passes to its writer. */
  lemma PeerAccepts(ended: bool, es: seq<Event>)
    ensures AcceptsAll(Receiver(Sequence(0, false), false, false), Run(Fresh(ended), es).passed)
  {
    FramesInSequence(ended, es);
    var v := Run(Fresh(ended), es);
    assert forall k :: 0 <= k < |v.passed| ==> v.passed[k] == v.handed[k];
    AcceptedStreams(v.passed);
  }
}
