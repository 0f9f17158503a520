/** What every interleaving of the session writer keeps. */
module WriterTheorems {
  import opened Counts
  import opened SessionWriter

  // ----- Conservation of entries -----

  function QueueCount(q: Queues, id: Id): nat {
    Count(q.waiting, id) + Count(q.settlement, id) + Count(q.lifecycle, id)
  }

  /** How often an entry's completion has been called. */
  function Completions(log: Log, id: Id): nat {
    Count(log.succeeded, id) + Count(log.canceled, id) + Count(log.failed, id)
  }

  /** In how many places an entry is: queued, in flight, or completed. */
  function Places(s: State, id: Id): nat {
    QueueCount(s.queues, id) + Count(s.InFlight(), id) + Completions(s.log, id)
  }

  ghost predicate Shape(s: State) {
    && (s.accepting ==> |s.InFlight()| <= 1)
    && (!s.accepting || s.InFlight() == [] ==> s.queues.IsEmpty())
    && |s.queues.waiting| <= s.limit && |s.queues.settlement| <= s.limit && |s.queues.lifecycle| <= 1
    && (s.terminal ==> !s.accepting)
    && (s.broken ==> s.terminal)
  }

  lemma WithoutEffect(q: seq<Id>, gone: Id, id: Id)
    requires gone in q
    ensures Count(Without(q, gone), id) + (if id == gone then 1 else 0) == Count(q, id)
    ensures |Without(q, gone)| == |q| - 1
  {
    if q[0] != gone {
      WithoutEffect(q[1..], gone, id);
      CountSplit([q[0]], Without(q[1..], gone), id);
    }
  }

  lemma PushEffect(q: Queues, limit: nat, p: Priority, x: Id, id: Id)
    requires |q.lifecycle| <= 1
    ensures var added := if x == id then 1 else 0;
            match Push(q, limit, p, x)
            case Stored(r) => QueueCount(r, id) == QueueCount(q, id) + added
            case Displaced(r, evicted) =>
              QueueCount(r, id) + (if evicted == id then 1 else 0) == QueueCount(q, id) + added
            case Full => true
  {
    if q.lifecycle != [] { assert q.lifecycle == [q.lifecycle[0]]; }
    CountSplit(q.settlement, [x], id);
    CountSplit(q.waiting, [x], id);
  }

  lemma SelectEffect(q: Queues, id: Id)
    requires !q.IsEmpty()
    ensures QueueCount(Select(q).1, id) + (if Select(q).0 == id then 1 else 0) == QueueCount(q, id)
  {
  }

  lemma CompletedPlaces(s: State, ids: seq<Id>, o: Outcome, id: Id)
    ensures Places(s.Completed(ids, o), id) == Places(s, id) + Count(ids, id)
  {
    CountSplit(s.log.succeeded, ids, id);
    CountSplit(s.log.canceled, ids, id);
    CountSplit(s.log.failed, ids, id);
  }

  lemma RejectPlaces(s: State, id: Id)
    ensures Places(Reject(s), id) == Places(s, id)
  {
    var q := s.queues;
    CountSplit(q.waiting, q.settlement, id);
    CountSplit(q.waiting + q.settlement, q.lifecycle, id);
    CompletedPlaces(s.(accepting := false, queues := q.Cleared()), q.Listed(), Failed, id);
  }

  lemma EnqueuePlaces(s: State, p: Priority, x: Id, id: Id)
    requires Shape(s)
    ensures Places(Enqueue(s, p, x), id) == Places(s, id) + if id == x then 1 else 0
  {
    PushEffect(s.queues, s.limit, p, x, id);
    var t := if p.Lifecycle? then s.(superseded := s.superseded + Supersedable(s)) else s;
    match Push(s.queues, s.limit, p, x)
    case Stored(q) =>
    case Displaced(q, evicted) => CompletedPlaces(t.(queues := q), [evicted], Success, id);
    case Full => CompletedPlaces(t, [x], Failed, id);
  }

  lemma SubmitPlaces(s: State, f: Frame, c: bool, id: Id)
    requires Shape(s)
    ensures Places(Submit(s, f, c), id) == Places(s, id) + if id == |s.frames| then 1 else 0
  {
    var x, t := |s.frames|, s.(frames := s.frames + [f]);
    if c {
      CompletedPlaces(t, [x], Canceled, id);
    } else if !s.accepting {
      CompletedPlaces(t, [x], Failed, id);
    } else if s.InFlight() == [] {
      assert Submit(s, f, c).InFlight() == [x];
    } else {
      EnqueuePlaces(t, f.priority, x, id);
    }
  }

  lemma ClosePlaces(s: State, id: Id)
    requires Shape(s)
    ensures Places(Close(s), id) == Places(s, id) + if id == |s.frames| then 1 else 0
  {
    RejectPlaces(s.(frames := s.frames + [Frame(Closing, false)]), id);
    CompletedPlaces(s.(frames := s.frames + [Frame(Closing, false)]), [|s.frames|], Failed, id);
    CountSplit(s.InFlight(), [|s.frames|], id);
    assert Close(s).InFlight() == s.InFlight() + if s.accepting then [|s.frames|] else [];
  }

  lemma CancelPlaces(s: State, gone: Id, id: Id)
    requires Shape(s)
    ensures Places(CancelEntry(s, gone), id) == Places(s, id)
  {
    if gone in s.queues.waiting {
      WithoutEffect(s.queues.waiting, gone, id);
      CompletedPlaces(s.(queues := Drop(s.queues, gone)), [gone], Canceled, id);
    }
  }

  lemma PreflightPlaces(s: State, id: Id)
    requires Shape(s)
    ensures Places(Preflight(s), id) == Places(s, id)
  {
    if s.block.Idle? && s.dispatch != [] {
      assert Preflight(s).InFlight() == s.InFlight();
    }
  }

  lemma FinishPlaces(s: State, w: bool, id: Id)
    requires Shape(s)
    ensures Places(Finish(s, w), id) == Places(s, id)
  {
    if s.block.Running? {
      var x, result := s.block.id, Result(s.block.verdict, w);
      var t := s.(block := Idle, broken := s.broken || (s.block.verdict.Write? && !w));
      assert s.InFlight()[1..] == t.InFlight();
      if result.Failed? {
        RejectPlaces(t.(terminal := true), id);
        CompletedPlaces(Reject(t.(terminal := true)), [x], result, id);
      } else if s.queues.IsEmpty() {
        CompletedPlaces(t.(queues := s.queues.(turnUsed := false)), [x], result, id);
      } else {
        var (next, q) := Select(s.queues);
        var u := t.(queues := q, block := Selected(next));
        SelectedPlaces(t, id);
        CompletedPlaces(u, [x], result, id);
      }
    }
  }

  lemma SelectedPlaces(t: State, id: Id)
    requires t.block.Idle? && !t.queues.IsEmpty()
    ensures Places(t.(queues := Select(t.queues).1, block := Selected(Select(t.queues).0)), id) == Places(t, id)
  {
    var u := t.(queues := Select(t.queues).1, block := Selected(Select(t.queues).0));
    SelectEffect(t.queues, id);
    assert u.InFlight()[1..] == t.InFlight();
  }

  lemma EnqueueNextPlaces(s: State, id: Id)
    requires Shape(s)
    ensures Places(EnqueueNext(s), id) == Places(s, id)
  {
    if s.block.Selected? {
      CountSplit(s.dispatch, [s.block.next], id);
      assert s.InFlight()[1..] == s.dispatch;
    }
  }

  lemma StepShape(s: State, e: Event)
    requires Shape(s)
    ensures Shape(Step(s, e))
  {
    match e
    case DoSubmit(f, c) => SubmitShape(s, f, c);
    case DoCancel(gone) => if gone in s.queues.waiting { WithoutEffect(s.queues.waiting, gone, gone); }
    case DoFinish(w) => FinishShape(s, w);
    case _ =>
  }

  lemma SubmitShape(s: State, f: Frame, c: bool)
    requires Shape(s)
    ensures Shape(Submit(s, f, c))
  {
  }

  lemma FinishShape(s: State, w: bool)
    requires Shape(s)
    ensures Shape(Finish(s, w))
  {
  }

  lemma StepPlaces(s: State, e: Event, id: Id)
    requires Shape(s)
    ensures Places(Step(s, e), id) ==
            Places(s, id) + if (e.DoSubmit? || e.DoClose?) && id == |s.frames| then 1 else 0
  {
    match e
    case DoSubmit(f, c) => SubmitPlaces(s, f, c, id);
    case DoClose => ClosePlaces(s, id);
    case DoAbort => RejectPlaces(s, id);
    case DoCancel(gone) => CancelPlaces(s, gone, id);
    case DoPreflight => PreflightPlaces(s, id);
    case DoFinish(w) => FinishPlaces(s, w, id);
    case DoEnqueueNext => EnqueueNextPlaces(s, id);
  }

  /** Each submitted entry is in exactly one place, exactly once. */
  ghost predicate Located(s: State) {
    forall id: Id :: Places(s, id) == if id < |s.frames| then 1 else 0
  }

  lemma StepLocated(s: State, e: Event)
    requires Shape(s) && Located(s)
    ensures Located(Step(s, e))
  {
    forall id: Id ensures Places(Step(s, e), id) == if id < |Step(s, e).frames| then 1 else 0 {
      StepPlaces(s, e, id);
    }
  }

  // ----- Marks: what a completion says about the codec -----

  function Prio(frames: seq<Frame>, id: Id): Priority {
    if id < |frames| then frames[id].priority else Closing
  }

  predicate IsLifecycle(s: State, id: Id) {
    id < |s.frames| && (s.frames[id].lifecycle || s.frames[id].priority.Lifecycle?)
  }

  predicate Finished(log: Log, id: Id) {
    id in log.succeeded || id in log.canceled || id in log.failed
  }

  ghost predicate Marks(s: State) {
    && (forall id: Id :: id in s.queues.lifecycle ==> IsLifecycle(s, id))
    && (forall id: Id :: id in s.superseded ==> IsLifecycle(s, id))
    && (forall id: Id :: id in s.canceled ==> id < |s.frames|)
    && (forall id: Id :: id in s.started ==>
          (s.block.Running? && s.block.id == id && !s.block.verdict.Skip? && !s.block.verdict.Cancel?)
          || Finished(s.log, id))
    && (forall id: Id :: id in s.written ==> id in s.started)
    && (forall id: Id :: id in s.log.canceled ==> id !in s.written)
    && (forall id: Id :: id in s.log.succeeded ==> id in s.written || IsLifecycle(s, id))
    && (s.block.Running? ==>
          match s.block.verdict
          case Write => s.block.id in s.written
          case Skip => IsLifecycle(s, s.block.id)
          case _ => s.block.id !in s.written)
  }

  /** Entries in flight that the codec has not been handed. */
  predicate IsPending(s: State, id: Id) {
    id in s.dispatch || (s.block.Selected? && s.block.next == id)
  }

  predicate Clean(s: State, id: Id) {
    id !in s.started && id !in s.written && !Finished(s.log, id)
  }

  /** An entry still queued or pending was neither started, nor written, nor completed. */
  lemma Untouched(s: State, id: Id)
    requires Located(s) && Marks(s)
    requires id in s.queues.Listed() || IsPending(s, id)
    ensures Clean(s, id)
  {
    assert Places(s, id) <= 1;
    CountMember(s.queues.waiting, id);
    CountMember(s.queues.settlement, id);
    CountMember(s.queues.lifecycle, id);
    CountMember(s.dispatch, id);
    CountMember(s.log.succeeded, id);
    CountMember(s.log.canceled, id);
    CountMember(s.log.failed, id);
    if !s.block.Idle? { assert s.InFlight()[1..] == s.dispatch; }
  }

  /** A name not yet issued is nowhere. */
  lemma Unissued(s: State, id: Id)
    requires Located(s) && Marks(s) && |s.frames| <= id
    ensures Clean(s, id) && id !in s.InFlight()
  {
    assert Places(s, id) == 0;
    CountMember(s.InFlight(), id);
    CountMember(s.log.succeeded, id);
    CountMember(s.log.canceled, id);
    CountMember(s.log.failed, id);
  }

  /** Steps that leave the serial queue alone keep the marks, provided they report
      success only of lifecycle frames and cancellation only of unwritten ones. */
  lemma QuietMarks(s: State, t: State)
    requires Marks(s)
    requires s.frames <= t.frames
    requires t.block == s.block && t.started == s.started && t.written == s.written
    requires forall id: Id :: id in t.queues.lifecycle || id in t.superseded ==> IsLifecycle(t, id)
    requires forall id: Id :: id in t.canceled ==> id < |t.frames|
    requires forall id: Id :: id in t.log.succeeded ==> id in s.log.succeeded || IsLifecycle(t, id)
    requires forall id: Id :: id in t.log.canceled ==> id in s.log.canceled || id !in s.written
    requires forall id: Id :: Finished(s.log, id) ==> Finished(t.log, id)
    ensures Marks(t)
  {
    assert forall id: Id :: IsLifecycle(s, id) ==> IsLifecycle(t, id);
  }

  lemma SubmitMarks(s: State, f: Frame, c: bool)
    requires Shape(s) && Located(s) && Marks(s)
    ensures Marks(Submit(s, f, c))
  {
    Unissued(s, |s.frames|);
    var t := Submit(s, f, c);
    assert forall id: Id :: IsLifecycle(s, id) ==> IsLifecycle(t, id);
    QuietMarks(s, t);
  }

  lemma CloseMarks(s: State)
    requires Marks(s)
    ensures Marks(Close(s)) && Marks(Abort(s))
  {
    var t := Close(s);
    assert forall id: Id :: IsLifecycle(s, id) ==> IsLifecycle(t, id);
    QuietMarks(s, t);
    QuietMarks(s, Abort(s));
  }

  lemma CancelMarks(s: State, gone: Id)
    requires Located(s) && Marks(s)
    ensures Marks(CancelEntry(s, gone))
  {
    if gone in s.queues.waiting { Untouched(s, gone); }
    if gone >= |s.frames| { Unissued(s, gone); }
    QuietMarks(s, CancelEntry(s, gone));
  }

  lemma PreflightMarks(s: State)
    requires Marks(s)
    requires s.block.Idle? && s.dispatch != [] ==> Clean(s, s.dispatch[0])
    ensures Marks(Preflight(s))
  {
    if s.block.Idle? && s.dispatch != [] { BegunMarks(s, Preflight(s), s.dispatch[0]); }
  }

  lemma BegunMarks(s: State, t: State, id: Id)
    requires Marks(s) && Clean(s, id) && s.block.Idle? && t.block.Running? && t.block.id == id
    requires t == s.(dispatch := t.dispatch, block := t.block, started := t.started, written := t.written)
    requires t.started == if t.block.verdict.Write? || t.block.verdict.Refuse? then s.started + {id} else s.started
    requires t.written == if t.block.verdict.Write? then s.written + [id] else s.written
    requires t.block.verdict.Skip? ==> id in s.superseded
    ensures Marks(t)
  {
    assert forall x: Id :: IsLifecycle(t, x) == IsLifecycle(s, x);
    assert forall x: Id :: x in t.written ==> x in s.written || x == id;
  }

  /** A block that ends keeps the marks when what it reports agrees with its verdict. */
  lemma SettledMarks(s: State, t: State)
    requires Marks(s) && s.block.Running? && !t.block.Running?
    requires t == s.(block := t.block, accepting := t.accepting, terminal := t.terminal, broken := t.broken,
                     queues := t.queues, log := t.log)
    requires forall id: Id :: id in t.queues.lifecycle ==> id in s.queues.lifecycle
    requires forall id: Id :: Finished(s.log, id) ==> Finished(t.log, id)
    requires Finished(t.log, s.block.id)
    requires forall id: Id :: id in t.log.succeeded ==>
               id in s.log.succeeded || (id == s.block.id && (id in s.written || IsLifecycle(s, id)))
    requires forall id: Id :: id in t.log.canceled ==> id in s.log.canceled || (id == s.block.id && id !in s.written)
    ensures Marks(t)
  {
    assert forall id: Id :: IsLifecycle(t, id) == IsLifecycle(s, id);
  }

  /** What a finished block adds to the log. */
  lemma FinishLog(s: State, w: bool)
    requires s.block.Running?
    ensures var t, id, o := Finish(s, w), s.block.id, Result(s.block.verdict, w);
            && t.log.succeeded == s.log.succeeded + (if o.Success? then [id] else [])
            && t.log.canceled == s.log.canceled + (if o.Canceled? then [id] else [])
            && s.log.failed <= t.log.failed && (o.Failed? ==> id in t.log.failed)
  {
  }

  lemma FinishFrame(s: State, w: bool)
    requires s.block.Running?
    ensures var t := Finish(s, w);
            && !t.block.Running?
            && t == s.(block := t.block, accepting := t.accepting, terminal := t.terminal, broken := t.broken,
                       queues := t.queues, log := t.log)
            && forall id: Id :: id in t.queues.lifecycle ==> id in s.queues.lifecycle
  {
  }

  lemma FinishMarks(s: State, w: bool)
    requires Marks(s)
    ensures Marks(Finish(s, w))
  {
    if s.block.Running? {
      FinishLog(s, w);
      FinishFrame(s, w);
      FinishReports(s, Finish(s, w).log, w);
      SettledMarks(s, Finish(s, w));
    }
  }

  lemma FinishReports(s: State, log: Log, w: bool)
    requires Marks(s) && s.block.Running?
    requires var id, o := s.block.id, Result(s.block.verdict, w);
             && log.succeeded == s.log.succeeded + (if o.Success? then [id] else [])
             && log.canceled == s.log.canceled + (if o.Canceled? then [id] else [])
             && s.log.failed <= log.failed && (o.Failed? ==> id in log.failed)
    ensures forall id: Id :: Finished(s.log, id) ==> Finished(log, id)
    ensures Finished(log, s.block.id)
    ensures forall id: Id :: id in log.succeeded ==>
              id in s.log.succeeded || (id == s.block.id && (id in s.written || IsLifecycle(s, id)))
    ensures forall id: Id :: id in log.canceled ==> id in s.log.canceled || (id == s.block.id && id !in s.written)
  {
  }

  lemma StepMarks(s: State, e: Event)
    requires Shape(s) && Located(s) && Marks(s)
    ensures Marks(Step(s, e))
  {
    match e
    case DoSubmit(f, c) => SubmitMarks(s, f, c);
    case DoClose => CloseMarks(s);
    case DoAbort => CloseMarks(s);
    case DoCancel(gone) => CancelMarks(s, gone);
    case DoPreflight =>
      if s.dispatch != [] { Untouched(s, s.dispatch[0]); }
      PreflightMarks(s);
    case DoFinish(w) => FinishMarks(s, w);
    case DoEnqueueNext => assert Marks(EnqueueNext(s));
  }

  // ----- Order -----

  predicate Increasing(q: seq<Id>) { forall i, j :: 0 <= i < j < |q| ==> q[i] < q[j] }

  /** Two frames of one class whose order the writer promises to keep. */
  predicate SameClass(s: State, x: Id, y: Id) {
    Prio(s.frames, x) == Prio(s.frames, y) && (Prio(s.frames, x).Ordinary? || Prio(s.frames, x).Settlement?)
  }

  /** Both bounded queues are in submission order and past the last admission of their class. */
  ghost predicate Classed(frames: seq<Frame>, q: Queues) {
    && Increasing(q.waiting) && Increasing(q.settlement)
    && (forall id: Id :: id in q.waiting ==>
          q.lastOrdinary < id < |frames| && frames[id].priority == Ordinary)
    && (forall id: Id :: id in q.settlement ==>
          q.lastSettlement < id < |frames| && frames[id].priority == Settlement)
    && (forall id: Id :: id in q.lifecycle ==> id < |frames| && frames[id].priority == Lifecycle)
    && q.lastOrdinary < |frames| && q.lastSettlement < |frames|
  }

  /** The last admitted entry of its class bounds what was written of that class and is
      what is pending of it. */
  ghost predicate Fifo(s: State) {
    && (forall id: Id :: id in s.written ==>
          && id < |s.frames|
          && (Prio(s.frames, id).Ordinary? ==> id <= s.queues.lastOrdinary)
          && (Prio(s.frames, id).Settlement? ==> id <= s.queues.lastSettlement))
    && (forall id: Id :: IsPending(s, id) ==>
          && id < |s.frames|
          && (Prio(s.frames, id).Ordinary? ==> id == s.queues.lastOrdinary)
          && (Prio(s.frames, id).Settlement? ==> id == s.queues.lastSettlement))
    && (forall i, j :: 0 <= i < j < |s.written| && SameClass(s, s.written[i], s.written[j])
          ==> s.written[i] < s.written[j])
  }

  lemma {:induction false} WithoutSubset(q: seq<Id>, gone: Id)
    ensures forall id: Id :: id in Without(q, gone) ==> id in q
  {
    if q != [] && q[0] != gone {
      WithoutSubset(q[1..], gone);
      assert forall id :: id in q[1..] ==> id in q;
    }
  }

  lemma TailIncreasing(q: seq<Id>)
    requires Increasing(q) && q != []
    ensures Increasing(q[1..]) && forall id: Id :: id in q[1..] ==> q[0] < id
  {
    var t := q[1..];
    assert forall i :: 0 <= i < |t| ==> t[i] == q[i + 1];
  }

  lemma ConsIncreasing(x: Id, q: seq<Id>)
    requires Increasing(q) && forall id: Id :: id in q ==> x < id
    ensures Increasing([x] + q)
  {
    var t := [x] + q;
    assert forall i :: 0 < i < |t| ==> t[i] == q[i - 1] && q[i - 1] in q;
  }

  lemma {:induction false} WithoutKeeps(q: seq<Id>, gone: Id)
    requires Increasing(q)
    ensures Increasing(Without(q, gone))
    ensures forall id: Id :: id in Without(q, gone) ==> id in q
  {
    WithoutSubset(q, gone);
    if q != [] {
      TailIncreasing(q);
      if q[0] != gone {
        WithoutKeeps(q[1..], gone);
        ConsIncreasing(q[0], Without(q[1..], gone));
      }
    }
  }

  lemma SelectClassed(frames: seq<Frame>, q: Queues)
    requires Classed(frames, q) && !q.IsEmpty()
    ensures Classed(frames, Select(q).1)
    ensures var (id, r) := Select(q);
            && id < |frames| && q.lastOrdinary <= r.lastOrdinary && q.lastSettlement <= r.lastSettlement
            && (frames[id].priority.Ordinary? ==> id == r.lastOrdinary)
            && (frames[id].priority.Settlement? ==> id == r.lastSettlement)
  {
    var (id, r) := Select(q);
    if q.lifecycle != [] {
      assert id in q.lifecycle;
      assert forall x: Id :: x in r.lifecycle ==> x in q.lifecycle;
    } else if q.settlement != [] && (q.waiting == [] || !q.turnUsed) {
      assert id in q.settlement;
      assert forall x: Id :: x in r.settlement ==> x in q.settlement && id < x;
    } else {
      assert id in q.waiting;
      assert forall x: Id :: x in r.waiting ==> x in q.waiting && id < x;
    }
  }

  lemma GrownClassed(frames: seq<Frame>, f: Frame, q: Queues)
    requires Classed(frames, q)
    ensures Classed(frames + [f], q)
  {
  }

  lemma SnocIncreasing(q: seq<Id>, x: Id)
    requires Increasing(q) && forall id: Id :: id in q ==> id < x
    ensures Increasing(q + [x])
  {
    assert forall i :: 0 <= i < |q| ==> q[i] in q;
  }

  lemma PushClassed(frames: seq<Frame>, f: Frame, q: Queues, limit: nat)
    requires Classed(frames, q) && !f.priority.Closing? && |q.lifecycle| <= 1
    ensures match Push(q, limit, f.priority, |frames|)
            case Full => true
            case r => Classed(frames + [f], r.q)
  {
    GrownClassed(frames, f, q);
    match f.priority
    case Ordinary => SnocIncreasing(q.waiting, |frames|);
    case Settlement => SnocIncreasing(q.settlement, |frames|);
    case Lifecycle =>
  }

  lemma SubmitClassed(s: State, f: Frame, c: bool)
    requires Shape(s) && Classed(s.frames, s.queues) && !f.priority.Closing?
    ensures Classed(Submit(s, f, c).frames, Submit(s, f, c).queues)
  {
    GrownClassed(s.frames, f, s.queues);
    PushClassed(s.frames, f, s.queues, s.limit);
  }

  lemma FinishClassed(s: State, w: bool)
    requires Classed(s.frames, s.queues)
    ensures Classed(Finish(s, w).frames, Finish(s, w).queues)
  {
    FinishQueues(s, w);
    assert Classed(s.frames, s.queues.Cleared());
    assert Classed(s.frames, s.queues.(turnUsed := false));
    if !s.queues.IsEmpty() { SelectClassed(s.frames, s.queues); }
  }

  lemma FinishQueues(s: State, w: bool)
    ensures Finish(s, w).frames == s.frames
    ensures var q := Finish(s, w).queues;
            || q == s.queues || q == s.queues.Cleared() || (s.queues.IsEmpty() && q == s.queues.(turnUsed := false))
            || (!s.queues.IsEmpty() && q == Select(s.queues).1)
  {
  }

  lemma StepClassed(s: State, e: Event)
    requires Shape(s) && Classed(s.frames, s.queues) && Legal([e])
    ensures Classed(Step(s, e).frames, Step(s, e).queues)
  {
    match e
    case DoSubmit(f, c) =>
      assert [e][0] == e;
      SubmitClassed(s, f, c);
    case DoClose => GrownClassed(s.frames, Frame(Closing, false), s.queues);
    case DoAbort =>
    case DoCancel(gone) => WithoutKeeps(s.queues.waiting, gone);
    case DoPreflight =>
    case DoFinish(w) => FinishClassed(s, w);
    case DoEnqueueNext =>
  }

  /** Steps that write nothing keep the order, provided what they newly make pending is
      the last admission of its class. */
  lemma QuietFifo(s: State, t: State)
    requires Fifo(s)
    requires s.frames <= t.frames && t.written == s.written
    requires s.queues.lastOrdinary <= t.queues.lastOrdinary && s.queues.lastSettlement <= t.queues.lastSettlement
    requires t.queues.lastOrdinary == s.queues.lastOrdinary || s.dispatch == []
    requires t.queues.lastSettlement == s.queues.lastSettlement || s.dispatch == []
    requires forall id: Id :: IsPending(t, id) ==>
               || (IsPending(s, id) && t.queues.lastOrdinary == s.queues.lastOrdinary
                   && t.queues.lastSettlement == s.queues.lastSettlement)
               || (&& id < |t.frames|
                   && (Prio(t.frames, id).Ordinary? ==> id == t.queues.lastOrdinary)
                   && (Prio(t.frames, id).Settlement? ==> id == t.queues.lastSettlement))
    ensures Fifo(t)
  {
    assert forall id: Id :: id < |s.frames| ==> Prio(t.frames, id) == Prio(s.frames, id);
  }

  lemma FinishFifo(s: State, w: bool)
    requires Shape(s) && Classed(s.frames, s.queues) && Fifo(s)
    ensures Fifo(Finish(s, w))
  {
    var t := Finish(s, w);
    if s.block.Running? && t.block.Selected? {
      SelectClassed(s.frames, s.queues);
      assert s.dispatch == [] by { assert s.InFlight()[1..] == s.dispatch; }
    }
    QuietFifo(s, t);
  }

  lemma WriteFifo(s: State, id: Id)
    requires Fifo(s) && id < |s.frames| && id !in s.written
    requires Prio(s.frames, id).Ordinary? ==> id == s.queues.lastOrdinary
    requires Prio(s.frames, id).Settlement? ==> id == s.queues.lastSettlement
    ensures Fifo(s.(written := s.written + [id]))
  {
    var t := s.(written := s.written + [id]);
    assert forall x: Id :: IsPending(t, x) ==> IsPending(s, x);
    forall i | 0 <= i < |s.written| && SameClass(s, s.written[i], id) ensures s.written[i] < id {
      assert s.written[i] in s.written;
    }
  }

  lemma PreflightFifo(s: State)
    requires Fifo(s)
    requires s.block.Idle? && s.dispatch != [] ==> Clean(s, s.dispatch[0])
    ensures Fifo(Preflight(s))
  {
    var t := Preflight(s);
    var u := t.(written := s.written);
    QuietFifo(s, u);
    if t.written != s.written {
      assert IsPending(s, s.dispatch[0]);
      WriteFifo(u, s.dispatch[0]);
    }
  }

  lemma SubmitFifo(s: State, f: Frame, c: bool)
    requires Shape(s) && Classed(s.frames, s.queues) && Fifo(s) && !f.priority.Closing?
    ensures Fifo(Submit(s, f, c))
  {
    QuietFifo(s, Submit(s, f, c));
  }

  lemma CloseFifo(s: State)
    requires Shape(s) && Fifo(s)
    ensures Fifo(Close(s)) && Fifo(Abort(s))
  {
    QuietFifo(s, Close(s));
    QuietFifo(s, Abort(s));
  }

  lemma StepFifo(s: State, e: Event)
    requires Shape(s) && Located(s) && Marks(s) && Classed(s.frames, s.queues) && Fifo(s) && Legal([e])
    ensures Fifo(Step(s, e))
  {
    match e
    case DoSubmit(f, c) =>
      assert [e][0] == e;
      SubmitFifo(s, f, c);
    case DoClose => CloseFifo(s);
    case DoAbort => CloseFifo(s);
    case DoCancel(gone) => CancelFifo(s, gone);
    case DoPreflight =>
      if s.dispatch != [] { Untouched(s, s.dispatch[0]); }
      PreflightFifo(s);
    case DoFinish(w) => FinishFifo(s, w);
    case DoEnqueueNext => EnqueueNextFifo(s);
  }

  lemma CancelFifo(s: State, gone: Id)
    requires Fifo(s)
    ensures Fifo(CancelEntry(s, gone))
  {
    QuietFifo(s, CancelEntry(s, gone));
  }

  lemma EnqueueNextFifo(s: State)
    requires Fifo(s)
    ensures Fifo(EnqueueNext(s))
  {
    QuietFifo(s, EnqueueNext(s));
  }

  // ----- Fairness -----

  /** Neither bounded queue has been passed over more than once while it held an entry. */
  predicate Fair(q: Queues) {
    && q.ordinaryPassed <= 1 && q.settlementPassed <= 1
    && (q.ordinaryPassed == 1 ==> q.turnUsed && q.waiting != [])
    && (q.settlementPassed == 1 ==> !q.turnUsed && q.settlement != [])
  }

  lemma StepFair(s: State, e: Event)
    requires Shape(s) && Fair(s.queues)
    ensures Fair(Step(s, e).queues)
  {
    match e
    case DoSubmit(f, c) => SubmitFair(s, f, c);
    case DoFinish(w) => FinishFair(s, w);
    case _ =>
  }

  lemma SubmitFair(s: State, f: Frame, c: bool)
    requires Shape(s) && Fair(s.queues)
    ensures Fair(Submit(s, f, c).queues)
  {
  }

  lemma FinishFair(s: State, w: bool)
    requires Shape(s) && Fair(s.queues)
    ensures Fair(Finish(s, w).queues)
  {
    FinishQueues(s, w);
    if !s.queues.IsEmpty() { assert Fair(Select(s.queues).1); }
    assert s.queues.IsEmpty() ==> Fair(s.queues.(turnUsed := false));
  }

  // ----- Every run -----

  ghost predicate Inv(s: State) {
    Shape(s) && Located(s) && Marks(s) && Classed(s.frames, s.queues) && Fifo(s) && Fair(s.queues)
  }

  lemma FreshInv(limit: nat)
    ensures Inv(Fresh(limit))
  {
  }

  lemma StepInv(s: State, e: Event)
    requires Inv(s) && Legal([e])
    ensures Inv(Step(s, e))
  {
    StepShape(s, e);
    StepLocated(s, e);
    StepMarks(s, e);
    StepClassed(s, e);
    StepFifo(s, e);
    StepFair(s, e);
  }

  lemma {:induction false} RunInv(s: State, es: seq<Event>)
    requires Inv(s) && Legal(es)
    ensures Inv(Run(s, es))
    decreases |es|
  {
    if es != [] {
      StepInv(s, es[0]);
      RunInv(Step(s, es[0]), es[1..]);
    }
  }

  /** Every entry given to the writer is completed at most once, and exactly once as soon as
      nothing is in flight; nothing is queued once the writer refuses entries or is idle. */
  lemma CompletedExactlyOnce(limit: nat, es: seq<Event>, id: Id)
    requires Legal(es)
    ensures var s := Run(Fresh(limit), es);
            && Completions(s.log, id) <= 1
            && (id >= |s.frames| ==> Completions(s.log, id) == 0)
            && (s.InFlight() == [] && id < |s.frames| ==> Completions(s.log, id) == 1)
            && (!s.accepting || s.InFlight() == [] ==> s.queues.IsEmpty())
  {
    FreshInv(limit);
    RunInv(Fresh(limit), es);
    var s := Run(Fresh(limit), es);
    assert Places(s, id) == if id < |s.frames| then 1 else 0;
  }

  /** Ordinary frames reach the codec in submission order, and so do settlement frames. */
  lemma WrittenInOrder(limit: nat, es: seq<Event>, i: nat, j: nat)
    requires Legal(es)
    requires i < j < |Run(Fresh(limit), es).written|
    ensures var s := Run(Fresh(limit), es);
            SameClass(s, s.written[i], s.written[j]) ==> s.written[i] < s.written[j]
  {
    FreshInv(limit);
    RunInv(Fresh(limit), es);
  }

  /** The queues stay bounded and neither is passed over twice in a row. */
  lemma BoundedAndFair(limit: nat, es: seq<Event>)
    requires Legal(es)
    ensures var q := Run(Fresh(limit), es).queues;
            && |q.waiting| <= limit && |q.settlement| <= limit && |q.lifecycle| <= 1
            && q.ordinaryPassed <= 1 && q.settlementPassed <= 1
  {
    FreshInv(limit);
    RunInv(Fresh(limit), es);
    RunLimit(Fresh(limit), es);
  }

  lemma {:induction false} RunLimit(s: State, es: seq<Event>)
    ensures Run(s, es).limit == s.limit
    decreases |es|
  {
    if es != [] { RunLimit(Step(s, es[0]), es[1..]); }
  }

  /** Once a frame failed on the wire, no frame is ever handed to the codec again. */
  lemma {:induction false} NothingAfterFailure(s: State, es: seq<Event>)
    requires Inv(s) && Legal(es) && s.broken
    ensures Run(s, es).written == s.written
    decreases |es|
  {
    if es != [] {
      StepInv(s, es[0]);
      NothingAfterFailure(Step(s, es[0]), es[1..]);
    }
  }

  /** What a completion proves about the codec: a canceled entry never reached it, and a
      successful one did unless it was a lifecycle frame a newer one replaced. */
  lemma CompletionProof(limit: nat, es: seq<Event>, id: Id)
    requires Legal(es)
    ensures var s := Run(Fresh(limit), es);
            && (id in s.log.canceled ==> id !in s.written)
            && (id in s.log.succeeded ==> id in s.written || IsLifecycle(s, id))
            && (id in s.queues.Listed() ==> id !in s.written)
  {
    FreshInv(limit);
    RunInv(Fresh(limit), es);
    var s := Run(Fresh(limit), es);
    if id in s.queues.Listed() { Untouched(s, id); }
  }

  // ----- Admission and progress -----

  /** The queue an entry of this priority would wait in has no place for it. */
  predicate NoPlace(s: State, p: Priority) {
    match p
    case Lifecycle => false
    case Settlement => |s.queues.settlement| >= s.limit
    case _ => |s.queues.waiting| >= s.limit
  }

  /** A submission is completed on the spot exactly when it was canceled beforehand, the writer
      refuses entries, or the writer is busy and the entry's queue is full. */
  lemma RefusedExactly(limit: nat, es: seq<Event>, f: Frame, c: bool)
    requires Legal(es)
    ensures var s := Run(Fresh(limit), es);
            Completions(Submit(s, f, c).log, |s.frames|) > 0
            <==> c || !s.accepting || (s.InFlight() != [] && NoPlace(s, f.priority))
  {
    FreshInv(limit);
    RunInv(Fresh(limit), es);
    var s := Run(Fresh(limit), es);
    assert Places(s, |s.frames|) == 0;
    AnsweredAtOnce(s, f, c);
  }

  lemma LogAdd(log: Log, x: Id, o: Outcome, id: Id)
    ensures Completions(log.Add([x], o), id) == Completions(log, id) + if x == id then 1 else 0
  {
    CountSplit(log.succeeded, [x], id);
    CountSplit(log.canceled, [x], id);
    CountSplit(log.failed, [x], id);
  }

  lemma EnqueueAnswers(s: State, p: Priority, id: Id)
    requires Completions(s.log, id) == 0 && id !in s.queues.lifecycle
    ensures Completions(Enqueue(s, p, id).log, id) > 0 <==> NoPlace(s, p)
  {
    LogAdd(s.log, id, Failed, id);
    if s.queues.lifecycle != [] { LogAdd(s.log, s.queues.lifecycle[0], Success, id); }
  }

  lemma AnsweredAtOnce(s: State, f: Frame, c: bool)
    requires Completions(s.log, |s.frames|) == 0 && Count(s.queues.lifecycle, |s.frames|) == 0
    ensures Completions(Submit(s, f, c).log, |s.frames|) > 0
            <==> c || !s.accepting || (s.InFlight() != [] && NoPlace(s, f.priority))
  {
    var id, t := |s.frames|, s.(frames := s.frames + [f]);
    CountMember(s.queues.lifecycle, id);
    if c {
      LogAdd(s.log, id, Canceled, id);
    } else if !s.accepting {
      LogAdd(s.log, id, Failed, id);
    } else if s.InFlight() != [] {
      EnqueueAnswers(t, f.priority, id);
      assert NoPlace(t, f.priority) == NoPlace(s, f.priority);
    }
  }

  /** What the serial queue does next, given that its writes succeed. */
  function NextEvent(s: State): Event {
    match s.block
    case Idle => DoPreflight
    case Running(_, _) => DoFinish(true)
    case Selected(_) => DoEnqueueNext
  }

  function Work(s: State): nat {
    5 * |s.queues.Listed()| + 3 * |s.dispatch| +
    match s.block
    case Idle => 0
    case Running(_, _) => 2
    case Selected(_) => 4
  }

  lemma Progress(s: State)
    requires Shape(s) && s.InFlight() != []
    ensures Work(Step(s, NextEvent(s))) < Work(s)
  {
    match s.block
    case Idle => PreflightProgress(s);
    case Running(_, _) => FinishProgress(s);
    case Selected(_) =>
  }

  lemma PreflightProgress(s: State)
    requires s.block.Idle? && s.dispatch != []
    ensures Work(Preflight(s)) < Work(s)
  {
  }

  lemma SelectShrinks(q: Queues)
    requires !q.IsEmpty()
    ensures |Select(q).1.Listed()| == |q.Listed()| - 1
  {
  }

  lemma FinishProgress(s: State)
    requires s.block.Running?
    ensures Work(Finish(s, true)) < Work(s)
  {
    if !s.queues.IsEmpty() { SelectShrinks(s.queues); }
  }

  /** Nothing is ever stuck: from every reachable state the serial queue alone, with writes that
      succeed, brings every entry there is to its one completion. */
  lemma DrainsOut(limit: nat, es: seq<Event>) returns (more: seq<Event>)
    requires Legal(es)
    ensures forall i :: 0 <= i < |more| ==> more[i] in {DoPreflight, DoFinish(true), DoEnqueueNext}
    ensures var s, t := Run(Fresh(limit), es), Run(Run(Fresh(limit), es), more);
            && t.InFlight() == [] && t.queues.IsEmpty() && t.frames == s.frames
            && forall id: Id :: id < |t.frames| ==> Completions(t.log, id) == 1
  {
    FreshInv(limit);
    RunInv(Fresh(limit), es);
    more := DrainFrom(Run(Fresh(limit), es));
  }

  lemma {:induction false} DrainFrom(s: State) returns (more: seq<Event>)
    requires Inv(s)
    ensures forall i :: 0 <= i < |more| ==> more[i] in {DoPreflight, DoFinish(true), DoEnqueueNext}
    ensures var t := Run(s, more);
            && t.InFlight() == [] && t.queues.IsEmpty() && t.frames == s.frames
            && forall id: Id :: id < |t.frames| ==> Completions(t.log, id) == 1
    decreases Work(s)
  {
    if s.InFlight() == [] {
      more := [];
      IdleMeansDone(s);
    } else {
      var e := NextEvent(s);
      Progress(s);
      StepInv(s, e);
      SameFrames(s);
      var rest := DrainFrom(Step(s, e));
      more := [e] + rest;
      assert more[1..] == rest;
    }
  }

  lemma IdleMeansDone(s: State)
    requires Shape(s) && Located(s) && s.InFlight() == []
    ensures s.queues.IsEmpty() && forall id: Id :: id < |s.frames| ==> Completions(s.log, id) == 1
  {
    forall id: Id | id < |s.frames| ensures Completions(s.log, id) == 1 { assert Places(s, id) == 1; }
  }

  lemma SameFrames(s: State)
    ensures Step(s, NextEvent(s)).frames == s.frames
  {
  }

  // ----- The closing frame -----

  /** No frame was handed to the codec after entry `c`. */
  predicate NothingAfter(written: seq<Id>, c: Id) {
    forall i :: 0 <= i < |written| && written[i] == c ==> i == |written| - 1
  }

  /** An entry whose preflight can no longer choose to write it. */
  predicate Doomed(s: State, id: Id) { id in s.superseded || id in s.canceled }

  /** The closing entry `c` is the last thing this refusing writer can still write. */
  ghost predicate LastWord(s: State, c: Id) {
    && !s.accepting && s.queues.IsEmpty()
    && NothingAfter(s.written, c)
    && (s.block.Selected? ==> Doomed(s, s.block.next))
    && (forall j :: 0 <= j < |s.dispatch| && c in s.written ==> Doomed(s, s.dispatch[j]))
    && (forall i, j :: 0 <= i < j < |s.dispatch| && s.dispatch[i] == c ==> Doomed(s, s.dispatch[j]))
  }

  lemma QuietLastWord(s: State, t: State, c: Id)
    requires LastWord(s, c) && !t.accepting && t.queues.IsEmpty()
    requires t.written == s.written && t.dispatch == s.dispatch && (t.block.Selected? ==> t.block == s.block)
    requires s.superseded <= t.superseded && s.canceled <= t.canceled
    ensures LastWord(t, c)
  {
    assert forall id: Id :: Doomed(s, id) ==> Doomed(t, id);
  }

  lemma PreflightLastWord(s: State, c: Id)
    requires LastWord(s, c)
    ensures LastWord(Preflight(s), c)
  {
    if s.block.Idle? && s.dispatch != [] {
      var t := Preflight(s);
      assert forall i :: 0 <= i < |t.dispatch| ==> t.dispatch[i] == s.dispatch[i + 1];
      assert forall id: Id :: Doomed(s, id) <==> Doomed(t, id);
    }
  }

  lemma StepLastWord(s: State, e: Event, c: Id)
    requires LastWord(s, c)
    ensures LastWord(Step(s, e), c)
  {
    match e
    case DoPreflight => PreflightLastWord(s, c);
    case DoEnqueueNext =>
      assert forall id: Id :: Doomed(s, id) <==> Doomed(EnqueueNext(s), id);
    case DoSubmit(f, k) => QuietLastWord(s, Submit(s, f, k), c);
    case DoClose => QuietLastWord(s, Close(s), c);
    case DoAbort => QuietLastWord(s, Abort(s), c);
    case DoCancel(id) => QuietLastWord(s, CancelEntry(s, id), c);
    case DoFinish(w) => FinishLastWord(s, w, c);
  }

  lemma FinishLastWord(s: State, w: bool, c: Id)
    requires LastWord(s, c)
    ensures LastWord(Finish(s, w), c)
  {
    QuietLastWord(s, Finish(s, w), c);
  }

  lemma {:induction false} RunLastWord(s: State, es: seq<Event>, c: Id)
    requires LastWord(s, c)
    ensures LastWord(Run(s, es), c)
    decreases |es|
  {
    if es != [] {
      StepLastWord(s, es[0], c);
      RunLastWord(Step(s, es[0]), es[1..], c);
    }
  }

  /** An entry chosen under the lock but not yet handed to the serial queue. */
  predicate InSelectionGap(s: State) {
    s.block.Selected? && !Doomed(s, s.block.next)
  }

  lemma CloseIsLastWord(s: State)
    requires Inv(s) && s.accepting && !InSelectionGap(s)
    ensures LastWord(Close(s), |s.frames|)
  {
    Unissued(s, |s.frames|);
    assert |s.frames| !in s.InFlight();
    assert forall id: Id :: id in s.dispatch ==> id in s.InFlight();
  }

  /** The run in which the entry of the gap is written behind the closing frame. */
  const OVERTAKEN: seq<Event> := [DoEnqueueNext, DoPreflight, DoFinish(true), DoPreflight]

  lemma GapOvertaken(s: State)
    requires Inv(s) && s.accepting && InSelectionGap(s)
    ensures Run(Close(s), OVERTAKEN).written == s.written + [|s.frames|, s.block.next]
  {
    Unissued(s, |s.frames|);
    GapRun(s);
  }

  lemma GapRun(s: State)
    requires Shape(s) && s.accepting && InSelectionGap(s) && !Doomed(s, |s.frames|)
    ensures Run(Close(s), OVERTAKEN).written == s.written + [|s.frames|, s.block.next]
  {
    var c, n := |s.frames|, s.block.next;
    assert s.InFlight() == [n] + s.dispatch;
    var s1 := Close(s);
    assert s1.dispatch == [c] && s1.queues.IsEmpty();
    var s2 := Step(s1, DoEnqueueNext);
    assert s2.dispatch == [c, n];
    var s3 := Step(s2, DoPreflight);
    assert s3.block == Running(c, Write) && s3.written == s.written + [c] && s3.dispatch == [n];
    var s4 := Step(s3, DoFinish(true));
    assert s4.block == Idle && s4.dispatch == [n] && s4.written == s3.written && !s4.terminal;
    var s5 := Step(s4, DoPreflight);
    assert s5.written == s.written + [c, n];
    assert OVERTAKEN[1..] == [DoPreflight, DoFinish(true), DoPreflight];
    assert OVERTAKEN[1..][1..] == [DoFinish(true), DoPreflight];
    assert OVERTAKEN[1..][1..][1..] == [DoPreflight];
    assert Run(s4, [DoPreflight]) == s5;
    assert Run(s3, [DoFinish(true), DoPreflight]) == s5;
    assert Run(s2, [DoPreflight, DoFinish(true), DoPreflight]) == s5;
  }

  /** The closing frame is the last frame in every continuation exactly when the close did
      not fall into the gap between selecting an entry and enqueueing it. */
  lemma ClosingFrameIsLast(s: State)
    requires Inv(s) && s.accepting
    ensures (forall es: seq<Event> :: NothingAfter(Run(Close(s), es).written, |s.frames|))
            <==> !InSelectionGap(s)
  {
    if InSelectionGap(s) {
      GapOvertaken(s);
      var w := Run(Close(s), OVERTAKEN).written;
      assert w[|s.written|] == |s.frames| && |s.written| != |w| - 1;
      assert !NothingAfter(w, |s.frames|);
    } else {
      CloseIsLastWord(s);
      forall es: seq<Event> ensures NothingAfter(Run(Close(s), es).written, |s.frames|) {
        RunLastWord(Close(s), es, |s.frames|);
      }
    }
  }

  /** The gap is reachable: two submissions and one completed write open it. */
  lemma GapReachable()
    ensures var es := [DoSubmit(Frame(Ordinary, false), false), DoSubmit(Frame(Ordinary, false), false),
                       DoPreflight, DoFinish(true)];
            Legal(es) && InSelectionGap(Run(Fresh(1), es)) && Run(Fresh(1), es).accepting
  {
    var f := Frame(Ordinary, false);
    var s1 := Submit(Fresh(1), f, false);
    var s2 := Submit(s1, f, false);
    var s3 := Preflight(s2);
    var s4 := Finish(s3, true);
    assert s2.dispatch == [0] && s2.queues.waiting == [1];
    assert s4.block == Selected(1);
    var es := [DoSubmit(f, false), DoSubmit(f, false), DoPreflight, DoFinish(true)];
    assert es[1..][1..][1..] == [DoFinish(true)];
    assert Run(s3, [DoFinish(true)]) == s4;
    assert es[1..][1..] == [DoPreflight, DoFinish(true)];
    assert Run(s2, [DoPreflight, DoFinish(true)]) == s4;
    assert Run(s1, es[1..]) == s4;
  }
}
