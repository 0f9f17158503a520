/** What each call on the session writer does, told by what a caller can see of it: who is queued,
    in flight, written or completed, and who never will be. */
module WriterLaws {
  import opened Counts
  import opened SessionWriter
  import opened WriterTheorems

  // ----- Entries that are never written -----

  lemma StepDoomed(s: State, e: Event, id: Id)
    requires Doomed(s, id) && id !in s.written
    ensures Doomed(Step(s, e), id) && id !in Step(s, e).written
  {
    match e
    case DoSubmit(f, c) => SubmitDoomed(s, f, c, id);
    case _ =>
  }

  lemma SubmitDoomed(s: State, f: Frame, c: bool, id: Id)
    requires Doomed(s, id)
    ensures Doomed(Submit(s, f, c), id) && Submit(s, f, c).written == s.written
  {
  }

  /** An entry marked before its preflight is not written in any continuation. */
  lemma {:induction false} DoomedNeverWritten(s: State, more: seq<Event>, id: Id)
    requires Doomed(s, id) && id !in s.written
    ensures id !in Run(s, more).written
    decreases |more|
  {
    if more != [] {
      StepDoomed(s, more[0], id);
      DoomedNeverWritten(Step(s, more[0]), more[1..], id);
    }
  }

  lemma StepFinished(s: State, e: Event, id: Id)
    requires Finished(s.log, id)
    ensures Finished(Step(s, e).log, id)
  {
    match e
    case DoSubmit(f, c) => SubmitFinished(s, f, c, id);
    case DoFinish(w) => if s.block.Running? { FinishLog(s, w); }
    case _ =>
  }

  lemma SubmitFinished(s: State, f: Frame, c: bool, id: Id)
    requires Finished(s.log, id)
    ensures Finished(Submit(s, f, c).log, id)
  {
  }

  /** Nor is an entry that was completed before it was written. */
  lemma {:induction false} CompletedNeverWritten(s: State, more: seq<Event>, id: Id)
    requires Inv(s) && Legal(more) && Finished(s.log, id) && id !in s.written
    ensures id !in Run(s, more).written
    decreases |more|
  {
    if more != [] {
      StepFinished(s, more[0], id);
      NotWrittenByStep(s, more[0], id);
      StepInv(s, more[0]);
      CompletedNeverWritten(Step(s, more[0]), more[1..], id);
    }
  }

  /** Only a preflight writes, and only the head of the serial queue. */
  lemma WritesOnlyHead(s: State, e: Event)
    ensures Step(s, e).written == s.written
            || (e.DoPreflight? && s.dispatch != [] && Step(s, e).written == s.written + [s.dispatch[0]])
  {
    match e
    case DoSubmit(f, c) => SubmitWrites(s, f, c);
    case DoFinish(w) => if s.block.Running? { FinishFrame(s, w); }
    case _ =>
  }

  lemma SubmitWrites(s: State, f: Frame, c: bool)
    ensures Submit(s, f, c).written == s.written
  {
  }

  lemma NotWrittenByStep(s: State, e: Event, id: Id)
    requires Located(s) && Marks(s) && Finished(s.log, id) && id !in s.written
    ensures id !in Step(s, e).written
  {
    WritesOnlyHead(s, e);
    if s.dispatch != [] { Untouched(s, s.dispatch[0]); }
  }

  // ----- Cancel -----

  lemma {:induction false} WithoutCuts(q: seq<Id>, id: Id) returns (i: nat)
    requires id in q
    ensures i < |q| && q[i] == id && Without(q, id) == q[..i] + q[i + 1..]
  {
    if q[0] == id {
      i := 0;
    } else {
      var j := WithoutCuts(q[1..], id);
      i := j + 1;
      assert q[..i] == [q[0]] + q[1..][..j] && q[1..][j + 1..] == q[i + 1..];
    }
  }

  /** The queue without one place of it. */
  ghost predicate CutFrom(q: seq<Id>, id: Id, r: seq<Id>) {
    exists i :: 0 <= i < |q| && q[i] == id && r == q[..i] + q[i + 1..]
  }

  /** A cancel takes a waiting ordinary entry out of its queue, and out of nothing else, and completes
      it as canceled; it marks an entry in flight that has not started, and does nothing else;
      of any other entry it changes nothing. */
  lemma CancelDoes(limit: nat, es: seq<Event>, id: Id)
    requires Legal(es)
    ensures var s := Run(Fresh(limit), es);
            var t := Step(s, DoCancel(id));
            if id in s.queues.waiting then
              && CutFrom(s.queues.waiting, id, t.queues.waiting) && id !in t.queues.Listed()
              && t.queues.settlement == s.queues.settlement && t.queues.lifecycle == s.queues.lifecycle
              && t.log == Log(s.log.succeeded, s.log.canceled + [id], s.log.failed)
              && t.InFlight() == s.InFlight() && t.written == s.written && t.accepting == s.accepting
            else if id in s.InFlight() && id !in s.started then
              id in t.canceled && t == s.(canceled := t.canceled) && s.canceled <= t.canceled <= s.canceled + {id}
            else t == s
  {
    FreshInv(limit);
    RunInv(Fresh(limit), es);
    CancelOf(Run(Fresh(limit), es), id);
  }

  lemma CancelOf(s: State, id: Id)
    requires Located(s)
    ensures var t := CancelEntry(s, id);
            if id in s.queues.waiting then
              && CutFrom(s.queues.waiting, id, t.queues.waiting) && id !in t.queues.Listed()
              && t.queues.settlement == s.queues.settlement && t.queues.lifecycle == s.queues.lifecycle
              && t.log == Log(s.log.succeeded, s.log.canceled + [id], s.log.failed)
              && t.InFlight() == s.InFlight() && t.written == s.written && t.accepting == s.accepting
            else if id in s.InFlight() && id !in s.started then
              id in t.canceled && t == s.(canceled := t.canceled) && s.canceled <= t.canceled <= s.canceled + {id}
            else t == s
  {
    if id in s.queues.waiting {
      var i := WithoutCuts(s.queues.waiting, id);
      OnceQueued(s, id);
    }
  }

  /** A waiting entry waits in one place. */
  lemma OnceQueued(s: State, id: Id)
    requires Located(s) && id in s.queues.waiting
    ensures id !in CancelEntry(s, id).queues.Listed()
  {
    assert Places(s, id) <= 1;
    CountMember(s.queues.waiting, id);
    CountMember(s.queues.settlement, id);
    CountMember(s.queues.lifecycle, id);
    WithoutEffect(s.queues.waiting, id, id);
    CountMember(Without(s.queues.waiting, id), id);
  }

  /** What a cancel reached in time is not written in any continuation. */
  lemma CanceledNeverWritten(limit: nat, es: seq<Event>, id: Id, more: seq<Event>)
    requires Legal(es) && Legal(more)
    requires var s := Run(Fresh(limit), es); id in s.queues.waiting || (id in s.InFlight() && id !in s.started)
    ensures id !in Run(Step(Run(Fresh(limit), es), DoCancel(id)), more).written
  {
    FreshInv(limit);
    RunInv(Fresh(limit), es);
    var s := Run(Fresh(limit), es);
    StepInv(s, DoCancel(id));
    var t := Step(s, DoCancel(id));
    if id in s.queues.waiting {
      Untouched(s, id);
      CompletedNeverWritten(t, more, id);
    } else {
      DoomedNeverWritten(t, more, id);
    }
  }

  // ----- Submit -----

  /** An entry that is not answered on the spot goes to the serial queue of an idle writer, or behind
      those of its class; a lifecycle entry takes the one place there is, and whoever had it
      completes as successful. */
  lemma SubmitDoes(limit: nat, es: seq<Event>, f: Frame)
    requires Legal(es)
    ensures var s := Run(Fresh(limit), es);
            var id, t := |s.frames|, Step(s, DoSubmit(f, false));
            s.accepting ==>
              if s.InFlight() == [] then t.InFlight() == [id] && t.log == s.log
              else match f.priority
                case Lifecycle =>
                  && t.queues.lifecycle == [id] && t.queues.waiting == s.queues.waiting
                  && t.queues.settlement == s.queues.settlement && t.InFlight() == s.InFlight()
                  && t.log == Log(s.log.succeeded + s.queues.lifecycle, s.log.canceled, s.log.failed)
                case Settlement =>
                  |s.queues.settlement| < limit ==>
                    && t.queues.settlement == s.queues.settlement + [id] && t.queues.waiting == s.queues.waiting
                    && t.queues.lifecycle == s.queues.lifecycle && t.log == s.log && t.InFlight() == s.InFlight()
                case _ =>
                  |s.queues.waiting| < limit ==>
                    && t.queues.waiting == s.queues.waiting + [id] && t.queues.settlement == s.queues.settlement
                    && t.queues.lifecycle == s.queues.lifecycle && t.log == s.log && t.InFlight() == s.InFlight()
  {
    FreshInv(limit);
    RunInv(Fresh(limit), es);
    RunLimit(Fresh(limit), es);
    var s := Run(Fresh(limit), es);
    if s.accepting { SubmitPlaced(s, f); }
  }

  lemma SubmitPlaced(s: State, f: Frame)
    requires Shape(s) && s.accepting
    ensures var id, t := |s.frames|, Submit(s, f, false);
            if s.InFlight() == [] then t.InFlight() == [id] && t.log == s.log
            else match f.priority
              case Lifecycle =>
                && t.queues.lifecycle == [id] && t.queues.waiting == s.queues.waiting
                && t.queues.settlement == s.queues.settlement && t.InFlight() == s.InFlight()
                && t.log == Log(s.log.succeeded + s.queues.lifecycle, s.log.canceled, s.log.failed)
              case Settlement =>
                |s.queues.settlement| < s.limit ==>
                  && t.queues.settlement == s.queues.settlement + [id] && t.queues.waiting == s.queues.waiting
                  && t.queues.lifecycle == s.queues.lifecycle && t.log == s.log && t.InFlight() == s.InFlight()
              case _ =>
                |s.queues.waiting| < s.limit ==>
                  && t.queues.waiting == s.queues.waiting + [id] && t.queues.settlement == s.queues.settlement
                  && t.queues.lifecycle == s.queues.lifecycle && t.log == s.log && t.InFlight() == s.InFlight()
  {
    var q := s.queues.lifecycle;
    assert q != [] ==> q == [q[0]];
    assert s.log.succeeded + [] == s.log.succeeded;
  }

  /** No other submission outdates anything. */
  lemma SubmitOutdatesNothing(s: State, f: Frame, c: bool)
    requires !f.priority.Lifecycle?
    ensures Step(s, DoSubmit(f, c)).superseded == s.superseded && Step(s, DoSubmit(f, c)).canceled == s.canceled
  {
  }

  /** A lifecycle submission behind a busy writer outdates every lifecycle frame ahead of it that has
      not started, queued or in flight: none of them is written in any continuation. */
  lemma OutdatedNeverWritten(limit: nat, es: seq<Event>, f: Frame, x: Id, more: seq<Event>)
    requires Legal(es) && Legal(more) && f.priority.Lifecycle?
    requires var s := Run(Fresh(limit), es);
             && s.accepting && s.InFlight() != []
             && (x in s.queues.lifecycle || (x in s.InFlight() && x < |s.frames| && s.frames[x].lifecycle && x !in s.started))
    ensures x !in Run(Step(Run(Fresh(limit), es), DoSubmit(f, false)), more).written
  {
    FreshInv(limit);
    RunInv(Fresh(limit), es);
    var s := Run(Fresh(limit), es);
    var e := DoSubmit(f, false);
    assert Legal([e]);
    StepInv(s, e);
    SubmitPlaced(s, f);
    if x in s.queues.lifecycle {
      Untouched(s, x);
      assert Step(s, e).written == s.written;
      CompletedNeverWritten(Step(s, e), more, x);
    } else {
      assert x in Supersedable(s.(frames := s.frames + [f]));
      DoomedNeverWritten(Step(s, e), more, x);
    }
  }

  // ----- Close and abort -----

  /** An abort refuses everything from then on, fails exactly what was queued and leaves what is in
      flight; a close of an accepting writer does the same and puts its frame behind that. */
  lemma StopDoes(limit: nat, es: seq<Event>)
    ensures var s := Run(Fresh(limit), es);
            var a, c := Step(s, DoAbort), Step(s, DoClose);
            && !a.accepting && a.queues.IsEmpty() && a.InFlight() == s.InFlight()
            && a.log == Log(s.log.succeeded, s.log.canceled, s.log.failed + s.queues.Listed())
            && !c.accepting
            && (s.accepting ==>
                  && c.queues.IsEmpty() && c.InFlight() == s.InFlight() + [|s.frames|]
                  && c.log == Log(s.log.succeeded, s.log.canceled, s.log.failed + s.queues.Listed()))
            && (!s.accepting ==> c.log == Log(s.log.succeeded, s.log.canceled, s.log.failed + [|s.frames|]))
  {
  }

  // ----- The serial queue -----

  /** A writer has a terminal error exactly when a write failed. */
  lemma {:induction false} TerminalIsBroken(s: State, es: seq<Event>)
    requires (s.terminal <==> s.broken) && (s.block.Running? && s.block.verdict.Refuse? ==> s.terminal)
    ensures var t := Run(s, es);
            (t.terminal <==> t.broken) && (t.block.Running? && t.block.verdict.Refuse? ==> t.terminal)
    decreases |es|
  {
    if es != [] {
      StepTerminal(s, es[0]);
      TerminalIsBroken(Step(s, es[0]), es[1..]);
    }
  }

  lemma StepTerminal(s: State, e: Event)
    requires (s.terminal <==> s.broken) && (s.block.Running? && s.block.verdict.Refuse? ==> s.terminal)
    ensures var t := Step(s, e);
            (t.terminal <==> t.broken) && (t.block.Running? && t.block.verdict.Refuse? ==> t.terminal)
  {
    match e
    case DoSubmit(f, c) =>
      var t := Submit(s, f, c);
      assert t.terminal == s.terminal && t.broken == s.broken && t.block == s.block;
    case DoFinish(w) => FinishTerminal(s, w);
    case _ =>
  }

  lemma FinishTerminal(s: State, w: bool)
    requires (s.terminal <==> s.broken) && (s.block.Running? && s.block.verdict.Refuse? ==> s.terminal)
    ensures var t := Finish(s, w);
            (t.terminal <==> t.broken) && (t.block.Running? && t.block.verdict.Refuse? ==> t.terminal)
  {
  }

  /** What becomes of the entry at the head of the serial queue when its turn comes: a superseded one
      completes as successful and a canceled one as canceled, unwritten; after a failed write
      it fails unwritten; any other is written, and its completion says how that went. */
  lemma TurnDoes(limit: nat, es: seq<Event>, w: bool)
    requires var s := Run(Fresh(limit), es); s.block.Idle? && s.dispatch != []
    ensures var s := Run(Fresh(limit), es);
            var id, u := s.dispatch[0], Step(Step(s, DoPreflight), DoFinish(w));
            if id in s.superseded then
              id in u.log.succeeded && u.written == s.written
            else if id in s.canceled then
              id in u.log.canceled && u.written == s.written
            else if s.broken then
              id in u.log.failed && u.written == s.written
            else
              && u.written == s.written + [id] && (if w then id in u.log.succeeded else id in u.log.failed)
              && u.broken == !w && (!w ==> !u.accepting && u.queues.IsEmpty())
  {
    var s := Run(Fresh(limit), es);
    TerminalIsBroken(Fresh(limit), es);
    var t := Preflight(s);
    FinishLog(t, w);
    FinishFrame(t, w);
  }

  /** Who is chosen next after an entry that did not fail: a waiting lifecycle entry before all
      others, otherwise the head of a queue that has one; nobody only if nobody waits. */
  lemma NextDoes(limit: nat, es: seq<Event>, w: bool)
    requires Legal(es)
    requires var s := Run(Fresh(limit), es); s.accepting && s.block.Running? && !Result(s.block.verdict, w).Failed?
    ensures var s := Run(Fresh(limit), es);
            var t := Step(s, DoFinish(w));
            if s.queues.lifecycle != [] then t.block == Selected(s.queues.lifecycle[0])
            else if s.queues.settlement == [] && s.queues.waiting == [] then t.block == Idle
            else
              && t.block.Selected?
              && (|| (s.queues.settlement != [] && t.block.next == s.queues.settlement[0])
                  || (s.queues.waiting != [] && t.block.next == s.queues.waiting[0]))
  {
  }
}
