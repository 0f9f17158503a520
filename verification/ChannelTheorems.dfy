/** What the bounded channel keeps over every run. */
module ChannelTheorems {
  import opened Options
  import opened Counts
  import opened Channel

  // ----- Sequences -----

  lemma IdsAppend<T>(a: seq<Item<T>>, b: seq<Item<T>>)
    ensures Ids(a + b) == Ids(a) + Ids(b)
    ensures Values(a + b) == Values(a) + Values(b)
  {
  }

  lemma CountCut(a: seq<nat>, k: nat, id: nat)
    requires k < |a|
    ensures Count(a, id) == Count(a[..k] + a[k + 1..], id) + Count([a[k]], id)
  {
    CountSplit(a[..k], a[k + 1..], id);
    CountSplit([a[k]], a[k + 1..], id);
    CountSplit(a[..k], [a[k]] + a[k + 1..], id);
    assert a == a[..k] + ([a[k]] + a[k + 1..]);
  }

  lemma {:induction false} ResumeAllIs<T>(l: Log<T>, ids: seq<nat>, r: Reply<T>)
    ensures ResumeAll(l, ids, r).resumed == l.resumed + ids
    ensures ResumeAll(l, ids, r).replies.Keys == l.replies.Keys + set id | id in ids
    ensures forall id :: id in ResumeAll(l, ids, r).replies ==>
              ResumeAll(l, ids, r).replies[id] == if id in ids then r else l.replies[id]
    ensures ResumeAll(l, ids, r) == l.(resumed := ResumeAll(l, ids, r).resumed, replies := ResumeAll(l, ids, r).replies)
    decreases |ids|
  {
    if ids != [] {
      ResumeAllIs(l, ids[..|ids| - 1], r);
      assert ids == ids[..|ids| - 1] + [ids[|ids| - 1]];
    }
  }

  // ----- One step -----

  lemma StepBounded<T>(v: View<T>, e: Event<T>)
    requires Bounded(v.s)
    ensures Bounded(Step(v, e).s)
  {
  }

  lemma StepConserved<T>(v: View<T>, e: Event<T>)
    requires Bounded(v.s) && Conserved(v)
    ensures Conserved(Step(v, e))
  {
    match e
    case Send(x, _) => BringConserved(v, x, e.canceled || v.s.terminal.Some?, true);
    case Offer(x) => BringConserved(v, x, v.s.terminal.Some?, false);
    case Next(canceled) => TakeConserved(v, canceled);
    case CancelSender(_) =>
    case CancelReceiver(_) =>
    case Finish(end, discarding) => FinishConserved(v, end, discarding);
  }

  lemma BringConserved<T>(v: View<T>, x: T, refused: bool, waits: bool)
    requires Bounded(v.s) && Conserved(v) && (v.s.terminal.Some? ==> refused)
    ensures Conserved(Bring(v, x, refused, waits))
  {
    var item := Item(v.l.issued, x);
    IdsAppend(v.l.accepted, [item]);
    if v.s.receivers != [] { IdsAppend(v.l.delivered, [Item(v.s.receivers[0], x)]); }
  }

  lemma TakeConserved<T>(v: View<T>, canceled: bool)
    requires Bounded(v.s) && Conserved(v)
    ensures Conserved(Take(v, canceled))
  {
    if !canceled && v.s.buffer != [] {
      IdsAppend(v.l.delivered, [Item(v.l.issued, v.s.buffer[0])]);
      assert v.s.buffer == [v.s.buffer[0]] + v.s.buffer[1..];
      if v.s.senders != [] {
        var first := v.s.senders[0];
        IdsAppend(v.l.accepted, [first]);
        assert v.l.lost == [];
        assert Values([first]) == [first.value];
      }
    }
  }

  lemma FinishConserved<T>(v: View<T>, end: End, discarding: bool)
    requires Bounded(v.s) && Conserved(v)
    ensures Conserved(FinishWith(v, end, discarding))
  {
    if v.s.terminal.None? {
      var lost := if discarding then v.s.buffer else [];
      var l0 := v.l.(lost := v.l.lost + lost);
      var l := ResumeAll(l0, Ids(v.s.senders), Sent(false));
      ResumeAllIs(l0, Ids(v.s.senders), Sent(false));
      var w := FinishWith(v, end, discarding);
      ResumeAllIs(l, if w.s.buffer == [] then v.s.receivers else [], Ended(end));
    }
  }

  lemma IncreasingCut(a: seq<nat>, b: seq<nat>, k: nat, below: nat)
    requires Increasing(a + b, below) && k < |b|
    ensures Increasing(a + (b[..k] + b[k + 1..]), below)
  {
    var c, d := a + b, a + (b[..k] + b[k + 1..]);
    forall i, j | 0 <= i < j < |d| ensures d[i] < d[j] && d[j] < below {
      var n := |a| + k;
      assert d[i] == c[if i < n then i else i + 1] && d[j] == c[if j < n then j else j + 1];
    }
    forall i | 0 <= i < |d| ensures d[i] < below {
      assert d[i] == c[if i < |a| + k then i else i + 1];
    }
  }

  lemma StepOrdered<T>(v: View<T>, e: Event<T>)
    requires Bounded(v.s) && Ordered(v)
    ensures Ordered(Step(v, e))
  {
    match e
    case Send(x, _) => BringOrdered(v, x, e.canceled || v.s.terminal.Some?, true);
    case Offer(x) => BringOrdered(v, x, v.s.terminal.Some?, false);
    case Next(canceled) => TakeOrdered(v, canceled);
    case CancelSender(id) =>
      var ids := Ids(v.s.senders);
      var k := Index(ids, id);
      if k < |ids| {
        IncreasingCut(Ids(v.l.accepted), ids, k, v.l.issued);
        assert Ids(Step(v, e).s.senders) == ids[..k] + ids[k + 1..];
      }
    case CancelReceiver(id) =>
      var k := Index(v.s.receivers, id);
      if k < |v.s.receivers| { IncreasingCut(Ids(v.l.delivered), v.s.receivers, k, v.l.issued); }
    case Finish(end, discarding) => FinishOrdered(v, end, discarding);
  }

  lemma IncreasingMore(a: seq<nat>, below: nat)
    requires Increasing(a, below)
    ensures Increasing(a, below + 1) && Increasing(a + [below], below + 1)
  {
  }

  lemma IncreasingPrefix(a: seq<nat>, b: seq<nat>, below: nat)
    requires Increasing(a + b, below)
    ensures Increasing(a + [], below)
  {
    assert forall i :: 0 <= i < |a| ==> (a + b)[i] == (a + [])[i];
  }

  ghost function Writers<T>(v: View<T>): seq<nat> { Ids(v.l.accepted) + Ids(v.s.senders) }

  ghost function Readers<T>(v: View<T>): seq<nat> { Ids(v.l.delivered) + v.s.receivers }

  lemma BringOrdered<T>(v: View<T>, x: T, refused: bool, waits: bool)
    requires Bounded(v.s) && Ordered(v)
    ensures Ordered(Bring(v, x, refused, waits))
  {
    var item := Item(v.l.issued, x);
    var w := Bring(v, x, refused, waits);
    IdsAppend(v.l.accepted, [item]);
    IdsAppend(v.s.senders, [item]);
    assert Ids([item]) == [item.id];
    IncreasingMore(Writers(v), v.l.issued);
    IncreasingMore(Readers(v), v.l.issued);
    assert Writers(w) == Writers(v) || Writers(w) == Writers(v) + [item.id];
    if !refused && v.s.receivers != [] {
      var r := v.s.receivers[0];
      IdsAppend(v.l.delivered, [Item(r, x)]);
      assert Readers(w) == Readers(v);
    }
  }

  lemma TakeOrdered<T>(v: View<T>, canceled: bool)
    requires Bounded(v.s) && Ordered(v)
    ensures Ordered(Take(v, canceled))
  {
    var w := Take(v, canceled);
    IncreasingMore(Writers(v), v.l.issued);
    IncreasingMore(Readers(v), v.l.issued);
    if !canceled && v.s.buffer != [] {
      var got := Item(v.l.issued, v.s.buffer[0]);
      IdsAppend(v.l.delivered, [got]);
      assert Ids([got]) == [got.id];
      assert Readers(w) == Readers(v) + [got.id];
      if v.s.senders != [] {
        IdsAppend(v.l.accepted, [v.s.senders[0]]);
        assert Writers(w) == Writers(v);
      }
    } else {
      assert Readers(w) == Readers(v) || Readers(w) == Readers(v) + [v.l.issued];
    }
  }

  lemma FinishOrdered<T>(v: View<T>, end: End, discarding: bool)
    requires Bounded(v.s) && Ordered(v)
    ensures Ordered(FinishWith(v, end, discarding))
  {
    if v.s.terminal.None? {
      var lost := if discarding then v.s.buffer else [];
      var l0 := v.l.(lost := v.l.lost + lost);
      var l := ResumeAll(l0, Ids(v.s.senders), Sent(false));
      ResumeAllIs(l0, Ids(v.s.senders), Sent(false));
      var w := FinishWith(v, end, discarding);
      ResumeAllIs(l, if w.s.buffer == [] then v.s.receivers else [], Ended(end));
      IncreasingPrefix(Ids(v.l.accepted), Ids(v.s.senders), v.l.issued);
      IncreasingPrefix(Ids(v.l.delivered), v.s.receivers, v.l.issued);
      assert Ids(w.s.senders) == [];
    }
  }

  /** A step accounts for the call that arrives with it, if one does, and for every other call
      as often as before. */
  lemma StepPlaces<T>(v: View<T>, e: Event<T>, id: nat)
    ensures v.l.issued <= Step(v, e).l.issued <= v.l.issued + 1
    ensures Places(Step(v, e), id) ==
            Places(v, id) + if id == v.l.issued && Step(v, e).l.issued > v.l.issued then 1 else 0
  {
    match e
    case Send(x, _) => BringPlaces(v, x, e.canceled || v.s.terminal.Some?, true, id);
    case Offer(x) => BringPlaces(v, x, v.s.terminal.Some?, false, id);
    case Next(canceled) => TakePlaces(v, canceled, id);
    case CancelSender(c) => DropSenderPlaces(v, c, id);
    case CancelReceiver(c) =>
      var k := Index(v.s.receivers, c);
      if k < |v.s.receivers| {
        CountCut(v.s.receivers, k, id);
        CountSplit(v.l.resumed, [c], id);
      }
    case Finish(end, discarding) => FinishPlaces(v, end, discarding, id);
  }

  lemma StepSettled<T>(v: View<T>, e: Event<T>)
    requires Settled(v)
    ensures Settled(Step(v, e))
  {
    var w := Step(v, e);
    forall id: nat ensures Places(w, id) == if id < w.l.issued then 1 else 0 {
      assert Places(v, id) == if id < v.l.issued then 1 else 0;
      StepPlaces(v, e, id);
    }
  }

  lemma DropSenderPlaces<T>(v: View<T>, c: nat, id: nat)
    ensures Places(DropSender(v, c), id) == Places(v, id)
  {
    var ids := Ids(v.s.senders);
    var k := Index(ids, c);
    if k < |ids| {
      CountCut(ids, k, id);
      CountSplit(v.l.resumed, [c], id);
      assert Ids(DropSender(v, c).s.senders) == ids[..k] + ids[k + 1..];
    }
  }

  lemma BringPlaces<T>(v: View<T>, x: T, refused: bool, waits: bool, id: nat)
    ensures Bring(v, x, refused, waits).l.issued == v.l.issued + 1
    ensures Places(Bring(v, x, refused, waits), id) == Places(v, id) + if id == v.l.issued then 1 else 0
  {
    var c := v.l.issued;
    CountSplit(v.l.resumed, [c], id);
    CountSplit(Ids(v.s.senders), [c], id);
    IdsAppend(v.s.senders, [Item(c, x)]);
    if v.s.receivers != [] {
      var r := v.s.receivers[0];
      CountSplit(v.l.resumed, [r], id);
      CountSplit(v.l.resumed + [r], [c], id);
      assert Ids([Item(c, x)]) == [c];
    } else {
      assert Ids([Item(c, x)]) == [c];
    }
  }

  lemma TakePlaces<T>(v: View<T>, canceled: bool, id: nat)
    ensures Take(v, canceled).l.issued == v.l.issued + 1
    ensures Places(Take(v, canceled), id) == Places(v, id) + if id == v.l.issued then 1 else 0
  {
    var c := v.l.issued;
    if canceled || v.s.buffer == [] {
      CountSplit(v.l.resumed, [c], id);
      CountSplit(v.s.receivers, [c], id);
    } else {
      var w := View(v.s.(buffer := v.s.buffer[1..]), Issue(v.l).(delivered := v.l.delivered + [Item(c, v.s.buffer[0])]));
      AdmitPlaces(w, id);
      CountSplit(Admit(w).l.resumed, [c], id);
    }
  }

  lemma AdmitPlaces<T>(v: View<T>, id: nat)
    ensures Admit(v).l.issued == v.l.issued && Places(Admit(v), id) == Places(v, id)
  {
    if v.s.senders != [] {
      CountSplit(v.l.resumed, [v.s.senders[0].id], id);
      assert Ids(v.s.senders)[1..] == Ids(v.s.senders[1..]);
    }
  }

  lemma FinishPlaces<T>(v: View<T>, end: End, discarding: bool, id: nat)
    ensures FinishWith(v, end, discarding).l.issued == v.l.issued
    ensures Places(FinishWith(v, end, discarding), id) == Places(v, id)
  {
    if v.s.terminal.None? {
      var lost := if discarding then v.s.buffer else [];
      var l0 := v.l.(lost := v.l.lost + lost);
      var l := ResumeAll(l0, Ids(v.s.senders), Sent(false));
      ResumeAllIs(l0, Ids(v.s.senders), Sent(false));
      var w := FinishWith(v, end, discarding);
      var ending := if w.s.buffer == [] then v.s.receivers else [];
      ResumeAllIs(l, ending, Ended(end));
      CountSplit(v.l.resumed, Ids(v.s.senders), id);
      CountSplit(v.l.resumed + Ids(v.s.senders), ending, id);
    }
  }

  /** A call that waits, or has not come yet, was not answered. */
  lemma Unanswered<T>(v: View<T>, id: nat)
    requires Settled(v) && Answered(v.l)
    requires id >= v.l.issued || id in v.s.receivers || id in Ids(v.s.senders)
    ensures id !in v.l.replies
  {
    assert Places(v, id) == if id < v.l.issued then 1 else 0;
    CountMember(v.l.resumed, id);
    CountMember(v.s.receivers, id);
    CountMember(Ids(v.s.senders), id);
  }

  lemma StepAnswered<T>(v: View<T>, e: Event<T>)
    requires Bounded(v.s) && Ordered(v) && Settled(v) && Answered(v.l)
    ensures Answered(Step(v, e).l)
  {
    match e
    case Send(x, _) => BringAnswered(v, x, e.canceled || v.s.terminal.Some?, true);
    case Offer(x) => BringAnswered(v, x, v.s.terminal.Some?, false);
    case Next(canceled) => TakeAnswered(v, canceled);
    case CancelSender(c) =>
      var k := Index(Ids(v.s.senders), c);
      if k < |v.s.senders| {
        Unanswered(v, c);
        OtherReply(v.l, c, Sent(false));
      }
    case CancelReceiver(c) =>
      if Index(v.s.receivers, c) < |v.s.receivers| {
        Unanswered(v, c);
        OtherReply(v.l, c, Canceled);
      }
    case Finish(end, discarding) => FinishAnswered(v, end, discarding);
  }

  lemma OtherReply<T>(l: Log<T>, id: nat, r: Reply<T>)
    requires Answered(l) && id !in l.replies && r != Sent(true) && !r.Got?
    ensures Answered(Resume(l, id, r))
  {
  }

  lemma AcceptedReply<T>(l: Log<T>, item: Item<T>)
    requires Answered(l) && item.id !in l.replies
    ensures Answered(Resume(l.(accepted := l.accepted + [item]), item.id, Sent(true)))
  {
    IdsAppend(l.accepted, [item]);
    assert Ids([item]) == [item.id];
  }

  lemma DeliveredReply<T>(l: Log<T>, item: Item<T>)
    requires Answered(l) && item.id !in l.replies
    ensures Answered(Resume(l.(delivered := l.delivered + [item]), item.id, Got(item.value)))
  {
    IdsAppend(l.delivered, [item]);
    assert Ids([item]) == [item.id];
  }

  /** Only what was said and moved matters, not in which order the record was written. */
  lemma SameAnswers<T>(l: Log<T>, m: Log<T>)
    requires Answered(l) && l.accepted == m.accepted && l.delivered == m.delivered && l.replies == m.replies
    requires forall id :: id in l.resumed <==> id in m.resumed
    ensures Answered(m)
  {
  }

  /** An element that came with call `c` and went with call `r`, both unanswered till now. */
  lemma BothReplies<T>(l: Log<T>, taken: Item<T>, given: Item<T>, m: Log<T>)
    requires Answered(l) && taken.id !in l.replies && given.id !in l.replies && taken.id != given.id
    requires m.accepted == l.accepted + [taken] && m.delivered == l.delivered + [given]
    requires m.replies == l.replies[taken.id := Sent(true)][given.id := Got(given.value)]
    requires m.resumed == l.resumed + [taken.id] + [given.id] || m.resumed == l.resumed + [given.id] + [taken.id]
    ensures Answered(m)
  {
    AcceptedReply(l, taken);
    var a := Resume(l.(accepted := l.accepted + [taken]), taken.id, Sent(true));
    DeliveredReply(a, given);
    SameAnswers(Resume(a.(delivered := a.delivered + [given]), given.id, Got(given.value)), m);
  }

  lemma BringAnswered<T>(v: View<T>, x: T, refused: bool, waits: bool)
    requires Bounded(v.s) && Settled(v) && Answered(v.l)
    ensures Answered(Bring(v, x, refused, waits).l)
  {
    var c := v.l.issued;
    var l := Issue(v.l);
    Unanswered(v, c);
    if refused || !Room(v.s) {
      OtherReply(l, c, Sent(false));
    } else if v.s.receivers == [] {
      AcceptedReply(l, Item(c, x));
    } else {
      var r := v.s.receivers[0];
      Unanswered(v, r);
      assert Places(v, c) == 0;
      CountMember(v.s.receivers, c);
      BothReplies(l, Item(c, x), Item(r, x), Bring(v, x, refused, waits).l);
    }
  }

  lemma TakeAnswered<T>(v: View<T>, canceled: bool)
    requires Bounded(v.s) && Settled(v) && Answered(v.l)
    ensures Answered(Take(v, canceled).l)
  {
    var c := v.l.issued;
    var l := Issue(v.l);
    Unanswered(v, c);
    if canceled {
      OtherReply(l, c, Canceled);
    } else if v.s.buffer == [] {
      if v.s.terminal.Some? { OtherReply(l, c, Ended(v.s.terminal.value)); }
    } else if v.s.senders == [] {
      DeliveredReply(l, Item(c, v.s.buffer[0]));
    } else {
      var first := v.s.senders[0];
      assert Ids(v.s.senders)[0] == first.id;
      Unanswered(v, first.id);
      assert Places(v, c) == 0;
      CountMember(Ids(v.s.senders), c);
      BothReplies(l, first, Item(c, v.s.buffer[0]), Take(v, canceled).l);
    }
  }

  lemma {:induction false} OtherReplies<T>(l: Log<T>, ids: seq<nat>, r: Reply<T>)
    requires Answered(l) && r != Sent(true) && !r.Got?
    requires forall id :: id in ids ==> id !in l.replies
    requires forall id :: Count(ids, id) <= 1
    ensures Answered(ResumeAll(l, ids, r))
    decreases |ids|
  {
    if ids != [] {
      var init, last := ids[..|ids| - 1], ids[|ids| - 1];
      assert ids == init + [last];
      forall id ensures Count(init, id) <= 1 { assert Count(ids, id) <= 1; CountSplit(init, [last], id); }
      OtherReplies(l, init, r);
      ResumeAllIs(l, init, r);
      assert Count(ids, last) <= 1;
      CountSplit(init, [last], last);
      CountMember(init, last);
      OtherReply(ResumeAll(l, init, r), last, r);
    }
  }

  lemma FinishAnswered<T>(v: View<T>, end: End, discarding: bool)
    requires Bounded(v.s) && Settled(v) && Answered(v.l)
    ensures Answered(FinishWith(v, end, discarding).l)
  {
    if v.s.terminal.None? {
      var lost := if discarding then v.s.buffer else [];
      var l0 := v.l.(lost := v.l.lost + lost);
      var ids := Ids(v.s.senders);
      var l := ResumeAll(l0, ids, Sent(false));
      var ending := if FinishWith(v, end, discarding).s.buffer == [] then v.s.receivers else [];
      forall id: nat ensures Count(ids, id) + Count(ending, id) <= 1 {
        assert Places(v, id) == if id < v.l.issued then 1 else 0;
      }
      forall id | id in ids ensures id !in l0.replies { Unanswered(v, id); }
      forall id | id in ending ensures id !in l0.replies { Unanswered(v, id); }
      OtherReplies(l0, ids, Sent(false));
      ResumeAllIs(l0, ids, Sent(false));
      forall id | id in ending ensures id !in l.replies {
        CountMember(ids, id);
        CountMember(ending, id);
        assert Count(ids, id) + Count(ending, id) <= 1;
      }
      OtherReplies(l, ending, Ended(end));
    }
  }

  // ----- Every run -----

  lemma StepInv<T>(v: View<T>, e: Event<T>)
    requires Inv(v)
    ensures Inv(Step(v, e))
  {
    StepBounded(v, e);
    StepConserved(v, e);
    StepOrdered(v, e);
    StepSettled(v, e);
    StepAnswered(v, e);
  }

  /** Over every run: what was accepted is what was delivered, then what is buffered, then what a
      discarding finish lost; the buffer keeps its bound; no waiting sender is overtaken and
      readers are served in turn; every call is resumed exactly once or still waits; a sender is
      told true exactly when its element was accepted, and a reader gets what was delivered. */
  lemma {:induction false} ChannelRun<T>(capacity: int, es: seq<Event<T>>)
    ensures Inv(Run(Fresh(capacity), es))
    decreases |es|
  {
    if es == [] {
      assert Values(Fresh<T>(capacity).l.accepted) == [];
    } else {
      ChannelRun(capacity, es[..|es| - 1]);
      StepInv(Run(Fresh(capacity), es[..|es| - 1]), es[|es| - 1]);
    }
  }

  /** Once a run finished the channel, every call there ever was has been resumed, exactly once. */
  lemma NobodyWaitsAfterFinish<T>(capacity: int, es: seq<Event<T>>, id: nat)
    requires Run(Fresh(capacity), es).s.terminal.Some? && id < Run(Fresh(capacity), es).l.issued
    ensures Count(Run(Fresh(capacity), es).l.resumed, id) == 1
  {
    ChannelRun(capacity, es);
    var v := Run(Fresh(capacity), es);
    assert Places(v, id) == 1;
    assert v.s.receivers == [] && Ids(v.s.senders) == [];
  }

  /** An offer is accepted exactly when the channel is open and a reader waits or fewer than
      `capacity` accepted elements are still to be delivered. */
  lemma OfferAccepted<T>(capacity: int, es: seq<Event<T>>, x: T)
    ensures var v := Run(Fresh(capacity), es);
            var w := Step(v, Offer(x));
            && v.l.issued in w.l.replies
            && (w.l.replies[v.l.issued] == Sent(true)
                <==> v.s.terminal.None? && (v.s.receivers != [] || |v.l.accepted| - |v.l.delivered| < v.s.capacity))
  {
    ChannelRun(capacity, es);
    var v := Run(Fresh(capacity), es);
    Unanswered(v, v.l.issued);
    assert |Values(v.l.accepted)| == |v.l.accepted| && |Values(v.l.delivered)| == |v.l.delivered|;
    OfferReply(v, x);
  }

  lemma OfferReply<T>(v: View<T>, x: T)
    ensures var w := Step(v, Offer(x));
            && v.l.issued in w.l.replies
            && (w.l.replies[v.l.issued] == Sent(true) <==> v.s.terminal.None? && Room(v.s))
  {
  }

  /** A reader gets the oldest accepted element that was not delivered or lost, waits only when there
      is none, and is told the end only after everything kept was delivered. */
  lemma NextGetsOldest<T>(capacity: int, es: seq<Event<T>>)
    ensures var v := Run(Fresh(capacity), es);
            var w := Step(v, Next(false));
            if |v.l.delivered| + |v.l.lost| < |v.l.accepted| then
              v.l.issued in w.l.replies && w.l.replies[v.l.issued] == Got(v.l.accepted[|v.l.delivered|].value)
            else if v.s.terminal.Some? then
              v.l.issued in w.l.replies && w.l.replies[v.l.issued] == Ended(v.s.terminal.value)
            else
              v.l.issued !in w.l.replies && v.l.issued in w.s.receivers
  {
    ChannelRun(capacity, es);
    var v := Run(Fresh(capacity), es);
    Unanswered(v, v.l.issued);
    assert |Values(v.l.accepted)| == |v.l.accepted| && |Values(v.l.delivered)| == |v.l.delivered|;
    if v.s.buffer != [] {
      assert Values(v.l.accepted)[|v.l.delivered|] == v.s.buffer[0];
    }
  }

  /** A send is answered at once when it was canceled beforehand or the channel has ended, and then with
      false, or when there is a reader or a place for its element; otherwise it waits behind all others. */
  lemma SendDoes<T>(capacity: int, es: seq<Event<T>>, x: T, canceled: bool)
    ensures var v := Run(Fresh(capacity), es);
            var id, w := v.l.issued, Step(v, Send(x, canceled));
            if canceled || v.s.terminal.Some? then
              w.s == v.s && id in w.l.replies && w.l.replies[id] == Sent(false)
            else if v.s.receivers != [] || |v.s.buffer| < v.s.capacity then
              && id in w.l.replies && w.l.replies[id] == Sent(true) && w.s.senders == v.s.senders
              && w.l.accepted == v.l.accepted + [Item(id, x)]
            else
              id !in w.l.replies && w.s == v.s.(senders := v.s.senders + [Item(id, x)])
  {
    ChannelRun(capacity, es);
    var v := Run(Fresh(capacity), es);
    Unanswered(v, v.l.issued);
  }

  /** Canceling a waiting sender answers it with false and takes it, and nobody else, out of the line;
      canceling one that does not wait changes nothing. */
  lemma CancelSenderDoes<T>(capacity: int, es: seq<Event<T>>, id: nat)
    ensures var v := Run(Fresh(capacity), es);
            var w := Step(v, CancelSender(id));
            if id in Ids(v.s.senders) then
              && id in w.l.replies && w.l.replies[id] == Sent(false) && w.l.resumed == v.l.resumed + [id]
              && (exists k :: 0 <= k < |v.s.senders| && v.s.senders[k].id == id
                              && w.s == v.s.(senders := v.s.senders[..k] + v.s.senders[k + 1..]))
              && w.l.accepted == v.l.accepted && w.l.delivered == v.l.delivered
            else w == v
  {
    var v := Run(Fresh(capacity), es);
    IndexFound(Ids(v.s.senders), id);
  }

  lemma CancelReceiverDoes<T>(capacity: int, es: seq<Event<T>>, id: nat)
    ensures var v := Run(Fresh(capacity), es);
            var w := Step(v, CancelReceiver(id));
            if id in v.s.receivers then
              && id in w.l.replies && w.l.replies[id] == Canceled && w.l.resumed == v.l.resumed + [id]
              && (exists k :: 0 <= k < |v.s.receivers| && v.s.receivers[k] == id
                              && w.s == v.s.(receivers := v.s.receivers[..k] + v.s.receivers[k + 1..]))
              && w.l.accepted == v.l.accepted && w.l.delivered == v.l.delivered
            else w == v
  {
    var v := Run(Fresh(capacity), es);
    IndexFound(v.s.receivers, id);
  }

  lemma IndexFound(ids: seq<nat>, id: nat)
    ensures id in ids <==> Index(ids, id) < |ids|
  {
    var k := Index(ids, id);
    if k == |ids| { assert ids[..k] == ids; }
  }

  /** The first finish ends the channel: every waiting sender is answered with false and every waiting
      reader with the end, and what is buffered stays unless it is discarded; another changes nothing. */
  lemma FinishDoes<T>(capacity: int, es: seq<Event<T>>, end: End, discarding: bool)
    ensures var v := Run(Fresh(capacity), es);
            var w := Step(v, Finish(end, discarding));
            if v.s.terminal.Some? then w == v
            else
              && w.s.terminal == Some(end) && w.s.buffer == (if discarding then [] else v.s.buffer)
              && w.l.lost == v.l.lost + (if discarding then v.s.buffer else [])
              && (forall id :: id in Ids(v.s.senders) ==> id in w.l.replies && w.l.replies[id] == Sent(false))
              && (forall id :: id in v.s.receivers ==> id in w.l.replies && w.l.replies[id] == Ended(end))
  {
    ChannelRun(capacity, es);
    var v := Run(Fresh(capacity), es);
    if v.s.terminal.None? {
      var lost := if discarding then v.s.buffer else [];
      var l0 := v.l.(lost := v.l.lost + lost);
      var ids := Ids(v.s.senders);
      ResumeAllIs(l0, ids, Sent(false));
      var w := Step(v, Finish(end, discarding));
      var ending := if w.s.buffer == [] then v.s.receivers else [];
      ResumeAllIs(ResumeAll(l0, ids, Sent(false)), ending, Ended(end));
      forall id | id in ids ensures id !in v.s.receivers {
        assert Places(v, id) == if id < v.l.issued then 1 else 0;
        CountMember(ids, id);
        CountMember(v.s.receivers, id);
      }
    }
  }
}
