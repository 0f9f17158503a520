/** The bounded channel between a request's frames and its reader. */
module Channel {
  import opened Counts
  import opened Options

  datatype End = Finished | Failed(error: nat)

  /** An element together with the call that brought it, or that took it. */
  datatype Item<T> = Item(id: nat, value: T)

  datatype Reply<T> = Sent(accepted: bool) | Got(value: T) | Ended(end: End) | Canceled

  datatype State<T> = State(
    capacity: nat, buffer: seq<T>, high: nat, receivers: seq<nat>, senders: seq<Item<T>>, terminal: Option<End>)

  /** What has happened: calls are numbered as they arrive, `resumed` lists every resumption of a
      call's continuation, and `lost` is what a discarding finish dropped. */
  datatype Log<T> = Log(
    issued: nat, accepted: seq<Item<T>>, delivered: seq<Item<T>>, lost: seq<T>,
    resumed: seq<nat>, replies: map<nat, Reply<T>>)

  datatype View<T> = View(s: State<T>, l: Log<T>)

  datatype Event<T> =
    | Send(value: T, canceled: bool)
    | Offer(value: T)
    | Next(canceled: bool)
    | CancelSender(id: nat)
    | CancelReceiver(id: nat)
    | Finish(end: End, discarding: bool)

  function Ids<T>(s: seq<Item<T>>): seq<nat> {
    seq(|s|, i requires 0 <= i < |s| => s[i].id)
  }

  function Values<T>(s: seq<Item<T>>): seq<T> {
    seq(|s|, i requires 0 <= i < |s| => s[i].value)
  }

  /** The first position of `id`, or the length. */
  function Index(ids: seq<nat>, id: nat): (k: nat)
    ensures k <= |ids|
    ensures k < |ids| ==> ids[k] == id
    ensures id !in ids[..k]
  {
    if ids == [] || ids[0] == id then 0 else
      assert ids[..1 + Index(ids[1..], id)] == [ids[0]] + ids[1..][..Index(ids[1..], id)];
      1 + Index(ids[1..], id)
  }

  // ----- Steps -----

  function Fresh<T>(capacity: int): View<T> {
    View(State(if capacity < 1 then 1 else capacity, [], 0, [], [], None), Log(0, [], [], [], [], map[]))
  }

  function Issue<T>(l: Log<T>): Log<T> {
    l.(issued := l.issued + 1)
  }

  function Resume<T>(l: Log<T>, id: nat, r: Reply<T>): Log<T> {
    l.(resumed := l.resumed + [id], replies := l.replies[id := r])
  }

  function ResumeAll<T>(l: Log<T>, ids: seq<nat>, r: Reply<T>): Log<T>
    decreases |ids|
  {
    if ids == [] then l else Resume(ResumeAll(l, ids[..|ids| - 1], r), ids[|ids| - 1], r)
  }

  function Max(a: nat, b: nat): nat { if a < b then b else a }

  function Append<T>(s: State<T>, x: T): State<T> {
    s.(buffer := s.buffer + [x], high := Max(s.high, |s.buffer| + 1))
  }

  predicate Room<T>(s: State<T>) {
    s.receivers != [] || |s.buffer| < s.capacity
  }

  /** The element goes to the longest waiting receiver, or into the buffer. */
  function Accept<T>(v: View<T>, item: Item<T>): View<T> {
    var l := v.l.(accepted := v.l.accepted + [item]);
    if v.s.receivers != [] then
      var r := v.s.receivers[0];
      View(v.s.(receivers := v.s.receivers[1..]),
           Resume(l.(delivered := l.delivered + [Item(r, item.value)]), r, Got(item.value)))
    else
      View(Append(v.s, item.value), l)
  }

  /** The longest waiting sender's element takes the place that was freed. */
  function Admit<T>(v: View<T>): View<T> {
    if v.s.terminal.Some? || v.s.senders == [] then v else
      var first := v.s.senders[0];
      View(Append(v.s, first.value).(senders := v.s.senders[1..]),
           Resume(v.l.(accepted := v.l.accepted + [first]), first.id, Sent(true)))
  }

  function Bring<T>(v: View<T>, x: T, refused: bool, waits: bool): View<T> {
    var id := v.l.issued;
    var l := Issue(v.l);
    if refused then View(v.s, Resume(l, id, Sent(false)))
    else if Room(v.s) then
      var w := Accept(View(v.s, l), Item(id, x));
      View(w.s, Resume(w.l, id, Sent(true)))
    else if waits then View(v.s.(senders := v.s.senders + [Item(id, x)]), l)
    else View(v.s, Resume(l, id, Sent(false)))
  }

  function Take<T>(v: View<T>, canceled: bool): View<T> {
    var id := v.l.issued;
    var l := Issue(v.l);
    if canceled then View(v.s, Resume(l, id, Canceled))
    else if v.s.buffer != [] then
      var x := v.s.buffer[0];
      var w := Admit(View(v.s.(buffer := v.s.buffer[1..]), l.(delivered := l.delivered + [Item(id, x)])));
      View(w.s, Resume(w.l, id, Got(x)))
    else if v.s.terminal.Some? then View(v.s, Resume(l, id, Ended(v.s.terminal.value)))
    else View(v.s.(receivers := v.s.receivers + [id]), l)
  }

  function DropSender<T>(v: View<T>, id: nat): View<T> {
    var k := Index(Ids(v.s.senders), id);
    if k == |v.s.senders| then v else
      View(v.s.(senders := v.s.senders[..k] + v.s.senders[k + 1..]), Resume(v.l, id, Sent(false)))
  }

  function DropReceiver<T>(v: View<T>, id: nat): View<T> {
    var k := Index(v.s.receivers, id);
    if k == |v.s.receivers| then v else
      View(v.s.(receivers := v.s.receivers[..k] + v.s.receivers[k + 1..]), Resume(v.l, id, Canceled))
  }

  function FinishWith<T>(v: View<T>, end: End, discarding: bool): View<T> {
    if v.s.terminal.Some? then v else
      var s := v.s.(terminal := Some(end));
      var lost := if discarding then v.s.buffer else [];
      var buffer := if discarding then [] else v.s.buffer;
      var ending := if buffer == [] then v.s.receivers else [];
      var l := ResumeAll(v.l.(lost := v.l.lost + lost), Ids(v.s.senders), Sent(false));
      View(s.(buffer := buffer, senders := [], receivers := if buffer == [] then [] else v.s.receivers),
           ResumeAll(l, ending, Ended(end)))
  }

  function Step<T>(v: View<T>, e: Event<T>): View<T> {
    match e
    case Send(x, canceled) => Bring(v, x, canceled || v.s.terminal.Some?, true)
    case Offer(x) => Bring(v, x, v.s.terminal.Some?, false)
    case Next(canceled) => Take(v, canceled)
    case CancelSender(id) => DropSender(v, id)
    case CancelReceiver(id) => DropReceiver(v, id)
    case Finish(end, discarding) => FinishWith(v, end, discarding)
  }

  function Run<T>(v: View<T>, es: seq<Event<T>>): View<T>
    decreases |es|
  {
    if es == [] then v else Step(Run(v, es[..|es| - 1]), es[|es| - 1])
  }

  // ----- What every run keeps -----

  ghost predicate Increasing(ids: seq<nat>, below: nat) {
    && (forall i, j :: 0 <= i < j < |ids| ==> ids[i] < ids[j])
    && (forall i :: 0 <= i < |ids| ==> ids[i] < below)
  }

  /** Bounds, and who may be waiting for what. */
  ghost predicate Bounded<T>(s: State<T>) {
    && 1 <= s.capacity && |s.buffer| <= s.high <= s.capacity
    && (s.receivers != [] ==> s.buffer == [] && s.terminal.None?)
    && (s.senders != [] ==> |s.buffer| == s.capacity && s.terminal.None?)
  }

  /** Accepted elements are the delivered, the buffered and, after a discarding finish, the lost
      ones, in this order. */
  ghost predicate Conserved<T>(v: View<T>) {
    && Values(v.l.accepted) == Values(v.l.delivered) + v.s.buffer + v.l.lost
    && (v.l.lost != [] ==> v.s.terminal.Some? && v.s.buffer == [])
  }

  /** Elements are accepted in the order their calls arrived, ahead of every waiting sender, and
      delivered to readers in the order those arrived. */
  ghost predicate Ordered<T>(v: View<T>) {
    && Increasing(Ids(v.l.accepted) + Ids(v.s.senders), v.l.issued)
    && Increasing(Ids(v.l.delivered) + v.s.receivers, v.l.issued)
  }

  /** How often call `id` is accounted for. */
  ghost function Places<T>(v: View<T>, id: nat): nat {
    Count(v.l.resumed, id) + Count(v.s.receivers, id) + Count(Ids(v.s.senders), id)
  }

  /** Every call so far either waits, once, or was resumed, once. */
  ghost predicate Settled<T>(v: View<T>) {
    forall id: nat :: Places(v, id) == if id < v.l.issued then 1 else 0
  }

  ghost predicate Answered<T>(l: Log<T>) {
    && (forall id :: id in l.replies <==> id in l.resumed)
    && (forall i :: 0 <= i < |l.accepted| ==> l.accepted[i].id in l.replies && l.replies[l.accepted[i].id] == Sent(true))
    && (forall i :: 0 <= i < |l.delivered| ==>
          l.delivered[i].id in l.replies && l.replies[l.delivered[i].id] == Got(l.delivered[i].value))
    && (forall id :: id in l.replies && l.replies[id] == Sent(true) ==> id in Ids(l.accepted))
    && (forall id :: id in l.replies && l.replies[id].Got? ==> id in Ids(l.delivered))
  }

  ghost predicate Inv<T>(v: View<T>) {
    Bounded(v.s) && Conserved(v) && Ordered(v) && Settled(v) && Answered(v.l)
  }
}
