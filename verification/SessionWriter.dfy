/** The session writer: three priorities, one serial write queue, and the
    cancellation, supersession, close and abort that race it.

    Every critical section of the source is one event here, and so is the gap
    between choosing the next entry under the lock and handing it to the serial
    queue after the lock is released.  An entry is named by the order in which its
    submission took the lock. */
module SessionWriter {

  type Id = nat

  datatype Priority = Ordinary | Settlement | Lifecycle | Closing

  /** `lifecycle` says whether the frame's kind is lifecycle; the source tests the
      kind, not the priority, when it looks for an entry to supersede. */
  datatype Frame = Frame(priority: Priority, lifecycle: bool)

  datatype Outcome = Success | Canceled | Failed

  // ----- The three queues -----

  /** `turnUsed` is the source's settlementTurnUsed.  The other fields past it are history:
      how many selections in a row have gone past each non-empty queue, and the last
      entry of each class to be admitted. */
  datatype Queues = Queues(
    waiting: seq<Id>,
    settlement: seq<Id>,
    lifecycle: seq<Id>,
    turnUsed: bool,
    ordinaryPassed: nat,
    settlementPassed: nat,
    lastOrdinary: int,
    lastSettlement: int)
  {
    predicate IsEmpty() { waiting == [] && settlement == [] && lifecycle == [] }

    function Listed(): seq<Id> { waiting + settlement + lifecycle }

    function Cleared(): Queues {
      this.(waiting := [], settlement := [], lifecycle := [], ordinaryPassed := 0, settlementPassed := 0)
    }

    function Admitting(p: Priority, id: Id): Queues {
      if p.Ordinary? then this.(lastOrdinary := id)
      else if p.Settlement? then this.(lastSettlement := id)
      else this
    }
  }

  const NO_QUEUES := Queues([], [], [], false, 0, 0, -1, -1)

  datatype Pushed = Stored(q: Queues) | Displaced(q: Queues, evicted: Id) | Full

  /** Queues an entry behind a busy writer.  The lifecycle slot holds one entry and a
      newer one takes its place. */
  function Push(q: Queues, limit: nat, p: Priority, id: Id): Pushed {
    match p
    case Lifecycle =>
      if q.lifecycle == [] then Stored(q.(lifecycle := [id]))
      else Displaced(q.(lifecycle := q.lifecycle[0 := id]), q.lifecycle[0])
    case Settlement =>
      if |q.settlement| >= limit then Full else Stored(q.(settlement := q.settlement + [id]))
    case _ =>
      if |q.waiting| >= limit then Full else Stored(q.(waiting := q.waiting + [id]))
  }

  /** Chooses the next entry: lifecycle first, then settlement unless it just had
      its turn over a waiting ordinary entry, then ordinary. */
  function Select(q: Queues): (Id, Queues)
    requires !q.IsEmpty()
  {
    if q.lifecycle != [] then
      (q.lifecycle[0], q.(lifecycle := q.lifecycle[1..]))
    else if q.settlement != [] && (q.waiting == [] || !q.turnUsed) then
      (q.settlement[0],
       q.(settlement := q.settlement[1..], turnUsed := true, settlementPassed := 0,
          lastSettlement := q.settlement[0],
          ordinaryPassed := if q.waiting == [] then 0 else q.ordinaryPassed + 1))
    else
      (q.waiting[0],
       q.(waiting := q.waiting[1..], turnUsed := false, ordinaryPassed := 0,
          lastOrdinary := q.waiting[0],
          settlementPassed := if q.settlement == [] then 0 else q.settlementPassed + 1))
  }

  function Without(q: seq<Id>, id: Id): seq<Id> {
    if q == [] then [] else if q[0] == id then q[1..] else [q[0]] + Without(q[1..], id)
  }

  function Drop(q: Queues, id: Id): Queues {
    var rest := Without(q.waiting, id);
    q.(waiting := rest, ordinaryPassed := if rest == [] then 0 else q.ordinaryPassed)
  }

  /** The completions called so far, by what they were called with. */
  datatype Log = Log(succeeded: seq<Id>, canceled: seq<Id>, failed: seq<Id>)
  {
    function Add(ids: seq<Id>, o: Outcome): Log {
      match o
      case Success => this.(succeeded := succeeded + ids)
      case Canceled => this.(canceled := canceled + ids)
      case Failed => this.(failed := failed + ids)
    }
  }

  // ----- The writer -----

  /** What the preflight of a dispatched block decided. */
  datatype Verdict = Write | Skip | Cancel | Refuse

  /** The one block the serial queue is executing. */
  datatype Block = Idle | Running(id: Id, verdict: Verdict) | Selected(next: Id)

  datatype State = State(
    limit: nat,
    frames: seq<Frame>,
    accepting: bool,
    terminal: bool,
    queues: Queues,
    dispatch: seq<Id>,
    block: Block,
    started: set<Id>,
    canceled: set<Id>,
    superseded: set<Id>,
    written: seq<Id>,
    broken: bool,
    log: Log)
  {
    /** The admitted entries: the executing block, then the dispatched ones in order. */
    function InFlight(): seq<Id> {
      match block
      case Idle => dispatch
      case Running(id, _) => [id] + dispatch
      case Selected(id) => [id] + dispatch
    }

    function Completed(ids: seq<Id>, o: Outcome): State {
      this.(log := log.Add(ids, o))
    }
  }

  function Fresh(limit: nat): State {
    State(limit, [], true, false, NO_QUEUES, [], Idle, {}, {}, {}, [], false, Log([], [], []))
  }

  /** Stops admission, empties the queues and fails every entry they held. */
  function Reject(s: State): State {
    s.(accepting := false, queues := s.queues.Cleared()).Completed(s.queues.Listed(), Failed)
  }

  /** The selected entries a lifecycle submission supersedes: lifecycle frames not yet started. */
  function Supersedable(s: State): set<Id> {
    set id | id in s.InFlight() && id < |s.frames| && s.frames[id].lifecycle && id !in s.started
  }

  /** Queues entry `id` behind a busy writer. */
  function Enqueue(s: State, p: Priority, id: Id): State {
    var t := if p.Lifecycle? then s.(superseded := s.superseded + Supersedable(s)) else s;
    match Push(s.queues, s.limit, p, id)
    case Stored(q) => t.(queues := q)
    case Displaced(q, evicted) => t.(queues := q).Completed([evicted], Success)
    case Full => t.Completed([id], Failed)
  }

  function Submit(s: State, f: Frame, preCanceled: bool): State {
    var id := |s.frames|;
    var t := s.(frames := s.frames + [f]);
    if preCanceled then t.Completed([id], Canceled)
    else if !s.accepting then t.Completed([id], Failed)
    else if s.InFlight() == [] then
      t.(dispatch := [id], queues := s.queues.Admitting(f.priority, id))
    else Enqueue(t, f.priority, id)
  }

  function Close(s: State): State {
    var id := |s.frames|;
    var t := s.(frames := s.frames + [Frame(Closing, false)]);
    if !s.accepting then t.Completed([id], Failed)
    else Reject(t).(dispatch := s.dispatch + [id])
  }

  function Abort(s: State): State { Reject(s) }

  function CancelEntry(s: State, id: Id): State {
    if id in s.queues.waiting then s.(queues := Drop(s.queues, id)).Completed([id], Canceled)
    else if id in s.InFlight() && id !in s.started then s.(canceled := s.canceled + {id})
    else s
  }

  function Preflight(s: State): State {
    if !s.block.Idle? || s.dispatch == [] then s
    else
      var id := s.dispatch[0];
      var t := s.(dispatch := s.dispatch[1..]);
      if id in s.superseded then t.(block := Running(id, Skip))
      else if id in s.canceled then t.(block := Running(id, Cancel))
      else if s.terminal then t.(block := Running(id, Refuse), started := s.started + {id})
      else t.(block := Running(id, Write), started := s.started + {id}, written := s.written + [id])
  }

  function Result(v: Verdict, wrote: bool): Outcome {
    match v
    case Skip => Success
    case Cancel => Canceled
    case Refuse => Failed
    case Write => if wrote then Success else Failed
  }

  function Finish(s: State, wrote: bool): State {
    if !s.block.Running? then s
    else
      var id, result := s.block.id, Result(s.block.verdict, wrote);
      var t := s.(block := Idle, broken := s.broken || (s.block.verdict.Write? && !wrote));
      if result.Failed? then Reject(t.(terminal := true)).Completed([id], result)
      else if s.queues.IsEmpty() then t.(queues := s.queues.(turnUsed := false)).Completed([id], result)
      else if !s.accepting then t.Completed([id], result)
      else
        var (next, q) := Select(s.queues);
        t.(queues := q, block := Selected(next)).Completed([id], result)
  }

  function EnqueueNext(s: State): State {
    if s.block.Selected? then s.(dispatch := s.dispatch + [s.block.next], block := Idle) else s
  }

  // ----- Runs -----

  datatype Event =
    | DoSubmit(frame: Frame, preCanceled: bool)
    | DoClose
    | DoAbort
    | DoCancel(id: Id)
    | DoPreflight
    | DoFinish(wrote: bool)
    | DoEnqueueNext

  function Step(s: State, e: Event): State {
    match e
    case DoSubmit(f, c) => Submit(s, f, c)
    case DoClose => Close(s)
    case DoAbort => Abort(s)
    case DoCancel(id) => CancelEntry(s, id)
    case DoPreflight => Preflight(s)
    case DoFinish(w) => Finish(s, w)
    case DoEnqueueNext => EnqueueNext(s)
  }

  /** Only `close` mints a closing frame. */
  predicate Legal(es: seq<Event>) {
    forall i :: 0 <= i < |es| && es[i].DoSubmit? ==> !es[i].frame.priority.Closing?
  }

  function Run(s: State, es: seq<Event>): State
    decreases |es|
  {
    if es == [] then s else Run(Step(s, es[0]), es[1..])
  }
}
