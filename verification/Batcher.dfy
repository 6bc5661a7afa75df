/** The completion queue of one event loop. Threads push parked futures from anywhere; only
    the first push after a drain notifies the loop, and the drain, on the loop's thread,
    first empties the pipe and then takes the queue. */
module Batcher {

  datatype Drain =
    | NotDraining
    /** Emptying the pipe, a read at a time. */
    | Acknowledging
    /** Saw the pipe empty; about to take the queue. */
    | Acknowledged
    /** Took the queue; these futures are still to be set. */
    | Releasing(left: seq<nat>)

  datatype Queue = Queue(
    queue: seq<nat>,
    /** Set from the first push after a drain until that drain takes the queue. */
    armed: bool,
    /** Bytes in the pipe. */
    bytes: nat,
    /** Drains scheduled with `call_soon_threadsafe`. */
    scheduled: nat,
    drain: Drain,
    /** Whether the loop still runs. */
    alive: bool,
    // What happened so far.
    pushed: seq<nat>,
    woken: seq<nat>,
    discarded: seq<nat>,
    /** Pushes that had to notify since the queue was last taken. */
    firsts: nat)
  {
    function InDrain(): seq<nat> {
      if drain.Releasing? then drain.left else []
    }

    /** Something will make the loop run a drain that takes the queue. */
    predicate Notified() {
      bytes > 0 || scheduled > 0 || drain.Acknowledging? || drain.Acknowledged?
    }
  }

  const EMPTY_QUEUE := Queue([], false, 0, 0, NotDraining, true, [], [], [], 0)

  /** Under the lock: queue `f`, and say whether this push has to notify. */
  function Push(b: Queue, f: nat): (r: (Queue, bool)) {
    (b.(queue := b.queue + [f], armed := true, pushed := b.pushed + [f],
        firsts := b.firsts + if b.armed then 0 else 1),
     !b.armed)
  }

  /** How a notification went. */
  datatype Notice =
    | Written
    /** The pipe is full, so it has something to read. */
    | WouldBlock
    /** No pipe, or writing to it failed. */
    | CallSoon
    | LoopGone

  ghost predicate CanNotify(b: Queue, n: Notice) {
    match n
    case Written => true
    case WouldBlock => b.bytes > 0
    case CallSoon => b.alive
    case LoopGone => !b.alive
  }

  function Notify(b: Queue, n: Notice): Queue {
    match n
    case Written => b.(bytes := b.bytes + 1)
    case WouldBlock => b
    case CallSoon => b.(scheduled := b.scheduled + 1)
    case LoopGone => b.(queue := [], armed := false, discarded := b.discarded + b.queue, firsts := 0)
  }

  datatype LoopStep =
    /** The loop runs the drain, as the reader of the pipe or as a scheduled call. */
    | BeginDrain(scheduled: bool)
    /** One `read` of at most 64 bytes, or the one that finds the pipe empty. */
    | ReadPipe(count: nat)
    | TakeQueue
    | ReleaseNext
    | CloseLoop

  ghost predicate CanLoopStep(b: Queue, step: LoopStep) {
    match step
    case BeginDrain(scheduled) => b.alive && b.drain.NotDraining?
        && (if scheduled then b.scheduled > 0 else b.bytes > 0)
    case ReadPipe(n) => b.drain.Acknowledging? && n <= 64 && n <= b.bytes && (n == 0 ==> b.bytes == 0)
    case TakeQueue => b.drain.Acknowledged?
    case ReleaseNext => b.drain.Releasing?
    case CloseLoop => b.drain.NotDraining?
  }

  function LoopNext(b: Queue, step: LoopStep): Queue
    requires CanLoopStep(b, step)
  {
    match step
    case BeginDrain(scheduled) =>
      b.(drain := Acknowledging, scheduled := if scheduled then b.scheduled - 1 else b.scheduled)
    case ReadPipe(n) => b.(bytes := b.bytes - n, drain := if n == 0 then Acknowledged else Acknowledging)
    case TakeQueue => b.(queue := [], armed := false, drain := Releasing(b.queue), firsts := 0)
    case ReleaseNext =>
      if b.drain.left == [] then b.(drain := NotDraining)
      else b.(drain := Releasing(b.drain.left[1..]), woken := b.woken + [b.drain.left[0]])
    case CloseLoop => b.(alive := false)
  }

  /** What holds between steps; `notifying` says that some push has yet to notify.
      Futures are woken in the order they were pushed, none is skipped, and one push at most
      notifies between two takes. */
  ghost predicate QueueInv(b: Queue, notifying: bool) {
    && (b.queue != [] ==> b.armed)
    && (b.armed && b.alive ==> b.Notified() || notifying)
    && b.pushed == b.woken + b.InDrain() + b.discarded + b.queue
    && b.firsts == (if b.armed then 1 else 0)
    && (b.alive ==> b.discarded == [])
    && (!b.alive ==> b.drain.NotDraining?)
  }

  lemma PushKeepsInv(b: Queue, f: nat, notifying: bool)
    requires QueueInv(b, notifying)
    ensures QueueInv(Push(b, f).0, notifying || Push(b, f).1)
    ensures f in Push(b, f).0.queue
  {
    assert Push(b, f).0.pushed == b.woken + b.InDrain() + b.discarded + Push(b, f).0.queue;
  }

  /** The push that had to notify does; `others` may have to notify too. */
  lemma NotifyKeepsInv(b: Queue, n: Notice, others: bool)
    requires QueueInv(b, true) && CanNotify(b, n)
    ensures QueueInv(Notify(b, n), others)
  {
  }

  lemma LoopStepKeepsInv(b: Queue, step: LoopStep, notifying: bool)
    requires QueueInv(b, notifying) && CanLoopStep(b, step)
    ensures QueueInv(LoopNext(b, step), notifying)
  {
    if step.ReleaseNext? && b.drain.left != [] {
      assert b.drain.left == [b.drain.left[0]] + b.drain.left[1..];
    }
  }

  // ---------------------------------------------------------------------- as the program keeps it

  class BatcherState {
    var queue: seq<nat>
    var armed: bool

    constructor ()
      ensures queue == [] && !armed
    {
      queue, armed := [], false;
    }

    method Push(future: nat) returns (firstOfBatch: bool)
      modifies this
      ensures queue == old(queue) + [future] && armed && firstOfBatch == !old(armed)
    {
      queue := queue + [future];
      firstOfBatch := !armed;
      armed := true;
    }

    /** The critical section of `drain` and of `discard`: nothing stays behind. */
    method Take() returns (taken: seq<nat>)
      modifies this
      ensures taken == old(queue) && queue == [] && !armed
    {
      armed := false;
      taken, queue := queue, [];
    }

    /** `drain` after the pipe is empty: sets every future taken that is not done yet, in
        queue order. `done` says which already are. */
    method Drain(done: set<nat>) returns (released: seq<nat>, done': set<nat>)
      modifies this
      ensures queue == [] && !armed
      ensures released == Undone(old(queue), done) && done' == done + set f | f in old(queue)
    {
      var ready := Take();
      released, done' := [], done;
      for i := 0 to |ready|
        invariant done' == done + set f | f in ready[..i]
        invariant released + Undone(ready[i..], done') == Undone(ready, done)
      {
        assert ready[..i + 1] == ready[..i] + [ready[i]];
        assert ready[i..][0] == ready[i] && ready[i..][1..] == ready[i + 1..];
        if ready[i] !in done' {
          released, done' := released + [ready[i]], done' + {ready[i]};
        }
      }
      assert ready[..|ready|] == ready;
    }
  }

  /** The futures of the queue that are not done when their turn comes, in queue order. */
  function Undone(queue: seq<nat>, done: set<nat>): seq<nat>
    decreases |queue|
  {
    if queue == [] then []
    else if queue[0] in done then Undone(queue[1..], done)
    else [queue[0]] + Undone(queue[1..], done + {queue[0]})
  }

  /** No future is set twice, and exactly those that were not done are. */
  lemma {:induction false} UndoneAreSetOnce(queue: seq<nat>, done: set<nat>)
    ensures forall f :: f in Undone(queue, done) <==> f in queue && f !in done
    ensures forall i, j :: 0 <= i < j < |Undone(queue, done)| ==> Undone(queue, done)[i] != Undone(queue, done)[j]
    decreases |queue|
  {
    if queue != [] {
      assert queue == [queue[0]] + queue[1..];
      UndoneAreSetOnce(queue[1..], if queue[0] in done then done else done + {queue[0]});
    }
  }

  /** The futures set are in the queue at these places, one after another. */
  ghost predicate AreAt(queue: seq<nat>, futures: seq<nat>, places: seq<nat>) {
    && |places| == |futures|
    && (forall i :: 0 <= i < |places| ==> places[i] < |queue| && queue[places[i]] == futures[i])
    && (forall i, j :: 0 <= i < j < |places| ==> places[i] < places[j])
  }

  ghost function Behind(places: seq<nat>): (moved: seq<nat>)
    ensures |moved| == |places| && forall i :: 0 <= i < |places| ==> moved[i] == places[i] + 1
  {
    seq(|places|, i requires 0 <= i < |places| => places[i] + 1)
  }

  lemma OneInFront(queue: seq<nat>, futures: seq<nat>, places: seq<nat>)
    requires queue != [] && AreAt(queue[1..], futures, places)
    ensures AreAt(queue, futures, Behind(places))
    ensures AreAt(queue, [queue[0]] + futures, [0] + Behind(places))
  {
    var moved := Behind(places);
    assert forall i :: 0 <= i < |places| ==> queue[moved[i]] == queue[1..][places[i]];
  }

  /** They are set in the order of the queue. */
  lemma {:induction false} UndoneAreSetInOrder(queue: seq<nat>, done: set<nat>) returns (places: seq<nat>)
    ensures AreAt(queue, Undone(queue, done), places)
    decreases |queue|
  {
    places := [];
    if queue != [] {
      var done' := if queue[0] in done then done else done + {queue[0]};
      var later := UndoneAreSetInOrder(queue[1..], done');
      OneInFront(queue, Undone(queue[1..], done'), later);
      places := (if queue[0] in done then [] else [0]) + Behind(later);
      assert [] + Behind(later) == Behind(later);
    }
  }
}

/** A batcher and any number of threads that push to it. */
module BatcherRuns {
  import opened Batcher

  datatype System = System(b: Queue, toNotify: nat)

  datatype Step = PushOne(future: nat) | NotifyOne(notice: Notice) | OnLoop(step: LoopStep)

  ghost predicate CanStep(s: System, step: Step) {
    match step
    case PushOne(_) => true
    case NotifyOne(n) => s.toNotify > 0 && CanNotify(s.b, n)
    case OnLoop(l) => CanLoopStep(s.b, l)
  }

  function Next(s: System, step: Step): System
    requires CanStep(s, step)
  {
    match step
    case PushOne(f) =>
      var (b, first) := Push(s.b, f);
      System(b, if first then s.toNotify + 1 else s.toNotify)
    case NotifyOne(n) => System(Notify(s.b, n), s.toNotify - 1)
    case OnLoop(l) => s.(b := LoopNext(s.b, l))
  }

  datatype Run = Begun | Then(before: Run, step: Step)

  ghost predicate Possible(r: Run)
    decreases r, 0
  {
    r.Then? ==> Possible(r.before) && CanStep(StateOf(r.before), r.step)
  }

  ghost function StateOf(r: Run): System
    requires Possible(r)
    decreases r, 1
  {
    match r
    case Begun => System(EMPTY_QUEUE, 0)
    case Then(before, step) => Next(StateOf(before), step)
  }

  lemma StepKeepsInv(s: System, step: Step)
    requires CanStep(s, step) && QueueInv(s.b, s.toNotify > 0)
    ensures QueueInv(Next(s, step).b, Next(s, step).toNotify > 0)
  {
    match step
    case PushOne(f) => PushKeepsInv(s.b, f, s.toNotify > 0);
    case NotifyOne(n) => NotifyKeepsInv(s.b, n, s.toNotify > 1);
    case OnLoop(l) => LoopStepKeepsInv(s.b, l, s.toNotify > 0);
  }

  /** Over every run: the loop is on its way to whatever is queued while it lives, futures
      are woken first in first out, and one push at most notifies between two takes. */
  lemma {:induction false} QueueIsAlwaysOnItsWay(r: Run)
    requires Possible(r)
    ensures var s := StateOf(r); QueueInv(s.b, s.toNotify > 0)
  {
    if r.Then? {
      QueueIsAlwaysOnItsWay(r.before);
      StepKeepsInv(StateOf(r.before), r.step);
    }
  }

  /** The futures pushed, from the steps. */
  ghost function Pushes(r: Run): seq<nat> {
    match r
    case Begun => []
    case Then(before, PushOne(f)) => Pushes(before) + [f]
    case Then(before, _) => Pushes(before)
  }

  lemma {:induction false} EveryPushIsQueued(r: Run)
    requires Possible(r)
    ensures StateOf(r).b.pushed == Pushes(r)
  {
    if r.Then? {
      EveryPushIsQueued(r.before);
    }
  }

  /** When the loop has nothing to do and no push is about to notify, nothing is queued:
      every future pushed has been woken, in order. */
  lemma IdleLoopHasWokenAll(r: Run)
    requires Possible(r)
    requires var s := StateOf(r); s.b.alive && s.toNotify == 0 && s.b.drain.NotDraining? && !s.b.Notified()
    ensures StateOf(r).b.woken == Pushes(r)
  {
    EveryPushIsQueued(r);
    QueueIsAlwaysOnItsWay(r);
    var b := StateOf(r).b;
    assert b.woken + [] + [] + [] == b.woken;
  }
}
