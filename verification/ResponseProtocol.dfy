/** A `ResponseFuture` and every thread that touches it: its requests on the runtime, the
    users that register, clear, read or page, and the drainer. A step is one critical
    section, or one thing a thread does between two of them. */
module ResponseProtocol {
  import opened Common
  import opened Callbacks
  import opened RequestState
  import opened ResponseShared
  import opened ResponseTrace
  import opened GuardedTask

  /** What a thread does with the rows of a page once it has them. */
  datatype Job = Job(lists: Lists, drains: bool)

  datatype Worker =
    /** A drainer about to look for the next page. */
    | Looking
    /** Holds page `no`, whose rows are to be built. */
    | Building(job: Job, no: nat)
    /** Built rows, about to store them. */
    | Storing(job: Job, built: Rows)
    /** Has the rows; `next` of the matching callbacks have run. */
    | Delivering(job: Job, rows: Rows, next: nat)
    | Finished
  {
    predicate HoldsToken() {
      Looking? || (!Finished? && job.drains)
    }

    /** The page this thread is busy with. */
    function Page(): Option<nat> {
      match this
      case Building(_, no) => Some(no)
      case Storing(_, built) => Some(built.no)
      case Delivering(_, rows, _) => Some(rows.no)
      case _ => None
    }

    /** The callbacks this thread has still to run or pass over. */
    function Left(): seq<nat> {
      match this
      case Building(job, _) => job.lists.callbacks + job.lists.errbacks
      case Storing(job, _) => job.lists.callbacks + job.lists.errbacks
      case Delivering(job, rows, next) =>
        var cbs := job.lists.For(rows.Delivered());
        if next <= |cbs| then cbs[next..] else []
      case _ => []
    }

    ghost function Owes(cb: nat, no: nat): nat {
      if Page() == Some(no) then multiset(Left())[cb] else 0
    }
  }

  datatype System = System(shared: Shared, tasks: seq<Task>, workers: seq<Worker>, trace: Trace)

  const INITIAL := System(NEW, [ToSpawn], [], Start)

  datatype Step =
    | SpawnRequest(task: nat)
    | PollRequest(task: nat)
    | CompleteRequest(task: nat, outcome: Outcome)
    | TearDownRequest(task: nat)
    | AddCallback(delivery: Delivery)
    | Clear
    | StartFetchingNextPage
    | ReadRows
    | DrainerLooks(worker: nat)
    | BuildRows(worker: nat, ok: bool, id: nat)
    | KeepBuiltRows(worker: nat)
    | RunNext(worker: nat)

  ghost predicate CanStep(s: System, step: Step) {
    match step
    case SpawnRequest(t) => t < |s.tasks| && s.tasks[t].ToSpawn?
    case PollRequest(t) => t < |s.tasks| && s.tasks[t].Unpolled?
    case CompleteRequest(t, _) => t < |s.tasks| && s.tasks[t].Polled?
    case TearDownRequest(t) => t < |s.tasks| && (s.tasks[t].Unpolled? || s.tasks[t].Polled?)
    case DrainerLooks(w) => w < |s.workers| && s.workers[w].Looking?
    case BuildRows(w, _, _) => w < |s.workers| && s.workers[w].Building?
    case KeepBuiltRows(w) => w < |s.workers| && s.workers[w].Storing?
    case RunNext(w) => w < |s.workers| && s.workers[w].Delivering?
    case _ => true
  }

  /** A thread that starts on a page: it builds its rows first unless they are built. */
  function Begin(job: Job, rows: PageRows): Worker {
    if rows.Built? then Delivering(job, rows.rows, 0) else Building(job, rows.no)
  }

  function Open(t: Trace, job: Job, rows: PageRows, current: bool): Trace {
    if rows.Built? then After(t, Opened(rows.rows, job.lists, job.drains, current)) else t
  }

  function DoComplete(s: System, task: nat, outcome: Outcome): System
    requires task < |s.tasks|
  {
    var no := Settles(s.trace);
    var (shared, start) := Complete(s.shared, no, outcome);
    System(shared, s.tasks[task := Signalled], if start then s.workers + [Looking] else s.workers,
           After(s.trace, Settled(no, outcome)))
  }

  function DoTearDown(s: System, task: nat): System
    requires task < |s.tasks|
  {
    if s.tasks[task].Unpolled? then s.(tasks := s.tasks[task := Lost])
    else
      var no := Settles(s.trace);
      var (shared, taken) := CompleteDropped(s.shared, no);
      var tasks := s.tasks[task := Signalled];
      if taken.None? then s.(tasks := tasks)
      else
        var rows := Rows(no, false, DROPPED);
        var job := Job(taken.value, false);
        System(shared, tasks, s.workers + [Delivering(job, rows, 0)],
               After(After(s.trace, Dropped(no)), Opened(rows, taken.value, false, true)))
  }

  function DoAddCallback(s: System, d: Delivery): System {
    var cb := Registrations(s.trace);
    var (shared, rows) := Register(s.shared, d, cb);
    var registered := After(s.trace, Registered(cb, d));
    if rows.None? then s.(shared := shared, trace := registered)
    else
      var job := Job(EMPTY.Push(d, cb), false);
      System(shared, s.tasks, s.workers + [Begin(job, rows.value)], Open(registered, job, rows.value, true))
  }

  function DoStartFetching(s: System): System {
    var r := StartFetching(s.shared);
    if r.Err? then s
    else System(r.value, s.tasks + [ToSpawn], s.workers, After(s.trace, Paged))
  }

  function DoReadRows(s: System): System {
    var rows := s.shared.request.RowsNow();
    if rows.None? then s
    else
      var job := Job(EMPTY, false);
      s.(workers := s.workers + [Begin(job, rows.value)], trace := Open(s.trace, job, rows.value, true))
  }

  function DoDrainerLooks(s: System, w: nat): System
    requires w < |s.workers|
  {
    var (shared, next) := DrainerNext(s.shared);
    if next.None? then s.(shared := shared, workers := s.workers[w := Finished])
    else
      var job := Job(next.value.unfired, true);
      var rows := next.value.rows;
      var took := After(s.trace, Took(rows.No()));
      System(shared, s.tasks, s.workers[w := Begin(job, rows)], Open(took, job, rows, s.shared.unfiredPages == []))
  }

  function DoKeepBuiltRows(s: System, w: nat): System
    requires w < |s.workers| && s.workers[w].Storing?
  {
    var Storing(job, built) := s.workers[w];
    var (shared, rows) := KeepRows(s.shared, built.no, built);
    var current := s.shared.request.Received? && s.shared.request.page.no == built.no;
    System(shared, s.tasks, s.workers[w := Delivering(job, rows, 0)],
           After(s.trace, Opened(rows, job.lists, job.drains, current)))
  }

  function DoRunNext(s: System, w: nat): System
    requires w < |s.workers| && s.workers[w].Delivering?
  {
    var Delivering(job, rows, next) := s.workers[w];
    var cbs := job.lists.For(rows.Delivered());
    if next < |cbs| then
      s.(workers := s.workers[w := Delivering(job, rows, next + 1)],
         trace := After(s.trace, Invoked(cbs[next], rows, job.drains)))
    else
      s.(workers := s.workers[w := if job.drains then Looking else Finished])
  }

  function Next(s: System, step: Step): System
    requires CanStep(s, step)
  {
    match step
    case SpawnRequest(t) => s.(tasks := s.tasks[t := Unpolled])
    case PollRequest(t) => s.(tasks := s.tasks[t := Polled])
    case CompleteRequest(t, outcome) => DoComplete(s, t, outcome)
    case TearDownRequest(t) => DoTearDown(s, t)
    case AddCallback(d) => DoAddCallback(s, d)
    case Clear => s.(shared := ClearCallbacks(s.shared), trace := After(s.trace, Cleared))
    case StartFetchingNextPage => DoStartFetching(s)
    case ReadRows => DoReadRows(s)
    case DrainerLooks(w) => DoDrainerLooks(s, w)
    case BuildRows(w, ok, id) =>
      var Building(job, no) := s.workers[w];
      s.(workers := s.workers[w := Storing(job, Rows(no, ok, id))])
    case KeepBuiltRows(w) => DoKeepBuiltRows(s, w)
    case RunNext(w) => DoRunNext(s, w)
  }

  datatype Run = Begun | Then(before: Run, step: Step)

  ghost predicate Possible(r: Run)
    decreases r, 0
  {
    r.Then? ==> Possible(r.before) && CanStep(StateOf(r.before), r.step)
  }

  ghost function StateOf(r: Run): System
    requires Possible(r)
    decreases r, 1
  {
    match r
    case Begun => INITIAL
    case Then(before, step) => Next(StateOf(before), step)
  }

  // ------------------------------------------------------------------- what every step keeps

  ghost function Outstanding(t: Task): int {
    if t.Signalled? then 0 else 1
  }

  ghost function Token(w: Worker): int {
    if w.HoldsToken() then 1 else 0
  }

  /** Exactly one request is outstanding while the state is pending, and none otherwise. */
  ghost predicate OneRequest(s: System) {
    Sum(s.tasks, Outstanding) == if s.shared.request.Pending? then 1 else 0
  }

  /** There is one drain token: parked, or held by one drainer. Whatever waits to be
      delivered has a drainer. */
  ghost predicate OneToken(s: System) {
    && Sum(s.workers, Token) == (if s.shared.permit then 0 else 1)
    && (s.shared.unfiredPages != [] || s.shared.request.Unfired().Some? ==> !s.shared.permit)
  }

  /** The state is about the last settled request, and says so. */
  ghost predicate OnLastPage(s: System) {
    && Numbered(s.trace)
    && Current(s.trace) == (if s.shared.request.Pending? then None else Some(s.shared.request.No()))
    && (!s.shared.request.Pending? ==> s.shared.request.No() + 1 == Settles(s.trace))
    && (s.shared.request.RowsNow().Some? ==> s.shared.request.RowsNow().value.No() == s.shared.request.No())
  }

  /** The registered callbacks are the live ones, or none once no page can follow. */
  ghost predicate RegisteredAreLive(s: System) {
    s.shared.registered == if s.shared.IsTerminal() then EMPTY else Live(s.trace)
  }

  ghost function Nos(pages: seq<Undelivered<Lists>>): seq<nat> {
    seq(|pages|, i requires 0 <= i < |pages| => pages[i].rows.No())
  }

  ghost function CurrentNo(r: Request<Lists>): seq<nat> {
    if r.Unfired().Some? then [r.No()] else []
  }

  /** The pages that settled with callbacks are, in settle order, those taken by the
      drainer, those queued, and the current one if it has not been taken. */
  ghost predicate InSettleOrder(s: System) {
    SettledWithCallbacks(s.trace) == Taken(s.trace) + Nos(s.shared.unfiredPages) + CurrentNo(s.shared.request)
  }

  ghost predicate OpenFor(t: Trace, no: nat) {
    Current(t) == Some(no) && Waiting(t, no)
  }

  /** Each page holds its own list of callbacks, wherever the page is. */
  ghost predicate OwnLists(s: System) {
    && (s.shared.request.Pending? || (OpenFor(s.trace, s.shared.request.No()) <==> s.shared.request.Unfired().Some?))
    && (s.shared.request.Unfired().Some? ==>
          s.shared.request.Unfired().value == ListOf(s.trace, s.shared.request.No()))
    && (forall i :: 0 <= i < |s.shared.unfiredPages| ==> HoldsOwnList(s.trace, s.shared.unfiredPages[i]))
    && (forall w :: 0 <= w < |s.workers| ==> DrainsOwnList(s.trace, s.workers[w]))
  }

  ghost predicate HoldsOwnList(t: Trace, u: Undelivered<Lists>) {
    u.rows.No() < Settles(t) && !OpenFor(t, u.rows.No()) && u.unfired == ListOf(t, u.rows.No())
  }

  ghost predicate DrainsOwnList(t: Trace, w: Worker) {
    w.Page().Some? ==>
      && w.Page().value < Settles(t)
      && (w.job.drains ==> !OpenFor(t, w.Page().value) && w.job.lists == ListOf(t, w.Page().value))
  }

  ghost predicate Basics(s: System) {
    OneRequest(s) && OneToken(s) && OnLastPage(s) && RegisteredAreLive(s) && InSettleOrder(s) && OwnLists(s)
  }

  lemma KeepsOneRequest(s: System, step: Step)
    requires CanStep(s, step) && OneRequest(s)
    ensures OneRequest(Next(s, step))
  {
    match step
    case SpawnRequest(t) => SumUpdate(s.tasks, t, Unpolled, Outstanding);
    case PollRequest(t) => SumUpdate(s.tasks, t, Polled, Outstanding);
    case CompleteRequest(t, _) =>
      SumUpdate(s.tasks, t, Signalled, Outstanding);
      SumAtLeast(s.tasks, t, Outstanding);
    case TearDownRequest(t) =>
      SumUpdate(s.tasks, t, Signalled, Outstanding);
      SumUpdate(s.tasks, t, Lost, Outstanding);
      SumAtLeast(s.tasks, t, Outstanding);
    case StartFetchingNextPage => SumAppend(s.tasks, ToSpawn, Outstanding);
    case _ =>
  }

  lemma LookingKeepsToken(s: System, w: nat)
    requires w < |s.workers| && s.workers[w].Looking? && OneToken(s)
    ensures OneToken(DoDrainerLooks(s, w))
  {
    SumUpdate(s.workers, w, DoDrainerLooks(s, w).workers[w], Token);
    SumAtLeast(s.workers, w, Token);
  }

  lemma AddCallbackKeepsToken(s: System, d: Delivery)
    requires OneToken(s)
    ensures OneToken(DoAddCallback(s, d))
  {
    var s' := DoAddCallback(s, d);
    if |s'.workers| > |s.workers| { SumAppend(s.workers, s'.workers[|s.workers|], Token); }
  }

  lemma TearDownKeepsToken(s: System, t: nat)
    requires t < |s.tasks| && OneToken(s)
    ensures OneToken(DoTearDown(s, t))
  {
    var s' := DoTearDown(s, t);
    if |s'.workers| > |s.workers| { SumAppend(s.workers, s'.workers[|s.workers|], Token); }
  }

  lemma KeepsOneToken(s: System, step: Step)
    requires CanStep(s, step) && OneToken(s)
    ensures OneToken(Next(s, step))
  {
    var s' := Next(s, step);
    match step
    case CompleteRequest(_, _) => SumAppend(s.workers, Looking, Token);
    case TearDownRequest(t) => TearDownKeepsToken(s, t);
    case AddCallback(d) => AddCallbackKeepsToken(s, d);
    case ReadRows =>
      if |s'.workers| > |s.workers| { SumAppend(s.workers, s'.workers[|s.workers|], Token); }
    case DrainerLooks(w) => LookingKeepsToken(s, w);
    case BuildRows(w, _, _) => SumUpdate(s.workers, w, s'.workers[w], Token);
    case KeepBuiltRows(w) => SumUpdate(s.workers, w, s'.workers[w], Token);
    case RunNext(w) => SumUpdate(s.workers, w, s'.workers[w], Token);
    case _ =>
  }

  /** A request completes only while the state is pending. */
  lemma SettlesOnlyPending(s: System, t: nat)
    requires OneRequest(s) && t < |s.tasks| && s.tasks[t].Polled?
    ensures s.shared.request.Pending?
  {
    SumAtLeast(s.tasks, t, Outstanding);
  }

  lemma CompleteKeepsLastPage(s: System, t: nat, outcome: Outcome)
    requires t < |s.tasks| && s.shared.request.Pending? && OnLastPage(s)
    ensures OnLastPage(DoComplete(s, t, outcome))
  {
  }

  lemma AddCallbackKeepsLastPage(s: System, d: Delivery)
    requires OnLastPage(s)
    ensures OnLastPage(DoAddCallback(s, d))
  {
  }

  lemma TearDownKeepsLastPage(s: System, t: nat)
    requires t < |s.tasks| && OnLastPage(s)
    ensures OnLastPage(DoTearDown(s, t))
  {
  }

  lemma KeepsOnLastPage(s: System, step: Step)
    requires CanStep(s, step) && OneRequest(s) && OnLastPage(s)
    ensures OnLastPage(Next(s, step))
  {
    match step
    case CompleteRequest(t, outcome) =>
      SettlesOnlyPending(s, t);
      CompleteKeepsLastPage(s, t, outcome);
    case AddCallback(d) => AddCallbackKeepsLastPage(s, d);
    case TearDownRequest(t) => TearDownKeepsLastPage(s, t);
    case _ =>
  }

  lemma KeepsRegisteredAreLive(s: System, step: Step)
    requires CanStep(s, step) && OneRequest(s) && RegisteredAreLive(s)
    ensures RegisteredAreLive(Next(s, step))
  {
    if step.CompleteRequest? {
      SettlesOnlyPending(s, step.task);
    }
  }

  lemma CompleteKeepsOrder(s: System, t: nat, outcome: Outcome)
    requires t < |s.tasks| && s.shared.request.Pending? && RegisteredAreLive(s) && InSettleOrder(s)
    ensures InSettleOrder(DoComplete(s, t, outcome))
  {
    var s' := DoComplete(s, t, outcome);
    assert CurrentNo(s.shared.request) == [];
    assert SettledWithCallbacks(s'.trace) == SettledWithCallbacks(s.trace) + CurrentNo(s'.shared.request);
  }

  lemma PagingKeepsOrder(s: System)
    requires OnLastPage(s) && InSettleOrder(s)
    ensures InSettleOrder(DoStartFetching(s))
  {
    var s' := DoStartFetching(s);
    if StartFetching(s.shared).Ok? {
      assert Nos(s'.shared.unfiredPages) == Nos(s.shared.unfiredPages) + CurrentNo(s.shared.request);
      assert CurrentNo(s'.shared.request) == [];
    }
  }

  lemma LookingKeepsOrder(s: System, w: nat)
    requires w < |s.workers| && OnLastPage(s) && InSettleOrder(s)
    ensures InSettleOrder(DoDrainerLooks(s, w))
  {
    var s' := DoDrainerLooks(s, w);
    var queue, queue' := Nos(s.shared.unfiredPages), Nos(s'.shared.unfiredPages);
    if s.shared.unfiredPages != [] {
      assert queue == [queue[0]] + queue';
      assert Taken(s'.trace) == Taken(s.trace) + [queue[0]];
    } else if s.shared.request.Unfired().Some? {
      assert Taken(s'.trace) == Taken(s.trace) + CurrentNo(s.shared.request);
    }
  }

  lemma KeepsInSettleOrder(s: System, step: Step)
    requires CanStep(s, step) && OneRequest(s) && OnLastPage(s) && RegisteredAreLive(s) && InSettleOrder(s)
    ensures InSettleOrder(Next(s, step))
  {
    match step
    case CompleteRequest(t, outcome) =>
      SettlesOnlyPending(s, t);
      CompleteKeepsOrder(s, t, outcome);
    case StartFetchingNextPage => PagingKeepsOrder(s);
    case DrainerLooks(w) => LookingKeepsOrder(s, w);
    case TearDownRequest(t) =>
    case _ =>
  }

  /** An event about another page leaves the list of page `no` as it is. */
  lemma ListStays(t: Trace, e: Event, no: nat)
    requires Numbered(After(t, e)) && no < Settles(t)
    requires !OpenFor(t, no)
    ensures !OpenFor(After(t, e), no) && ListOf(After(t, e), no) == ListOf(t, no) && no < Settles(After(t, e))
  {
  }

  /** Pages and threads away from the lock keep their lists whatever happens next. */
  ghost predicate ListsHeld(t: Trace, pages: seq<Undelivered<Lists>>, workers: seq<Worker>) {
    && (forall i :: 0 <= i < |pages| ==> HoldsOwnList(t, pages[i]))
    && (forall w :: 0 <= w < |workers| ==> DrainsOwnList(t, workers[w]))
  }

  lemma HeldAfter(t: Trace, e: Event, pages: seq<Undelivered<Lists>>, workers: seq<Worker>)
    requires Numbered(After(t, e)) && ListsHeld(t, pages, workers)
    ensures ListsHeld(After(t, e), pages, workers)
  {
    forall i | 0 <= i < |pages| ensures HoldsOwnList(After(t, e), pages[i]) {
      ListStays(t, e, pages[i].rows.No());
    }
    forall w | 0 <= w < |workers| ensures DrainsOwnList(After(t, e), workers[w]) {
      if workers[w].Page().Some? && workers[w].job.drains {
        ListStays(t, e, workers[w].Page().value);
      }
    }
  }

  /** Starting to run callbacks is not news to any page. */
  lemma OpenIsQuiet(t: Trace, job: Job, rows: PageRows, current: bool, no: nat)
    requires Numbered(t)
    ensures var t' := Open(t, job, rows, current);
            && Numbered(t') && Settles(t') == Settles(t) && Current(t') == Current(t)
            && Waiting(t', no) == Waiting(t, no) && ListOf(t', no) == ListOf(t, no)
  {
  }

  lemma HeldAfterOpen(t: Trace, job: Job, rows: PageRows, current: bool, pages: seq<Undelivered<Lists>>,
            workers: seq<Worker>)
    requires Numbered(t) && ListsHeld(t, pages, workers)
    ensures ListsHeld(Open(t, job, rows, current), pages, workers)
  {
    if rows.Built? {
      HeldAfter(t, Opened(rows.rows, job.lists, job.drains, current), pages, workers);
    }
  }

  lemma CompleteKeepsLists(s: System, t: nat, outcome: Outcome)
    requires t < |s.tasks| && s.shared.request.Pending?
    requires OnLastPage(s) && RegisteredAreLive(s) && OwnLists(s)
    ensures OwnLists(DoComplete(s, t, outcome))
  {
    HeldAfter(s.trace, Settled(Settles(s.trace), outcome), s.shared.unfiredPages, s.workers);
  }

  lemma TearDownKeepsLists(s: System, t: nat)
    requires t < |s.tasks| && OnLastPage(s) && OwnLists(s)
    ensures OwnLists(DoTearDown(s, t))
  {
    var no := Settles(s.trace);
    var (_, taken) := CompleteDropped(s.shared, no);
    if s.tasks[t].Unpolled? || taken.None? {
    } else {
      var rows, job := Rows(no, false, DROPPED), Job(taken.value, false);
      var t1 := After(s.trace, Dropped(no));
      HeldAfter(s.trace, Dropped(no), s.shared.unfiredPages, s.workers);
      HeldAfterOpen(t1, job, Built(rows), true, s.shared.unfiredPages, s.workers);
      OpenIsQuiet(t1, job, Built(rows), true, no);
      OutcomesAreNumbered(s.trace, no);
    }
  }

  lemma AddCallbackKeepsLists(s: System, d: Delivery)
    requires OnLastPage(s) && OwnLists(s)
    ensures OwnLists(DoAddCallback(s, d))
  {
    var cb := Registrations(s.trace);
    var (shared, rows) := Register(s.shared, d, cb);
    var t1, job := After(s.trace, Registered(cb, d)), Job(EMPTY.Push(d, cb), false);
    HeldAfter(s.trace, Registered(cb, d), s.shared.unfiredPages, s.workers);
    if rows.Some? {
      HeldAfterOpen(t1, job, rows.value, true, s.shared.unfiredPages, s.workers);
      OpenIsQuiet(t1, job, rows.value, true, shared.request.No());
    }
  }

  lemma PagingKeepsLists(s: System)
    requires OnLastPage(s) && OwnLists(s)
    ensures OwnLists(DoStartFetching(s))
  {
    HeldAfter(s.trace, Paged, s.shared.unfiredPages, s.workers);
  }

  lemma LookingKeepsLists(s: System, w: nat)
    requires w < |s.workers| && OnLastPage(s) && OwnLists(s)
    ensures OwnLists(DoDrainerLooks(s, w))
  {
    var (shared, next) := DrainerNext(s.shared);
    if next.Some? {
      var rows, job := next.value.rows, Job(next.value.unfired, true);
      var t1, workers := After(s.trace, Took(rows.No())), s.workers[w := Begin(job, rows)];
      HeldAfter(s.trace, Took(rows.No()), s.shared.unfiredPages, s.workers);
      assert ListsHeld(t1, shared.unfiredPages, workers);
      HeldAfterOpen(t1, job, rows, s.shared.unfiredPages == [], shared.unfiredPages, workers);
      OpenIsQuiet(t1, job, rows, s.shared.unfiredPages == [], rows.No());
      if !shared.request.Pending? {
        OpenIsQuiet(t1, job, rows, s.shared.unfiredPages == [], shared.request.No());
      }
    }
  }

  lemma KeepsOwnLists(s: System, step: Step)
    requires CanStep(s, step) && OneRequest(s) && OnLastPage(s) && RegisteredAreLive(s) && OwnLists(s)
    ensures OwnLists(Next(s, step))
  {
    match step
    case CompleteRequest(t, outcome) =>
      SettlesOnlyPending(s, t);
      CompleteKeepsLists(s, t, outcome);
    case TearDownRequest(t) => TearDownKeepsLists(s, t);
    case AddCallback(d) => AddCallbackKeepsLists(s, d);
    case Clear => HeldAfter(s.trace, Cleared, s.shared.unfiredPages, s.workers);
    case StartFetchingNextPage => PagingKeepsLists(s);
    case ReadRows =>
      if s.shared.request.RowsNow().Some? {
        HeldAfterOpen(s.trace, Job(EMPTY, false), s.shared.request.RowsNow().value, true, s.shared.unfiredPages,
            s.workers);
      }
    case DrainerLooks(w) => LookingKeepsLists(s, w);
    case KeepBuiltRows(w) =>
      HeldAfter(s.trace, DoKeepBuiltRows(s, w).trace.event, s.shared.unfiredPages, s.workers);
    case RunNext(w) =>
      var Delivering(job, rows, next) := s.workers[w];
      if next < |job.lists.For(rows.Delivered())| {
        HeldAfter(s.trace, DoRunNext(s, w).trace.event, s.shared.unfiredPages, s.workers);
      }
    case _ =>
  }

  lemma {:induction false} EveryRunKeepsBasics(r: Run)
    requires Possible(r)
    ensures Basics(StateOf(r))
  {
    match r
    case Begun =>
      assert Sum([], Token) == 0 && Sum([ToSpawn], Outstanding) == 1 by { assert [ToSpawn][1..] == []; }
    case Then(before, step) =>
      EveryRunKeepsBasics(before);
      var s := StateOf(before);
      KeepsOneRequest(s, step);
      KeepsOneToken(s, step);
      KeepsOnLastPage(s, step);
      KeepsRegisteredAreLive(s, step);
      KeepsInSettleOrder(s, step);
      KeepsOwnLists(s, step);
  }
}
