/** What a `ResponseFuture` promises its callbacks: each registration due for a page runs
    exactly once for it if the outcome is of its kind, pages are delivered in the order they
    settled, and each with its own rows. */
module ResponseDelivery {
  import opened Common
  import opened Callbacks
  import opened RequestState
  import opened ResponseShared
  import opened ResponseTrace
  import opened GuardedTask
  import opened ResponseProtocol

  // ------------------------------------------------------------ every due run is accounted for

  ghost function PageOwes(cb: nat, no: nat): Undelivered<Lists> -> int {
    (u: Undelivered<Lists>) => if u.rows.No() == no then u.unfired.Holds(cb) else 0
  }

  ghost function WorkerOwes(cb: nat, no: nat): Worker -> int {
    (w: Worker) => w.Owes(cb, no)
  }

  ghost function CurrentOwes(r: Request<Lists>, cb: nat, no: nat): int {
    if r.Unfired().Some? && r.No() == no then r.Unfired().value.Holds(cb) else 0
  }

  /** The runs of `cb` for page `no` still to come: with the current page, with a page paged
      past, or with a thread. */
  ghost function StillToCome(s: System, cb: nat, no: nat): int {
    CurrentOwes(s.shared.request, cb, no)
    + Sum(s.shared.unfiredPages, PageOwes(cb, no))
    + Sum(s.workers, WorkerOwes(cb, no))
  }

  ghost predicate Accounted(s: System, cb: nat, no: nat) {
    Owed(s.trace, cb, no) == Runs(s.trace, cb, no) + PassedOver(s.trace, cb, no) + StillToCome(s, cb, no)
  }

  /** A thread that begins on a page owes the lists of its job, less what it passes over
      when the rows are already there. */
  lemma BeginOwes(t: Trace, job: Job, rows: PageRows, current: bool, cb: nat, no: nat)
    ensures var t' := Open(t, job, rows, current);
            && Owed(t', cb, no) == Owed(t, cb, no) && Runs(t', cb, no) == Runs(t, cb, no)
            && PassedOver(t', cb, no) + Begin(job, rows).Owes(cb, no)
               == PassedOver(t, cb, no) + if rows.No() == no then job.lists.Holds(cb) else 0
  {
    if rows.Built? {
      var cbs := job.lists.For(rows.rows.Delivered());
      assert cbs[0..] == cbs;
    }
  }

  /** A page that settles owes the live callbacks a run, or passes them over. */
  lemma SettlingOwes(t: Trace, r: Request<Lists>, outcome: Outcome, cb: nat, no: nat)
    requires r.Pending?
    ensures var n := Settles(t); var t' := After(t, Settled(n, outcome));
            var r' := Settle(r, n, outcome, Live(t).ForOutcome(KnownDelivery(outcome)));
            && Runs(t', cb, no) == Runs(t, cb, no)
            && Owed(t', cb, no) - Owed(t, cb, no)
                == PassedOver(t', cb, no) - PassedOver(t, cb, no) + CurrentOwes(r', cb, no)
  {
  }

  lemma CompleteAccounts(s: System, t: nat, outcome: Outcome, cb: nat, no: nat)
    requires t < |s.tasks| && s.shared.request.Pending? && RegisteredAreLive(s)
    requires Accounted(s, cb, no)
    ensures Accounted(DoComplete(s, t, outcome), cb, no)
  {
    var s' := DoComplete(s, t, outcome);
    SumAppend(s.workers, Looking, WorkerOwes(cb, no));
    SettlingOwes(s.trace, s.shared.request, outcome, cb, no);
    assert s'.shared.request
        == Settle(s.shared.request, Settles(s.trace), outcome, Live(s.trace).ForOutcome(KnownDelivery(outcome)));
    assert s'.shared.unfiredPages == s.shared.unfiredPages && CurrentOwes(s.shared.request, cb, no) == 0;
  }

  lemma DroppingOwes(t: Trace, cb: nat, no: nat)
    ensures var t' := After(t, Dropped(Settles(t)));
            && Runs(t', cb, no) == Runs(t, cb, no) && PassedOver(t', cb, no) == PassedOver(t, cb, no)
            && Owed(t', cb, no) == Owed(t, cb, no) + if Settles(t) == no then Live(t).Holds(cb) else 0
  {
  }

  lemma TearDownAccounts(s: System, t: nat, cb: nat, no: nat)
    requires t < |s.tasks| && RegisteredAreLive(s) && Accounted(s, cb, no)
    ensures Accounted(DoTearDown(s, t), cb, no)
  {
    var n := Settles(s.trace);
    if !s.tasks[t].Unpolled? && s.shared.request.Pending? {
      var rows, job, s' := Rows(n, false, DROPPED), Job(s.shared.registered, false), DoTearDown(s, t);
      DroppingOwes(s.trace, cb, no);
      BeginOwes(After(s.trace, Dropped(n)), job, Built(rows), true, cb, no);
      SumAppend(s.workers, Delivering(job, rows, 0), WorkerOwes(cb, no));
      assert s'.shared.unfiredPages == s.shared.unfiredPages;
      assert CurrentOwes(s.shared.request, cb, no) == CurrentOwes(s'.shared.request, cb, no) == 0;
    }
  }

  /** A registration is owed a run for the page that is current. */
  lemma RegisteringOwes(t: Trace, d: Delivery, cb: nat, no: nat)
    ensures var c := Registrations(t); var t' := After(t, Registered(c, d));
            && Owed(t', cb, no) == Owed(t, cb, no) + (if c == cb && Current(t) == Some(no) then 1 else 0)
            && Runs(t', cb, no) == Runs(t, cb, no) && PassedOver(t', cb, no) == PassedOver(t, cb, no)
  {
  }

  lemma JoiningOwes(r: Request<Lists>, d: Delivery, c: nat, cb: nat, no: nat)
    requires r.Unfired().Some?
    ensures var r' := r.(unfired := Some(r.unfired.value.Push(d, c)));
            CurrentOwes(r', cb, no) == CurrentOwes(r, cb, no) + if c == cb && r.No() == no then 1 else 0
  {
    PushHolds(r.unfired.value, d, c, cb);
  }

  lemma JoiningAccounts(s: System, d: Delivery, cb: nat, no: nat)
    requires OnLastPage(s) && s.shared.request.Unfired().Some? && Accounted(s, cb, no)
    ensures Accounted(DoAddCallback(s, d), cb, no)
  {
    var c := Registrations(s.trace);
    var s' := DoAddCallback(s, d);
    RegisteringOwes(s.trace, d, cb, no);
    JoiningOwes(s.shared.request, d, c, cb, no);
    assert s'.workers == s.workers && s'.shared.unfiredPages == s.shared.unfiredPages;
  }

  lemma RunningAtOnceAccounts(s: System, d: Delivery, cb: nat, no: nat)
    requires OnLastPage(s) && s.shared.request.Unfired().None? && Accounted(s, cb, no)
    ensures Accounted(DoAddCallback(s, d), cb, no)
  {
    var c := Registrations(s.trace);
    var rows := s.shared.request.RowsNow();
    var t1, job := After(s.trace, Registered(c, d)), Job(EMPTY.Push(d, c), false);
    var s' := DoAddCallback(s, d);
    assert s'.shared.request == s.shared.request && s'.shared.unfiredPages == s.shared.unfiredPages;
    if rows.Some? {
      PushHolds(EMPTY, d, c, cb);
      BeginOwes(t1, job, rows.value, true, cb, no);
      SumAppend(s.workers, Begin(job, rows.value), WorkerOwes(cb, no));
    }
  }

  lemma PagingAccounts(s: System, cb: nat, no: nat)
    requires OnLastPage(s) && Accounted(s, cb, no)
    ensures Accounted(DoStartFetching(s), cb, no)
  {
    var (_, undelivered) := SwitchToPending(s.shared.request);
    if undelivered.Some? {
      SumAppend(s.shared.unfiredPages, undelivered.value, PageOwes(cb, no));
    }
  }

  lemma ReadRowsAccounts(s: System, cb: nat, no: nat)
    requires Accounted(s, cb, no)
    ensures Accounted(DoReadRows(s), cb, no)
  {
    var rows, job := s.shared.request.RowsNow(), Job(EMPTY, false);
    if rows.Some? {
      BeginOwes(s.trace, job, rows.value, true, cb, no);
      SumAppend(s.workers, Begin(job, rows.value), WorkerOwes(cb, no));
    }
  }

  lemma LookingAccounts(s: System, w: nat, cb: nat, no: nat)
    requires w < |s.workers| && s.workers[w].Looking? && OnLastPage(s) && Accounted(s, cb, no)
    ensures Accounted(DoDrainerLooks(s, w), cb, no)
  {
    var (shared, next) := DrainerNext(s.shared);
    if next.None? {
      SumUpdate(s.workers, w, Finished, WorkerOwes(cb, no));
    } else {
      var job, rows := Job(next.value.unfired, true), next.value.rows;
      BeginOwes(After(s.trace, Took(rows.No())), job, rows, s.shared.unfiredPages == [], cb, no);
      SumUpdate(s.workers, w, Begin(job, rows), WorkerOwes(cb, no));
    }
  }

  lemma BuildAccounts(s: System, w: nat, ok: bool, id: nat, cb: nat, no: nat)
    requires w < |s.workers| && s.workers[w].Building? && Accounted(s, cb, no)
    ensures Accounted(Next(s, BuildRows(w, ok, id)), cb, no)
  {
    SumUpdate(s.workers, w, Storing(s.workers[w].job, Rows(s.workers[w].no, ok, id)), WorkerOwes(cb, no));
  }

  lemma KeepBuiltAccounts(s: System, w: nat, cb: nat, no: nat)
    requires w < |s.workers| && s.workers[w].Storing? && OnLastPage(s) && Accounted(s, cb, no)
    ensures Accounted(DoKeepBuiltRows(s, w), cb, no)
  {
    var Storing(job, built) := s.workers[w];
    var (shared, rows) := KeepRows(s.shared, built.no, built);
    assert rows.no == built.no;
    var current := s.shared.request.Received? && s.shared.request.page.no == built.no;
    BeginOwes(s.trace, job, Built(rows), current, cb, no);
    SumUpdate(s.workers, w, Delivering(job, rows, 0), WorkerOwes(cb, no));
  }

  lemma RunNextOwes(job: Job, rows: Rows, next: nat, cb: nat, no: nat)
    ensures var cbs := job.lists.For(rows.Delivered());
            Delivering(job, rows, next).Owes(cb, no)
            == if next >= |cbs| then 0
               else Delivering(job, rows, next + 1).Owes(cb, no) + if cbs[next] == cb && rows.no == no then 1 else 0
  {
    var cbs := job.lists.For(rows.Delivered());
    if next < |cbs| {
      assert cbs[next..] == [cbs[next]] + cbs[next + 1..];
    }
  }

  /** A thread goes on: what it no longer owes has run. */
  lemma MovingAccounts(s: System, w: nat, moved: Worker, t: Trace, cb: nat, no: nat)
    requires w < |s.workers| && Accounted(s, cb, no)
    requires Owed(t, cb, no) == Owed(s.trace, cb, no) && PassedOver(t, cb, no) == PassedOver(s.trace, cb, no)
    requires Runs(t, cb, no) + moved.Owes(cb, no) == Runs(s.trace, cb, no) + s.workers[w].Owes(cb, no)
    ensures Accounted(s.(workers := s.workers[w := moved], trace := t), cb, no)
  {
    SumUpdate(s.workers, w, moved, WorkerOwes(cb, no));
  }

  /** What a thread runs next, as a trace that has one more run and a thread that owes one less. */
  lemma RunOneOwes(t: Trace, w: Worker, cb: nat, no: nat) returns (moved: Worker, t': Trace)
    requires w.Delivering? && w.next < |w.job.lists.For(w.rows.Delivered())|
    ensures moved == w.(next := w.next + 1)
    ensures t' == After(t, Invoked(w.job.lists.For(w.rows.Delivered())[w.next], w.rows, w.job.drains))
    ensures Owed(t', cb, no) == Owed(t, cb, no) && PassedOver(t', cb, no) == PassedOver(t, cb, no)
    ensures Runs(t', cb, no) + moved.Owes(cb, no) == Runs(t, cb, no) + w.Owes(cb, no)
  {
    moved := w.(next := w.next + 1);
    var c := w.job.lists.For(w.rows.Delivered())[w.next];
    t' := After(t, Invoked(c, w.rows, w.job.drains));
    assert Runs(t', cb, no) == Runs(t, cb, no) + if c == cb && w.rows.no == no then 1 else 0;
    RunNextOwes(w.job, w.rows, w.next, cb, no);
  }

  lemma RunOneAccounts(s: System, w: nat, cb: nat, no: nat)
    requires w < |s.workers| && s.workers[w].Delivering? && Accounted(s, cb, no)
    requires s.workers[w].next < |s.workers[w].job.lists.For(s.workers[w].rows.Delivered())|
    ensures Accounted(DoRunNext(s, w), cb, no)
  {
    var moved, t := RunOneOwes(s.trace, s.workers[w], cb, no);
    MovingAccounts(s, w, moved, t, cb, no);
  }

  lemma RanAllAccounts(s: System, w: nat, cb: nat, no: nat)
    requires w < |s.workers| && s.workers[w].Delivering? && Accounted(s, cb, no)
    requires s.workers[w].next >= |s.workers[w].job.lists.For(s.workers[w].rows.Delivered())|
    ensures Accounted(DoRunNext(s, w), cb, no)
  {
    var Delivering(job, rows, next) := s.workers[w];
    RunNextOwes(job, rows, next, cb, no);
    MovingAccounts(s, w, if job.drains then Looking else Finished, s.trace, cb, no);
  }

  lemma StepAccounts(s: System, step: Step, cb: nat, no: nat)
    requires CanStep(s, step) && OneRequest(s) && OnLastPage(s) && RegisteredAreLive(s) && Accounted(s, cb, no)
    ensures Accounted(Next(s, step), cb, no)
  {
    match step
    case CompleteRequest(t, outcome) =>
      SettlesOnlyPending(s, t);
      CompleteAccounts(s, t, outcome, cb, no);
    case TearDownRequest(t) => TearDownAccounts(s, t, cb, no);
    case AddCallback(d) =>
      if s.shared.request.Unfired().Some? {
        JoiningAccounts(s, d, cb, no);
      } else {
        RunningAtOnceAccounts(s, d, cb, no);
      }
    case StartFetchingNextPage => PagingAccounts(s, cb, no);
    case ReadRows => ReadRowsAccounts(s, cb, no);
    case DrainerLooks(w) => LookingAccounts(s, w, cb, no);
    case BuildRows(w, ok, id) => BuildAccounts(s, w, ok, id, cb, no);
    case KeepBuiltRows(w) => KeepBuiltAccounts(s, w, cb, no);
    case RunNext(w) =>
      if s.workers[w].next < |s.workers[w].job.lists.For(s.workers[w].rows.Delivered())| {
        RunOneAccounts(s, w, cb, no);
      } else {
        RanAllAccounts(s, w, cb, no);
      }
    case _ =>
  }

  lemma {:induction false} EveryRunAccounts(r: Run, cb: nat, no: nat)
    requires Possible(r)
    ensures Accounted(StateOf(r), cb, no)
  {
    if r.Then? {
      EveryRunAccounts(r.before, cb, no);
      EveryRunKeepsBasics(r.before);
      StepAccounts(StateOf(r.before), r.step, cb, no);
    }
  }

  // ------------------------------------------------------------------ each callback on its own list

  ghost predicate Placed(k: Option<Delivery>, lists: Lists, cb: nat) {
    && (k.None? ==> cb !in lists.callbacks && cb !in lists.errbacks)
    && (k.Some? ==> cb !in lists.For(k.value.Other()))
  }

  ghost predicate WorkerPlaced(k: Option<Delivery>, w: Worker, cb: nat) {
    w.Page().Some? ==> Placed(k, w.job.lists, cb)
  }

  /** Wherever `cb` waits, it waits on the list of its kind. */
  ghost predicate OnItsList(s: System, cb: nat) {
    var k := Kind(s.trace, cb);
    && (s.shared.request.Unfired().Some? ==> Placed(k, s.shared.request.Unfired().value, cb))
    && (forall i :: 0 <= i < |s.shared.unfiredPages| ==> Placed(k, s.shared.unfiredPages[i].unfired, cb))
    && (forall w :: 0 <= w < |s.workers| ==> WorkerPlaced(k, s.workers[w], cb))
    && CallsMatch(s.trace, cb)
    && PassesMatch(s.trace, cb)
  }

  lemma LiveIsPlaced(t: Trace, cb: nat)
    requires Numbered(t)
    ensures Placed(Kind(t, cb), Live(t), cb)
    ensures Registrations(t) == cb ==> Kind(t, cb).None?
  {
    LivePlaced(t, cb);
    HoldsAtAll(Live(t), cb);
  }

  lemma OpenMatches(t: Trace, job: Job, rows: PageRows, current: bool, cb: nat)
    requires Placed(Kind(t, cb), job.lists, cb) && CallsMatch(t, cb) && PassesMatch(t, cb)
    ensures var t' := Open(t, job, rows, current);
            Kind(t', cb) == Kind(t, cb) && CallsMatch(t', cb) && PassesMatch(t', cb)
  {
  }

  lemma CompleteKeepsPlaces(s: System, t: nat, outcome: Outcome, cb: nat)
    requires t < |s.tasks| && s.shared.request.Pending?
    requires OnLastPage(s) && RegisteredAreLive(s) && OnItsList(s, cb)
    ensures OnItsList(DoComplete(s, t, outcome), cb)
  {
    var s', k := DoComplete(s, t, outcome), Kind(s.trace, cb);
    LiveIsPlaced(s.trace, cb);
    SettlingMatches(s.trace, outcome, cb);
    assert s'.shared.request.Unfired().Some? ==> s'.shared.request.Unfired().value == Live(s.trace);
    assert Kind(s'.trace, cb) == k && s'.shared.unfiredPages == s.shared.unfiredPages;
    forall w | 0 <= w < |s'.workers| ensures WorkerPlaced(k, s'.workers[w], cb) {
      assert w < |s.workers| ==> s'.workers[w] == s.workers[w];
    }
  }

  lemma SettlingMatches(t: Trace, outcome: Outcome, cb: nat)
    requires Numbered(t) && CallsMatch(t, cb) && PassesMatch(t, cb)
    ensures var t' := After(t, Settled(Settles(t), outcome)); CallsMatch(t', cb) && PassesMatch(t', cb)
  {
    LivePlaced(t, cb);
  }

  lemma TearDownKeepsPlaces(s: System, t: nat, cb: nat)
    requires t < |s.tasks| && OnLastPage(s) && RegisteredAreLive(s) && OnItsList(s, cb)
    ensures OnItsList(DoTearDown(s, t), cb)
  {
    var n := Settles(s.trace);
    var (_, taken) := CompleteDropped(s.shared, n);
    if !s.tasks[t].Unpolled? && taken.Some? {
      LiveIsPlaced(s.trace, cb);
      OpenMatches(After(s.trace, Dropped(n)), Job(taken.value, false), Built(Rows(n, false, DROPPED)), true, cb);
    }
  }

  lemma PushPlaces(k: Option<Delivery>, lists: Lists, d: Delivery, c: nat, cb: nat)
    requires Placed(k, lists, cb) && (c == cb ==> k.None?)
    ensures var k' := if c == cb then Some(d) else k;
            Placed(k', lists, cb) && Placed(k', lists.Push(d, c), cb)
  {
  }

  /** A new registration leaves every list in order: no list holds its number yet. */
  lemma NewKindKeepsPlaces(s: System, d: Delivery, cb: nat)
    requires OnLastPage(s) && OnItsList(s, cb)
    ensures OnItsList(s.(trace := After(s.trace, Registered(Registrations(s.trace), d))), cb)
  {
    var c, k := Registrations(s.trace), Kind(s.trace, cb);
    LiveIsPlaced(s.trace, cb);
    var k' := Kind(After(s.trace, Registered(c, d)), cb);
    if s.shared.request.Unfired().Some? {
      PushPlaces(k, s.shared.request.Unfired().value, d, c, cb);
    }
    forall i | 0 <= i < |s.shared.unfiredPages| ensures Placed(k', s.shared.unfiredPages[i].unfired, cb) {
      PushPlaces(k, s.shared.unfiredPages[i].unfired, d, c, cb);
    }
    forall w | 0 <= w < |s.workers| ensures WorkerPlaced(k', s.workers[w], cb) {
      if s.workers[w].Page().Some? {
        PushPlaces(k, s.workers[w].job.lists, d, c, cb);
      }
    }
  }

  lemma JoiningKeepsPlaces(s: System, d: Delivery, cb: nat)
    requires OnLastPage(s) && OnItsList(s, cb) && s.shared.request.Unfired().Some?
    ensures OnItsList(DoAddCallback(s, d), cb)
  {
    var c := Registrations(s.trace);
    NewKindKeepsPlaces(s, d, cb);
    LiveIsPlaced(s.trace, cb);
    PushPlaces(Kind(s.trace, cb), s.shared.request.Unfired().value, d, c, cb);
  }

  /** A new thread begins on a page with lists in order. */
  lemma BeginningKeepsPlaces(s: System, job: Job, rows: PageRows, cb: nat)
    requires OnItsList(s, cb) && Placed(Kind(s.trace, cb), job.lists, cb)
    ensures OnItsList(s.(workers := s.workers + [Begin(job, rows)], trace := Open(s.trace, job, rows, true)), cb)
  {
    OpenMatches(s.trace, job, rows, true, cb);
  }

  lemma RunningAtOnceKeepsPlaces(s: System, d: Delivery, cb: nat)
    requires OnLastPage(s) && OnItsList(s, cb) && s.shared.request.Unfired().None?
    ensures OnItsList(DoAddCallback(s, d), cb)
  {
    var c, rows := Registrations(s.trace), s.shared.request.RowsNow();
    NewKindKeepsPlaces(s, d, cb);
    var registered := s.(trace := After(s.trace, Registered(c, d)), shared := Register(s.shared, d, c).0);
    assert OnItsList(registered, cb);
    if rows.Some? {
      assert Placed(Kind(registered.trace, cb), EMPTY.Push(d, c), cb);
      BeginningKeepsPlaces(registered, Job(EMPTY.Push(d, c), false), rows.value, cb);
    }
  }

  lemma ReadRowsKeepsPlaces(s: System, cb: nat)
    requires OnItsList(s, cb)
    ensures OnItsList(DoReadRows(s), cb)
  {
    if s.shared.request.RowsNow().Some? {
      BeginningKeepsPlaces(s, Job(EMPTY, false), s.shared.request.RowsNow().value, cb);
    }
  }

  lemma PagingKeepsPlaces(s: System, cb: nat)
    requires OnItsList(s, cb)
    ensures OnItsList(DoStartFetching(s), cb)
  {
  }

  lemma LookingKeepsPlaces(s: System, w: nat, cb: nat)
    requires w < |s.workers| && OnItsList(s, cb)
    ensures OnItsList(DoDrainerLooks(s, w), cb)
  {
    var (_, next) := DrainerNext(s.shared);
    if next.Some? {
      OpenMatches(After(s.trace, Took(next.value.rows.No())), Job(next.value.unfired, true), next.value.rows,
                  s.shared.unfiredPages == [], cb);
    }
  }

  lemma BuildKeepsPlaces(s: System, w: nat, ok: bool, id: nat, cb: nat)
    requires CanStep(s, BuildRows(w, ok, id)) && OnItsList(s, cb)
    ensures OnItsList(Next(s, BuildRows(w, ok, id)), cb)
  {
    assert WorkerPlaced(Kind(s.trace, cb), s.workers[w], cb);
  }

  lemma KeepBuiltKeepsPlaces(s: System, w: nat, cb: nat)
    requires CanStep(s, KeepBuiltRows(w)) && OnItsList(s, cb)
    ensures OnItsList(DoKeepBuiltRows(s, w), cb)
  {
    assert WorkerPlaced(Kind(s.trace, cb), s.workers[w], cb);
  }

  lemma RunNextKeepsPlaces(s: System, w: nat, cb: nat)
    requires CanStep(s, RunNext(w)) && OnItsList(s, cb)
    ensures OnItsList(DoRunNext(s, w), cb)
  {
    assert WorkerPlaced(Kind(s.trace, cb), s.workers[w], cb);
  }

  lemma StepKeepsPlaces(s: System, step: Step, cb: nat)
    requires CanStep(s, step) && OneRequest(s) && OnLastPage(s) && RegisteredAreLive(s) && OnItsList(s, cb)
    ensures OnItsList(Next(s, step), cb)
  {
    match step
    case CompleteRequest(t, outcome) =>
      SettlesOnlyPending(s, t);
      CompleteKeepsPlaces(s, t, outcome, cb);
    case TearDownRequest(t) => TearDownKeepsPlaces(s, t, cb);
    case AddCallback(d) =>
      if s.shared.request.Unfired().Some? {
        JoiningKeepsPlaces(s, d, cb);
      } else {
        RunningAtOnceKeepsPlaces(s, d, cb);
      }
    case StartFetchingNextPage => PagingKeepsPlaces(s, cb);
    case ReadRows => ReadRowsKeepsPlaces(s, cb);
    case DrainerLooks(w) => LookingKeepsPlaces(s, w, cb);
    case BuildRows(w, ok, id) => BuildKeepsPlaces(s, w, ok, id, cb);
    case KeepBuiltRows(w) => KeepBuiltKeepsPlaces(s, w, cb);
    case RunNext(w) => RunNextKeepsPlaces(s, w, cb);
    case _ =>
  }

  lemma {:induction false} EveryRunKeepsPlaces(r: Run, cb: nat)
    requires Possible(r)
    ensures OnItsList(StateOf(r), cb)
  {
    if r.Then? {
      EveryRunKeepsPlaces(r.before, cb);
      EveryRunKeepsBasics(r.before);
      StepKeepsPlaces(StateOf(r.before), r.step, cb);
    }
  }

  // ------------------------------------------------------------------------- each page its own rows

  ghost predicate OwnRows(t: Trace, rows: PageRows) {
    var outcome := OutcomeOf(t, rows.No());
    && rows.No() < Settles(t)
    && (outcome.Some? && outcome.value.Errored? ==> rows == Built(Rows(rows.No(), false, outcome.value.error)))
  }

  ghost function RowsIn(w: Worker): PageRows
    requires w.Page().Some?
  {
    match w
    case Building(_, no) => ToBuild(no)
    case Storing(_, built) => ToBuild(built.no)
    case Delivering(_, rows, _) => Built(rows)
  }

  /** The rows any thread or page holds are those of the request they belong to. */
  ghost predicate RowsHeldAreOwn(s: System) {
    && (s.shared.request.Received? ==>
        OutcomeOf(s.trace, s.shared.request.page.no) == Some(Got(s.shared.request.page.pager)))
    && (s.shared.request.Failed? ==> OutcomeOf(s.trace, s.shared.request.no) == Some(Errored(s.shared.request.error)))
    && (forall i :: 0 <= i < |s.shared.unfiredPages| ==> OwnRows(s.trace, s.shared.unfiredPages[i].rows))
    && (forall w :: 0 <= w < |s.workers| ==> s.workers[w].Page().Some? ==> OwnRows(s.trace, RowsIn(s.workers[w])))
    && RowsAreOwn(s.trace)
  }

  lemma OwnAfter(t: Trace, e: Event, rows: PageRows)
    requires Numbered(After(t, e)) && OwnRows(t, rows)
    ensures OwnRows(After(t, e), rows)
  {
  }

  /** Every step that adds one event and at most one thread. */
  lemma EventKeepsRows(s: System, e: Event)
    requires RowsHeldAreOwn(s) && Numbered(After(s.trace, e)) && !e.Settled? && !e.Dropped?
    requires e.Opened? || e.Invoked? ==> OwnError(s.trace, e.rows)
    ensures RowsHeldAreOwn(s.(trace := After(s.trace, e)))
  {
    forall i | 0 <= i < |s.shared.unfiredPages| ensures OwnRows(After(s.trace, e), s.shared.unfiredPages[i].rows) {
      OwnAfter(s.trace, e, s.shared.unfiredPages[i].rows);
    }
    forall w | 0 <= w < |s.workers| && s.workers[w].Page().Some?
        ensures OwnRows(After(s.trace, e), RowsIn(s.workers[w])) {
      OwnAfter(s.trace, e, RowsIn(s.workers[w]));
    }
  }

  lemma BeginKeepsRows(s: System, job: Job, rows: PageRows, current: bool)
    requires RowsHeldAreOwn(s) && Numbered(s.trace) && OwnRows(s.trace, rows)
    ensures RowsHeldAreOwn(s.(workers := s.workers + [Begin(job, rows)], trace := Open(s.trace, job, rows, current)))
  {
    var s1 := s.(workers := s.workers + [Begin(job, rows)]);
    assert RowsIn(Begin(job, rows)) == rows;
    assert RowsHeldAreOwn(s1);
    if rows.Built? {
      EventKeepsRows(s1, Opened(rows.rows, job.lists, job.drains, current));
    }
  }

  lemma SettlingKeepsRows(s: System, e: Event, outcome: Outcome, unfired: Option<Lists>)
    requires RowsHeldAreOwn(s) && OnLastPage(s)
    requires e == Settled(Settles(s.trace), outcome) || (e == Dropped(Settles(s.trace)) && outcome == Errored(DROPPED))
    ensures var request := Settle(s.shared.request, Settles(s.trace), outcome, unfired);
            RowsHeldAreOwn(s.(shared := s.shared.(request := request), trace := After(s.trace, e)))
  {
    forall i | 0 <= i < |s.shared.unfiredPages| ensures OwnRows(After(s.trace, e), s.shared.unfiredPages[i].rows) {
      OwnAfter(s.trace, e, s.shared.unfiredPages[i].rows);
    }
    forall w | 0 <= w < |s.workers| && s.workers[w].Page().Some?
        ensures OwnRows(After(s.trace, e), RowsIn(s.workers[w])) {
      OwnAfter(s.trace, e, RowsIn(s.workers[w]));
    }
  }

  lemma TearDownKeepsRows(s: System, t: nat)
    requires t < |s.tasks| && OnLastPage(s) && RowsHeldAreOwn(s)
    ensures RowsHeldAreOwn(DoTearDown(s, t))
  {
    var n := Settles(s.trace);
    var (shared, taken) := CompleteDropped(s.shared, n);
    if !s.tasks[t].Unpolled? && taken.Some? {
      SettlingKeepsRows(s, Dropped(n), Errored(DROPPED), None);
      var s1 := System(shared, s.tasks[t := Signalled], s.workers, After(s.trace, Dropped(n)));
      BeginKeepsRows(s1, Job(taken.value, false), Built(Rows(n, false, DROPPED)), true);
    }
  }

  lemma AddCallbackKeepsRows(s: System, d: Delivery)
    requires OnLastPage(s) && RowsHeldAreOwn(s)
    ensures RowsHeldAreOwn(DoAddCallback(s, d))
  {
    var c := Registrations(s.trace);
    var (shared, rows) := Register(s.shared, d, c);
    var s1 := s.(shared := shared);
    EventKeepsRows(s1, Registered(c, d));
    if rows.Some? {
      BeginKeepsRows(s1.(trace := After(s.trace, Registered(c, d))), Job(EMPTY.Push(d, c), false), rows.value, true);
    }
  }

  lemma LookingKeepsRows(s: System, w: nat)
    requires w < |s.workers| && OnLastPage(s) && RowsHeldAreOwn(s)
    ensures RowsHeldAreOwn(DoDrainerLooks(s, w))
  {
    var (shared, next) := DrainerNext(s.shared);
    if next.Some? {
      var rows, job := next.value.rows, Job(next.value.unfired, true);
      var s1 := s.(shared := shared, workers := s.workers[w := Begin(job, rows)]);
      assert OwnRows(s.trace, rows) && RowsIn(Begin(job, rows)) == rows;
      EventKeepsRows(s1, Took(rows.No()));
      if rows.Built? {
        EventKeepsRows(s1.(trace := After(s.trace, Took(rows.No()))),
                       Opened(rows.rows, job.lists, job.drains, s.shared.unfiredPages == []));
      }
    }
  }

  lemma KeepBuiltKeepsRows(s: System, w: nat)
    requires w < |s.workers| && s.workers[w].Storing? && OnLastPage(s) && RowsHeldAreOwn(s)
    ensures RowsHeldAreOwn(DoKeepBuiltRows(s, w))
  {
    var Storing(job, built) := s.workers[w];
    var (shared, rows) := KeepRows(s.shared, built.no, built);
    assert OwnRows(s.trace, RowsIn(s.workers[w])) && rows.no == built.no;
    var s1 := s.(shared := shared, workers := s.workers[w := Delivering(job, rows, 0)]);
    EventKeepsRows(s1, DoKeepBuiltRows(s, w).trace.event);
  }

  lemma RunNextKeepsRows(s: System, w: nat)
    requires w < |s.workers| && s.workers[w].Delivering? && OnLastPage(s) && RowsHeldAreOwn(s)
    ensures RowsHeldAreOwn(DoRunNext(s, w))
  {
    var Delivering(job, rows, next) := s.workers[w];
    assert OwnRows(s.trace, RowsIn(s.workers[w]));
    if next < |job.lists.For(rows.Delivered())| {
      EventKeepsRows(s.(workers := DoRunNext(s, w).workers), DoRunNext(s, w).trace.event);
    }
  }

  lemma BuildKeepsRows(s: System, w: nat, ok: bool, id: nat)
    requires CanStep(s, BuildRows(w, ok, id)) && RowsHeldAreOwn(s)
    ensures RowsHeldAreOwn(Next(s, BuildRows(w, ok, id)))
  {
    assert OwnRows(s.trace, RowsIn(s.workers[w]));
  }

  lemma StepKeepsRows(s: System, step: Step)
    requires CanStep(s, step) && OneRequest(s) && OnLastPage(s) && RowsHeldAreOwn(s)
    ensures RowsHeldAreOwn(Next(s, step))
  {
    match step
    case CompleteRequest(t, outcome) =>
      SettlingKeepsRows(s, Settled(Settles(s.trace), outcome), outcome,
          DoComplete(s, t, outcome).shared.request.Unfired());
    case TearDownRequest(t) => TearDownKeepsRows(s, t);
    case AddCallback(d) => AddCallbackKeepsRows(s, d);
    case Clear => EventKeepsRows(s, Cleared);
    case StartFetchingNextPage => EventKeepsRows(s, Paged);
    case ReadRows =>
      if s.shared.request.RowsNow().Some? {
        BeginKeepsRows(s, Job(EMPTY, false), s.shared.request.RowsNow().value, true);
      }
    case DrainerLooks(w) => LookingKeepsRows(s, w);
    case BuildRows(w, ok, id) => BuildKeepsRows(s, w, ok, id);
    case KeepBuiltRows(w) => KeepBuiltKeepsRows(s, w);
    case RunNext(w) => RunNextKeepsRows(s, w);
    case _ =>
  }

  lemma {:induction false} EveryRunKeepsRows(r: Run)
    requires Possible(r)
    ensures RowsHeldAreOwn(StateOf(r))
  {
    if r.Then? {
      EveryRunKeepsRows(r.before);
      EveryRunKeepsBasics(r.before);
      StepKeepsRows(StateOf(r.before), r.step);
    }
  }

  /** While page `no` is current, whoever has its rows has the ones stored with it. */
  ghost predicate OneList(s: System, no: nat) {
    var first := FirstRows(s.trace, no);
    && ReadersAgree(s.trace, no)
    && (no >= Settles(s.trace) ==> first.None?)
    && (first.Some? ==> first.value.no == no)
    && (first.Some? && Current(s.trace) == Some(no) ==> s.shared.request.RowsNow() == Some(Built(first.value)))
  }

  lemma OpenAgrees(t: Trace, job: Job, rows: PageRows, current: bool, no: nat)
    requires ReadersAgree(t, no)
    requires current && rows.Built? && rows.rows.no == no && FirstRows(t, no).Some? ==>
        FirstRows(t, no).value == rows.rows
    ensures var t' := Open(t, job, rows, current);
            && ReadersAgree(t', no) && Current(t') == Current(t) && Settles(t') == Settles(t)
            && FirstRows(t', no) == (if FirstRows(t, no).None? && current && rows.Built? && rows.rows.no == no
                                     then Some(rows.rows) else FirstRows(t, no))
  {
  }

  lemma TearDownKeepsOneList(s: System, t: nat, no: nat)
    requires t < |s.tasks| && OnLastPage(s) && OneList(s, no)
    ensures OneList(DoTearDown(s, t), no)
  {
    var n := Settles(s.trace);
    var (_, taken) := CompleteDropped(s.shared, n);
    if !s.tasks[t].Unpolled? && taken.Some? {
      OpenAgrees(After(s.trace, Dropped(n)), Job(taken.value, false), Built(Rows(n, false, DROPPED)), true, no);
    }
  }

  lemma AddCallbackKeepsOneList(s: System, d: Delivery, no: nat)
    requires OnLastPage(s) && OneList(s, no)
    ensures OneList(DoAddCallback(s, d), no)
  {
    var c := Registrations(s.trace);
    var (_, rows) := Register(s.shared, d, c);
    if rows.Some? {
      OpenAgrees(After(s.trace, Registered(c, d)), Job(EMPTY.Push(d, c), false), rows.value, true, no);
    }
  }

  lemma ReadRowsKeepsOneList(s: System, no: nat)
    requires OnLastPage(s) && OneList(s, no)
    ensures OneList(DoReadRows(s), no)
  {
    if s.shared.request.RowsNow().Some? {
      OpenAgrees(s.trace, Job(EMPTY, false), s.shared.request.RowsNow().value, true, no);
    }
  }

  lemma LookingKeepsOneList(s: System, w: nat, no: nat)
    requires w < |s.workers| && OnLastPage(s) && OneList(s, no)
    ensures OneList(DoDrainerLooks(s, w), no)
  {
    var (_, next) := DrainerNext(s.shared);
    if next.Some? {
      OpenAgrees(After(s.trace, Took(next.value.rows.No())), Job(next.value.unfired, true), next.value.rows,
                 s.shared.unfiredPages == [], no);
    }
  }

  lemma StepKeepsOneList(s: System, step: Step, no: nat)
    requires CanStep(s, step) && OneRequest(s) && OnLastPage(s)
    requires OneList(s, no)
    ensures OneList(Next(s, step), no)
  {
    match step
    case CompleteRequest(t, outcome) => SettlesOnlyPending(s, t);
    case TearDownRequest(t) => TearDownKeepsOneList(s, t, no);
    case AddCallback(d) => AddCallbackKeepsOneList(s, d, no);
    case ReadRows => ReadRowsKeepsOneList(s, no);
    case DrainerLooks(w) => LookingKeepsOneList(s, w, no);
    case _ =>
  }

  lemma {:induction false} EveryRunKeepsOneList(r: Run, no: nat)
    requires Possible(r)
    ensures OneList(StateOf(r), no)
  {
    if r.Then? {
      EveryRunKeepsOneList(r.before, no);
      EveryRunKeepsBasics(r.before);
      StepKeepsOneList(StateOf(r.before), r.step, no);
    }
  }

  // ---------------------------------------------------------------- the drainer goes page by page

  /** Where the drainer is: what it took, had rows for and called, against what it should. */
  ghost predicate Progress(t: Trace, w: Worker) {
    match w
    case Looking => DueCalls(t) == DrainerCalls(t) && Taken(t) == OpenedByDrainer(t)
    case Building(_, no) => DueCalls(t) == DrainerCalls(t) && Taken(t) == OpenedByDrainer(t) + [no]
    case Storing(_, built) => DueCalls(t) == DrainerCalls(t) && Taken(t) == OpenedByDrainer(t) + [built.no]
    case Delivering(_, rows, _) => DueCalls(t) == DrainerCalls(t) + Calls(w.Left(), rows)
        && Taken(t) == OpenedByDrainer(t)
    case Finished => true
  }

  ghost predicate InProgress(s: System) {
    && (s.shared.permit ==> Progress(s.trace, Looking))
    && (forall w :: 0 <= w < |s.workers| && s.workers[w].HoldsToken() ==> Progress(s.trace, s.workers[w]))
    && OpensOwnLists(s.trace)
  }

  /** What the drainer opens a page with is the list of that page. */
  ghost predicate OpensOwnLists(t: Trace) {
    match t
    case Start => true
    case After(before, e) =>
      && OpensOwnLists(before)
      && (e.Opened? && e.drains ==> e.lists == ListOf(before, e.rows.no) && !OpenFor(before, e.rows.no))
  }

  lemma OnlyDrainer(s: System, v: nat, w: nat)
    requires OneToken(s) && v < |s.workers| && w < |s.workers| && v != w
    requires s.workers[v].HoldsToken()
    ensures !s.workers[w].HoldsToken() && !s.shared.permit
  {
    SumAtLeast(s.workers, v, Token);
    SumAtLeastTwo(s.workers, if v < w then v else w, if v < w then w else v, Token);
  }

  /** A step of the drainer that leaves it in good order leaves the system so. */
  lemma DrainerStep(s: System, w: nat, w': Worker, shared: Shared, t: Trace)
    requires OneToken(s) && w < |s.workers| && s.workers[w].HoldsToken()
    requires OpensOwnLists(t)
    requires if w'.HoldsToken() then Progress(t, w') && !shared.permit else Progress(t, Looking)
    ensures InProgress(s.(shared := shared, workers := s.workers[w := w'], trace := t))
  {
    forall v | 0 <= v < |s.workers| && v != w ensures !s.workers[v].HoldsToken() {
      OnlyDrainer(s, w, v);
    }
  }

  lemma LookingKeepsProgress(s: System, w: nat)
    requires w < |s.workers| && s.workers[w].Looking?
    requires OneToken(s) && OnLastPage(s) && OwnLists(s) && InProgress(s)
    ensures InProgress(DoDrainerLooks(s, w))
  {
    SumAtLeast(s.workers, w, Token);
    var (shared, next) := DrainerNext(s.shared);
    assert Progress(s.trace, s.workers[w]);
    if next.None? {
      DrainerStep(s, w, Finished, shared, s.trace);
    } else {
      var rows, job := next.value.rows, Job(next.value.unfired, true);
      var t1 := After(s.trace, Took(rows.No()));
      var t2 := Open(t1, job, rows, s.shared.unfiredPages == []);
      assert !OpenFor(t1, rows.No()) && next.value.unfired == ListOf(t1, rows.No());
      if rows.Built? {
        var cbs := job.lists.For(rows.rows.Delivered());
        assert cbs[0..] == cbs;
      }
      DrainerStep(s, w, Begin(job, rows), shared, t2);
    }
  }

  lemma KeepBuiltKeepsProgress(s: System, w: nat)
    requires w < |s.workers| && s.workers[w].Storing?
    requires OneToken(s) && OnLastPage(s) && OwnLists(s) && InProgress(s)
    ensures InProgress(DoKeepBuiltRows(s, w))
  {
    var Storing(job, built) := s.workers[w];
    var s' := DoKeepBuiltRows(s, w);
    assert DrainsOwnList(s.trace, s.workers[w]);
    if job.drains {
      SumAtLeast(s.workers, w, Token);
      var cbs := job.lists.For(s'.workers[w].rows.Delivered());
      assert cbs[0..] == cbs;
      DrainerStep(s, w, s'.workers[w], s'.shared, s'.trace);
    }
  }

  lemma RunNextKeepsProgress(s: System, w: nat)
    requires w < |s.workers| && s.workers[w].Delivering?
    requires OneToken(s) && InProgress(s)
    ensures InProgress(DoRunNext(s, w))
  {
    var Delivering(job, rows, next) := s.workers[w];
    var s' := DoRunNext(s, w);
    if job.drains {
      SumAtLeast(s.workers, w, Token);
      assert Progress(s.trace, s.workers[w]);
      var cbs := job.lists.For(rows.Delivered());
      if next < |cbs| {
        assert Calls(cbs[next..], rows) == [(cbs[next], rows)] + Calls(cbs[next + 1..], rows);
      }
      DrainerStep(s, w, s'.workers[w], s'.shared, s'.trace);
    }
  }

  /** What other threads do is no progress of the drainer's. */
  ghost predicate NotTheDrainers(e: Event) {
    !e.Took? && !(e.Opened? && e.drains) && !(e.Invoked? && e.drains)
  }

  lemma OthersKeepProgress(s: System, e: Event)
    requires InProgress(s) && NotTheDrainers(e)
    ensures InProgress(s.(trace := After(s.trace, e)))
  {
    var t, t' := s.trace, After(s.trace, e);
    assert DueCalls(t') == DueCalls(t) && DrainerCalls(t') == DrainerCalls(t);
    assert Taken(t') == Taken(t) && OpenedByDrainer(t') == OpenedByDrainer(t);
  }

  lemma NewThreadKeepsProgress(s: System, job: Job, rows: PageRows, current: bool)
    requires InProgress(s) && !job.drains
    ensures InProgress(s.(workers := s.workers + [Begin(job, rows)], trace := Open(s.trace, job, rows, current)))
  {
    var s1 := s.(workers := s.workers + [Begin(job, rows)]);
    if rows.Built? {
      OthersKeepProgress(s1, Opened(rows.rows, job.lists, false, current));
    }
  }

  lemma TearDownKeepsProgress(s: System, t: nat)
    requires t < |s.tasks| && InProgress(s)
    ensures InProgress(DoTearDown(s, t))
  {
    var n := Settles(s.trace);
    var (shared, taken) := CompleteDropped(s.shared, n);
    if !s.tasks[t].Unpolled? && taken.Some? {
      OthersKeepProgress(s, Dropped(n));
      NewThreadKeepsProgress(System(shared, s.tasks[t := Signalled], s.workers, After(s.trace, Dropped(n))),
                             Job(taken.value, false), Built(Rows(n, false, DROPPED)), true);
    }
  }

  lemma AddCallbackKeepsProgress(s: System, d: Delivery)
    requires InProgress(s)
    ensures InProgress(DoAddCallback(s, d))
  {
    var c := Registrations(s.trace);
    var (shared, rows) := Register(s.shared, d, c);
    OthersKeepProgress(s, Registered(c, d));
    if rows.Some? {
      NewThreadKeepsProgress(s.(shared := shared, trace := After(s.trace, Registered(c, d))),
                             Job(EMPTY.Push(d, c), false), rows.value, true);
    }
  }

  lemma StepKeepsProgress(s: System, step: Step)
    requires CanStep(s, step) && OneToken(s) && OnLastPage(s) && OwnLists(s) && InProgress(s)
    ensures InProgress(Next(s, step))
  {
    match step
    case CompleteRequest(t, outcome) => OthersKeepProgress(s, Settled(Settles(s.trace), outcome));
    case TearDownRequest(t) => TearDownKeepsProgress(s, t);
    case AddCallback(d) => AddCallbackKeepsProgress(s, d);
    case Clear => OthersKeepProgress(s, Cleared);
    case StartFetchingNextPage => OthersKeepProgress(s, Paged);
    case ReadRows =>
      if s.shared.request.RowsNow().Some? {
        NewThreadKeepsProgress(s, Job(EMPTY, false), s.shared.request.RowsNow().value, true);
      }
    case DrainerLooks(w) => LookingKeepsProgress(s, w);
    case BuildRows(w, ok, id) =>
      if s.workers[w].job.drains {
        SumAtLeast(s.workers, w, Token);
        DrainerStep(s, w, Next(s, step).workers[w], s.shared, s.trace);
      }
    case KeepBuiltRows(w) => KeepBuiltKeepsProgress(s, w);
    case RunNext(w) => RunNextKeepsProgress(s, w);
    case _ =>
  }

  lemma {:induction false} EveryRunKeepsProgress(r: Run)
    requires Possible(r)
    ensures InProgress(StateOf(r))
  {
    if r.Then? {
      EveryRunKeepsProgress(r.before);
      EveryRunKeepsBasics(r.before);
      StepKeepsProgress(StateOf(r.before), r.step);
    }
  }
}
