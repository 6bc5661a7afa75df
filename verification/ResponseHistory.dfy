/** The history a `ResponseFuture` keeps is the one the steps of its run tell, and the rows its
    readers and callbacks get are the ones that were built, or the errors of the requests. */
module ResponseHistory {
  import opened Common
  import opened Pager
  import opened Callbacks
  import opened RequestState
  import opened ResponseShared
  import opened ResponseTrace
  import opened ResponseProtocol
  import opened ResponseTheorems
  import opened ResponseOutcomes

  // ------------------------------------------------------------------------- what the steps tell

  ghost predicate TaskPolled(r: Run, t: nat) {
    r.Then? && (r.step == PollRequest(t) || TaskPolled(r.before, t))
  }

  /** What the last page received said about the pages after it. */
  ghost function LastPager(t: Trace): Option<Pager> {
    match t
    case Start => None
    case After(_, Settled(_, Got(pager))) => Some(pager)
    case After(before, _) => LastPager(before)
  }

  /** Registrations, clears and requests, as the steps tell them: a request torn down ends only
      if it was polled, and paging starts only from a settled request with more pages. */
  ghost function Told(r: Run): Trace {
    match r
    case Begun => Start
    case Then(before, AddCallback(d)) => After(Told(before), Registered(Registrations(Told(before)), d))
    case Then(before, Clear) => After(Told(before), Cleared)
    case Then(before, CompleteRequest(_, outcome)) => After(Told(before), Settled(Settles(Told(before)), outcome))
    case Then(before, TearDownRequest(t)) =>
      if TaskPolled(before, t) then After(Told(before), Dropped(Settles(Told(before)))) else Told(before)
    case Then(before, StartFetchingNextPage) =>
      var last := LastPager(Told(before));
      if Current(Told(before)).Some? && last.Some? && last.value.HasMore() then After(Told(before), Event.Paged)
      else Told(before)
    case Then(before, _) => Told(before)
  }

  // ------------------------------------------------------------------------- is what is recorded

  predicate IsTold(e: Event) {
    e.Registered? || e.Cleared? || e.Settled? || e.Dropped? || e.Paged?
  }

  /** The history without what the threads do. */
  ghost function Outer(t: Trace): Trace {
    match t
    case Start => Start
    case After(before, e) => if IsTold(e) then After(Outer(before), e) else Outer(before)
  }

  /** Without that it says the same about callbacks and pages. */
  lemma {:induction false} OuterSaysTheSame(t: Trace)
    ensures Registrations(Outer(t)) == Registrations(t) && Settles(Outer(t)) == Settles(t)
    ensures Current(Outer(t)) == Current(t) && LastPager(Outer(t)) == LastPager(t) && Live(Outer(t)) == Live(t)
  {
    if t.After? {
      OuterSaysTheSame(t.before);
    }
  }

  lemma {:induction false} OuterOwesTheSame(t: Trace, cb: nat, no: nat)
    ensures Kind(Outer(t), cb) == Kind(t, cb) && OutcomeOf(Outer(t), no) == OutcomeOf(t, no)
    ensures Owed(Outer(t), cb, no) == Owed(t, cb, no)
  {
    if t.After? {
      OuterOwesTheSame(t.before, cb, no);
      OuterSaysTheSame(t.before);
    }
  }

  ghost predicate PolledNow(s: System, t: nat) {
    t < |s.tasks| && (s.tasks[t].Polled? || s.tasks[t].Signalled?)
  }

  ghost predicate KeepsPager(s: System) {
    var page := s.shared.request.LastPage();
    LastPager(s.trace) == if page.Some? then Some(page.value.pager) else None
  }

  /** The tasks polled are those the steps polled, and the last page kept is the last received. */
  ghost predicate Faithful(r: Run)
    requires Possible(r)
  {
    && Outer(StateOf(r).trace) == Told(r)
    && (forall t: nat :: TaskPolled(r, t) <==> PolledNow(StateOf(r), t))
    && KeepsPager(StateOf(r))
  }

  lemma StepKeepsPager(s: System, step: Step)
    requires CanStep(s, step) && KeepsPager(s)
    ensures KeepsPager(Next(s, step))
  {
  }

  lemma OnlyPollingPolls(s: System, step: Step, t: nat)
    requires CanStep(s, step)
    ensures PolledNow(Next(s, step), t) <==> step == PollRequest(t) || PolledNow(s, t)
  {
  }

  /** What a step adds to what is told. */
  ghost function Adds(s: System, step: Step): Option<Event>
    requires CanStep(s, step)
  {
    match step
    case AddCallback(d) => Some(Registered(Registrations(s.trace), d))
    case Clear => Some(Cleared)
    case CompleteRequest(_, outcome) => Some(Settled(Settles(s.trace), outcome))
    case TearDownRequest(t) => if PolledNow(s, t) then Some(Dropped(Settles(s.trace))) else None
    case StartFetchingNextPage =>
      if !s.shared.request.Pending? && s.shared.request.HasMorePages() then Some(Event.Paged) else None
    case _ => None
  }

  lemma StepAdds(s: System, step: Step)
    requires CanStep(s, step) && OneRequest(s)
    ensures Outer(Next(s, step).trace) ==
              match Adds(s, step)
              case None => Outer(s.trace)
              case Some(e) => After(Outer(s.trace), e)
  {
    if step.TearDownRequest? && s.tasks[step.task].Polled? {
      SettlesOnlyPending(s, step.task);
    }
  }

  lemma StepIsTold(r: Run, step: Step)
    requires Possible(Then(r, step)) && Faithful(r) && Basics(StateOf(r))
    ensures Outer(StateOf(Then(r, step)).trace) == Told(Then(r, step))
  {
    OuterSaysTheSame(StateOf(r).trace);
    StepAdds(StateOf(r), step);
  }

  /** Over every run: the history is the one the steps tell. */
  lemma {:induction false} HistoryIsTold(r: Run)
    requires Possible(r)
    ensures Faithful(r)
  {
    if r.Then? {
      HistoryIsTold(r.before);
      EveryRunKeepsBasics(r.before);
      StepKeepsPager(StateOf(r.before), r.step);
      forall t: nat ensures TaskPolled(r, t) <==> PolledNow(StateOf(r), t) {
        OnlyPollingPolls(StateOf(r.before), r.step, t);
      }
      StepIsTold(r.before, r.step);
    }
  }

  /** So from the steps alone: for every request that ended, no callback runs twice or without
      being due, and once the threads are done those that ran are exactly those due, of the kind
      they were registered as, that the outcome is for. */
  lemma CallbacksRunAsTold(r: Run, cb: nat, no: nat, ok: bool)
    requires Possible(r) && FactoryDecides(r, no, ok) && OutcomeOf(Told(r), no).Some?
    ensures var t := StateOf(r).trace;
            && Runs(t, cb, no) <= Owed(Told(r), cb, no) <= 1
            && (Quiet(StateOf(r)) ==> (Runs(t, cb, no) == 1 <==>
                  Owed(Told(r), cb, no) == 1 && Kind(Told(r), cb) == Some(PageKind(OutcomeOf(Told(r), no).value, ok))))
  {
    HistoryIsTold(r);
    OuterOwesTheSame(StateOf(r).trace, cb, no);
    PagesRunTheirKind(r, cb, no, ok);
  }

  // ----------------------------------------------------------------------------- whose rows

  /** The rows a step makes: those built for a page, or the error of a request. */
  ghost function MadeIn(s: System, step: Step): set<Rows>
    requires CanStep(s, step)
  {
    match step
    case BuildRows(w, ok, id) => {Rows(s.workers[w].no, ok, id)}
    case CompleteRequest(_, Errored(error)) => {Rows(Settles(s.trace), false, error)}
    case TearDownRequest(_) => {Rows(Settles(s.trace), false, 0)}
    case _ => {}
  }

  ghost function Made(r: Run): set<Rows>
    requires Possible(r)
  {
    if r.Begun? then {} else Made(r.before) + MadeIn(StateOf(r.before), r.step)
  }

  ghost predicate IsMade(made: set<Rows>, rows: PageRows) {
    rows.Built? ==> rows.rows in made
  }

  ghost predicate WorkerMade(made: set<Rows>, w: Worker) {
    (w.Storing? ==> w.built in made) && (w.Delivering? ==> w.rows in made)
  }

  /** All rows that were read or handed to callbacks. */
  ghost predicate OpensMade(t: Trace, made: set<Rows>) {
    match t
    case Start => true
    case After(before, e) =>
      OpensMade(before, made) && (e.Opened? ==> e.rows in made) && (e.Invoked? ==> e.rows in made)
  }

  ghost predicate AllMade(s: System, made: set<Rows>) {
    && OpensMade(s.trace, made)
    && (s.shared.request.RowsNow().Some? ==> IsMade(made, s.shared.request.RowsNow().value))
    && (forall i :: 0 <= i < |s.shared.unfiredPages| ==> IsMade(made, s.shared.unfiredPages[i].rows))
    && (forall w :: 0 <= w < |s.workers| ==> WorkerMade(made, s.workers[w]))
  }

  lemma {:induction false} OpensMadeStill(t: Trace, made: set<Rows>, more: set<Rows>)
    requires OpensMade(t, made) && made <= more
    ensures OpensMade(t, more)
  {
    if t.After? {
      OpensMadeStill(t.before, made, more);
    }
  }

  lemma AllMadeStill(s: System, made: set<Rows>, more: set<Rows>)
    requires AllMade(s, made) && made <= more
    ensures AllMade(s, more)
  {
    OpensMadeStill(s.trace, made, more);
  }

  lemma BeginMade(s: System, job: Job, rows: PageRows, current: bool, made: set<Rows>)
    requires AllMade(s, made) && IsMade(made, rows)
    ensures WorkerMade(made, Begin(job, rows)) && OpensMade(Open(s.trace, job, rows, current), made)
    ensures AllMade(s.(workers := s.workers + [Begin(job, rows)], trace := Open(s.trace, job, rows, current)), made)
  {
  }

  lemma AddCallbackMade(s: System, kind: Delivery, made: set<Rows>)
    requires AllMade(s, made)
    ensures AllMade(DoAddCallback(s, kind), made)
  {
    var c := Registrations(s.trace);
    var (shared, rows) := Register(s.shared, kind, c);
    var s1 := s.(shared := shared, trace := After(s.trace, Registered(c, kind)));
    assert AllMade(s1, made);
    if rows.Some? {
      BeginMade(s1, Job(EMPTY.Push(kind, c), false), rows.value, true, made);
    }
  }

  lemma LookingMade(s: System, w: nat, made: set<Rows>)
    requires w < |s.workers| && AllMade(s, made)
    ensures AllMade(DoDrainerLooks(s, w), made)
  {
    var (shared, next) := DrainerNext(s.shared);
    if next.Some? {
      var job, rows := Job(next.value.unfired, true), next.value.rows;
      var s1 := s.(shared := shared, trace := After(s.trace, Took(rows.No())));
      assert AllMade(s1, made);
      BeginMade(s1, job, rows, s.shared.unfiredPages == [], made);
    }
  }

  lemma TearDownMade(s: System, t: nat, made: set<Rows>)
    requires t < |s.tasks| && AllMade(s, made) && Rows(Settles(s.trace), false, 0) in made
    ensures AllMade(DoTearDown(s, t), made)
  {
  }

  lemma CompleteMade(s: System, t: nat, outcome: Outcome, made: set<Rows>)
    requires t < |s.tasks| && AllMade(s, made)
    requires outcome.Errored? ==> Rows(Settles(s.trace), false, outcome.error) in made
    ensures AllMade(DoComplete(s, t, outcome), made)
  {
  }

  lemma OwnStepMade(s: System, step: Step, made: set<Rows>)
    requires CanStep(s, step) && AllMade(s, made) && MadeIn(s, step) <= made
    requires step.BuildRows? || step.KeepBuiltRows? || step.RunNext?
    ensures AllMade(Next(s, step), made)
  {
    assert WorkerMade(made, s.workers[step.worker]);
  }

  lemma StepMakes(s: System, step: Step, made: set<Rows>)
    requires CanStep(s, step) && AllMade(s, made) && MadeIn(s, step) <= made
    ensures AllMade(Next(s, step), made)
  {
    match step
    case CompleteRequest(t, outcome) => CompleteMade(s, t, outcome, made);
    case TearDownRequest(t) => TearDownMade(s, t, made);
    case AddCallback(kind) => AddCallbackMade(s, kind, made);
    case ReadRows =>
      if s.shared.request.RowsNow().Some? {
        BeginMade(s, Job(EMPTY, false), s.shared.request.RowsNow().value, true, made);
      }
    case DrainerLooks(w) => LookingMade(s, w, made);
    case BuildRows(_, _, _) => OwnStepMade(s, step, made);
    case KeepBuiltRows(_) => OwnStepMade(s, step, made);
    case RunNext(_) => OwnStepMade(s, step, made);
    case _ =>
  }

  /** Over every run: whatever rows a reader or a callback got, some thread built those very rows
      for that page, or they are the error that page's request ended with. */
  lemma {:induction false} RowsAreTheOnesMade(r: Run)
    requires Possible(r)
    ensures AllMade(StateOf(r), Made(r))
  {
    if r.Then? {
      RowsAreTheOnesMade(r.before);
      AllMadeStill(StateOf(r.before), Made(r.before), Made(r));
      StepMakes(StateOf(r.before), r.step, Made(r));
    }
  }

  lemma ReadingBegins(s: System)
    requires OnLastPage(s)
    ensures match Current(s.trace)
            case None => DoReadRows(s) == s
            case Some(no) =>
              && |DoReadRows(s).workers| == |s.workers| + 1
              && DoReadRows(s).workers[|s.workers|].Page() == Some(no)
  {
  }

  /** Whoever asks for the rows of a settled request goes on with that page. */
  lemma ReadersReadTheCurrentPage(r: Run)
    requires Possible(r)
    ensures var s, s' := StateOf(r), StateOf(Then(r, ReadRows));
            match Current(Told(r))
            case None => s' == s
            case Some(no) => |s'.workers| == |s.workers| + 1 && s'.workers[|s.workers|].Page() == Some(no)
  {
    assert Current(Told(r)) == Current(StateOf(r).trace) by {
      HistoryIsTold(r);
      OuterSaysTheSame(StateOf(r).trace);
    }
    assert OnLastPage(StateOf(r)) by {
      EveryRunKeepsBasics(r);
    }
    ReadingBegins(StateOf(r));
  }
}
