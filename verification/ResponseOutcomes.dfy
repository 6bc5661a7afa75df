/** What a received page offers its callbacks: a list if the row factory builds it, and nothing
    but the factory's error if it does not. Rows may be built by several threads, so this takes
    that the factory's outcome depends on the page alone. */
module ResponseOutcomes {
  import opened Common
  import opened Callbacks
  import opened RequestState
  import opened ResponseShared
  import opened ResponseTrace
  import opened GuardedTask
  import opened ResponseProtocol
  import opened ResponseTheorems

  /** Whoever builds the rows of page `no` gets the same outcome. */
  ghost predicate FactoryDecides(r: Run, no: nat, ok: bool)
    requires Possible(r)
  {
    r.Then? ==> FactoryDecides(r.before, no, ok) && BuildsAs(StateOf(r.before), r.step, no, ok)
  }

  ghost predicate BuildsAs(s: System, step: Step, no: nat, ok: bool)
    requires CanStep(s, step)
  {
    step.BuildRows? && s.workers[step.worker].no == no ==> step.ok == ok
  }

  ghost predicate NotErrored(t: Trace, no: nat) {
    OutcomeOf(t, no).Some? ==> OutcomeOf(t, no).value.Got?
  }

  /** Rows of page `no` are for the callbacks of kind `d`. */
  ghost predicate Fit(rows: PageRows, no: nat, d: Delivery) {
    rows.Built? && rows.rows.no == no ==> rows.rows.Delivered() == d
  }

  ghost predicate WorkerFits(w: Worker, no: nat, d: Delivery) {
    && (w.Storing? ==> Fit(Built(w.built), no, d))
    && (w.Delivering? ==> Fit(Built(w.rows), no, d))
  }

  /** Every set of rows of page `no` that is about, or was handed to callbacks, is of kind `d`. */
  ghost predicate AllFit(s: System, no: nat, d: Delivery) {
    && OfferedAs(s.trace, no, d)
    && (s.shared.request.RowsNow().Some? ==> Fit(s.shared.request.RowsNow().value, no, d))
    && (forall i :: 0 <= i < |s.shared.unfiredPages| ==> Fit(s.shared.unfiredPages[i].rows, no, d))
    && (forall w :: 0 <= w < |s.workers| ==> WorkerFits(s.workers[w], no, d))
  }

  function KindOf(ok: bool): Delivery {
    if ok then Callbacks else Errbacks
  }

  /** A thread begins on rows that fit. */
  lemma BeginFits(s: System, job: Job, rows: PageRows, current: bool, no: nat, d: Delivery)
    requires AllFit(s, no, d) && Fit(rows, no, d)
    ensures WorkerFits(Begin(job, rows), no, d) && OfferedAs(Open(s.trace, job, rows, current), no, d)
    ensures AllFit(s.(workers := s.workers + [Begin(job, rows)], trace := Open(s.trace, job, rows, current)), no, d)
  {
  }

  lemma SettlingFits(s: System, t: nat, outcome: Outcome, no: nat, d: Delivery)
    requires t < |s.tasks| && s.shared.request.Pending? && AllFit(s, no, d)
    requires NotErrored(DoComplete(s, t, outcome).trace, no)
    ensures AllFit(DoComplete(s, t, outcome), no, d)
  {
  }

  lemma TearDownFits(s: System, t: nat, no: nat, d: Delivery)
    requires t < |s.tasks| && AllFit(s, no, d) && NotErrored(DoTearDown(s, t).trace, no)
    ensures AllFit(DoTearDown(s, t), no, d)
  {
    var n := Settles(s.trace);
    var (shared, taken) := CompleteDropped(s.shared, n);
    if !s.tasks[t].Unpolled? && taken.Some? {
      var rows := Built(Rows(n, false, DROPPED));
      assert OutcomeOf(DoTearDown(s, t).trace, n) == Some(Errored(DROPPED));
      var s1 := System(shared, s.tasks[t := Signalled], s.workers, After(s.trace, Dropped(n)));
      BeginFits(s1, Job(taken.value, false), rows, true, no, d);
    }
  }

  lemma AddCallbackFits(s: System, kind: Delivery, no: nat, d: Delivery)
    requires AllFit(s, no, d)
    ensures AllFit(DoAddCallback(s, kind), no, d)
  {
    var c := Registrations(s.trace);
    var (shared, rows) := Register(s.shared, kind, c);
    var s1 := s.(shared := shared, trace := After(s.trace, Registered(c, kind)));
    assert AllFit(s1, no, d);
    if rows.Some? {
      BeginFits(s1, Job(EMPTY.Push(kind, c), false), rows.value, true, no, d);
    }
  }

  lemma LookingFits(s: System, w: nat, no: nat, d: Delivery)
    requires w < |s.workers| && AllFit(s, no, d)
    ensures AllFit(DoDrainerLooks(s, w), no, d)
  {
    var (shared, next) := DrainerNext(s.shared);
    if next.Some? {
      var job, rows := Job(next.value.unfired, true), next.value.rows;
      var s1 := s.(shared := shared, trace := After(s.trace, Took(rows.No())));
      assert AllFit(s1, no, d);
      BeginFits(s1, job, rows, s.shared.unfiredPages == [], no, d);
    }
  }

  lemma KeepBuiltFits(s: System, w: nat, no: nat, d: Delivery)
    requires w < |s.workers| && s.workers[w].Storing? && AllFit(s, no, d)
    ensures AllFit(DoKeepBuiltRows(s, w), no, d)
  {
    assert WorkerFits(s.workers[w], no, d);
  }

  lemma RunNextFits(s: System, w: nat, no: nat, d: Delivery)
    requires w < |s.workers| && s.workers[w].Delivering? && AllFit(s, no, d)
    ensures AllFit(DoRunNext(s, w), no, d)
  {
    assert WorkerFits(s.workers[w], no, d);
  }

  lemma StepKeepsFit(s: System, step: Step, no: nat, ok: bool)
    requires CanStep(s, step) && OneRequest(s) && BuildsAs(s, step, no, ok)
    requires AllFit(s, no, KindOf(ok)) && NotErrored(Next(s, step).trace, no)
    ensures AllFit(Next(s, step), no, KindOf(ok))
  {
    var d := KindOf(ok);
    match step
    case CompleteRequest(t, outcome) =>
      SettlesOnlyPending(s, t);
      SettlingFits(s, t, outcome, no, d);
    case TearDownRequest(t) => TearDownFits(s, t, no, d);
    case AddCallback(kind) => AddCallbackFits(s, kind, no, d);
    case ReadRows =>
      if s.shared.request.RowsNow().Some? {
        BeginFits(s, Job(EMPTY, false), s.shared.request.RowsNow().value, true, no, d);
      }
    case DrainerLooks(w) => LookingFits(s, w, no, d);
    case KeepBuiltRows(w) => KeepBuiltFits(s, w, no, d);
    case RunNext(w) => RunNextFits(s, w, no, d);
    case _ =>
  }

  /** A page that has not failed by now never did. */
  lemma NotErroredBefore(t: Trace, e: Event, no: nat)
    requires Numbered(After(t, e)) && NotErrored(After(t, e), no)
    ensures NotErrored(t, no)
  {
    if no >= Settles(t) {
      OutcomesAreNumbered(t, no);
    }
  }

  lemma StepNotErrored(s: System, step: Step, no: nat)
    requires CanStep(s, step) && OnLastPage(Next(s, step)) && NotErrored(Next(s, step).trace, no)
    ensures NotErrored(s.trace, no)
  {
    var t := Next(s, step).trace;
    if t != s.trace {
      if t.before != s.trace {
        NotErroredBefore(t.before, t.event, no);
        NotErroredBefore(t.before.before, t.before.event, no);
      } else {
        NotErroredBefore(s.trace, t.event, no);
      }
    }
  }

  lemma {:induction false} EveryRunKeepsFit(r: Run, no: nat, ok: bool)
    requires Possible(r) && FactoryDecides(r, no, ok) && NotErrored(StateOf(r).trace, no)
    ensures AllFit(StateOf(r), no, KindOf(ok))
  {
    if r.Then? {
      EveryRunKeepsBasics(r);
      EveryRunKeepsBasics(r.before);
      StepNotErrored(StateOf(r.before), r.step, no);
      EveryRunKeepsFit(r.before, no, ok);
      StepKeepsFit(StateOf(r.before), r.step, no, ok);
    }
  }

  /** For a page that was received: once the threads are done, the callbacks due for it have
      run once each and its errbacks not at all if its rows build, and the other way round if
      they do not. */
  lemma ReceivedPagesRunTheirKind(r: Run, cb: nat, no: nat, ok: bool)
    requires Possible(r) && Quiet(StateOf(r)) && FactoryDecides(r, no, ok)
    requires var outcome := OutcomeOf(StateOf(r).trace, no); outcome.Some? && outcome.value.Got?
    requires Owed(StateOf(r).trace, cb, no) == 1
    ensures Runs(StateOf(r).trace, cb, no) == if Kind(StateOf(r).trace, cb) == Some(KindOf(ok)) then 1 else 0
  {
    EveryRunKeepsFit(r, no, ok);
    DueCallbacksRunExactlyOnce(r, cb, no, KindOf(ok));
  }

  /** The kind of callback a settled page is for. */
  ghost function PageKind(outcome: Outcome, ok: bool): Delivery {
    if outcome.Errored? then Errbacks else KindOf(ok)
  }

  /** So for every page that settled, however it did: at any time no callback has run for it
      twice, or without being due; and once the threads are done, those that ran are exactly
      the due ones of the page's kind. */
  lemma PagesRunTheirKind(r: Run, cb: nat, no: nat, ok: bool)
    requires Possible(r) && FactoryDecides(r, no, ok) && OutcomeOf(StateOf(r).trace, no).Some?
    ensures var s := StateOf(r); var t := s.trace;
            && Runs(t, cb, no) <= Owed(t, cb, no) <= 1
            && (Quiet(s) ==> (Runs(t, cb, no) == 1 <==>
                  Owed(t, cb, no) == 1 && Kind(t, cb) == Some(PageKind(OutcomeOf(t, no).value, ok))))
  {
    var s := StateOf(r);
    DueCallbacksRunExactlyOnce(r, cb, no, Callbacks);
    if Quiet(s) && Owed(s.trace, cb, no) == 1 {
      if OutcomeOf(s.trace, no).value.Errored? {
        FailuresRunTheErrbacks(r, cb, no);
      } else {
        ReceivedPagesRunTheirKind(r, cb, no, ok);
      }
    }
  }
}
