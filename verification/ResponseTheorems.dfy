/** The promises of a `ResponseFuture`, over every run. */
module ResponseTheorems {
  import opened Common
  import opened Callbacks
  import opened RequestState
  import opened ResponseTrace
  import opened GuardedTask
  import opened ResponseProtocol
  import opened ResponseDelivery

  /** No thread has anything left to do. */
  ghost predicate Quiet(s: System) {
    forall w :: 0 <= w < |s.workers| ==> s.workers[w].Finished?
  }

  // ------------------------------------------------------------------------- pages in order

  ghost predicate Increasing(nos: seq<nat>) {
    forall i, j :: 0 <= i < j < |nos| ==> nos[i] < nos[j]
  }

  lemma {:induction false} SettleOrderIncreases(t: Trace)
    requires Numbered(t)
    ensures Increasing(SettledWithCallbacks(t))
    ensures forall i :: 0 <= i < |SettledWithCallbacks(t)| ==> SettledWithCallbacks(t)[i] < Settles(t)
  {
    if t.After? {
      SettleOrderIncreases(t.before);
    }
  }

  /** Every page that settled with callbacks is delivered at most once, in the order the
      pages settled, with exactly its own list of callbacks, called in list order; and while
      one still waits, one drainer is running for it. */
  lemma PagesAreDeliveredInOrder(r: Run)
    requires Possible(r)
    ensures var s := StateOf(r); var t := s.trace;
            && OpenedByDrainer(t) <= Taken(t) <= SettledWithCallbacks(t)
            && Increasing(SettledWithCallbacks(t))
            && DrainerCalls(t) <= DueCalls(t)
            && OpensOwnLists(t)
            && (Taken(t) != SettledWithCallbacks(t) || DrainerCalls(t) != DueCalls(t) ==>
                  exists w :: 0 <= w < |s.workers| && s.workers[w].HoldsToken())
            && (forall v, w :: 0 <= v < w < |s.workers| ==> !s.workers[v].HoldsToken() || !s.workers[w].HoldsToken())
  {
    EveryRunKeepsBasics(r);
    EveryRunKeepsProgress(r);
    var s := StateOf(r);
    SettleOrderIncreases(s.trace);
    if s.shared.permit {
      assert Progress(s.trace, Looking);
      SumNonNegative(s.workers, Token);
      forall w | 0 <= w < |s.workers| ensures !s.workers[w].HoldsToken() {
        SumAtLeast(s.workers, w, Token);
      }
    } else {
      var w := SumWitness(s.workers, Token);
      assert Progress(s.trace, s.workers[w]);
      forall v | 0 <= v < |s.workers| && v != w ensures !s.workers[v].HoldsToken() {
        OnlyDrainer(s, w, v);
      }
    }
  }

  // --------------------------------------------------------------------------- exactly once

  /** Every outcome the callbacks of page `no` were offered is of kind `d`. */
  ghost predicate OfferedAs(t: Trace, no: nat, d: Delivery) {
    match t
    case Start => true
    case After(before, e) =>
      && OfferedAs(before, no, d)
      && (e.Settled? && e.no == no && e.outcome.Errored? ==> d == Errbacks)
      && (e.Opened? && e.rows.no == no ==> e.rows.Delivered() == d)
      && (e.Invoked? && e.rows.no == no ==> e.rows.Delivered() == d)
  }

  lemma {:induction false} KindsDecide(t: Trace, cb: nat, no: nat, d: Delivery)
    requires Numbered(t) && CallsMatch(t, cb) && PassesMatch(t, cb) && OfferedAs(t, no, d)
    ensures Runs(t, cb, no) > 0 ==> Kind(t, cb) == Some(d)
    ensures PassedOver(t, cb, no) > 0 ==> Kind(t, cb) == Some(d.Other())
  {
    if t.After? {
      KindsDecide(t.before, cb, no, d);
      LivePlaced(t.before, cb);
    }
  }

  lemma StillToComeIsNotNegative(s: System, cb: nat, no: nat)
    ensures StillToCome(s, cb, no) >= 0
  {
    SumNonNegative(s.shared.unfiredPages, PageOwes(cb, no));
    SumNonNegative(s.workers, WorkerOwes(cb, no));
  }

  lemma QuietOwesNothing(r: Run, cb: nat, no: nat)
    requires Possible(r) && Quiet(StateOf(r))
    ensures StillToCome(StateOf(r), cb, no) == 0
  {
    QuietIsDone(r);
    SumZero(StateOf(r).workers, WorkerOwes(cb, no));
  }

  /** No callback runs twice for one page, and none runs that is not due. Once the threads
      are done every due callback has been dealt with, and the ones that ran are exactly
      those of the kind of the outcome. */
  lemma DueCallbacksRunExactlyOnce(r: Run, cb: nat, no: nat, d: Delivery)
    requires Possible(r)
    ensures var s := StateOf(r); var t := s.trace;
            && Owed(t, cb, no) <= 1
            && Runs(t, cb, no) + PassedOver(t, cb, no) <= Owed(t, cb, no)
            && (Quiet(s) ==> Runs(t, cb, no) + PassedOver(t, cb, no) == Owed(t, cb, no))
            && (Quiet(s) && OfferedAs(t, no, d) && Owed(t, cb, no) == 1 ==>
                  (Runs(t, cb, no) == 1 <==> Kind(t, cb) == Some(d)))
  {
    var s := StateOf(r);
    assert Numbered(s.trace) by { EveryRunKeepsBasics(r); }
    EveryRunAccounts(r, cb, no);
    OwedAtMostOnce(s.trace, cb, no);
    StillToComeIsNotNegative(s, cb, no);
    if Quiet(s) {
      QuietOwesNothing(r, cb, no);
    }
    if OfferedAs(s.trace, no, d) {
      EveryRunKeepsPlaces(r, cb);
      KindsDecide(s.trace, cb, no, d);
    }
  }

  /** A request that failed offers its callbacks nothing but its own error. */
  lemma {:induction false} FailureIsOfferedAsError(t: Trace, no: nat)
    requires Numbered(t) && RowsAreOwn(t)
    requires OutcomeOf(t, no).Some? && OutcomeOf(t, no).value.Errored?
    ensures OfferedAs(t, no, Errbacks)
  {
    if t.After? {
      var e := t.event;
      if (e.Settled? || e.Dropped?) && e.no == no {
        NotOfferedYet(t.before, no, Errbacks);
      } else {
        FailureIsOfferedAsError(t.before, no);
      }
    }
  }

  lemma {:induction false} NotOfferedYet(t: Trace, no: nat, d: Delivery)
    requires Numbered(t) && RowsAreOwn(t) && no >= Settles(t)
    ensures OfferedAs(t, no, d)
  {
    if t.After? {
      NotOfferedYet(t.before, no, d);
    }
  }

  /** For a failed request: once the threads are done, the errbacks due for it have run
      once each, with its error, and the callbacks have not run. */
  lemma FailuresRunTheErrbacks(r: Run, cb: nat, no: nat)
    requires Possible(r) && Quiet(StateOf(r))
    requires var outcome := OutcomeOf(StateOf(r).trace, no); outcome.Some? && outcome.value.Errored?
    requires Owed(StateOf(r).trace, cb, no) == 1
    ensures Runs(StateOf(r).trace, cb, no) == if Kind(StateOf(r).trace, cb) == Some(Errbacks) then 1 else 0
  {
    EveryRunKeepsBasics(r);
    EveryRunKeepsRows(r);
    FailureIsOfferedAsError(StateOf(r).trace, no);
    DueCallbacksRunExactlyOnce(r, cb, no, Errbacks);
  }

  /** Readers that get the rows of a page while it is current all get the same object. */
  lemma ReadersGetOneList(r: Run, no: nat)
    requires Possible(r)
    ensures ReadersAgree(StateOf(r).trace, no)
  {
    EveryRunKeepsOneList(r, no);
  }

  // ------------------------------------------------------------------ nothing is left stranded

  /** With no thread at work nothing waits anywhere: every page was taken and every call
      that was due was made. */
  lemma QuietIsDone(r: Run)
    requires Possible(r) && Quiet(StateOf(r))
    ensures var s := StateOf(r);
            && s.shared.permit && s.shared.unfiredPages == [] && s.shared.request.Unfired().None?
            && Taken(s.trace) == SettledWithCallbacks(s.trace)
            && OpenedByDrainer(s.trace) == Taken(s.trace) && DrainerCalls(s.trace) == DueCalls(s.trace)
  {
    EveryRunKeepsBasics(r);
    EveryRunKeepsProgress(r);
    var s := StateOf(r);
    SumZero(s.workers, Token);
    assert Nos(s.shared.unfiredPages) == [];
    assert Progress(s.trace, Looking);
  }

  function Size(lists: Lists): nat {
    |lists.callbacks| + |lists.errbacks|
  }

  /** An upper bound on the steps a thread takes before it is done or looks again. */
  ghost function Work(w: Worker): int {
    match w
    case Finished => 0
    case Looking => 1
    case Delivering(_, _, _) => 2 + |w.Left()|
    case Storing(job, _) => 3 + Size(job.lists)
    case Building(job, _) => 4 + Size(job.lists)
  }

  ghost function PageWork(u: Undelivered<Lists>): int {
    5 + Size(u.unfired)
  }

  ghost function WorkLeft(s: System): int {
    Sum(s.workers, Work) + Sum(s.shared.unfiredPages, PageWork)
    + if s.shared.request.Unfired().Some? then 5 + Size(s.shared.request.Unfired().value) else 0
  }

  /** A step of a thread already at work. */
  predicate IsOwnStep(step: Step) {
    step.DrainerLooks? || step.BuildRows? || step.KeepBuiltRows? || step.RunNext?
  }

  lemma LookingIsProgress(s: System, w: nat)
    requires w < |s.workers| && s.workers[w].Looking?
    ensures WorkLeft(DoDrainerLooks(s, w)) < WorkLeft(s)
  {
    SumUpdate(s.workers, w, DoDrainerLooks(s, w).workers[w], Work);
  }

  lemma RunningIsProgress(s: System, w: nat)
    requires w < |s.workers| && s.workers[w].Delivering?
    ensures WorkLeft(DoRunNext(s, w)) < WorkLeft(s)
  {
    SumUpdate(s.workers, w, DoRunNext(s, w).workers[w], Work);
    var cbs := s.workers[w].job.lists.For(s.workers[w].rows.Delivered());
    assert s.workers[w].next < |cbs| ==> |cbs[s.workers[w].next..]| == |cbs[s.workers[w].next + 1..]| + 1;
  }

  /** Every such step, whatever rows are built, leaves less to do: every schedule of the
      threads' own steps ends. */
  lemma EveryOwnStepIsProgress(s: System, step: Step)
    requires CanStep(s, step) && IsOwnStep(step)
    ensures 0 <= WorkLeft(Next(s, step)) < WorkLeft(s)
  {
    SumNonNegative(Next(s, step).workers, Work);
    SumNonNegative(Next(s, step).shared.unfiredPages, PageWork);
    match step
    case DrainerLooks(w) => LookingIsProgress(s, w);
    case BuildRows(w, _, _) => SumUpdate(s.workers, w, Next(s, step).workers[w], Work);
    case KeepBuiltRows(w) => SumUpdate(s.workers, w, Next(s, step).workers[w], Work);
    case RunNext(w) => RunningIsProgress(s, w);
  }

  /** And they only stop when no thread has anything left to do. */
  lemma BusyThreadsCanGoOn(s: System) returns (step: Step)
    requires !Quiet(s)
    ensures CanStep(s, step) && IsOwnStep(step)
  {
    var w :| 0 <= w < |s.workers| && !s.workers[w].Finished?;
    match s.workers[w]
    case Looking => step := DrainerLooks(w);
    case Building(_, _) => step := BuildRows(w, true, 0);
    case Storing(_, _) => step := KeepBuiltRows(w);
    case Delivering(_, _, _) => step := RunNext(w);
  }

  /** `later` is `r` followed by steps of threads already at work. */
  ghost predicate RunsOn(later: Run, r: Run) {
    later == r || (later.Then? && RunsOn(later.before, r) && IsOwnStep(later.step))
  }

  lemma {:induction false} RunsOnFrom(later: Run, r: Run, step: Step)
    requires RunsOn(later, Then(r, step)) && IsOwnStep(step)
    ensures RunsOn(later, r)
  {
    if later != Then(r, step) {
      RunsOnFrom(later.before, r, step);
    } else {
      assert RunsOn(r, r);
    }
  }

  /** From every reachable state the threads at work come to rest by their own steps, and
      then every page that settled with callbacks has been delivered. */
  lemma {:induction false} ThreadsComeToRest(r: Run) returns (later: Run)
    requires Possible(r)
    ensures Possible(later) && RunsOn(later, r) && Quiet(StateOf(later))
    ensures Taken(StateOf(later).trace) == SettledWithCallbacks(StateOf(later).trace)
    decreases WorkLeft(StateOf(r))
  {
    if Quiet(StateOf(r)) {
      later := r;
      QuietIsDone(r);
    } else {
      var step := BusyThreadsCanGoOn(StateOf(r));
      EveryOwnStepIsProgress(StateOf(r), step);
      later := ThreadsComeToRest(Then(r, step));
      RunsOnFrom(later, r, step);
    }
  }

  // ------------------------------------------------------------------------------ requests

  /** A request settles only a pending state, one request is outstanding while pending and
      none otherwise, and once no page can follow no callback is kept. */
  lemma OneRequestAtATime(r: Run)
    requires Possible(r)
    ensures var s := StateOf(r);
            && Sum(s.tasks, Outstanding) == (if s.shared.request.Pending? then 1 else 0)
            && (forall t :: 0 <= t < |s.tasks| && !s.tasks[t].Signalled? ==> s.shared.request.Pending?)
            && (s.shared.IsTerminal() ==> s.shared.registered == EMPTY)
  {
    EveryRunKeepsBasics(r);
    var s := StateOf(r);
    forall t | 0 <= t < |s.tasks| && !s.tasks[t].Signalled? ensures s.shared.request.Pending? {
      SumAtLeast(s.tasks, t, Outstanding);
    }
  }

  /** Settled with no further page is for good. */
  lemma TerminalIsAbsorbing(r: Run)
    requires Possible(r) && r.Then? && StateOf(r.before).shared.IsTerminal()
    ensures StateOf(r).shared.IsTerminal() && StateOf(r).shared.registered == EMPTY
  {
    OneRequestAtATime(r.before);
    OneRequestAtATime(r);
  }

  ghost predicate RequestLost(s: System) {
    exists t :: 0 <= t < |s.tasks| && s.tasks[t].Lost?
  }

  lemma LostStays(s: System, step: Step)
    requires CanStep(s, step) && OneRequest(s) && RequestLost(s)
    ensures RequestLost(Next(s, step)) && Settles(Next(s, step).trace) == Settles(s.trace)
  {
    var t :| 0 <= t < |s.tasks| && s.tasks[t].Lost?;
    if step.CompleteRequest? || step.TearDownRequest? {
      var u := step.task;
      SumAtLeastTwo(s.tasks, if t < u then t else u, if t < u then u else t, Outstanding);
    }
    assert Next(s, step).tasks[t].Lost?;
  }

  /** `later` goes on from `r`, in any way. */
  ghost predicate GoesOnFrom(later: Run, r: Run) {
    later == r || (later.Then? && GoesOnFrom(later.before, r))
  }

  /** A request torn down before its first poll leaves the future pending for ever. */
  lemma {:induction false} LostRequestNeverSettles(r: Run, later: Run)
    requires Possible(r) && RequestLost(StateOf(r)) && Possible(later) && GoesOnFrom(later, r)
    ensures RequestLost(StateOf(later)) && StateOf(later).shared.request.Pending?
    ensures Settles(StateOf(later).trace) == Settles(StateOf(r).trace)
  {
    OneRequestAtATime(later);
    if later != r {
      LostRequestNeverSettles(r, later.before);
      OneRequestAtATime(later.before);
      LostStays(StateOf(later.before), later.step);
    }
  }

  /** A request that was polled can complete; one that was not can be polled; and so on. */
  lemma {:induction false} RequestCanComplete(r: Run, t: nat) returns (later: Run)
    requires Possible(r) && t < |StateOf(r).tasks| && !StateOf(r).tasks[t].Signalled? && !StateOf(r).tasks[t].Lost?
    ensures Possible(later) && GoesOnFrom(later, r)
    ensures Settles(StateOf(later).trace) == Settles(StateOf(r).trace) + 1
    decreases match StateOf(r).tasks[t] case ToSpawn => 2 case Unpolled => 1 case _ => 0
  {
    assert GoesOnFrom(r, r);
    match StateOf(r).tasks[t]
    case ToSpawn =>
      later := RequestCanComplete(Then(r, SpawnRequest(t)), t);
      GoesOnFromEarlier(later, r, SpawnRequest(t));
    case Unpolled =>
      later := RequestCanComplete(Then(r, PollRequest(t)), t);
      GoesOnFromEarlier(later, r, PollRequest(t));
    case Polled => later := Then(r, CompleteRequest(t, Errored(0)));
  }

  lemma {:induction false} GoesOnFromEarlier(later: Run, r: Run, step: Step)
    requires GoesOnFrom(later, Then(r, step))
    ensures GoesOnFrom(later, r)
  {
    if later != Then(r, step) {
      GoesOnFromEarlier(later.before, r, step);
    } else {
      assert GoesOnFrom(r, r);
    }
  }

  /** Some way of going on settles another request. */
  ghost predicate CanSettle(r: Run)
    requires Possible(r)
  {
    exists later :: Possible(later) && GoesOnFrom(later, r) && Settles(StateOf(later).trace) > Settles(StateOf(r).trace)
  }

  /** A pending future can still settle if, and only if, its request was not torn down before
      its first poll. */
  lemma PendingCanSettleUnlessLost(r: Run)
    requires Possible(r) && StateOf(r).shared.request.Pending?
    ensures CanSettle(r) <==> !RequestLost(StateOf(r))
  {
    if RequestLost(StateOf(r)) {
      forall later | Possible(later) && GoesOnFrom(later, r)
        ensures Settles(StateOf(later).trace) == Settles(StateOf(r).trace)
      {
        LostRequestNeverSettles(r, later);
      }
    } else {
      EveryRunKeepsBasics(r);
      var t := SumWitness(StateOf(r).tasks, Outstanding);
      assert !StateOf(r).tasks[t].Lost?;
      var later := RequestCanComplete(r, t);
    }
  }

  lemma RequestsCanBeLost() returns (r: Run)
    ensures Possible(r) && RequestLost(StateOf(r))
  {
    r := Then(Then(Begun, SpawnRequest(0)), TearDownRequest(0));
    var s1 := StateOf(Then(Begun, SpawnRequest(0)));
    assert s1.tasks == [Unpolled];
    assert StateOf(r).tasks[0].Lost?;
  }
}
