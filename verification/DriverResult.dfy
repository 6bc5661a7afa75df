/** Which outcome a `DriverFuture` has: the steps of a run alone say what it is, and that is what
    every reader and every callback gets. */
module DriverResult {
  import opened Common
  import opened GuardedTask
  import opened DriverProtocol
  import opened DriverOutcome
  import opened DriverLost

  // ------------------------------------------------------------------------- what the steps say

  /** The task on the runtime was polled. */
  ghost predicate TaskPolled(r: Run) {
    r.Then? && (r.step.PollTask? || TaskPolled(r.before))
  }

  /** What a step that ends the future gives it: the poll on the loop its outcome, the task on
      the runtime its result still to be converted, a task dropped half-way, a `close` and a
      `throw` an error. */
  ghost function GivenBy(r: Run, step: Step): Option<ReadyResult> {
    match step
    case InnerReady(outcome) => Some(Converted(outcome))
    case ResolveTask(raw) => Some(Unconverted(raw))
    case DropTask => if TaskPolled(r) then Some(Converted(Failure(DROPPED))) else None
    case Close(error) => Some(Converted(Failure(error)))
    case Throw(error) => Some(Converted(Failure(error)))
    case OutsiderThrows(error) => Some(Converted(Failure(error)))
    case _ => None
  }

  /** What the first of them gave. */
  ghost function Given(r: Run): Option<ReadyResult> {
    if r.Begun? then None
    else if Given(r.before).Some? then Given(r.before)
    else GivenBy(r.before, r.step)
  }

  /** What converting the result gives whoever does it in this step. */
  ghost function ConversionIn(step: Step): Option<Outcome> {
    match step
    case Poll(c) => Some(c)
    case AddCallback(_, c) => Some(c)
    case AskResult(c) => Some(c)
    case ReadOutcome(c) => Some(c)
    case Work(_, c, _) => Some(c)
    case _ => None
  }

  /** Some step since the end converted the result to `outcome`, if it converted it at all. */
  ghost predicate Offered(r: Run, outcome: Outcome) {
    r.Then? && (Offered(r.before, outcome) || (Given(r.before).Some? && ConversionIn(r.step) == Some(outcome)))
  }

  // ------------------------------------------------------------------------------ is what happens

  /** The future is finished exactly if some step ended it, with what the first such step gave:
      as it is, or converted by somebody since. */
  ghost predicate HasWhatWasGiven(r: Run)
    requires Possible(r)
  {
    var state := StateOf(r).state;
    && (state.Ready? <==> Given(r).Some?)
    && (state.Ready? && Given(r).value.Converted? ==> state.result == Given(r).value)
    && (state.Ready? && Given(r).value.Unconverted? ==>
          state.result == Given(r).value || (state.result.Converted? && Offered(r, state.result.outcome)))
  }

  ghost predicate PollsFit(r: Run)
    requires Possible(r)
  {
    TaskPolled(r) <==> StateOf(r).task in {Some(Polled), Some(Signalled)}
  }

  lemma {:induction false} EveryRunPollsFit(r: Run)
    requires Possible(r)
    ensures PollsFit(r)
  {
    if r.Then? {
      EveryRunPollsFit(r.before);
      EveryRunKeepsTask(r.before);
      TaskMoves(StateOf(r.before), r.step);
    }
  }

  /** The task moves on as it is polled, completes or is torn down, and is started once. */
  lemma TaskMoves(s: System, step: Step)
    requires CanStep(s, step) && Sound(s) && TaskInv(s)
    ensures var before, after := s.task, Next(s, step).task;
            match step
            case PollTask => before == Some(Unpolled) && after == Some(Polled)
            case ResolveTask(_) => before == Some(Polled) && after == Some(Signalled)
            case DropTask =>
              || (before == Some(Unpolled) && after == Some(Lost))
              || (before == Some(Polled) && after == Some(Signalled))
            case _ => after == before || (before.None? && after == Some(Unpolled))
  {
  }

  /** A finished future changes by being converted only. */
  lemma ReadyIsOnlyConverted(s: System, step: Step)
    requires CanStep(s, step) && Sound(s) && s.state.Ready?
    ensures var after := Next(s, step).state;
            || after == s.state
            || (s.state.result.Unconverted? && ConversionIn(step).Some?
                && after == Ready(Converted(ConversionIn(step).value)))
  {
  }

  /** A future that is not finished is finished by a step that gives it something. */
  lemma FinishedByWhatIsGiven(r: Run, step: Step)
    requires Possible(Then(r, step)) && PollsFit(r) && TaskInv(StateOf(r)) && !StateOf(r).state.Ready?
    ensures var after := StateOf(Then(r, step)).state;
            match GivenBy(r, step)
            case None => !after.Ready?
            case Some(result) => after == Ready(result)
  {
  }

  lemma {:induction false} EveryRunHasWhatWasGiven(r: Run)
    requires Possible(r)
    ensures HasWhatWasGiven(r)
  {
    if r.Then? {
      EveryRunHasWhatWasGiven(r.before);
      EveryRunPollsFit(r.before);
      EveryRunKeepsTask(r.before);
      if StateOf(r.before).state.Ready? {
        ReadyIsOnlyConverted(StateOf(r.before), r.step);
      } else {
        FinishedByWhatIsGiven(r.before, r.step);
      }
    }
  }

  // ---------------------------------------------------------------------------- and what is seen

  /** Every conversion made of a task's result gives what `convert` does. */
  ghost predicate ConvertsWith(r: Run, convert: nat -> Outcome) {
    r.Then? ==>
      && ConvertsWith(r.before, convert)
      && (Given(r.before).Some? && Given(r.before).value.Unconverted? && ConversionIn(r.step).Some? ==>
            ConversionIn(r.step).value == convert(Given(r.before).value.raw))
  }

  /** The outcome, from the steps of the run: of the request if its task completed first, of the
      poll on the loop, that the task was dropped, or the error of the first `close` or `throw`. */
  ghost function OutcomeOf(r: Run, convert: nat -> Outcome): Outcome
    requires Given(r).Some?
  {
    match Given(r).value
    case Converted(outcome) => outcome
    case Unconverted(raw) => convert(raw)
  }

  lemma {:induction false} OfferedIsConverted(r: Run, convert: nat -> Outcome, outcome: Outcome)
    requires ConvertsWith(r, convert) && Offered(r, outcome) && Given(r).Some? && Given(r).value.Unconverted?
    ensures outcome == convert(Given(r).value.raw)
  {
    if Offered(r.before, outcome) {
      GivenBeforeOffered(r.before, outcome);
      OfferedIsConverted(r.before, convert, outcome);
    }
  }

  lemma {:induction false} GivenBeforeOffered(r: Run, outcome: Outcome)
    requires Offered(r, outcome)
    ensures Given(r).Some?
  {
    if Offered(r.before, outcome) {
      GivenBeforeOffered(r.before, outcome);
    }
  }

  /** Over every run, whoever reads the outcome, is called with it or is passed over for it, got
      the outcome the steps of the run say. */
  lemma EverybodySeesTheOutcome(r: Run, convert: nat -> Outcome)
    requires Possible(r) && ConvertsWith(r, convert)
    ensures StateOf(r).state.Ready? <==> Given(r).Some?
    ensures Given(r).None? ==> StateOf(r).seen == [] && StateOf(r).calls == [] && StateOf(r).passed == []
    ensures Given(r).Some? ==>
              && (forall i :: 0 <= i < |StateOf(r).seen| ==> StateOf(r).seen[i] == OutcomeOf(r, convert))
              && (forall i :: 0 <= i < |StateOf(r).calls| ==> StateOf(r).calls[i].outcome == OutcomeOf(r, convert))
              && (forall i :: 0 <= i < |StateOf(r).passed| ==> StateOf(r).passed[i].outcome == OutcomeOf(r, convert))
    ensures Given(r).Some? && StateOf(r).state.result.Converted? ==>
              StateOf(r).state.result.outcome == OutcomeOf(r, convert)
  {
    EverybodySeesOneOutcome(r);
    EveryRunHasWhatWasGiven(r);
    var s := StateOf(r);
    if s.state.Ready? && s.state.result.Converted? && Given(r).value.Unconverted? {
      OfferedIsConverted(r, convert, s.state.result.outcome);
    }
    assert Given(r).None? ==> s.seen == [] && s.calls == [] && s.passed == [] by {
      assert s.seen != [] ==> s.state == Ready(Converted(s.seen[0]));
      assert s.calls != [] ==> s.state == Ready(Converted(s.calls[0].outcome));
      assert s.passed != [] ==> s.state == Ready(Converted(s.passed[0].outcome));
    }
  }

  /** Whoever polls, asks for the result or reads it after a wait gets the outcome if the future
      is finished. If it is not, a poll parks or polls the request, and `result()` has it run on
      the runtime and waits. */
  lemma ReadersGetTheOutcome(r: Run, step: Step, convert: nat -> Outcome)
    requires Possible(Then(r, step)) && ConvertsWith(Then(r, step), convert)
    requires step.Poll? || step.AskResult? || step.ReadOutcome?
    ensures var s, s' := StateOf(r), StateOf(Then(r, step));
            if Given(r).Some? then s'.seen == s.seen + [OutcomeOf(r, convert)] && (step.Poll? ==> s'.awaiter.Over?)
            else
              && s'.seen == s.seen
              && (step.Poll? ==> if s.state.PendingTokio? then s'.awaiter.ToPark? else s'.awaiter.PollingInner?)
              && (step.AskResult? ==> s'.state.PendingTokio? && |s'.lock.threads| == |s.lock.threads| + 1)
  {
    EverybodySeesTheOutcome(r, convert);
    EverybodySeesTheOutcome(Then(r, step), convert);
    var s, s' := StateOf(r), StateOf(Then(r, step));
    if Given(r).Some? {
      assert |s'.seen| == |s.seen| + 1 && s'.seen[..|s.seen|] == s.seen;
      assert s'.seen[|s.seen|] == OutcomeOf(r, convert);
    }
  }

  /** The kinds of the callbacks registered, from the steps. */
  ghost function Registered(r: Run): seq<CallbackKind> {
    match r
    case Begun => []
    case Then(before, AddCallback(kind, _)) => Registered(before) + [kind]
    case Then(before, _) => Registered(before)
  }

  lemma {:induction false} EveryCallbackIsKept(r: Run)
    requires Possible(r)
    ensures StateOf(r).kinds == Registered(r)
  {
    if r.Then? {
      EveryCallbackIsKept(r.before);
      OnlyRegisteringAdds(StateOf(r.before), r.step);
    }
  }

  lemma OnlyRegisteringAdds(s: System, step: Step)
    requires CanStep(s, step) && Sound(s)
    ensures Next(s, step).kinds == s.kinds + if step.AddCallback? then [step.kind] else []
  {
  }

  /** Once the future is finished and the threads are through, a success callback has been called
      once if the outcome is a success and not at all if it is an error, an error callback the
      other way round, and a done callback once. */
  lemma CallbacksGetTheOutcome(r: Run, convert: nat -> Outcome, cb: nat)
    requires Possible(r) && ConvertsWith(r, convert) && Given(r).Some?
    requires Quiet(StateOf(r)) && cb < |Registered(r)|
    ensures match (Registered(r)[cb], OutcomeOf(r, convert))
            case (OnSuccess, Success(_)) => Calls(StateOf(r), cb) == 1
            case (OnSuccess, Failure(_)) => Calls(StateOf(r), cb) == 0
            case (OnError, Success(_)) => Calls(StateOf(r), cb) == 0
            case (OnError, Failure(_)) => Calls(StateOf(r), cb) == 1
            case (OnDone, _) => Calls(StateOf(r), cb) == 1
  {
    EverybodySeesTheOutcome(r, convert);
    EveryCallbackIsKept(r);
    CallbacksAreCalledOnce(r, cb);
  }
}
