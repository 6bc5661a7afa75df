/** What a run of a `ResponseFuture` did, as a history of events, and what that history
    says should happen. The functions here know nothing of locks, queues or threads: they
    are the reference the protocol is proved against. */
module ResponseTrace {
  import opened Common
  import opened Callbacks
  import opened RequestState

  datatype Event =
    /** `add_callback` or `add_errback`. */
    | Registered(cb: nat, delivery: Delivery)
    | Cleared
    /** A request completed. */
    | Settled(no: nat, outcome: Outcome)
    /** A request was torn down before completing. */
    | Dropped(no: nat)
    /** `start_fetching_next_page` moved past the current page. */
    | Paged
    /** The drainer took page `no`. */
    | Took(no: nat)
    /** A thread has `rows` in hand and starts running the callbacks of `lists` that match
        them; `current` says whether their page was the current one. */
    | Opened(rows: Rows, lists: Lists, drains: bool, current: bool)
    | Invoked(cb: nat, rows: Rows, drains: bool)

  datatype Trace = Start | After(before: Trace, event: Event)

  function Registrations(t: Trace): nat {
    match t
    case Start => 0
    case After(before, e) => Registrations(before) + if e.Registered? then 1 else 0
  }

  function Settles(t: Trace): nat {
    match t
    case Start => 0
    case After(before, e) => Settles(before) + if e.Settled? || e.Dropped? then 1 else 0
  }

  /** Registrations and settled requests are numbered in the order they happened. */
  ghost predicate Numbered(t: Trace) {
    match t
    case Start => true
    case After(before, e) =>
      && Numbered(before)
      && (e.Registered? ==> e.cb == Registrations(before))
      && (e.Settled? || e.Dropped? ==> e.no == Settles(before))
  }

  /** The kind `cb` was registered as. */
  ghost function Kind(t: Trace, cb: nat): Option<Delivery> {
    match t
    case Start => None
    case After(before, Registered(c, d)) => if c == cb then Some(d) else Kind(before, cb)
    case After(before, _) => Kind(before, cb)
  }

  /** How request `no` ended. */
  ghost function OutcomeOf(t: Trace, no: nat): Option<Outcome> {
    match t
    case Start => None
    case After(before, Settled(n, outcome)) => if n == no then Some(outcome) else OutcomeOf(before, no)
    case After(before, Dropped(n)) => if n == no then Some(Errored(DROPPED)) else OutcomeOf(before, no)
    case After(before, _) => OutcomeOf(before, no)
  }

  /** The settled page that has not been paged past. */
  ghost function Current(t: Trace): Option<nat> {
    match t
    case Start => None
    case After(_, Settled(no, _)) => Some(no)
    case After(_, Dropped(no)) => Some(no)
    case After(_, Paged) => None
    case After(before, _) => Current(before)
  }

  /** The callbacks registered and not cleared since. A teardown consumes them. */
  ghost function Live(t: Trace): Lists {
    match t
    case Start => EMPTY
    case After(before, Registered(cb, d)) => Live(before).Push(d, cb)
    case After(_, Cleared) => EMPTY
    case After(_, Dropped(_)) => EMPTY
    case After(before, _) => Live(before)
  }

  ghost function KnownDelivery(outcome: Outcome): Option<Delivery> {
    if outcome.Errored? then Some(Errbacks) else None
  }

  /** Whether page `no` settled with callbacks to run that the drainer has not taken. */
  ghost predicate Waiting(t: Trace, no: nat) {
    match t
    case Start => false
    case After(before, Settled(n, outcome)) =>
      if n == no then Live(before).ForOutcome(KnownDelivery(outcome)).Some? else Waiting(before, no)
    case After(before, Took(n)) => n != no && Waiting(before, no)
    case After(before, _) => Waiting(before, no)
  }

  /** The callbacks page `no` fires: those registered when it settled, then those
      registered while it was current and not taken. */
  ghost function ListOf(t: Trace, no: nat): Lists {
    match t
    case Start => EMPTY
    case After(before, Settled(n, _)) => if n == no then Live(before) else ListOf(before, no)
    case After(before, Registered(cb, d)) =>
      if Current(before) == Some(no) && Waiting(before, no) then ListOf(before, no).Push(d, cb)
      else ListOf(before, no)
    case After(before, _) => ListOf(before, no)
  }

  /** The pages that settled with callbacks for the drainer, in settle order. */
  ghost function SettledWithCallbacks(t: Trace): seq<nat> {
    match t
    case Start => []
    case After(before, Settled(no, outcome)) =>
      SettledWithCallbacks(before)
      + if Live(before).ForOutcome(KnownDelivery(outcome)).Some? then [no] else []
    case After(before, _) => SettledWithCallbacks(before)
  }

  /** The pages the drainer took, in the order it took them. */
  ghost function Taken(t: Trace): seq<nat> {
    match t
    case Start => []
    case After(before, Took(no)) => Taken(before) + [no]
    case After(before, _) => Taken(before)
  }

  /** The pages the drainer had rows for, in that order. */
  ghost function OpenedByDrainer(t: Trace): seq<nat> {
    match t
    case Start => []
    case After(before, Opened(rows, _, true, _)) => OpenedByDrainer(before) + [rows.no]
    case After(before, _) => OpenedByDrainer(before)
  }

  ghost function Calls(cbs: seq<nat>, rows: Rows): seq<(nat, Rows)> {
    seq(|cbs|, i requires 0 <= i < |cbs| => (cbs[i], rows))
  }

  /** The calls the drainer should make: page by page, every callback that matches. */
  ghost function DueCalls(t: Trace): seq<(nat, Rows)> {
    match t
    case Start => []
    case After(before, Opened(rows, lists, true, _)) =>
      DueCalls(before) + Calls(lists.For(rows.Delivered()), rows)
    case After(before, _) => DueCalls(before)
  }

  /** The calls the drainer made, in order. */
  ghost function DrainerCalls(t: Trace): seq<(nat, Rows)> {
    match t
    case Start => []
    case After(before, Invoked(cb, rows, true)) => DrainerCalls(before) + [(cb, rows)]
    case After(before, _) => DrainerCalls(before)
  }

  /** How many runs of `cb` for page `no` the history calls for: one if it was live when
      the page settled, one if it was registered while the page was current. */
  ghost function Owed(t: Trace, cb: nat, no: nat): nat {
    match t
    case Start => 0
    case After(before, Settled(n, _)) => Owed(before, cb, no) + if n == no then Live(before).Holds(cb) else 0
    case After(before, Dropped(n)) => Owed(before, cb, no) + if n == no then Live(before).Holds(cb) else 0
    case After(before, Registered(c, _)) =>
      Owed(before, cb, no) + if c == cb && Current(before) == Some(no) then 1 else 0
    case After(before, _) => Owed(before, cb, no)
  }

  ghost function Runs(t: Trace, cb: nat, no: nat): nat {
    match t
    case Start => 0
    case After(before, Invoked(c, rows, _)) => Runs(before, cb, no) + if c == cb && rows.no == no then 1 else 0
    case After(before, _) => Runs(before, cb, no)
  }

  /** How often `cb` was passed over for page `no` because the outcome is of the other kind. */
  ghost function PassedOver(t: Trace, cb: nat, no: nat): nat {
    match t
    case Start => 0
    case After(before, Settled(n, outcome)) =>
      PassedOver(before, cb, no)
      + if n == no && Live(before).ForOutcome(KnownDelivery(outcome)).None? then Live(before).Holds(cb) else 0
    case After(before, Opened(rows, lists, _, _)) =>
      PassedOver(before, cb, no)
      + if rows.no == no then multiset(lists.For(rows.Delivered().Other()))[cb] else 0
    case After(before, _) => PassedOver(before, cb, no)
  }

  /** The rows the readers of page `no` got while it was current: the first of them. */
  ghost function FirstRows(t: Trace, no: nat): Option<Rows> {
    match t
    case Start => None
    case After(before, Opened(rows, _, _, true)) =>
      if rows.no == no && FirstRows(before, no).None? then Some(rows) else FirstRows(before, no)
    case After(before, _) => FirstRows(before, no)
  }

  /** Every reader of page `no` that got its rows while the page was current got the same. */
  ghost predicate ReadersAgree(t: Trace, no: nat) {
    match t
    case Start => true
    case After(before, e) =>
      && ReadersAgree(before, no)
      && (e.Opened? && e.current && e.rows.no == no ==> FirstRows(t, no) == Some(e.rows))
  }

  /** Every call was made for an outcome of the kind the callback was registered for. */
  ghost predicate CallsMatch(t: Trace, cb: nat) {
    match t
    case Start => true
    case After(before, e) =>
      CallsMatch(before, cb) && (e.Invoked? && e.cb == cb ==> Kind(before, cb) == Some(e.rows.Delivered()))
  }

  /** A callback is passed over only for an outcome of the other kind. */
  ghost predicate PassesMatch(t: Trace, cb: nat) {
    match t
    case Start => true
    case After(before, e) =>
      && PassesMatch(before, cb)
      && (e.Settled? && Live(before).ForOutcome(KnownDelivery(e.outcome)).None? && Live(before).Holds(cb) > 0 ==>
            e.outcome.Errored? && Kind(before, cb) == Some(Callbacks))
      && (e.Opened? && cb in e.lists.For(e.rows.Delivered().Other()) ==>
            Kind(before, cb) == Some(e.rows.Delivered().Other()))
  }

  /** Rows are handed out for settled requests, and those of a failed one are its own error. */
  ghost predicate OwnError(t: Trace, rows: Rows) {
    var outcome := OutcomeOf(t, rows.no);
    && rows.no < Settles(t)
    && (outcome.Some? && outcome.value.Errored? ==> rows == Rows(rows.no, false, outcome.value.error))
  }

  ghost predicate RowsAreOwn(t: Trace) {
    match t
    case Start => true
    case After(before, e) =>
      RowsAreOwn(before) && (e.Opened? ==> OwnError(before, e.rows)) && (e.Invoked? ==> OwnError(before, e.rows))
  }

  // ---------------------------------------------------------------- facts about histories

  /** A list holds `cb` only where its kind says, at most once for a live list. */
  lemma {:induction false} LivePlaced(t: Trace, cb: nat)
    requires Numbered(t)
    ensures Live(t).Holds(cb) <= 1
    ensures cb >= Registrations(t) ==> Kind(t, cb).None?
    ensures Kind(t, cb).None? ==> Live(t).Holds(cb) == 0
    ensures Kind(t, cb).Some? ==> cb !in Live(t).For(Kind(t, cb).value.Other())
  {
    if t.After? {
      LivePlaced(t.before, cb);
      if t.event.Registered? {
        PushHolds(Live(t.before), t.event.delivery, t.event.cb, cb);
        HoldsAtAll(Live(t.before), cb);
      }
    }
  }

  lemma HoldsAtAll(lists: Lists, cb: nat)
    ensures lists.Holds(cb) == 0 ==> cb !in lists.callbacks && cb !in lists.errbacks
  {
  }

  /** The history never calls for two runs of one callback for one page. */
  lemma {:induction false} OwedAtMostOnce(t: Trace, cb: nat, no: nat)
    requires Numbered(t)
    ensures Owed(t, cb, no) <= 1
    ensures no >= Settles(t) || Kind(t, cb).None? ==> Owed(t, cb, no) == 0
    ensures Current(t).Some? ==> Current(t).value < Settles(t)
  {
    if t.After? {
      OwedAtMostOnce(t.before, cb, no);
      LivePlaced(t.before, cb);
    }
  }

  lemma {:induction false} OutcomesAreNumbered(t: Trace, no: nat)
    requires Numbered(t) && no >= Settles(t)
    ensures OutcomeOf(t, no).None? && !Waiting(t, no)
  {
    if t.After? {
      OutcomesAreNumbered(t.before, no);
    }
  }
}
