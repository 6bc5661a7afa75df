/** Everything the one lock of a `ResponseFuture` guards, as a value, and each of its
    critical sections as a function. */
module ResponseShared {
  import opened Common
  import opened Callbacks
  import opened RequestState

  datatype Shared = Shared(
    request: Request<Lists>,
    registered: Lists,
    /** Pages paged past before the drainer ran their callbacks, oldest first. */
    unfiredPages: seq<Undelivered<Lists>>,
    /** Whether the drain token is parked here rather than owned by a drainer. */
    permit: bool)
  {
    /** Nothing can fire again: settled, and no page can be requested after the last one. */
    predicate IsTerminal() {
      !request.Pending? && !request.HasMorePages()
    }
  }

  datatype PagingError = InFlight | Exhausted

  const NEW := Shared(Pending(None), EMPTY, [], true)

  /** `complete`: settles, drops the registered callbacks if no page can follow, and says
      whether a drainer has to be started. */
  function Complete(sh: Shared, no: nat, outcome: Outcome): (r: (Shared, bool)) {
    var delivery := if outcome.Errored? then Some(Errbacks) else None;
    var unfired := sh.registered.ForOutcome(delivery);
    var settled := sh.(request := Settle(sh.request, no, outcome, unfired));
    var kept := if settled.IsTerminal() then settled.(registered := EMPTY) else settled;
    if unfired.Some? then (kept.(permit := false), kept.permit) else (kept, false)
  }

  /** `complete_dropped`: fails the request in flight and hands out the registered
      callbacks; nothing if no request is in flight. */
  function CompleteDropped(sh: Shared, no: nat): (r: (Shared, Option<Lists>)) {
    if !sh.request.Pending? then (sh, None)
    else (sh.(request := Settle(sh.request, no, Errored(DROPPED), None), registered := EMPTY), Some(sh.registered))
  }

  /** `register`: keeps `cb` for later pages, joins the page the drainer still has to do,
      or gives the rows to run it with right away. */
  function Register(sh: Shared, d: Delivery, cb: nat): (r: (Shared, Option<PageRows>)) {
    var kept := if sh.IsTerminal() then sh else sh.(registered := sh.registered.Push(d, cb));
    if kept.request.Unfired().Some? then
      (kept.(request := kept.request.(unfired := Some(kept.request.unfired.value.Push(d, cb)))), None)
    else
      (kept, kept.request.RowsNow())
  }

  function ClearCallbacks(sh: Shared): (r: Shared) {
    sh.(registered := EMPTY)
  }

  /** `start_fetching_next_page`: a page whose callbacks have not run is queued for the
      drainer rather than dropped. */
  function StartFetching(sh: Shared): (r: Result<Shared, PagingError>)
    ensures r.Ok? <==> !sh.request.Pending? && sh.request.HasMorePages()
    ensures r == Err(InFlight) <==> sh.request.Pending?
  {
    if sh.request.Pending? then Err(InFlight)
    else if !sh.request.HasMorePages() then Err(Exhausted)
    else
      var (request, undelivered) := SwitchToPending(sh.request);
      var queued := if undelivered.Some? then sh.unfiredPages + [undelivered.value] else sh.unfiredPages;
      Ok(sh.(request := request, unfiredPages := queued))
  }

  /** The drainer's turn: the oldest page paged past, else the current one, else park the
      token again. */
  function DrainerNext(sh: Shared): (r: (Shared, Option<Undelivered<Lists>>))
    ensures r.1.None? <==> sh.unfiredPages == [] && sh.request.Unfired().None?
  {
    if sh.unfiredPages != [] then
      (sh.(unfiredPages := sh.unfiredPages[1..]), Some(sh.unfiredPages[0]))
    else
      var (request, undelivered) := TakeUnfired(sh.request);
      if undelivered.Some? then (sh.(request := request), undelivered)
      else (sh.(permit := true), None)
  }

  function KeepRows(sh: Shared, no: nat, built: Rows): (r: (Shared, Rows)) {
    var (request, rows) := StoreRows(sh.request, no, built);
    (sh.(request := request), rows)
  }
}
