/** The request of a `ResponseFuture` and the last page received, changed only through its
    transitions. `L` is how a list of callbacks is held: by value in the protocol, by a
    shared reference in the class that implements it. */
module RequestState {
  import opened Common
  import opened Pager
  import opened Callbacks

  /** What the readers of one page get: a list, or an error. `no` is the page the rows were
      built from and `id` the identity of the Python object handed out. */
  datatype Rows = Rows(no: nat, ok: bool, id: nat) {
    function Delivered(): Delivery {
      if ok then Callbacks else Errbacks
    }
  }

  /** The rows of a settled page, taken out of the lock. */
  datatype PageRows = Built(rows: Rows) | ToBuild(no: nat) {
    function No(): nat {
      if Built? then rows.no else no
    }
  }

  /** A page received; `no` is its identity, the address of its response. */
  datatype Page = Page(no: nat, pager: Pager)

  /** The error of a request torn down before completing. */
  const DROPPED: nat := 0

  datatype Outcome = Got(pager: Pager) | Errored(error: nat)

  datatype Request<+L> =
    | Pending(lastPage: Option<Page>)
    | Received(page: Page, rows: Option<Rows>, unfired: Option<L>)
    | Failed(no: nat, error: nat, lastPage: Option<Page>, unfired: Option<L>)
  {
    function LastPage(): Option<Page> {
      if Received? then Some(page) else lastPage
    }

    predicate HasMorePages() {
      LastPage().Some? && LastPage().value.pager.HasMore()
    }

    /** The settled page, or failed request, this state is about. */
    function No(): nat
      requires !Pending?
    {
      if Received? then page.no else no
    }

    function Unfired(): Option<L> {
      if Pending? then None else unfired
    }

    /** The rows the request settled with; `None` while a request is in flight. */
    function RowsNow(): Option<PageRows> {
      match this
      case Pending(_) => None
      case Received(page, rows, _) => Some(if rows.Some? then Built(rows.value) else ToBuild(page.no))
      case Failed(no, error, _, _) => Some(Built(Rows(no, false, error)))
    }
  }

  /** The rows of a settled page with the callbacks that have not run for it yet. */
  datatype Undelivered<+L> = Undelivered(rows: PageRows, unfired: L)

  /** `Pending` to `Received` or `Failed`; a failure keeps the last page received. */
  function Settle<L>(r: Request<L>, no: nat, outcome: Outcome, unfired: Option<L>): (r': Request<L>)
    ensures !r'.Pending? && r'.No() == no && r'.Unfired() == unfired
    ensures outcome.Errored? ==> r'.LastPage() == r.LastPage()
    ensures outcome.Got? ==> r'.LastPage() == Some(Page(no, outcome.pager))
  {
    match outcome
    case Got(pager) => Received(Page(no, pager), None, unfired)
    case Errored(error) => Failed(no, error, r.LastPage(), unfired)
  }

  /** Takes the current page with its callbacks that have not run; `None` if none wait. */
  function TakeUnfired<L>(r: Request<L>): (result: (Request<L>, Option<Undelivered<L>>))
    ensures result.0.Unfired().None? && result.0.LastPage() == r.LastPage()
    ensures result.1.Some? <==> r.Unfired().Some?
    ensures result.1.Some? ==> result.1.value.unfired == r.Unfired().value && Some(result.1.value.rows) == r.RowsNow()
  {
    if r.Unfired().None? then (r, None)
    else (r.(unfired := None), Some(Undelivered(r.RowsNow().value, r.Unfired().value)))
  }

  /** `Received` or `Failed` to `Pending`, handing back a page whose callbacks have not run. */
  function SwitchToPending<L>(r: Request<L>): (result: (Request<L>, Option<Undelivered<L>>))
    ensures result.0.Pending? && result.0.LastPage() == r.LastPage()
    ensures result.1.Some? <==> r.Unfired().Some?
  {
    var (taken, undelivered) := TakeUnfired(r);
    (Pending(taken.LastPage()), undelivered)
  }

  /** Stores rows built for page `no` unless another page is current or rows were stored
      first; the rows returned are the ones every reader of the current page gets. */
  function StoreRows<L>(r: Request<L>, no: nat, built: Rows): (result: (Request<L>, Rows))
    ensures result.0.Pending? == r.Pending? && result.0.LastPage() == r.LastPage() && result.0.Unfired() == r.Unfired()
    ensures r.Received? && r.page.no == no ==> result.0.RowsNow() == Some(Built(result.1))
    ensures r.RowsNow().Some? && r.RowsNow().value.Built? ==> result.0 == r
  {
    match r
    case Received(page, rows, unfired) =>
      if page.no == no then
        var stored := if rows.Some? then rows.value else built;
        (r.(rows := Some(stored)), stored)
      else (r, built)
    case _ => (r, built)
  }
}
