/** Reading the rows of a paged result: the pager, the iterator over one page, and the readers
    built from them. A request may fail, and a call may be dropped while it waits for one. */
module PagedRows {
  import opened Common
  import Pager

  /** What the iterator over a page reports for a row. */
  datatype Item = Row(value: nat) | Bad(error: nat)

  /** A response: rows for which the row factory may fail to make a builder, or no rows. */
  datatype Response = Rows(factoryError: Option<nat>, items: seq<Item>) | NonRows

  /** What a page contributes to the rows of the whole result. */
  function Items(p: Response): seq<Item> {
    match p
    case NonRows => []
    case Rows(Some(error), _) => [Bad(error)]
    case Rows(None, items) => items
  }

  /** The rows of the whole result: its pages, one after another. */
  function Concat(pages: seq<Response>): seq<Item> {
    if pages == [] then [] else Items(pages[0]) + Concat(pages[1..])
  }

  /** How one request for a page goes. A call is given the requests it gets to see the end of;
      it is dropped while waiting for the next. */
  datatype Fetch = Arrives | Fails(error: nat)

  datatype RowError = InPage(error: nat) | InFetch(error: nat)

  datatype Answer = Got(value: nat) | Failed(error: RowError) | Ended | Dropped

  function Of(item: Item): Answer {
    if item.Row? then Got(item.value) else Failed(InPage(item.error))
  }

  /** Where a reader is: the rows left of the page it is on, and the pages to come. */
  datatype Reader = Reader(left: seq<Item>, toCome: seq<Response>) {
    function Stream(): seq<Item> {
      left + Concat(toCome)
    }
  }

  /** The next row, going through as many pages as it takes. */
  function Ask(r: Reader, plan: seq<Fetch>): (result: (Answer, Reader))
    decreases |r.toCome|
  {
    if r.left != [] then (Of(r.left[0]), Reader(r.left[1..], r.toCome))
    else if r.toCome == [] then (Ended, r)
    else if plan == [] then (Dropped, r)
    else if plan[0].Fails? then (Failed(InFetch(plan[0].error)), r)
    else Ask(Reader(Items(r.toCome[0]), r.toCome[1..]), plan[1..])
  }

  /** Every request the reader could make arrives. */
  predicate Patient(r: Reader, plan: seq<Fetch>) {
    |r.toCome| <= |plan| && forall i :: 0 <= i < |plan| ==> plan[i].Arrives?
  }

  /** The first of the requests that fails does so with `error`. */
  ghost predicate FirstFailure(plan: seq<Fetch>, error: nat) {
    exists i: nat :: FirstFailureAt(plan, i, error)
  }

  ghost predicate FirstFailureAt(plan: seq<Fetch>, i: nat, error: nat) {
    i < |plan| && plan[i] == Fails(error) && forall j :: 0 <= j < i ==> plan[j].Arrives?
  }

  lemma FailureInTurn(plan: seq<Fetch>, error: nat)
    requires plan != []
    ensures plan[0] == Fails(error) ==> FirstFailure(plan, error)
    ensures plan[0].Arrives? && FirstFailure(plan[1..], error) ==> FirstFailure(plan, error)
  {
    if plan[0] == Fails(error) {
      assert FirstFailureAt(plan, 0, error);
    } else if plan[0].Arrives? {
      if i: nat :| FirstFailureAt(plan[1..], i, error) {
        assert FirstFailureAt(plan, i + 1, error);
      }
    }
  }

  /** A call answers with the head of what is left of the result and leaves the tail, or
      says that nothing is left, or leaves everything for the next call. A call that is not
      dropped and whose requests arrive does answer. */
  lemma {:induction false} AskTakesTheHead(r: Reader, plan: seq<Fetch>)
    ensures var (answer, after) := Ask(r, plan);
            match answer
            case Got(v) => r.Stream() == [Row(v)] + after.Stream()
            case Failed(InPage(e)) => r.Stream() == [Bad(e)] + after.Stream()
            case Failed(InFetch(e)) => after.Stream() == r.Stream() && FirstFailure(plan, e)
            case Ended => r.Stream() == [] && after == Reader([], [])
            case Dropped => after.Stream() == r.Stream()
    ensures Patient(r, plan) ==> Ask(r, plan).0 == (if r.Stream() == [] then Ended else Of(r.Stream()[0]))
    decreases |r.toCome|
  {
    if r.left != [] {
      assert r.left == [r.left[0]] + r.left[1..];
      assert r.Stream() == [r.left[0]] + Reader(r.left[1..], r.toCome).Stream();
    } else if r.toCome != [] && plan != [] && plan[0].Fails? {
      FailureInTurn(plan, plan[0].error);
    } else if r.toCome != [] && plan != [] {
      var next := Reader(Items(r.toCome[0]), r.toCome[1..]);
      assert next.Stream() == r.Stream();
      AskTakesTheHead(next, plan[1..]);
      var answer := Ask(next, plan[1..]).0;
      if answer.Failed? && answer.error.InFetch? {
        FailureInTurn(plan, answer.error.error);
      }
      assert Patient(r, plan) ==> Patient(next, plan[1..]);
    }
  }

  // ------------------------------------------------------------------------ as the program keeps it

  datatype Fetched = NoMore | NotFetched(error: nat) | Arrived(page: Response) | GivenUp

  /** What the server says of the pages after page `k`. */
  function Answered(server: seq<Response>, k: nat): Pager.PagingResponse {
    if k + 1 < |server| then Pager.HasMorePages(k + 1) else Pager.NoMorePages
  }

  /** The pager: the server's last answer. The server is the pages it would send. */
  class QueryPager {
    const server: seq<Response>
    var state: Pager.Pager

    ghost predicate Valid()
      reads this
    {
      state.HasMore() ==> state.PagingState().value < |server|
    }

    ghost function ToCome(): seq<Response>
      requires Valid()
      reads this
    {
      if state.HasMore() then server[state.PagingState().value..] else []
    }

    constructor Unpaged()
      ensures Valid() && ToCome() == []
    {
      server := [];
      state := Pager.Unpaged;
    }

    /** After the first page of a paged request. */
    constructor Paged(server: seq<Response>)
      requires server != []
      ensures Valid() && ToCome() == server[1..]
    {
      this.server := server;
      state := Pager.Paged(Answered(server, 0));
    }

    method Exhaust()
      modifies this
      ensures Valid() && ToCome() == []
    {
      state := Pager.Unpaged;
    }

    /** Moves on only if a page arrived: a request that failed, or was not waited for, is
        made again by the next call. */
    method FetchNextPage(plan: seq<Fetch>) returns (page: Fetched)
      requires Valid()
      modifies this
      ensures Valid()
      ensures page.NoMore? <==> old(ToCome()) == []
      ensures page.Arrived? ==> plan != [] && plan[0].Arrives? && old(ToCome()) == [page.page] + ToCome()
      ensures !page.Arrived? ==> ToCome() == old(ToCome())
      ensures page.NotFetched? ==> plan != [] && plan[0] == Fails(page.error)
      ensures page.GivenUp? ==> plan == []
    {
      match state.PagingState() {
        case None => page := NoMore;
        case Some(k) =>
          if plan == [] {
            page := GivenUp;
          } else if plan[0].Fails? {
            page := NotFetched(plan[0].error);
          } else {
            page := Arrived(server[k]);
            state := Pager.Paged(Answered(server, k));
          }
      }
    }
  }

  /** The iterator over one page; nothing to iterate for a response without rows. */
  class RowsIterator {
    var rows: Option<seq<Item>>
    var position: nat

    ghost predicate Valid()
      reads this
    {
      rows.Some? ==> position <= |rows.value|
    }

    ghost function Left(): seq<Item>
      requires Valid()
      reads this
    {
      if rows.Some? then rows.value[position..] else []
    }

    /** On a page the row factory made a builder for. */
    constructor (page: Response)
      requires page.Rows? ==> page.factoryError.None?
      ensures Valid() && Left() == Items(page)
    {
      rows := if page.Rows? then Some(page.items) else None;
      position := 0;
    }

    /** Switches to the next page, unless the row factory fails on it. */
    method Update(page: Response) returns (error: Option<nat>)
      requires Valid()
      modifies this
      ensures Valid()
      ensures error.None? ==> Left() == Items(page)
      ensures error.Some? ==> Items(page) == [Bad(error.value)] && Left() == old(Left())
    {
      match page {
        case Rows(Some(e), _) => error := Some(e);
        case Rows(None, items) => error, rows, position := None, Some(items), 0;
        case NonRows => error, rows := None, None;
      }
    }

    method Next() returns (item: Option<Item>)
      requires Valid()
      modifies this
      ensures Valid()
      ensures item.None? <==> old(Left()) == []
      ensures item.None? ==> Left() == []
      ensures item.Some? ==> old(Left()) == [item.value] + Left()
    {
      item := None;
      if rows.Some? && position < |rows.value| {
        item := Some(rows.value[position]);
        position := position + 1;
      }
    }

    method Clear()
      modifies this
      ensures Valid() && Left() == []
    {
      rows := None;
    }
  }

  /** Where the reader made of these two is. */
  ghost function At(rows: RowsIterator, pager: QueryPager): Reader
    requires rows.Valid() && pager.Valid()
    reads rows, pager
  {
    Reader(rows.Left(), pager.ToCome())
  }

  /** The paging loop all readers of rows share. */
  method NextRowWithPaging(rows: RowsIterator, pager: QueryPager, plan: seq<Fetch>) returns (answer: Answer)
    requires rows.Valid() && pager.Valid()
    modifies rows, pager
    ensures rows.Valid() && pager.Valid()
    ensures (answer, At(rows, pager)) == old(Ask(At(rows, pager), plan))
  {
    var todo := plan;
    while true
      invariant rows.Valid() && pager.Valid()
      invariant Ask(At(rows, pager), todo) == old(Ask(At(rows, pager), plan))
      decreases |pager.ToCome()|
    {
      ghost var before := At(rows, pager);
      var item := rows.Next();
      if item.Some? {
        assert before.left[1..] == rows.Left();
        return Of(item.value);
      }
      ghost var pages := pager.ToCome();
      var page := pager.FetchNextPage(todo);
      match page {
        case NoMore => return Ended;
        case GivenUp => return Dropped;
        case NotFetched(error) => return Failed(InFetch(error));
        case Arrived(response) =>
          assert pages[1..] == pager.ToCome();
          todo := todo[1..];
          var error := rows.Update(response);
          if error.Some? {
            assert Ask(Reader(Items(response), pager.ToCome()), todo).1.left == [];
            return Failed(InPage(error.value));
          }
      }
    }
  }

  /** Rows with nothing wrong with them. */
  function AsItems(values: seq<nat>): seq<Item> {
    seq(|values|, i requires 0 <= i < |values| => Row(values[i]))
  }

  /** The rows before the first bad one, and its error. */
  function Good(items: seq<Item>): (seq<nat>, Option<nat>) {
    if items == [] then ([], None)
    else if items[0].Bad? then ([], Some(items[0].error))
    else
      var (values, error) := Good(items[1..]);
      ([items[0].value] + values, error)
  }

  lemma {:induction false} GoodIsThePrefix(items: seq<Item>)
    ensures Good(items).1.None? ==> items == AsItems(Good(items).0)
    ensures Good(items).1.Some? ==> AsItems(Good(items).0) + [Bad(Good(items).1.value)] <= items
  {
    if items != [] && items[0].Row? {
      GoodIsThePrefix(items[1..]);
      var values := Good(items[1..]).0;
      assert AsItems([items[0].value] + values) == [items[0]] + AsItems(values);
    }
  }

  /** Appends the rows left of the current page, up to one that is bad. */
  method DrainPage(rows: RowsIterator, list: seq<nat>) returns (all: seq<nat>, error: Option<nat>)
    requires rows.Valid()
    modifies rows
    ensures rows.Valid()
    ensures var good := old(Good(rows.Left())); all == list + good.0 && error == good.1
    ensures error.None? ==> rows.Left() == []
  {
    all, error := list, None;
    ghost var left := rows.Left();
    while true
      invariant rows.Valid()
      invariant all + Good(rows.Left()).0 == list + Good(left).0 && Good(rows.Left()).1 == Good(left).1
      decreases |rows.Left()|
    {
      ghost var now := rows.Left();
      var item := rows.Next();
      assert item.Some? ==> now[1..] == rows.Left();
      match item {
        case None =>
          assert all + [] == all;
          return;
        case Some(Bad(e)) =>
          error := Some(e);
          assert all + [] == all;
          return;
        case Some(Row(v)) =>
          all := all + [v];
      }
    }
  }

  datatype AllAnswer = AllRows(list: seq<nat>) | AllFailed(error: RowError) | AllDropped

  /** All rows at once, page by page. */
  function AllOf(list: seq<nat>, r: Reader, plan: seq<Fetch>): AllAnswer
    decreases |r.toCome|
  {
    var (values, error) := Good(r.left);
    if error.Some? then AllFailed(InPage(error.value))
    else if r.toCome == [] then AllRows(list + values)
    else if plan == [] then AllDropped
    else if plan[0].Fails? then AllFailed(InFetch(plan[0].error))
    else AllOf(list + values, Reader(Items(r.toCome[0]), r.toCome[1..]), plan[1..])
  }

  method All(rows: RowsIterator, pager: QueryPager, plan: seq<Fetch>) returns (answer: AllAnswer)
    requires rows.Valid() && pager.Valid()
    modifies rows, pager
    ensures answer == old(AllOf([], At(rows, pager), plan))
  {
    var list: seq<nat>, todo := [], plan;
    while true
      invariant rows.Valid() && pager.Valid()
      invariant AllOf(list, At(rows, pager), todo) == old(AllOf([], At(rows, pager), plan))
      decreases |pager.ToCome()|
    {
      var error: Option<nat>;
      list, error := DrainPage(rows, list);
      if error.Some? {
        return AllFailed(InPage(error.value));
      }
      ghost var pages := pager.ToCome();
      var page := pager.FetchNextPage(todo);
      match page {
        case NoMore => return AllRows(list);
        case GivenUp => return AllDropped;
        case NotFetched(e) => return AllFailed(InFetch(e));
        case Arrived(response) =>
          assert pages[1..] == pager.ToCome();
          todo := todo[1..];
          error := rows.Update(response);
          if error.Some? {
            assert Good(Items(response)).1 == error;
            return AllFailed(InPage(error.value));
          }
      }
    }
  }

  /** All rows at once are the rows of the whole result, or the first thing wrong with it. If
      every request arrives, it is one or the other. */
  lemma {:induction false} AllIsTheWholeResult(list: seq<nat>, r: Reader, plan: seq<Fetch>)
    ensures var whole := AsItems(list) + r.Stream();
            match AllOf(list, r, plan)
            case AllRows(rows) => AsItems(rows) == whole
            case AllFailed(InPage(e)) => exists good :: AsItems(good) + [Bad(e)] <= whole
            case AllFailed(InFetch(e)) => FirstFailure(plan, e)
            case AllDropped => forall i :: 0 <= i < |plan| ==> plan[i].Arrives?
    ensures var a := AllOf(list, r, plan); Patient(r, plan) ==> a.AllRows? || (a.AllFailed? && a.error.InPage?)
    decreases |r.toCome|
  {
    var whole := AsItems(list) + r.Stream();
    var (values, error) := Good(r.left);
    GoodIsThePrefix(r.left);
    assert AsItems(list + values) == AsItems(list) + AsItems(values);
    if error.Some? {
      assert AsItems(list + values) + [Bad(error.value)] <= whole;
    } else if r.toCome != [] && plan != [] && plan[0].Arrives? {
      var next := Reader(Items(r.toCome[0]), r.toCome[1..]);
      assert AsItems(list + values) + next.Stream() == whole;
      AllIsTheWholeResult(list + values, next, plan[1..]);
      var answer := AllOf(list + values, next, plan[1..]);
      if answer.AllFailed? && answer.error.InFetch? {
        FailureInTurn(plan, answer.error.error);
      }
      assert Patient(r, plan) ==> Patient(next, plan[1..]);
    } else if r.toCome == [] {
      assert r.Stream() == r.left;
    } else if plan != [] {
      FailureInTurn(plan, plan[0].error);
    }
  }

  /** The first row is the head of the whole result, none if that is empty. */
  method FirstRow(rows: RowsIterator, pager: QueryPager, plan: seq<Fetch>) returns (answer: Answer)
    requires rows.Valid() && pager.Valid()
    modifies rows, pager
    ensures answer.Got? ==> [Row(answer.value)] <= old(At(rows, pager).Stream())
    ensures answer.Ended? ==> old(At(rows, pager).Stream()) == []
    ensures answer.Failed? && answer.error.InPage? ==> [Bad(answer.error.error)] <= old(At(rows, pager).Stream())
    ensures old(Patient(At(rows, pager), plan)) ==>
              answer == old(if At(rows, pager).Stream() == [] then Ended else Of(At(rows, pager).Stream()[0]))
  {
    AskTakesTheHead(At(rows, pager), plan);
    answer := NextRowWithPaging(rows, pager, plan);
  }
}
