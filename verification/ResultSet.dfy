/** The legacy `ResultSet`: an iterator over the rows of a `ResponseFuture` that requests the
    pages it needs and blocks for them. */
module ResultSet {
  import opened Common
  import opened PagedRows
  import Pager
  import RequestState

  /** A legacy page is built into a list at once, so a bad row is a bad page. */
  function AsPage(p: Response): Response {
    match Good(Items(p))
    case (values, None) => Rows(None, AsItems(values))
    case (_, Some(error)) => Rows(Some(error), [])
  }

  function AsPages(ps: seq<Response>): seq<Response> {
    seq(|ps|, i requires 0 <= i < |ps| => AsPage(ps[i]))
  }

  /** The list a page is built into; empty for a response without rows. */
  function Built(p: Response): Result<seq<nat>, RowError> {
    match Good(Items(p))
    case (values, None) => Ok(values)
    case (_, Some(error)) => Err(InPage(error))
  }

  /** What is kept of the built rows of page `no`: whether they are a list, or their error. */
  function RowsFor(no: nat, p: Response): RequestState.Rows {
    match Built(p)
    case Ok(_) => RequestState.Rows(no, true, 0)
    case Err(error) => RequestState.Rows(no, false, error.error)
  }

  /** How `count` requests will go, from the `first` on. */
  function Outlook(network: nat -> Fetch, first: nat, count: nat): seq<Fetch> {
    seq(count, i requires 0 <= i => network(first + i))
  }

  /** The `ResponseFuture`, used by nobody else; `network` says how each request goes. */
  class PagedRequest {
    const server: seq<Response>
    const network: nat -> Fetch
    /** Requests for further pages made so far. */
    var requests: nat
    var request: RequestState.Request<nat>
    /** The responses, by the identity of the page received. */
    var responses: map<nat, Response>

    ghost predicate Valid()
      reads this
    {
      && !request.Pending? && request.LastPage().Some?
      && (request.HasMorePages() ==> request.LastPage().value.pager.PagingState().value < |server|)
      && (request.Received? ==> request.page.no in responses)
      && (request.Received? && request.rows.Some? ==>
          request.rows.value == RowsFor(request.page.no, responses[request.page.no]))
      && request.Unfired().None?
    }

    ghost function ToCome(): seq<Response>
      requires Valid()
      reads this
    {
      if request.HasMorePages() then AsPages(server[request.LastPage().value.pager.PagingState().value..]) else []
    }

    /** How the requests it may take to get through the pages will go. */
    ghost function Plan(): seq<Fetch>
      requires Valid()
      reads this
    {
      Outlook(network, requests, |ToCome()|)
    }

    /** The first page was received. */
    constructor (server: seq<Response>, network: nat -> Fetch, paged: bool)
      requires server != []
      ensures Valid() && this.server == server && this.network == network && requests == 0
      ensures ToCome() == if paged then AsPages(server[1..]) else []
    {
      this.server := server;
      this.network := network;
      requests := 0;
      var pager := if paged then Pager.Paged(Answered(server, 0)) else Pager.Unpaged;
      request := RequestState.Received(RequestState.Page(0, pager), None, None);
      responses := map[0 := server[0]];
      new;
      assert |server| == 1 ==> AsPages(server[1..]) == [];
    }

    /** Switches to `Pending` and has the request spawned; `false` if no page follows. */
    method StartFetchingNextPage() returns (started: Option<nat>)
      requires Valid()
      modifies this`request
      ensures started == old(request).LastPage().value.pager.PagingState()
      ensures started.None? ==> request == old(request)
      ensures started.Some? ==> request == RequestState.Pending(old(request).LastPage())
    {
      started := request.LastPage().value.pager.PagingState();
      if started.Some? {
        request := RequestState.SwitchToPending(request).0;
      }
    }

    /** The request for page `k` settles; a failure keeps the last page received. */
    method Complete(k: nat)
      requires request.Pending? && request.lastPage.Some? && k < |server|
      modifies this
      ensures requests == old(requests) + 1
      ensures match network(old(requests))
              case Fails(error) =>
                && request.Failed? && request.error == error && request.unfired.None?
                && request.lastPage == old(request).lastPage
              case Arrives =>
                && request.Received? && request.rows.None? && request.unfired.None?
                && request.page.pager == Pager.Paged(Answered(server, k))
                && request.page.no in responses && responses[request.page.no] == server[k]
    {
      var no := requests + 1;
      match network(requests) {
        case Fails(error) => request := RequestState.Settle(request, no, RequestState.Errored(error), None);
        case Arrives =>
          request := RequestState.Settle(request, no, RequestState.Got(Pager.Paged(Answered(server, k))), None);
          responses := responses[no := server[k]];
      }
      requests := requests + 1;
    }

    /** `wait_rows`, once the request has settled: the rows are built once and kept. */
    method WaitRows() returns (rows: Result<seq<nat>, RowError>)
      requires Valid()
      modifies this`request
      ensures Valid() && ToCome() == old(ToCome()) && request.Received? == old(request.Received?)
      ensures old(request.Received?) ==> request.page == old(request).page && request.rows.Some?
      ensures old(request.Received?) ==> rows == Built(responses[request.page.no])
      ensures old(request.Failed?) ==> rows == Err(InFetch(old(request).error))
    {
      match request.RowsNow().value {
        case ToBuild(no) =>
          request := RequestState.StoreRows(request, no, RowsFor(no, responses[no])).0;
          rows := Built(responses[no]);
        case Built(settled) =>
          if request.Failed? {
            rows := Err(InFetch(settled.id));
          } else if settled.ok {
            rows := Built(responses[settled.no]);
          } else {
            rows := Err(InPage(settled.id));
          }
      }
    }

    /** Requests the next page and blocks for its rows. The page counts as received even if
        its rows cannot be built. */
    method FetchPage() returns (rows: Result<seq<nat>, RowError>)
      requires Valid() && ToCome() != []
      modifies this
      ensures Valid() && requests == old(requests) + 1
      ensures match old(network(requests))
              case Fails(error) => rows == Err(InFetch(error)) && ToCome() == old(ToCome())
              case Arrives =>
                && ToCome() == old(ToCome())[1..]
                && (rows.Ok? ==> Items(old(ToCome())[0]) == AsItems(rows.value))
                && (rows.Err? ==> rows.error.InPage? && Items(old(ToCome())[0]) == [Bad(rows.error.error)])
    {
      ghost var toCome := ToCome();
      var started := StartFetchingNextPage();
      var k := started.value;
      Complete(k);
      assert server[k..][1..] == server[k + 1..];
      assert toCome[1..] == AsPages(server[k + 1..]);
      assert toCome[0] == AsPage(server[k]);
      rows := WaitRows();
    }
  }

  /** The requests a call makes: one for each page it gets, and one if that fails. */
  function Made(before: Reader, answer: Answer, after: Reader): int {
    |before.toCome| - |after.toCome| + if answer.Failed? && answer.error.InFetch? then 1 else 0
  }

  lemma AllTakesTheHead(list: seq<nat>, r: Reader, plan: seq<Fetch>)
    requires r.left != []
    ensures r.left[0].Bad? ==> AllOf(list, r, plan) == AllFailed(InPage(r.left[0].error))
    ensures r.left[0].Row? ==>
        AllOf(list, r, plan) == AllOf(list + [r.left[0].value], Reader(r.left[1..], r.toCome), plan)
  {
    if r.left[0].Row? {
      var values := Good(r.left[1..]).0;
      assert list + ([r.left[0].value] + values) == (list + [r.left[0].value]) + values;
    }
  }

  lemma AllGoesOn(list: seq<nat>, r: Reader, plan: seq<Fetch>)
    requires r.left == []
    ensures r.toCome == [] ==> AllOf(list, r, plan) == AllRows(list)
    ensures r.toCome != [] && plan != [] && plan[0].Fails? ==> AllOf(list, r, plan) == AllFailed(InFetch(plan[0].error))
    ensures r.toCome != [] && plan != [] && plan[0].Arrives? ==>
              AllOf(list, r, plan) == AllOf(list, Reader(Items(r.toCome[0]), r.toCome[1..]), plan[1..])
  {
    assert list + [] == list;
  }

  /** Asking for all rows is asking for the next row again and again. */
  lemma {:induction false} AllIsNextAgain(list: seq<nat>, r: Reader, plan: seq<Fetch>)
    requires |r.toCome| <= |plan|
    ensures |Ask(r, plan).1.toCome| <= |r.toCome| && !Ask(r, plan).0.Dropped?
    ensures Ask(r, plan).0.Got? ==>
              AllOf(list, r, plan)
                  == AllOf(list + [Ask(r, plan).0.value], Ask(r, plan).1, plan[|r.toCome| - |Ask(r, plan).1.toCome|..])
    ensures Ask(r, plan).0.Failed? ==> AllOf(list, r, plan) == AllFailed(Ask(r, plan).0.error)
    ensures Ask(r, plan).0.Ended? ==> AllOf(list, r, plan) == AllRows(list)
    decreases |r.toCome|
  {
    if r.left != [] {
      AllTakesTheHead(list, r, plan);
      assert plan[0..] == plan;
    } else {
      AllGoesOn(list, r, plan);
      if r.toCome != [] && plan[0].Arrives? {
        var next := Reader(Items(r.toCome[0]), r.toCome[1..]);
        AllIsNextAgain(list, next, plan[1..]);
        var d := |next.toCome| - |Ask(next, plan[1..]).1.toCome|;
        assert plan[1..][d..] == plan[d + 1..];
      }
    }
  }

  lemma AskOnBadPage(r: Reader, plan: seq<Fetch>, error: nat)
    requires r.left == [] && r.toCome != [] && plan != [] && plan[0].Arrives? && Items(r.toCome[0]) == [Bad(error)]
    ensures Ask(r, plan) == (Failed(InPage(error)), Reader([], r.toCome[1..]))
  {
    assert [Bad(error)][1..] == [];
    assert Ask(r, plan) == Ask(Reader([Bad(error)], r.toCome[1..]), plan[1..]);
  }

  /** One `next()`, the `k`th request being the next one. */
  function Next(r: Reader, network: nat -> Fetch, k: nat): (result: (Answer, Reader, nat)) {
    AskIsOneOf(r, Outlook(network, k, |r.toCome|));
    var (answer, after) := Ask(r, Outlook(network, k, |r.toCome|));
    (answer, after, k + Made(r, answer, after))
  }

  lemma {:induction false} AskIsOneOf(r: Reader, plan: seq<Fetch>)
    requires |r.toCome| <= |plan|
    ensures |Ask(r, plan).1.toCome| <= |r.toCome| && !Ask(r, plan).0.Dropped?
  {
    AllIsNextAgain([], r, plan);
  }

  lemma NextIsTowardsAll(all: seq<nat>, r: Reader, network: nat -> Fetch, k: nat)
    ensures var next := Next(r, network, k);
            var whole := AllOf(all, r, Outlook(network, k, |r.toCome|));
            && (next.0.Got? ==>
                  && whole == AllOf(all + [next.0.value], next.1, Outlook(network, next.2, |next.1.toCome|))
                  && |next.1.Stream()| < |r.Stream()|)
            && (next.0.Failed? ==> whole == AllFailed(next.0.error))
            && (next.0.Ended? ==> whole == AllRows(all) && next.1 == Reader([], []))
            && !next.0.Dropped?
  {
    var plan := Outlook(network, k, |r.toCome|);
    AllIsNextAgain(all, r, plan);
    AskTakesTheHead(r, plan);
    var (answer, after) := Ask(r, plan);
    OutlookRest(network, k, |r.toCome|, |r.toCome| - |after.toCome|);
  }

  lemma OutlookRest(network: nat -> Fetch, first: nat, count: nat, gone: nat)
    requires gone <= count
    ensures Outlook(network, first, count)[gone..] == Outlook(network, first + gone, count - gone)
  {
  }

  /** How far the set has been read. */
  datatype Mode = NotStarted | Iterating(position: nat) | List

  datatype SetError = OfRow(error: RowError) | UseIterator | AlreadyIterated

  /** What `next_row` does after one step. */
  datatype Step = Yield(value: nat) | End | FetchPage

  class ResultSet {
    const future: PagedRequest
    var currentRows: seq<nat>
    var mode: Mode

    ghost predicate Valid()
      reads this, future
    {
      future.Valid() && (mode.Iterating? ==> mode.position <= |currentRows|)
    }

    /** The first row of the current page that was not yielded. */
    ghost function Position(): nat
      reads this
    {
      if mode.Iterating? then mode.position else 0
    }

    ghost function Reader(): Reader
      requires Valid()
      reads this, future
    {
      PagedRows.Reader(AsItems(currentRows[Position()..]), future.ToCome())
    }

    /** What is left for a reader that starts the current page again. */
    ghost function FromPageStart(): Reader
      requires Valid()
      reads this, future
    {
      PagedRows.Reader(AsItems(currentRows), future.ToCome())
    }

    constructor (future: PagedRequest, rows: seq<nat>)
      requires future.Valid()
      ensures Valid() && this.future == future && mode.NotStarted? && currentRows == rows
    {
      this.future := future;
      currentRows := rows;
      mode := NotStarted;
    }

    /** One step under the lock. */
    method TakeStep() returns (step: Step)
      requires Valid() && !mode.List?
      modifies this
      ensures Valid() && mode.Iterating?
      ensures step.Yield? ==> old(Reader().left) == [Row(step.value)] + Reader().left && currentRows == old(currentRows)
      ensures !step.Yield? ==> old(Reader().left) == [] && Reader().left == []
      ensures step.End? ==> future.ToCome() == []
      ensures step.FetchPage? ==> future.ToCome() != []
    {
      var position := if mode.Iterating? then mode.position else 0;
      mode := Iterating(position);
      ghost var left := currentRows[position..];
      if position < |currentRows| {
        mode := Iterating(position + 1);
        assert AsItems(left) == [Row(currentRows[position])] + AsItems(currentRows[position + 1..]);
        return Yield(currentRows[position]);
      }
      if future.request.HasMorePages() {
        return FetchPage;
      }
      currentRows, mode := [], Iterating(0);
      step := End;
    }

    /** Goes on to the next page. An error leaves the set at the end of the page it is on. */
    method StartNextPage() returns (error: Option<RowError>)
      requires Valid() && mode.Iterating? && Reader().left == [] && future.ToCome() != []
      modifies this, future
      ensures Valid() && mode.Iterating?
      ensures error.Some? ==>
          (Failed(error.value), Reader()) == old(Ask(Reader(), future.Plan())) && currentRows == old(currentRows)
      ensures error.None? ==> Ask(Reader(), future.Plan()) == old(Ask(Reader(), future.Plan()))
      ensures future.requests == old(future.requests) + 1
      ensures |future.ToCome()| == old(|future.ToCome()|) - if error.Some? && error.value.InFetch? then 0 else 1
      ensures error.None? ==>
          mode.position == 0 && AsItems(currentRows) == old(Items(future.ToCome()[0]))
              && future.ToCome() == old(future.ToCome())[1..]
    {
      ghost var plan, toCome := future.Plan(), future.ToCome();
      assert plan[0] == future.network(future.requests);
      var rows := future.FetchPage();
      match rows {
        case Err(e) =>
          error := Some(e);
          if e.InPage? {
            AskOnBadPage(PagedRows.Reader([], toCome), plan, e.error);
          }
        case Ok(list) =>
          error := None;
          currentRows, mode := list, Iterating(0);
          assert list[0..] == list;
          assert plan[1..] == future.Plan();
      }
    }

    /** The next row, requesting further pages as needed. After an error the next call goes
        on from where this one stopped. */
    method NextRow() returns (answer: Result<Option<nat>, SetError>)
      requires Valid()
      modifies this, future
      ensures Valid()
      ensures old(mode.List?) ==> answer == Err(UseIterator) && Reader() == old(Reader()) && mode.List?
      ensures !old(mode.List?) ==> mode.Iterating? && (AsAnswer(answer), Reader()) == old(Ask(Reader(), future.Plan()))
      ensures future.requests == old(future.requests) + Made(old(Reader()), AsAnswer(answer), Reader())
    {
      if mode.List? {
        return Err(UseIterator);
      }
      while true
        invariant Valid() && !mode.List?
        invariant Ask(Reader(), future.Plan()) == old(Ask(Reader(), future.Plan()))
        invariant |future.ToCome()| + future.requests == old(|future.ToCome()| + future.requests)
        decreases |future.ToCome()|
      {
        ghost var left := Reader().left;
        var step := TakeStep();
        match step {
          case Yield(value) =>
            assert left[1..] == Reader().left;
            return Ok(Some(value));
          case End => return Ok(None);
          case FetchPage =>
            var error := StartNextPage();
            if error.Some? {
              return Err(OfRow(error.value));
            }
        }
      }
    }

    /** Every row from the start of the current page onwards; after an error, the set is where
        it would be after asking for the rows one by one. */
    method DrainFromStart() returns (answer: Result<seq<nat>, SetError>)
      requires Valid()
      modifies this, future
      ensures Valid()
      ensures old(mode.List?) ==> answer == Ok(old(currentRows)) && mode.List? && currentRows == old(currentRows)
      ensures !old(mode.List?) ==> mode.Iterating? && AsAll(answer) == old(AllOf([], FromPageStart(), future.Plan()))
      ensures !old(mode.List?) && answer.Ok? ==>
          AsItems(answer.value) == old(FromPageStart().Stream()) && Reader() == PagedRows.Reader([], [])
    {
      if mode.List? {
        return Ok(currentRows);
      }
      mode := Iterating(0);
      assert currentRows[0..] == currentRows;
      AllIsTheWholeResult([], Reader(), future.Plan());
      assert AsItems([]) + Reader().Stream() == Reader().Stream();
      answer := Collect();
    }

    /** `NextRow`, as a step towards `all` rows. */
    method CollectNext(ghost all: seq<nat>) returns (next: Result<Option<nat>, SetError>)
      requires Valid() && mode.Iterating?
      modifies this, future
      ensures Valid() && mode.Iterating?
      ensures match next
              case Ok(Some(v)) =>
                && AllOf(all + [v], Reader(), future.Plan()) == old(AllOf(all, Reader(), future.Plan()))
                && |Reader().Stream()| < old(|Reader().Stream()|)
              case Ok(None) => old(AllOf(all, Reader(), future.Plan())) == AllRows(all)
                  && Reader() == PagedRows.Reader([], [])
              case Err(error) => error.OfRow? && old(AllOf(all, Reader(), future.Plan())) == AllFailed(error.error)
    {
      ghost var before, k := Reader(), future.requests;
      next := NextRow();
      assert Next(before, future.network, k) == (AsAnswer(next), Reader(), future.requests);
      NextIsTowardsAll(all, before, future.network, k);
    }

    method Collect() returns (answer: Result<seq<nat>, SetError>)
      requires Valid() && mode.Iterating?
      modifies this, future
      ensures Valid() && mode.Iterating?
      ensures AsAll(answer) == old(AllOf([], Reader(), future.Plan()))
      ensures answer.Ok? ==> Reader() == PagedRows.Reader([], [])
    {
      var all: seq<nat> := [];
      while true
        invariant Valid() && mode.Iterating?
        invariant AllOf(all, Reader(), future.Plan()) == old(AllOf([], Reader(), future.Plan()))
        decreases |Reader().Stream()|
      {
        var next := CollectNext(all);
        match next {
          case Ok(Some(value)) => all := all + [value];
          case Ok(None) => return Ok(all);
          case Err(error) => return Err(error);
        }
      }
    }

    /** Materializes every row, for a set nothing was read of. */
    method EnterListMode() returns (error: Option<SetError>)
      requires Valid()
      modifies this, future
      ensures Valid() && (error.None? ==> mode.List?)
      ensures old(mode.List?) ==> error.None? && currentRows == old(currentRows)
      ensures old(mode.Iterating?) ==> error == Some(AlreadyIterated) && mode == old(mode) && Reader() == old(Reader())
      ensures old(mode.NotStarted?) && error.None? ==>
          AsItems(currentRows) == old(FromPageStart().Stream()) && future.ToCome() == []
      ensures old(mode.NotStarted?) && error.Some? ==>
          mode.Iterating? && AsAll(Err(error.value)) == old(AllOf([], FromPageStart(), future.Plan()))
    {
      match mode {
        case List => return None;
        case Iterating(_) => return Some(AlreadyIterated);
        case NotStarted =>
      }
      var all := DrainFromStart();
      match all {
        case Err(e) => error := Some(e);
        case Ok(rows) =>
          error := None;
          currentRows, mode := rows, List;
      }
    }

    /** Replaces the current page by the next one, or by nothing after the last. */
    method FetchNextPage() returns (error: Option<RowError>)
      requires Valid()
      modifies this, future
      ensures Valid() && mode == (if old(mode.Iterating?) && error.None? then Iterating(0) else old(mode))
      ensures error.None? && old(future.ToCome()) == [] ==> currentRows == [] && future.ToCome() == []
      ensures error.None? && old(future.ToCome()) != [] ==>
                AsItems(currentRows) == Items(old(future.ToCome())[0]) && future.ToCome() == old(future.ToCome())[1..]
      ensures error.Some? ==> currentRows == old(currentRows) && old(future.ToCome()) != []
      ensures error.Some? && error.value.InFetch? ==>
                future.ToCome() == old(future.ToCome())
                    && old(future.network(future.requests)) == Fails(error.value.error)
      ensures error.Some? && error.value.InPage? ==>
                Items(old(future.ToCome())[0]) == [Bad(error.value.error)]
                    && future.ToCome() == old(future.ToCome())[1..]
    {
      error := None;
      var rows := [];
      ghost var toCome := future.ToCome();
      if future.request.HasMorePages() {
        var fetched := future.FetchPage();
        if fetched.Err? {
          return Some(fetched.error);
        }
        rows := fetched.value;
      }
      currentRows := rows;
      if mode.Iterating? {
        mode := Iterating(0);
      }
    }
  }

  function AsAnswer(answer: Result<Option<nat>, SetError>): Answer {
    match answer
    case Ok(Some(value)) => Got(value)
    case Ok(None) => Ended
    case Err(OfRow(error)) => Failed(error)
    case Err(_) => Dropped
  }

  function AsAll(answer: Result<seq<nat>, SetError>): AllAnswer {
    match answer
    case Ok(rows) => AllRows(rows)
    case Err(OfRow(error)) => AllFailed(error)
    case Err(_) => AllDropped
  }

  // --------------------------------------------------------------------------- calling it again

  /** `n` calls. */
  function Answers(r: Reader, network: nat -> Fetch, k: nat, n: nat): (answers: seq<Answer>)
    ensures |answers| == n
    decreases n
  {
    if n == 0 then [] else
      var (answer, after, k') := Next(r, network, k);
      [answer] + Answers(after, network, k', n - 1)
  }

  function After(r: Reader, network: nat -> Fetch, k: nat, n: nat): Reader
    decreases n
  {
    if n == 0 then r else
      var (_, after, k') := Next(r, network, k);
      After(after, network, k', n - 1)
  }

  function SeenIn(answer: Answer): seq<Item> {
    match answer
    case Got(v) => [Row(v)]
    case Failed(InPage(e)) => [Bad(e)]
    case _ => []
  }

  /** The rows yielded, and the pages reported as bad. */
  function Seen(answers: seq<Answer>): seq<Item> {
    if answers == [] then [] else SeenIn(answers[0]) + Seen(answers[1..])
  }

  function FailedRequests(answers: seq<Answer>): nat {
    if answers == [] then 0
    else FailedRequests(answers[1..]) + if answers[0].Failed? && answers[0].error.InFetch? then 1 else 0
  }

  lemma NextTakesTheHead(r: Reader, network: nat -> Fetch, k: nat)
    ensures SeenIn(Next(r, network, k).0) + Next(r, network, k).1.Stream() == r.Stream()
  {
    AskTakesTheHead(r, Outlook(network, k, |r.toCome|));
  }

  /** A call says that this is the end, or something was seen, or a request failed. */
  lemma NextIsARowOrAFailure(r: Reader, network: nat -> Fetch, k: nat)
    ensures var (answer, after, _) := Next(r, network, k);
            if answer.Ended? then r.Stream() == [] && after == Reader([], [])
            else |SeenIn(answer)| == if answer.Failed? && answer.error.InFetch? then 0 else 1
  {
    AskTakesTheHead(r, Outlook(network, k, |r.toCome|));
    AskIsOneOf(r, Outlook(network, k, |r.toCome|));
  }

  lemma AnswersAddUp(answer: Answer, rest: seq<Answer>)
    ensures var all := [answer] + rest;
            && Seen(all) == SeenIn(answer) + Seen(rest)
            && FailedRequests(all) == FailedRequests(rest) + (if answer.Failed? && answer.error.InFetch? then 1 else 0)
            && (Ended in all <==> answer.Ended? || Ended in rest)
  {
    assert ([answer] + rest)[1..] == rest;
  }

  lemma AnswersInTurn(r: Reader, network: nat -> Fetch, k: nat, n: nat)
    requires n > 0
    ensures var next := Next(r, network, k);
            && Answers(r, network, k, n)[0] == next.0
            && Answers(r, network, k, n)[1..] == Answers(next.1, network, next.2, n - 1)
            && After(r, network, k, n) == After(next.1, network, next.2, n - 1)
  {
  }

  /** However requests fail, and however often `next` is called again, what was yielded and
      what is to come is the whole result, each bad page reported once and in its place. */
  lemma {:induction false} RetriesLoseNothing(r: Reader, network: nat -> Fetch, k: nat, n: nat)
    ensures Seen(Answers(r, network, k, n)) + After(r, network, k, n).Stream() == r.Stream()
    decreases n
  {
    if n > 0 {
      var (answer, after, k') := Next(r, network, k);
      NextTakesTheHead(r, network, k);
      AnswersInTurn(r, network, k, n);
      RetriesLoseNothing(after, network, k', n - 1);
      ConcatAssociates(SeenIn(answer), Seen(Answers(after, network, k', n - 1)),
          After(after, network, k', n - 1).Stream());
    }
  }

  lemma {:induction false} EndIsTheEnd(network: nat -> Fetch, k: nat, n: nat)
    ensures Seen(Answers(Reader([], []), network, k, n)) == []
    decreases n
  {
    if n > 0 {
      EndIsTheEnd(network, k, n - 1);
      assert Answers(Reader([], []), network, k, n)[1..] == Answers(Reader([], []), network, k, n - 1);
    }
  }

  /** And calling on for as long as there are rows and failed requests gets to the end, when
      the whole result was seen. */
  lemma {:induction false} CallingOnGetsToTheEnd(r: Reader, network: nat -> Fetch, k: nat, n: nat)
    ensures Ended in Answers(r, network, k, n) ==> Seen(Answers(r, network, k, n)) == r.Stream()
    ensures n > |r.Stream()| + FailedRequests(Answers(r, network, k, n)) ==> Ended in Answers(r, network, k, n)
    decreases n
  {
    if n > 0 {
      var (answer, after, k') := Next(r, network, k);
      NextTakesTheHead(r, network, k);
      NextIsARowOrAFailure(r, network, k);
      AnswersAddUp(answer, Answers(after, network, k', n - 1));
      if answer.Ended? {
        EndIsTheEnd(network, k', n - 1);
      } else {
        CallingOnGetsToTheEnd(after, network, k', n - 1);
      }
    }
  }

  // ------------------------------------------------------------------------- pages that do not build

  function RowIn(item: Item): seq<nat> {
    if item.Row? then [item.value] else []
  }

  function RowsOf(items: seq<Item>): seq<nat> {
    if items == [] then [] else RowIn(items[0]) + RowsOf(items[1..])
  }

  lemma {:induction false} RowsOfAppend(a: seq<Item>, b: seq<Item>)
    ensures RowsOf(a + b) == RowsOf(a) + RowsOf(b)
  {
    if a == [] {
      assert a + b == b;
    } else {
      RowsOfAppend(a[1..], b);
      assert (a + b)[1..] == a[1..] + b;
      ConcatAssociates(RowIn(a[0]), RowsOf(a[1..]), RowsOf(b));
    }
  }

  /** The page can be built, or has no good row to lose. */
  predicate KeepsItsRows(p: Response) {
    Good(Items(p)).1.Some? ==> RowsOf(Items(p)) == []
  }

  lemma PageKeepsItsRows(p: Response)
    ensures |RowsOf(Items(AsPage(p)))| <= |RowsOf(Items(p))|
    ensures RowsOf(Items(AsPage(p))) == RowsOf(Items(p)) <==> KeepsItsRows(p)
  {
    var (values, error) := Good(Items(p));
    GoodIsThePrefix(Items(p));
    if error.None? {
      assert Items(AsPage(p)) == Items(p);
    } else {
      assert RowsOf([Bad(error.value)]) == [];
    }
  }

  lemma {:induction false} PagesKeepTheirRows(ps: seq<Response>)
    ensures |RowsOf(Concat(AsPages(ps)))| <= |RowsOf(Concat(ps))|
    ensures RowsOf(Concat(AsPages(ps))) == RowsOf(Concat(ps)) <==> forall i :: 0 <= i < |ps| ==> KeepsItsRows(ps[i])
  {
    if ps != [] {
      var first, rest := Items(AsPage(ps[0])), Concat(AsPages(ps[1..]));
      PagesKeepTheirRows(ps[1..]);
      PageKeepsItsRows(ps[0]);
      assert AsPages(ps)[1..] == AsPages(ps[1..]);
      assert Concat(AsPages(ps)) == first + rest;
      RowsOfAppend(first, rest);
      RowsOfAppend(Items(ps[0]), Concat(ps[1..]));
      SplitEqual(RowsOf(first), RowsOf(rest), RowsOf(Items(ps[0])), RowsOf(Concat(ps[1..])));
      assert forall i :: 0 < i < |ps| ==> ps[i] == ps[1..][i - 1];
    }
  }

  lemma {:induction false} RowsOfGood(values: seq<nat>)
    ensures RowsOf(AsItems(values)) == values
  {
    if values != [] {
      RowsOfGood(values[1..]);
      assert AsItems(values)[1..] == AsItems(values[1..]);
    }
  }

  /** A page whose rows cannot be built is not tried again: its good rows are never yielded.
      So calling `next` until the end, with `current` the rows of the page at hand and `ps` the
      pages after it, yields all good rows of the result exactly when every such page has none. */
  lemma AllRowsExactlyWhenPagesBuild(current: seq<nat>, ps: seq<Response>, network: nat -> Fetch, k: nat, n: nat)
    requires Ended in Answers(Reader(AsItems(current), AsPages(ps)), network, k, n)
    ensures RowsOf(Seen(Answers(Reader(AsItems(current), AsPages(ps)), network, k, n))) == current + RowsOf(Concat(ps))
            <==> forall i :: 0 <= i < |ps| ==> KeepsItsRows(ps[i])
  {
    CallingOnGetsToTheEnd(Reader(AsItems(current), AsPages(ps)), network, k, n);
    RowsOfAppend(AsItems(current), Concat(AsPages(ps)));
    RowsOfGood(current);
    PagesKeepTheirRows(ps);
    SplitEqual(current, RowsOf(Concat(AsPages(ps))), current, RowsOf(Concat(ps)));
  }

  lemma SplitEqual(a: seq<nat>, b: seq<nat>, c: seq<nat>, d: seq<nat>)
    requires |a| <= |c| && |b| <= |d|
    ensures a + b == c + d <==> a == c && b == d
  {
    if a + b == c + d {
      assert |a| == |c|;
      assert a == (a + b)[..|a|] && c == (c + d)[..|c|];
      assert b == (a + b)[|a|..] && d == (c + d)[|c|..];
    }
  }

  /** A middle page with a bad row: its good row, 2, does not come. */
  lemma BadPageIsSkipped(network: nat -> Fetch)
    requires network(0).Arrives? && network(1).Arrives?
    ensures var r := Reader([Row(1)], AsPages([Rows(None, [Row(2), Bad(7)]), Rows(None, [Row(3)])]));
            Answers(r, network, 0, 4) == [Got(1), Failed(InPage(7)), Got(3), Ended]
  {
    var bad, last := Rows(None, [Row(2), Bad(7)]), Rows(None, [Row(3)]);
    assert [Row(2), Bad(7)][1..] == [Bad(7)] && [Row(3)][1..] == [];
    assert Good([Bad(7)]) == ([], Some(7)) && Good(Items(bad)).1 == Some(7);
    assert Good([Row(3)][1..]) == ([], None) && [3] + [] == [3];
    assert Good(Items(last)) == ([3], None);
    assert AsItems([3]) == [Row(3)];
    var pages := [AsPage(bad), AsPage(last)];
    assert AsPages([bad, last]) == pages;
    assert Items(pages[0]) == [Bad(7)] && Items(pages[1]) == [Row(3)];
    assert pages[1..] == [pages[1]] && pages[1..][1..] == [];
    FourAnswers(pages, network);
  }

  lemma FourAnswers(pages: seq<Response>, network: nat -> Fetch)
    requires |pages| == 2 && Items(pages[0]) == [Bad(7)] && Items(pages[1]) == [Row(3)]
    requires network(0).Arrives? && network(1).Arrives?
    ensures Answers(Reader([Row(1)], pages), network, 0, 4) == [Got(1), Failed(InPage(7)), Got(3), Ended]
  {
    var r0, r1, r2, r3 := Reader([Row(1)], pages), Reader([], pages), Reader([], pages[1..]), Reader([], []);
    assert [Row(1)][1..] == [] && [Row(3)][1..] == [];
    assert Next(r0, network, 0) == (Got(1), r1, 0);
    AskOnBadPage(r1, Outlook(network, 0, 2), 7);
    assert Next(r1, network, 0) == (Failed(InPage(7)), r2, 1);
    assert Outlook(network, 1, 1)[0] == network(1);
    assert r2.toCome[0] == pages[1] && r2.toCome[1..] == [];
    assert Ask(r2, Outlook(network, 1, 1)) == Ask(Reader([Row(3)], []), Outlook(network, 1, 1)[1..]);
    assert Next(r2, network, 1) == (Got(3), r3, 2);
    assert Next(r3, network, 2) == (Ended, r3, 2);
    assert Answers(r3, network, 2, 1) == [Ended];
    assert Answers(r2, network, 1, 2) == [Got(3), Ended];
    assert Answers(r1, network, 0, 3) == [Failed(InPage(7)), Got(3), Ended];
  }
}
