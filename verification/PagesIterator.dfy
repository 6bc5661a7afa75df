/** The asynchronous iterator over the pages of a result. A page is bound to the row factory
    when it is handed to Python, after its fetch and perhaps after the next one has started. It
    belongs to the call that took it: if that call is dropped meanwhile, the page is lost. */
module PagesIterator {
  import opened Common
  import opened PagedRows
  import opened PagedIterators

  datatype PageAnswer = Page(page: Response) | PageFailed(error: nat) | NoMorePages | PageDropped

  datatype Pages = Pages(
    firstPage: Option<Response>,
    toCome: seq<Response>,
    /** Set by the first error. */
    finished: bool,
    /** Calls that went on to fetch a page and are not over. */
    fetching: nat,
    /** The pages that went out, in order; by their place among them, those on their way to
        Python, those handed to it, and those whose call was dropped before that. */
    out: seq<Response>,
    onTheWay: set<nat>,
    handed: set<nat>,
    lost: set<nat>)
  {
    function Left(): seq<Response> {
      (if firstPage.Some? then [firstPage.value] else []) + toCome
    }
  }

  /** The row factory has a builder for the page, or the page has no rows. */
  predicate Binds(page: Response) {
    page.Rows? ==> page.factoryError.None?
  }

  /** At first, with the first page bound already. */
  function NewPages(first: Response, toCome: seq<Response>): Pages {
    Pages(Some(first), toCome, false, 0, [], {}, {}, {})
  }

  /** The start of `__anext__`: the first page goes out in a future that is finished already. */
  function Begin(p: Pages, lockFree: bool): (Pages, Option<Response>) {
    if lockFree && p.firstPage.Some? then
      (p.(firstPage := None, out := p.out + [p.firstPage.value], onTheWay := p.onTheWay + {|p.out|}), p.firstPage)
    else (p.(fetching := p.fetching + 1), None)
  }

  /** The rest of a call that fetches. */
  function FetchNext(p: Pages, getsLock: bool, plan: seq<Fetch>): (Pages, PageAnswer)
    requires p.fetching > 0
  {
    var q := p.(fetching := p.fetching - 1);
    if !getsLock then (q, PageDropped)
    else if p.finished || p.toCome == [] then (q, NoMorePages)
    else if plan == [] then (q, PageDropped)
    else if plan[0].Fails? then (q.(finished := true), PageFailed(plan[0].error))
    else
      (q.(toCome := p.toCome[1..], out := p.out + [p.toCome[0]], onTheWay := p.onTheWay + {|p.out|}), Page(p.toCome[0]))
  }

  /** Page `i` gets to Python, where the row factory may fail on it. */
  function HandOver(p: Pages, i: nat): (Pages, Option<seq<Item>>)
    requires i < |p.out|
  {
    var q := p.(onTheWay := p.onTheWay - {i});
    if Binds(p.out[i]) then (q.(handed := p.handed + {i}), Some(Items(p.out[i])))
    else (q.(finished := true), None)
  }

  /** The call for page `i` is dropped, or cancelled, after it took the page. */
  function Lose(p: Pages, i: nat): Pages {
    p.(onTheWay := p.onTheWay - {i}, lost := p.lost + {i})
  }

  // ----------------------------------------------------------------------------------- any calls

  datatype PageStep =
    | Beginning(lockFree: bool)
    | Fetching(getsLock: bool, plan: seq<Fetch>)
    | HandingOver(page: nat)
    | Losing(page: nat)

  ghost predicate CanStep(p: Pages, step: PageStep) {
    match step
    // Only a call that fetches holds the lock for longer.
    case Beginning(lockFree) => p.fetching == 0 ==> lockFree
    case Fetching(_, _) => p.fetching > 0
    case HandingOver(i) => i in p.onTheWay && i < |p.out|
    case Losing(i) => i in p.onTheWay
  }

  function Next(p: Pages, step: PageStep): Pages
    requires CanStep(p, step)
  {
    match step
    case Beginning(lockFree) => Begin(p, lockFree).0
    case Fetching(getsLock, plan) => FetchNext(p, getsLock, plan).0
    case HandingOver(i) => HandOver(p, i).0
    case Losing(i) => Lose(p, i)
  }

  datatype PagesRun = Begun(first: Response, toCome: seq<Response>) | Then(before: PagesRun, step: PageStep)

  ghost predicate Possible(r: PagesRun)
    decreases r, 0
  {
    match r
    case Begun(first, _) => Binds(first)
    case Then(before, step) => Possible(before) && CanStep(StateOf(before), step)
  }

  ghost function StateOf(r: PagesRun): Pages
    requires Possible(r)
    decreases r, 1
  {
    match r
    case Begun(first, toCome) => NewPages(first, toCome)
    case Then(before, step) => Next(StateOf(before), step)
  }

  /** The pages of the result. */
  ghost function PagesOf(r: PagesRun): (pages: seq<Response>)
    ensures pages != []
  {
    match r
    case Begun(first, toCome) => [first] + toCome
    case Then(before, _) => PagesOf(before)
  }

  /** Some call said that there are no more pages, and not because of an error. */
  ghost predicate SaidNoMore(r: PagesRun)
    requires Possible(r)
  {
    r.Then? && (|| SaidNoMore(r.before)
                || (r.step.Fetching? && !StateOf(r.before).finished
                    && FetchNext(StateOf(r.before), r.step.getsLock, r.step.plan).1.NoMorePages?))
  }

  /** Pages go out in order and none is left out; each that is out is on its way, or was handed
      over with its rows, or was lost, or has failed, which ends the iteration. */
  ghost predicate PagesInv(p: Pages, pages: seq<Response>) {
    && p.out + p.Left() == pages
    && (p.firstPage.Some? ==> p.fetching == 0 && p.out == [] && Binds(p.firstPage.value))
    && (forall i :: i in p.onTheWay || i in p.handed || i in p.lost ==> i < |p.out|)
    && p.onTheWay !! p.handed !! p.lost
    && (forall i :: i in p.handed ==> Binds(p.out[i]))
    && (!p.finished ==> forall i: nat :: i < |p.out| ==> i in p.onTheWay || i in p.handed || i in p.lost)
  }

  lemma StepKeepsPages(p: Pages, step: PageStep, pages: seq<Response>)
    requires CanStep(p, step) && PagesInv(p, pages)
    ensures PagesInv(Next(p, step), pages)
  {
    var q := Next(p, step);
    assert q.out + q.Left() == p.out + p.Left();
  }

  lemma {:induction false} PagesComeInOrder(r: PagesRun)
    requires Possible(r)
    ensures PagesInv(StateOf(r), PagesOf(r))
    ensures SaidNoMore(r) ==> StateOf(r).Left() == []
  {
    if r.Then? {
      PagesComeInOrder(r.before);
      StepKeepsPages(StateOf(r.before), r.step, PagesOf(r));
    }
  }

  /** The rows of the pages handed over, in page order. */
  ghost function RowsHanded(out: seq<Response>, handed: set<nat>): seq<Item>
    decreases |out|
  {
    if out == [] then []
    else
      var last := |out| - 1;
      RowsHanded(out[..last], handed) + if last in handed then Items(out[last]) else []
  }

  lemma {:induction false} ConcatAppend(pages: seq<Response>, page: Response)
    ensures Concat(pages + [page]) == Concat(pages) + Items(page)
  {
    if pages == [] {
      assert pages + [page] == [page] && [page][1..] == [];
    } else {
      ConcatAppend(pages[1..], page);
      assert (pages + [page])[1..] == pages[1..] + [page];
      ConcatAssociates(Items(pages[0]), Concat(pages[1..]), Items(page));
    }
  }

  /** The rows Python got for each page handed over. */
  ghost function Received(r: PagesRun): map<nat, seq<Item>>
    requires Possible(r)
  {
    match r
    case Begun(_, _) => map[]
    case Then(before, HandingOver(i)) =>
      var rows := HandOver(StateOf(before), i).1;
      if rows.Some? then Received(before)[i := rows.value] else Received(before)
    case Then(before, _) => Received(before)
  }

  /** In page order. */
  ghost function InOrder(received: map<nat, seq<Item>>, pages: nat): seq<Item> {
    if pages == 0 then []
    else InOrder(received, pages - 1) + if pages - 1 in received then received[pages - 1] else []
  }

  ghost function RowsGot(r: PagesRun): seq<Item>
    requires Possible(r)
  {
    InOrder(Received(r), |PagesOf(r)|)
  }

  lemma OutGrows(p: Pages, step: PageStep)
    requires CanStep(p, step)
    ensures p.out <= Next(p, step).out
    ensures !step.HandingOver? ==> Next(p, step).handed == p.handed
  {
  }

  /** What Python gets for a page are its rows. */
  lemma {:induction false} ReceivedAreHanded(r: PagesRun)
    requires Possible(r)
    ensures Received(r).Keys == StateOf(r).handed
    ensures forall i :: i in Received(r) ==> i < |StateOf(r).out| && Received(r)[i] == Items(StateOf(r).out[i])
  {
    if r.Then? {
      ReceivedAreHanded(r.before);
      OutGrows(StateOf(r.before), r.step);
      var out, after := StateOf(r.before).out, StateOf(r).out;
      assert forall i: nat :: i < |out| ==> after[i] == out[i];
    }
  }

  lemma {:induction false} InOrderIsHanded(received: map<nat, seq<Item>>, out: seq<Response>, handed: set<nat>)
    requires received.Keys == handed
    requires forall i :: i in received && i < |out| ==> received[i] == Items(out[i])
    ensures InOrder(received, |out|) == RowsHanded(out, handed)
    decreases |out|
  {
    if out != [] {
      InOrderIsHanded(received, out[..|out| - 1], handed);
    }
  }

  /** Every page that is not among those `handed` has no rows. */
  ghost predicate OthersAreEmpty(out: seq<Response>, handed: set<nat>) {
    forall i: nat :: i < |out| && i !in handed ==> Items(out[i]) == []
  }

  lemma {:induction false} HandedExactlyWhen(out: seq<Response>, handed: set<nat>)
    ensures if OthersAreEmpty(out, handed) then RowsHanded(out, handed) == Concat(out)
            else |RowsHanded(out, handed)| < |Concat(out)|
    decreases |out|
  {
    if out != [] {
      var last := |out| - 1;
      var before := out[..last];
      HandedExactlyWhen(before, handed);
      ConcatAppend(before, out[last]);
      assert out == before + [out[last]];
      assert OthersAreEmpty(out, handed) <==>
          OthersAreEmpty(before, handed) && (last !in handed ==> Items(out[last]) == []) by {
        assert forall i: nat :: i < last ==> before[i] == out[i];
      }
    }
  }

  /** No page that was lost, or is still on its way, has rows. */
  ghost predicate NoRowIsMissing(p: Pages) {
    forall i :: (i in p.onTheWay || i in p.lost) && i < |p.out| ==> Items(p.out[i]) == []
  }

  /** Whatever calls are made, dropped, or overtake each other: if none failed and some call said
      that there are no more pages, the rows Python got are the rows of the whole result if, and
      only if, no page lost or still on its way has any. */
  lemma PagesHaveEveryRowExactlyWhen(r: PagesRun)
    requires Possible(r) && SaidNoMore(r) && !StateOf(r).finished
    ensures RowsGot(r) == Concat(PagesOf(r)) <==> NoRowIsMissing(StateOf(r))
  {
    PagesComeInOrder(r);
    var p := StateOf(r);
    assert p.out + [] == p.out;
    HandedExactlyWhen(p.out, p.handed);
    ReceivedAreHanded(r);
    InOrderIsHanded(Received(r), p.out, p.handed);
    assert OthersAreEmpty(p.out, p.handed) <==> NoRowIsMissing(p);
  }

  /** So if every call that took a page was waited for, the pages handed over have every row. */
  lemma PagesHaveEveryRow(r: PagesRun)
    requires Possible(r) && SaidNoMore(r) && !StateOf(r).finished
    requires StateOf(r).onTheWay == {} && StateOf(r).lost == {}
    ensures RowsGot(r) == Concat(PagesOf(r))
  {
    PagesHaveEveryRowExactlyWhen(r);
  }

  ghost predicate GoesOnFrom(later: PagesRun, r: PagesRun) {
    later == r || (later.Then? && GoesOnFrom(later.before, r))
  }

  /** After the first error no page goes out any more, and only what was on its way before it
      can still be handed over: nothing at all if one call is made at a time. */
  lemma {:induction false} NoPageComesAfterAnError(r: PagesRun, later: PagesRun)
    requires Possible(r) && Possible(later) && GoesOnFrom(later, r) && StateOf(r).finished
    ensures var p, q := StateOf(r), StateOf(later);
            && q.finished && q.out == p.out && q.toCome == p.toCome
            && q.handed <= p.handed + p.onTheWay && q.onTheWay <= p.onTheWay
            && (p.onTheWay == {} ==> q.handed == p.handed)
  {
    PagesComeInOrder(later);
    PagesComeInOrder(r);
    if later != r {
      NoPageComesAfterAnError(r, later.before);
      HandedStays(later.before, later.step);
      NoFirstPageAfterAnError(later.before);
    }
  }

  lemma HandedStays(r: PagesRun, step: PageStep)
    requires Possible(Then(r, step))
    ensures StateOf(r).handed <= StateOf(Then(r, step)).handed
  {
  }

  /** An error is an error of a later page: the first one is out by then. */
  lemma {:induction false} NoFirstPageAfterAnError(r: PagesRun)
    requires Possible(r) && StateOf(r).finished
    ensures StateOf(r).firstPage.None?
  {
    if r.Then? {
      PagesComeInOrder(r.before);
      if StateOf(r.before).finished {
        NoFirstPageAfterAnError(r.before);
      }
    }
  }

  // ------------------------------------------------------------------------ what can still come

  /** Nothing failed, and every page still to be handed over, that is all but those in `lose`, binds. */
  ghost predicate CanRead(p: Pages, pages: seq<Response>, lose: set<nat>) {
    !p.finished && forall i: nat :: i < |pages| && i !in p.handed && i !in p.lost && i !in lose ==> Binds(pages[i])
  }

  lemma {:induction false} GoesOnFromStep(later: PagesRun, r: PagesRun, step: PageStep)
    requires GoesOnFrom(later, Then(r, step))
    ensures GoesOnFrom(later, r)
  {
    if later != Then(r, step) {
      GoesOnFromStep(later.before, r, step);
    } else {
      assert GoesOnFrom(r, r);
    }
  }

  /** A call that takes the next page. */
  lemma TakeNext(r: PagesRun) returns (later: PagesRun)
    requires Possible(r) && !StateOf(r).finished && StateOf(r).Left() != []
    ensures Possible(later) && forall end :: GoesOnFrom(end, later) ==> GoesOnFrom(end, r)
    ensures var p, q := StateOf(r), StateOf(later);
            && PagesOf(later) == PagesOf(r) && |q.Left()| < |p.Left()| && !q.finished
            && q.onTheWay == p.onTheWay + {|p.out|} && q.handed == p.handed && q.lost == p.lost
  {
    PagesComeInOrder(r);
    var begun := Then(r, Beginning(true));
    later := if StateOf(r).firstPage.Some? then begun else Then(begun, Fetching(true, [Arrives]));
    forall end | GoesOnFrom(end, later) ensures GoesOnFrom(end, r) {
      if later != begun {
        GoesOnFromStep(end, begun, Fetching(true, [Arrives]));
      }
      GoesOnFromStep(end, r, Beginning(true));
    }
  }

  /** A call that finds no page left. */
  lemma FindNoMore(r: PagesRun) returns (later: PagesRun)
    requires Possible(r) && !StateOf(r).finished && StateOf(r).Left() == []
    ensures Possible(later) && GoesOnFrom(later, r) && SaidNoMore(later)
    ensures StateOf(later) == StateOf(r) && PagesOf(later) == PagesOf(r)
  {
    var p, begun := StateOf(r), Then(r, Beginning(true));
    assert p.firstPage.None? && p.toCome == [] by {
      assert |p.Left()| == 0;
    }
    assert GoesOnFrom(begun, r);
    assert StateOf(begun) == Begin(p, true).0;
    later := Then(begun, Fetching(true, []));
    assert SaidNoMore(later);
  }

  /** From any run without an error, the rest can be read to the end with just the pages in
      `lose` lost. */
  lemma {:induction false} ReadOn(r: PagesRun, lose: set<nat>) returns (later: PagesRun)
    requires Possible(r) && CanRead(StateOf(r), PagesOf(r), lose)
    ensures Possible(later) && GoesOnFrom(later, r) && PagesOf(later) == PagesOf(r)
    ensures SaidNoMore(later) && !StateOf(later).finished && StateOf(later).onTheWay == {}
    ensures forall i: nat :: i < |PagesOf(r)| ==>
              (i in StateOf(later).lost <==> i in StateOf(r).lost || (i !in StateOf(r).handed && i in lose))
    decreases 2 * |StateOf(r).Left()| + |StateOf(r).onTheWay|
  {
    PagesComeInOrder(r);
    var p := StateOf(r);
    if i :| i in p.onTheWay {
      var step := if i in lose then Losing(i) else HandingOver(i);
      assert p.out[i] == PagesOf(r)[i];
      assert |p.onTheWay - {i}| < |p.onTheWay|;
      later := ReadOn(Then(r, step), lose);
      GoesOnFromStep(later, r, step);
    } else if p.Left() != [] {
      var next := TakeNext(r);
      later := ReadOn(next, lose);
    } else {
      later := FindNoMore(r);
      assert p.out + [] == p.out;
    }
  }

  /** For every result and every choice of its pages there is a run that loses just those:
      a call says that there are no more, nothing failed, and their rows never came. */
  lemma AnyPagesCanBeLost(first: Response, toCome: seq<Response>, lose: set<nat>) returns (r: PagesRun)
    requires forall i: nat :: i < |[first] + toCome| && (i == 0 || i !in lose) ==> Binds(([first] + toCome)[i])
    ensures Possible(r) && PagesOf(r) == [first] + toCome
    ensures SaidNoMore(r) && !StateOf(r).finished && StateOf(r).onTheWay == {}
    ensures forall i: nat :: i < |toCome| + 1 ==> (i in StateOf(r).lost <==> i in lose)
    ensures forall i: nat :: i in lose && i < |toCome| + 1 && Items(PagesOf(r)[i]) != [] ==>
                RowsGot(r) != Concat(PagesOf(r))
  {
    assert Binds(([first] + toCome)[0]);
    r := ReadOn(Begun(first, toCome), lose);
    PagesHaveEveryRowExactlyWhen(r);
    PagesComeInOrder(r);
    assert StateOf(r).out + [] == StateOf(r).out == PagesOf(r);
  }

  /** The rows of the whole result can still come. */
  ghost predicate CanGetEveryRow(r: PagesRun)
    requires Possible(r)
  {
    exists later :: Possible(later) && GoesOnFrom(later, r) && SaidNoMore(later) && !StateOf(later).finished
                    && RowsGot(later) == Concat(PagesOf(r))
  }

  /** Nothing failed, no page is going to, and no page that was lost has rows. */
  ghost predicate NothingGone(r: PagesRun)
    requires Possible(r)
  {
    && !StateOf(r).finished
    && (forall i :: i in StateOf(r).lost && i < |PagesOf(r)| ==> Items(PagesOf(r)[i]) == [])
    && (forall i :: 0 <= i < |PagesOf(r)| ==> Binds(PagesOf(r)[i]))
  }

  /** What is gone stays gone. */
  lemma {:induction false} GoneStays(r: PagesRun, later: PagesRun)
    requires Possible(r) && Possible(later) && GoesOnFrom(later, r)
    ensures PagesOf(later) == PagesOf(r) && StateOf(r).lost <= StateOf(later).lost
    ensures StateOf(r).finished ==> StateOf(later).finished
  {
    if later != r {
      GoneStays(r, later.before);
    }
  }

  lemma EveryRowMeansNothingGone(r: PagesRun)
    requires Possible(r) && SaidNoMore(r) && !StateOf(r).finished
    requires RowsGot(r) == Concat(PagesOf(r))
    ensures NothingGone(r)
  {
    PagesHaveEveryRowExactlyWhen(r);
    PagesComeInOrder(r);
    var p := StateOf(r);
    assert p.out + [] == p.out == PagesOf(r);
    forall i: nat | i < |p.out| ensures Binds(p.out[i]) {
      assert i in p.handed || Items(p.out[i]) == [];
    }
  }

  /** Wherever a run is, every row of the result can still come if, and only if, nothing is gone. */
  lemma EveryRowCanComeExactlyWhen(r: PagesRun)
    requires Possible(r)
    ensures CanGetEveryRow(r) <==> NothingGone(r)
  {
    if NothingGone(r) {
      var later := ReadOn(r, {});
      PagesHaveEveryRowExactlyWhen(later);
      PagesComeInOrder(later);
      assert StateOf(later).out + [] == StateOf(later).out == PagesOf(r);
    }
    forall later | Possible(later) && GoesOnFrom(later, r) && SaidNoMore(later) && !StateOf(later).finished
        && RowsGot(later) == Concat(PagesOf(r))
      ensures NothingGone(r)
    {
      GoneStays(r, later);
      EveryRowMeansNothingGone(later);
    }
  }

  /** A call answers for the page it fetched, for the request that failed, or not at all; it
      fetches nothing once there was an error. */
  lemma FetchAnswersTruthfully(p: Pages, getsLock: bool, plan: seq<Fetch>)
    requires p.fetching > 0
    ensures var (q, answer) := FetchNext(p, getsLock, plan);
            && (answer.Page? ==> !p.finished && p.toCome == [answer.page] + q.toCome && q.out == p.out + [answer.page])
            && (!answer.Page? ==> q.toCome == p.toCome && q.out == p.out)
            && (answer.PageFailed? ==> q.finished && Fails(answer.error) in plan)
            && (answer.NoMorePages? ==> p.finished || p.toCome == [])
  {
    if p.toCome != [] {
      assert p.toCome == [p.toCome[0]] + p.toCome[1..];
    }
  }

  // ------------------------------------------------------------------------------ all the readers

  lemma AllAgreesWithIterating(r: Reader, calls: seq<Call>, plan: seq<Fetch>)
    requires Patient(r, plan) && AllGood(r.Stream())
    requires forall i :: 0 <= i < |calls| ==> NoFetchFails(calls[i].plan)
    requires PatientCalls(calls, |r.toCome|) > |r.Stream()|
    ensures AllOf([], r, plan) == AllRows(Values(Answers(r, calls)))
    ensures AsItems(Values(Answers(r, calls))) == r.Stream()
  {
    PatienceGetsEveryRow(r, calls, |r.toCome|);
    TheEndIsAfterEveryRow(r, calls);
    AllIsTheWholeResult([], r, plan);
    var all, rows := AllOf([], r, plan), Values(Answers(r, calls));
    assert AsItems([]) + r.Stream() == r.Stream();
    if all.AllFailed? {
      var good :| AsItems(good) + [Bad(all.error.error)] <= r.Stream();
      BadIsThere(r.Stream(), good, all.error.error);
    } else {
      AsItemsInjective(all.list, rows);
    }
  }

  /** So every way of reading agrees: if nothing fails, going on until the end, asking for
      everything at once and reading the pages give the same rows, and the first row is the
      first of them. The pages do so exactly if no page with rows was lost or is on its way. */
  lemma ReadersAgree(r: Reader, calls: seq<Call>, plan: seq<Fetch>, pages: PagesRun)
    requires Patient(r, plan) && AllGood(r.Stream())
    requires forall i :: 0 <= i < |calls| ==> NoFetchFails(calls[i].plan)
    requires PatientCalls(calls, |r.toCome|) > |r.Stream()|
    requires Possible(pages) && SaidNoMore(pages) && !StateOf(pages).finished
    requires r == Reader(Items(PagesOf(pages)[0]), PagesOf(pages)[1..])
    ensures AllOf([], r, plan) == AllRows(Values(Answers(r, calls)))
    ensures Ask(r, plan).0 == if Values(Answers(r, calls)) == [] then Ended else Got(Values(Answers(r, calls))[0])
    ensures RowsGot(pages) == AsItems(Values(Answers(r, calls)))
            <==> NoRowIsMissing(StateOf(pages))
  {
    AllAgreesWithIterating(r, calls, plan);
    AskTakesTheHead(r, plan);
    PagesHaveEveryRowExactlyWhen(pages);
  }

  // ------------------------------------------------------------------------ as the program keeps it

  class AsyncPagesIterator {
    const pager: QueryPager
    var firstPage: Option<Response>
    var finished: bool
    /** How many calls wait for the lock or hold it. */
    var fetching: nat
    ghost var out: seq<Response>
    ghost var onTheWay: set<nat>
    ghost var handed: set<nat>
    ghost var lost: set<nat>

    ghost predicate Valid()
      reads this, pager
    {
      pager.Valid()
    }

    ghost function Value(): Pages
      requires Valid()
      reads this, pager
    {
      Pages(firstPage, pager.ToCome(), finished, fetching, out, onTheWay, handed, lost)
    }

    constructor (firstPage: Response, pager: QueryPager)
      requires pager.Valid()
      ensures Valid() && this.pager == pager && Value() == NewPages(firstPage, pager.ToCome())
    {
      this.pager := pager;
      this.firstPage := Some(firstPage);
      finished := false;
      fetching := 0;
      out, onTheWay, handed, lost := [], {}, {}, {};
    }

    method BeginNext(lockFree: bool) returns (page: Option<Response>)
      requires Valid()
      modifies this
      ensures Valid() && (Value(), page) == old(Begin(Value(), lockFree))
    {
      page := None;
      if lockFree && firstPage.Some? {
        page, firstPage := firstPage, None;
        onTheWay := onTheWay + {|out|};
        out := out + [page.value];
      } else {
        fetching := fetching + 1;
      }
    }

    method FetchPage(getsLock: bool, plan: seq<Fetch>) returns (answer: PageAnswer)
      requires Valid() && fetching > 0
      modifies this, pager
      ensures Valid() && (Value(), answer) == old(FetchNext(Value(), getsLock, plan))
    {
      fetching := fetching - 1;
      if !getsLock {
        return PageDropped;
      }
      if finished {
        return NoMorePages;
      }
      ghost var toCome := pager.ToCome();
      var page := pager.FetchNextPage(plan);
      match page {
        case Arrived(response) =>
          assert toCome[1..] == pager.ToCome();
          onTheWay := onTheWay + {|out|};
          out := out + [response];
          answer := Page(response);
        case NotFetched(error) =>
          finished := true;
          answer := PageFailed(error);
        case NoMore => answer := NoMorePages;
        case GivenUp => answer := PageDropped;
      }
    }

    /** The future of the call for page `i` goes away, and the page with it; there is nothing
        the iterator is told or could do. */
    ghost method Abandon(i: nat)
      requires Valid()
      modifies this`onTheWay, this`lost
      ensures Valid() && Value() == old(Lose(Value(), i))
    {
      onTheWay, lost := onTheWay - {i}, lost + {i};
    }

    /** `i` is the place of the page among those that went out. */
    method HandToPython(page: Response, ghost i: nat) returns (rows: Option<seq<Item>>)
      requires Valid() && i < |out| && out[i] == page
      modifies this
      ensures Valid() && (Value(), rows) == old(HandOver(Value(), i))
    {
      onTheWay := onTheWay - {i};
      match page {
        case Rows(Some(_), _) => rows, finished := None, true;
        case Rows(None, items) =>
          rows := Some(items);
          handed := handed + {i};
        case NonRows =>
          rows := Some([]);
          handed := handed + {i};
      }
    }
  }
}
