/** The asynchronous iterator over the rows of a paged result. It hands out what is next under
    a lock that is held while a page is fetched; a call may be dropped while it waits for the
    lock or for the page. */
module PagedIterators {
  import opened Common
  import opened PagedRows

  /** One `__anext__`: whether it finds the lock free, gets it if not, and the requests it
      sees the end of. */
  datatype Call = Call(lockFree: bool, getsLock: bool, plan: seq<Fetch>)

  const OVER := Reader([], [])

  /** An error ends the iteration. */
  function Anext(r: Reader, c: Call): (result: (Answer, Reader)) {
    if c.lockFree || c.getsLock then
      var (answer, after) := Ask(r, c.plan);
      (answer, if answer.Failed? then OVER else after)
    else (Dropped, r)
  }

  class AsyncRowsIterator {
    const rows: RowsIterator
    const pager: QueryPager

    ghost predicate Valid()
      reads this, rows, pager
    {
      rows.Valid() && pager.Valid()
    }

    ghost function Reader(): Reader
      requires Valid()
      reads this, rows, pager
    {
      At(rows, pager)
    }

    constructor (page: Response, pager: QueryPager)
      requires page.Rows? ==> page.factoryError.None?
      requires pager.Valid()
      ensures Valid() && this.pager == pager && fresh(rows)
      ensures Reader().Stream() == Concat([page] + pager.ToCome())
    {
      this.pager := pager;
      rows := new RowsIterator(page);
      new;
      assert ([page] + pager.ToCome())[1..] == pager.ToCome();
    }

    method Finish()
      requires Valid()
      modifies rows, pager
      ensures Valid() && Reader() == OVER
    {
      rows.Clear();
      pager.Exhaust();
    }

    /** The rest of `__anext__`, with the lock held. */
    method NextLocked(plan: seq<Fetch>) returns (answer: Answer)
      requires Valid()
      modifies rows, pager
      ensures Valid() && (answer, Reader()) == old(Anext(Reader(), Call(true, true, plan)))
    {
      answer := NextRowWithPaging(rows, pager, plan);
      if answer.Failed? {
        Finish();
      }
    }

    method ANext(c: Call) returns (answer: Answer)
      requires Valid()
      modifies rows, pager
      ensures Valid() && (answer, Reader()) == old(Anext(Reader(), c))
    {
      if c.lockFree {
        // Most calls find a row in the page at hand.
        ghost var left := rows.Left();
        var item := rows.Next();
        if item.Some? {
          assert left[1..] == rows.Left();
          if item.value.Bad? {
            Finish();
          }
          return Of(item.value);
        }
      } else if !c.getsLock {
        return Dropped;
      }
      answer := NextLocked(c.plan);
    }
  }

  // -------------------------------------------------------------------------------- any calls

  function Answers(r: Reader, calls: seq<Call>): (answers: seq<Answer>)
    ensures |answers| == |calls|
    decreases |calls|
  {
    if calls == [] then [] else [Anext(r, calls[0]).0] + Answers(Anext(r, calls[0]).1, calls[1..])
  }

  function After(r: Reader, calls: seq<Call>): Reader
    decreases |calls|
  {
    if calls == [] then r else After(Anext(r, calls[0]).1, calls[1..])
  }

  /** The rows handed out. */
  function Values(answers: seq<Answer>): seq<nat> {
    if answers == [] then []
    else ValueIn(answers[0]) + Values(answers[1..])
  }

  lemma {:induction false} OverStaysOver(calls: seq<Call>)
    ensures forall i :: 0 <= i < |calls| ==> Answers(OVER, calls)[i].Ended? || Answers(OVER, calls)[i].Dropped?
    ensures Values(Answers(OVER, calls)) == []
  {
    if calls != [] {
      OverStaysOver(calls[1..]);
      assert Answers(OVER, calls)[1..] == Answers(OVER, calls[1..]);
    }
  }

  function ValueIn(answer: Answer): seq<nat> {
    if answer.Got? then [answer.value] else []
  }

  lemma AnextTakesTheHead(r: Reader, c: Call)
    requires !Anext(r, c).0.Failed?
    ensures AsItems(ValueIn(Anext(r, c).0)) + Anext(r, c).1.Stream() == r.Stream()
    ensures Anext(r, c).0.Ended? ==> r.Stream() == [] && Anext(r, c).1 == OVER
  {
    AskTakesTheHead(r, c.plan);
  }

  lemma AnswersInTurn(r: Reader, calls: seq<Call>)
    requires calls != []
    ensures var (answer, after) := Anext(r, calls[0]); var rest := Answers(after, calls[1..]);
            && Answers(r, calls)[1..] == rest && Answers(r, calls)[0] == answer
            && AsItems(Values(Answers(r, calls))) == AsItems(ValueIn(answer)) + AsItems(Values(rest))
            && (forall i :: 0 < i < |calls| ==> Answers(r, calls)[i] == rest[i - 1])
  {
    var (answer, after) := Anext(r, calls[0]);
    var rest := Answers(after, calls[1..]);
    assert Answers(r, calls)[1..] == rest;
    assert Values(Answers(r, calls)) == ValueIn(answer) + Values(rest);
    assert AsItems(ValueIn(answer) + Values(rest)) == AsItems(ValueIn(answer)) + AsItems(Values(rest));
  }

  /** Whatever calls are made and dropped, as long as none fails, the rows handed out and the
      rows to come are the whole result: none is lost, repeated or out of order. */
  lemma {:induction false} RowsComeInOrder(r: Reader, calls: seq<Call>)
    requires forall i :: 0 <= i < |calls| ==> !Answers(r, calls)[i].Failed?
    ensures AsItems(Values(Answers(r, calls))) + After(r, calls).Stream() == r.Stream()
    decreases |calls|
  {
    if calls != [] {
      var (answer, after) := Anext(r, calls[0]);
      AnswersInTurn(r, calls);
      AnextTakesTheHead(r, calls[0]);
      RowsComeInOrder(after, calls[1..]);
      ConcatAssociates(AsItems(ValueIn(answer)), AsItems(Values(Answers(after, calls[1..]))), After(r, calls).Stream());
    }
  }

  /** And a call that says the iteration ended says that every row was handed out. */
  lemma {:induction false} TheEndIsAfterEveryRow(r: Reader, calls: seq<Call>)
    requires forall i :: 0 <= i < |calls| ==> !Answers(r, calls)[i].Failed?
    requires Ended in Answers(r, calls)
    ensures AsItems(Values(Answers(r, calls))) == r.Stream()
    decreases |calls|
  {
    var (answer, after) := Anext(r, calls[0]);
    AnswersInTurn(r, calls);
    AnextTakesTheHead(r, calls[0]);
    if answer.Ended? {
      OverStaysOver(calls[1..]);
    } else {
      TheEndIsAfterEveryRow(after, calls[1..]);
    }
  }

  /** An error is the last thing that comes. */
  lemma {:induction false} NothingComesAfterAnError(r: Reader, calls: seq<Call>, i: nat)
    requires i < |calls| && Answers(r, calls)[i].Failed?
    ensures forall j :: i < j < |calls| ==> Answers(r, calls)[j].Ended? || Answers(r, calls)[j].Dropped?
    decreases |calls|
  {
    var (answer, after) := Anext(r, calls[0]);
    var all, rest := Answers(r, calls), Answers(after, calls[1..]);
    assert forall j :: 0 < j < |all| ==> all[j] == rest[j - 1];
    if answer.Failed? {
      OverStaysOver(calls[1..]);
    } else {
      NothingComesAfterAnError(after, calls[1..], i - 1);
    }
  }

  lemma FirstErrorEndsTheRows(r: Reader, calls: seq<Call>)
    requires calls != [] && Anext(r, calls[0]).0.Failed?
    ensures Values(Answers(r, calls)) == []
    ensures var error := Anext(r, calls[0]).0.error; error.InPage? ==> [Bad(error.error)] <= r.Stream()
    ensures forall i :: 0 < i < |calls| ==> !Answers(r, calls)[i].Failed?
  {
    AskTakesTheHead(r, calls[0].plan);
    OverStaysOver(calls[1..]);
    assert Answers(r, calls)[1..] == Answers(OVER, calls[1..]);
  }

  lemma PrefixBehind(head: seq<Item>, rows: seq<Item>, bad: seq<Item>, all: seq<Item>)
    ensures rows <= all ==> head + rows <= head + all
    ensures rows + bad <= all ==> head + rows + bad <= head + all
  {
    ConcatAssociates(head, rows, bad);
  }

  /** And it comes after a prefix of the rows; a bad row is reported in its place. */
  lemma {:induction false} AnErrorEndsTheRows(r: Reader, calls: seq<Call>, i: nat)
    requires i < |calls| && Answers(r, calls)[i].Failed?
    ensures AsItems(Values(Answers(r, calls))) <= r.Stream()
    ensures var error := Answers(r, calls)[i].error;
            error.InPage? ==> AsItems(Values(Answers(r, calls))) + [Bad(error.error)] <= r.Stream()
    decreases |calls|
  {
    var (answer, after) := Anext(r, calls[0]);
    AnswersInTurn(r, calls);
    if answer.Failed? {
      FirstErrorEndsTheRows(r, calls);
    } else {
      AnextTakesTheHead(r, calls[0]);
      AnErrorEndsTheRows(after, calls[1..], i - 1);
      var rows, error := AsItems(Values(Answers(after, calls[1..]))), Answers(r, calls)[i].error;
      PrefixBehind(AsItems(ValueIn(answer)), rows, [Bad(error.error)], after.Stream());
    }
  }

  predicate NoFetchFails(plan: seq<Fetch>) {
    forall i :: 0 <= i < |plan| ==> plan[i].Arrives?
  }

  predicate AllGood(items: seq<Item>) {
    forall i :: 0 <= i < |items| ==> items[i].Row?
  }

  /** Calls that are waited for to the end, over at most `pages` pages. */
  function PatientCalls(calls: seq<Call>, pages: nat): nat {
    if calls == [] then 0
    else
      var patient := (calls[0].lockFree || calls[0].getsLock) && pages <= |calls[0].plan|;
      (if patient then 1 else 0) + PatientCalls(calls[1..], pages)
  }

  lemma {:induction false} AskShortens(r: Reader, plan: seq<Fetch>)
    ensures |Ask(r, plan).1.toCome| <= |r.toCome|
    decreases |r.toCome|
  {
    if r.left == [] && r.toCome != [] && plan != [] && plan[0].Arrives? {
      AskShortens(Reader(Items(r.toCome[0]), r.toCome[1..]), plan[1..]);
    }
  }

  /** A call fails only for a bad row or page, or for a request that failed. */
  lemma FailsForAReason(r: Reader, plan: seq<Fetch>)
    requires Ask(r, plan).0.Failed?
    ensures !AllGood(r.Stream()) || !NoFetchFails(plan)
  {
    AskTakesTheHead(r, plan);
    match Ask(r, plan).0.error
    case InFetch(e) =>
      var i :| 0 <= i < |plan| && plan[i] == Fails(e);
      assert !plan[i].Arrives?;
    case InPage(e) => assert r.Stream()[0] == Bad(e);
  }

  /** If nothing fails, enough patient calls hand out the whole result and then say so,
      however many calls are dropped in between. */
  lemma {:induction false} PatienceGetsEveryRow(r: Reader, calls: seq<Call>, pages: nat)
    requires |r.toCome| <= pages && AllGood(r.Stream())
    requires forall i :: 0 <= i < |calls| ==> NoFetchFails(calls[i].plan)
    ensures forall i :: 0 <= i < |calls| ==> !Answers(r, calls)[i].Failed?
    ensures PatientCalls(calls, pages) > |r.Stream()| ==> Ended in Answers(r, calls)
    decreases |calls|
  {
    if calls != [] {
      var (answer, after) := Anext(r, calls[0]);
      AskTakesTheHead(r, calls[0].plan);
      AskShortens(r, calls[0].plan);
      assert !answer.Failed? by {
        if Ask(r, calls[0].plan).0.Failed? {
          FailsForAReason(r, calls[0].plan);
        }
      }
      if answer.Got? {
        assert forall i :: 0 <= i < |after.Stream()| ==> after.Stream()[i] == r.Stream()[i + 1];
      }
      PatienceGetsEveryRow(after, calls[1..], pages);
      var rest := Answers(after, calls[1..]);
      assert Answers(r, calls)[1..] == rest;
      assert forall i :: 0 < i < |calls| ==> Answers(r, calls)[i] == rest[i - 1];
      if calls[0].lockFree || calls[0].getsLock {
        assert pages <= |calls[0].plan| ==> Patient(r, calls[0].plan);
      }
    }
  }

  // ----------------------------------------------------------------------- answers nobody collects

  /** The rows of the answers that reached their callers: a call may be dropped when it has its
      answer already. */
  function Collected(answers: seq<Answer>, reached: seq<bool>): seq<nat>
    requires |reached| == |answers|
  {
    if answers == [] then []
    else (if reached[0] then ValueIn(answers[0]) else []) + Collected(answers[1..], reached[1..])
  }

  /** Every answer that is a row reached its caller. */
  ghost predicate RowsReached(answers: seq<Answer>, reached: seq<bool>)
    requires |reached| == |answers|
  {
    forall i :: 0 <= i < |answers| && answers[i].Got? ==> reached[i]
  }

  lemma {:induction false} CollectedExactlyWhen(answers: seq<Answer>, reached: seq<bool>)
    requires |reached| == |answers|
    ensures if RowsReached(answers, reached) then Collected(answers, reached) == Values(answers)
            else |Collected(answers, reached)| < |Values(answers)|
  {
    if answers != [] {
      CollectedExactlyWhen(answers[1..], reached[1..]);
      assert RowsReached(answers, reached) <==>
          RowsReached(answers[1..], reached[1..]) && (answers[0].Got? ==> reached[0]) by {
        assert forall i :: 0 < i < |answers| ==> answers[i] == answers[1..][i - 1] && reached[i] == reached[1..][i - 1];
      }
    }
  }

  /** A row belongs to the call that took it: once a call said that the iteration ended, the
      rows that reached their callers are the whole result if, and only if, no call was dropped
      that had a row already. */
  lemma RowsReachTheirCallersExactlyWhen(r: Reader, calls: seq<Call>, reached: seq<bool>)
    requires forall i :: 0 <= i < |calls| ==> !Answers(r, calls)[i].Failed?
    requires Ended in Answers(r, calls) && |reached| == |calls|
    ensures AsItems(Collected(Answers(r, calls), reached)) == r.Stream() <==> RowsReached(Answers(r, calls), reached)
  {
    TheEndIsAfterEveryRow(r, calls);
    CollectedExactlyWhen(Answers(r, calls), reached);
  }

  lemma BadIsThere(items: seq<Item>, good: seq<nat>, error: nat)
    requires AsItems(good) + [Bad(error)] <= items
    ensures !AllGood(items)
  {
    assert items[|good|] == Bad(error);
  }

  lemma AsItemsInjective(a: seq<nat>, b: seq<nat>)
    requires AsItems(a) == AsItems(b)
    ensures a == b
  {
    assert |a| == |AsItems(a)| == |AsItems(b)| == |b|;
    forall i | 0 <= i < |a| ensures a[i] == b[i] {
      assert AsItems(a)[i] == AsItems(b)[i];
    }
  }
}
