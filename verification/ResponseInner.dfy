/** The lists of callbacks as the program keeps them: shared through a counted reference, and
    copied only when a change would be seen by another holder. Each critical section of a
    `ResponseFuture` is proved to act as if every holder had a private copy. */
module ResponseInner {
  import opened Common
  import opened Callbacks
  import opened RequestState
  import opened ResponseShared

  /** A reference to a list of callbacks, by its holder. A reference moves with its holder:
      that of a page goes from the current page to the queue and on to the drainer. */
  datatype Holder = Registry | OfPage(no: nat)

  /** The allocation behind an `Arc<Callbacks>`. */
  class CallbacksArc {
    var lists: Lists
    var strong: nat

    constructor (lists: Lists)
      ensures this.lists == lists && strong == 1
    {
      this.lists, strong := lists, 1;
    }
  }

  type References = map<Holder, CallbacksArc>

  /** The holders whose reference is `a`. */
  ghost function Owners(at: References, a: CallbacksArc): set<Holder> {
    set h | h in at && at[h] == a
  }

  lemma OnlyOwner(at: References, h: Holder, h': Holder)
    requires h in at && |Owners(at, at[h])| == 1 && h' in at && at[h'] == at[h]
    ensures h' == h
  {
    assert h in Owners(at, at[h]) && h' in Owners(at, at[h]);
    assert |Owners(at, at[h]) - {h}| == 0;
  }

  /** Redirecting `h` to an allocation nobody refers to. */
  lemma Redirected(at: References, h: Holder, a: CallbacksArc, b: CallbacksArc)
    requires a !in at.Values
    ensures Owners(at[h := a], a) == {h}
    ensures b != a ==> Owners(at[h := a], b) == Owners(at, b) - {h}
  {
    assert forall h' :: h' in at ==> at[h'] in at.Values;
  }

  /** The counted references to the lists. Changing a list through one holder is never seen
      through another. */
  class CallbackRefs {
    var at: References

    ghost predicate Valid()
      reads this, at.Values
    {
      forall h :: h in at ==> at[h].strong == |Owners(at, at[h])|
    }

    /** What each holder reads. */
    ghost function Value(): (lists: map<Holder, Lists>)
      reads this, at.Values
      ensures lists.Keys == at.Keys
    {
      map h | h in at :: at[h].lists
    }

    constructor ()
      ensures Valid() && Value() == map[Registry := EMPTY] && fresh(at.Values)
    {
      var first := new CallbacksArc(EMPTY);
      at := map[Registry := first];
      new;
      assert Owners(at, first) == {Registry};
    }

    /** Gives `h` a new allocation, in place of the one it shared. */
    method Redirect(h: Holder, lists: Lists)
      requires Valid() && h in at && at[h].strong > 1
      modifies this, at[h]
      ensures Valid() && fresh(at.Values - old(at.Values))
      ensures Value() == old(Value())[h := lists]
    {
      var shared := at[h];
      var copy := new CallbacksArc(lists);
      ghost var before := at;
      assert h in Owners(before, shared);
      shared.strong := shared.strong - 1;
      at := at[h := copy];
      forall h' | h' in at ensures at[h'].strong == |Owners(at, at[h'])| {
        Redirected(before, h, copy, at[h']);
        if h' != h && at[h'] != shared {
          assert h !in Owners(before, at[h']);
        }
      }
    }

    /** `push`: in place for the only holder, else on a copy. */
    method Push(h: Holder, d: Delivery, cb: nat)
      requires Valid() && h in at
      modifies this, at[h]
      ensures Valid() && fresh(at.Values - old(at.Values))
      ensures Value() == old(Value())[h := old(Value())[h].Push(d, cb)]
    {
      if at[h].strong == 1 {
        forall h' | h' in at && h' != h ensures at[h'] != at[h] {
          if at[h'] == at[h] { OnlyOwner(at, h, h'); }
        }
        at[h].lists := at[h].lists.Push(d, cb);
      } else {
        assert h in Owners(at, at[h]);
        Redirect(h, at[h].lists.Push(d, cb));
      }
    }

    /** `clear`: in place for the only holder, else the holder lets go of the lists. */
    method Clear(h: Holder)
      requires Valid() && h in at
      modifies this, at[h]
      ensures Valid() && fresh(at.Values - old(at.Values))
      ensures Value() == old(Value())[h := EMPTY]
    {
      if at[h].strong == 1 {
        forall h' | h' in at && h' != h ensures at[h'] != at[h] {
          if at[h'] == at[h] { OnlyOwner(at, h, h'); }
        }
        at[h].lists := EMPTY;
      } else {
        assert h in Owners(at, at[h]);
        Redirect(h, EMPTY);
      }
    }

    /** `Arc::clone`: `to` shares the lists of `h`. */
    method Clone(h: Holder, to: Holder)
      requires Valid() && h in at && to !in at
      modifies this, at[h]
      ensures Valid() && at.Values == old(at.Values)
      ensures Value() == old(Value())[to := old(Value())[h]]
    {
      var shared := at[h];
      ghost var before := at;
      shared.strong := shared.strong + 1;
      at := at[to := shared];
      assert Owners(at, shared) == Owners(before, shared) + {to};
      assert forall a :: a != shared ==> Owners(at, a) == Owners(before, a);
      assert at.Values == before.Values by {
        assert forall h' :: h' in at ==> at[h'] in before.Values;
        assert forall h' :: h' in before ==> at[h'] == before[h'] && at[h'] in at.Values;
      }
    }

    /** `mem::take` of the registry: its lists move to `to` and it starts afresh. */
    method Take(to: Holder)
      requires Valid() && Registry in at && to !in at
      modifies this
      ensures Valid() && fresh(at.Values - old(at.Values))
      ensures Value() == old(Value())[to := old(Value())[Registry]][Registry := EMPTY]
    {
      var moved := at[Registry];
      var empty := new CallbacksArc(EMPTY);
      ghost var before := at;
      at := at[Registry := empty][to := moved];
      forall h | h in at ensures at[h].strong == |Owners(at, at[h])| {
        if at[h] == moved {
          assert Registry in Owners(before, moved);
          assert Owners(at, moved) == Owners(before, moved) - {Registry} + {to};
        } else if at[h] == empty {
          assert Owners(at, empty) == {Registry};
        } else {
          assert Owners(at, at[h]) == Owners(before, at[h]);
        }
      }
    }

    /** Dropping a reference. */
    method Drop(h: Holder)
      requires Valid() && h in at
      modifies this, at[h]
      ensures Valid() && at.Values <= old(at.Values)
      ensures Value() == old(Value()) - {h}
    {
      var dropped := at[h];
      ghost var before := at;
      assert h in Owners(before, dropped);
      dropped.strong := dropped.strong - 1;
      at := at - {h};
      forall h' | h' in at ensures at[h'] in before.Values && at[h'].strong == |Owners(at, at[h'])| {
        assert at[h'] == before[h'];
        if at[h'] == dropped {
          assert Owners(at, dropped) == Owners(before, dropped) - {h};
        } else {
          assert Owners(at, at[h']) == Owners(before, at[h']);
        }
      }
    }
  }

  ghost function RequestValue(r: Request<Holder>, lists: map<Holder, Lists>): Request<Lists>
    requires r.Unfired().Some? ==> r.Unfired().value in lists
  {
    match r
    case Pending(last) => Pending(last)
    case Received(page, rows, unfired) =>
      Received(page, rows, if unfired.Some? then Some(lists[unfired.value]) else None)
    case Failed(no, error, last, unfired) =>
      Failed(no, error, last, if unfired.Some? then Some(lists[unfired.value]) else None)
  }

  /** What a request looks like does not depend on how its callbacks are held. */
  lemma SameView(r: Request<Holder>, lists: map<Holder, Lists>)
    requires r.Unfired().Some? ==> r.Unfired().value in lists
    ensures var v := RequestValue(r, lists);
            && v.Pending? == r.Pending? && v.LastPage() == r.LastPage() && v.RowsNow() == r.RowsNow()
            && v.Unfired() == (if r.Unfired().Some? then Some(lists[r.Unfired().value]) else None)
  {
  }

  /** The lists after a registration: those of the registry and of the current page grow. */
  ghost function ListsAfterRegister(r: Request<Holder>, lists: map<Holder, Lists>, d: Delivery,
            cb: nat): map<Holder, Lists>
    requires Registry in lists && (r.Unfired().Some? ==> r.Unfired().value in lists)
  {
    var kept := if r.Pending? || r.HasMorePages() then lists[Registry := lists[Registry].Push(d, cb)] else lists;
    if r.Unfired().Some? then kept[r.Unfired().value := kept[r.Unfired().value].Push(d, cb)] else kept
  }

  /** No two holders under the lock are the same reference, and each has one. */
  ghost predicate WellHeld(request: Request<Holder>, pages: seq<Undelivered<Holder>>, holders: set<Holder>) {
    && Registry in holders
    && (request.Unfired().Some? ==> request.Unfired().value.OfPage? && request.Unfired().value in holders)
    && (forall i :: 0 <= i < |pages| ==> pages[i].unfired.OfPage? && pages[i].unfired in holders)
    && (forall i :: 0 <= i < |pages| ==> Some(pages[i].unfired) != request.Unfired())
    && (forall i, j :: 0 <= i < j < |pages| ==> pages[i].unfired != pages[j].unfired)
  }

  ghost function PageValues(pages: seq<Undelivered<Holder>>, lists: map<Holder, Lists>): seq<Undelivered<Lists>>
    requires forall i :: 0 <= i < |pages| ==> pages[i].unfired in lists
  {
    seq(|pages|, i requires 0 <= i < |pages| => Undelivered(pages[i].rows, lists[pages[i].unfired]))
  }

  /** What the holders amount to, each reading its own list. */
  ghost function SharedOf(request: Request<Holder>, lists: map<Holder, Lists>, pages: seq<Undelivered<Holder>>,
            permit: bool): Shared
    requires WellHeld(request, pages, lists.Keys)
  {
    Shared(RequestValue(request, lists), lists[Registry], PageValues(pages, lists), permit)
  }

  lemma RegistryAlone(request: Request<Holder>, lists: map<Holder, Lists>, pages: seq<Undelivered<Holder>>,
            permit: bool, l: Lists)
    requires WellHeld(request, pages, lists.Keys)
    ensures WellHeld(request, pages, lists[Registry := l].Keys)
    ensures SharedOf(request, lists[Registry := l], pages, permit)
        == SharedOf(request, lists, pages, permit).(registered := l)
  {
  }

  lemma CurrentPageAlone(request: Request<Holder>, lists: map<Holder, Lists>, pages: seq<Undelivered<Holder>>,
            permit: bool, l: Lists)
    requires WellHeld(request, pages, lists.Keys) && request.Unfired().Some?
    ensures WellHeld(request, pages, lists[request.Unfired().value := l].Keys)
    ensures var v := SharedOf(request, lists, pages, permit);
            SharedOf(request, lists[request.Unfired().value := l], pages, permit)
                == v.(request := v.request.(unfired := Some(l)))
  {
    var v' := SharedOf(request, lists[request.Unfired().value := l], pages, permit);
    assert v'.unfiredPages == PageValues(pages, lists);
  }

  lemma OutsiderUnseen(request: Request<Holder>, lists: map<Holder, Lists>, pages: seq<Undelivered<Holder>>,
            permit: bool, h: Holder, l: Lists)
    requires WellHeld(request, pages, lists.Keys) && h !in lists
    ensures WellHeld(request, pages, lists[h := l].Keys)
    ensures SharedOf(request, lists[h := l], pages, permit) == SharedOf(request, lists, pages, permit)
  {
    assert PageValues(pages, lists[h := l]) == PageValues(pages, lists);
  }

  lemma SettledValue(request: Request<Holder>, lists: map<Holder, Lists>, pages: seq<Undelivered<Holder>>, permit: bool,
                     no: nat, outcome: Outcome, unfired: Option<Holder>)
    requires WellHeld(request, pages, lists.Keys)
    requires unfired.Some? ==> unfired.value == OfPage(no) && OfPage(no) in lists
    requires forall i :: 0 <= i < |pages| ==> pages[i].unfired != OfPage(no)
    ensures WellHeld(Settle(request, no, outcome, unfired), pages, lists.Keys)
    ensures var v := SharedOf(request, lists, pages, permit);
            SharedOf(Settle(request, no, outcome, unfired), lists, pages, permit)
            == v.(request := Settle(v.request, no, outcome, if unfired.Some? then Some(lists[unfired.value]) else None))
  {
    SameView(request, lists);
  }

  /** What the lock of a `ResponseFuture` guards, and its critical sections. */
  class ResponseInner {
    var request: Request<Holder>
    var refs: CallbackRefs
    /** Pages paged past before the drainer ran their callbacks, oldest first. */
    var unfiredPages: seq<Undelivered<Holder>>
    var permit: bool

    ghost predicate Valid()
      reads this, refs, refs.at.Values
    {
      refs.Valid() && WellHeld(request, unfiredPages, refs.at.Keys)
    }

    ghost function Value(): Shared
      requires Valid()
      reads this, refs, refs.at.Values
    {
      SharedOf(request, refs.Value(), unfiredPages, permit)
    }

    constructor ()
      ensures Valid() && Value() == NEW && fresh(refs) && fresh(refs.at.Values)
    {
      request, unfiredPages, permit := Pending(None), [], true;
      refs := new CallbackRefs();
    }

    /** Keeps `cb` for later pages. */
    method KeepForLaterPages(d: Delivery, cb: nat)
      requires Valid()
      modifies refs, refs.at.Values
      ensures Valid() && fresh(refs.at.Values - old(refs.at.Values))
      ensures refs.Value() == old(refs.Value())[Registry := old(refs.Value())[Registry].Push(d, cb)]
      ensures Value() == old(Value()).(registered := old(Value()).registered.Push(d, cb))
    {
      RegistryAlone(request, refs.Value(), unfiredPages, permit, refs.Value()[Registry].Push(d, cb));
      refs.Push(Registry, d, cb);
    }

    /** Adds `cb` to the page the drainer still has to do. */
    method JoinCurrentPage(d: Delivery, cb: nat)
      requires Valid() && request.Unfired().Some?
      modifies refs, refs.at.Values
      ensures Valid() && fresh(refs.at.Values - old(refs.at.Values))
      ensures refs.Value()
          == old(refs.Value())[request.unfired.value := old(refs.Value())[request.unfired.value].Push(d, cb)]
      ensures var was := old(Value());
              Value() == was.(request := was.request.(unfired := Some(was.request.unfired.value.Push(d, cb))))
    {
      ghost var lists := refs.Value();
      CurrentPageAlone(request, lists, unfiredPages, permit, lists[request.unfired.value].Push(d, cb));
      refs.Push(request.unfired.value, d, cb);
    }

    /** `register`, under the lock. */
    method Register(d: Delivery, cb: nat) returns (rows: Option<PageRows>)
      requires Valid()
      modifies refs, refs.at.Values
      ensures Valid() && fresh(refs.at.Values - old(refs.at.Values))
      ensures (Value(), rows) == ResponseShared.Register(old(Value()), d, cb)
      ensures refs.Value() == ListsAfterRegister(request, old(refs.Value()), d, cb)
    {
      SameView(request, refs.Value());
      if request.Pending? || request.HasMorePages() {
        KeepForLaterPages(d, cb);
      }
      if request.Unfired().Some? {
        JoinCurrentPage(d, cb);
        rows := None;
      } else {
        rows := request.RowsNow();
      }
    }

    method ClearCallbacks()
      requires Valid()
      modifies refs, refs.at.Values
      ensures Valid() && fresh(refs.at.Values - old(refs.at.Values))
      ensures Value() == ResponseShared.ClearCallbacks(old(Value()))
      ensures refs.Value() == old(refs.Value())[Registry := EMPTY]
    {
      RegistryAlone(request, refs.Value(), unfiredPages, permit, EMPTY);
      refs.Clear(Registry);
    }

    /** Shares the registered callbacks with page `no` if any would fire for it. */
    method ShareWithPage(no: nat, delivery: Option<Delivery>) returns (unfired: Option<Holder>)
      requires Valid() && OfPage(no) !in refs.at
      modifies refs, refs.at.Values
      ensures Valid() && refs.at.Values == old(refs.at.Values) && Value() == old(Value())
      ensures unfired == if Value().registered.ForOutcome(delivery).Some? then Some(OfPage(no)) else None
      ensures forall i :: 0 <= i < |unfiredPages| ==> unfiredPages[i].unfired != OfPage(no)
      ensures refs.Value() == if unfired.Some? then old(refs.Value())[OfPage(no) := old(refs.Value())[Registry]]
          else old(refs.Value())
      ensures Value().registered.ForOutcome(delivery) == if unfired.Some? then Some(refs.Value()[OfPage(no)]) else None
    {
      if refs.at[Registry].lists.ForOutcome(delivery).Some? {
        OutsiderUnseen(request, refs.Value(), unfiredPages, permit, OfPage(no), refs.Value()[Registry]);
        refs.Clone(Registry, OfPage(no));
        unfired := Some(OfPage(no));
      } else {
        unfired := None;
      }
    }

    /** The request settles, holding its callbacks by `unfired`. */
    method SettleWith(no: nat, outcome: Outcome, unfired: Option<Holder>)
      requires Valid() && (unfired.Some? ==> unfired.value == OfPage(no) && OfPage(no) in refs.at)
      requires forall i :: 0 <= i < |unfiredPages| ==> unfiredPages[i].unfired != OfPage(no)
      modifies this`request
      ensures Valid() && request.Unfired() == unfired && refs.Value() == old(refs.Value())
      ensures var was := old(Value());
              Value() == was.(request :=
                  Settle(was.request, no, outcome, if unfired.Some? then Some(refs.Value()[OfPage(no)]) else None))
    {
      SettledValue(request, refs.Value(), unfiredPages, permit, no, outcome, unfired);
      request := Settle(request, no, outcome, unfired);
    }

    /** The first half of `complete`: the page settles with the callbacks it shares. */
    method SettlePage(no: nat, outcome: Outcome) returns (shared: bool)
      requires Valid() && request.Pending? && OfPage(no) !in refs.at
      modifies this`request, refs, refs.at.Values
      ensures Valid() && refs.at.Values == old(refs.at.Values)
      ensures shared == request.Unfired().Some?
      ensures var delivery := if outcome.Errored? then Some(Errbacks) else None; var was := old(Value());
              && Value() == was.(request := Settle(was.request, no, outcome, was.registered.ForOutcome(delivery)))
              && shared == was.registered.ForOutcome(delivery).Some?
      ensures var lists := old(refs.Value());
              refs.Value() == if shared then lists[OfPage(no) := lists[Registry]] else lists
    {
      ghost var was := Value();
      var delivery := if outcome.Errored? then Some(Errbacks) else None;
      var unfired := ShareWithPage(no, delivery);
      ghost var own := if unfired.Some? then Some(refs.Value()[OfPage(no)]) else None;
      assert Value() == was && own == was.registered.ForOutcome(delivery);
      SettleWith(no, outcome, unfired);
      assert Value() == was.(request := Settle(was.request, no, outcome, own));
      shared := unfired.Some?;
    }

    /** Once no page can follow, the registered callbacks are dropped. */
    method DropIfTerminal()
      requires Valid() && !request.Pending?
      modifies refs, refs.at.Values
      ensures Valid() && fresh(refs.at.Values - old(refs.at.Values))
      ensures Value() == if old(Value()).IsTerminal() then old(Value()).(registered := EMPTY) else old(Value())
      ensures refs.Value() == if request.HasMorePages() then old(refs.Value()) else old(refs.Value())[Registry := EMPTY]
    {
      SameView(request, refs.Value());
      if !request.HasMorePages() {
        ClearCallbacks();
      }
    }

    /** `wake`: takes the token for a new drainer, unless one runs now. */
    method WakeDrainer() returns (start: bool)
      requires Valid()
      modifies this`permit
      ensures Valid() && Value() == old(Value()).(permit := false) && start == old(Value()).permit
      ensures refs.Value() == old(refs.Value())
    {
      start, permit := permit, false;
    }

    /** `complete` up to the wake-up: whether the page has callbacks for the drainer. */
    method SettleAndDrop(no: nat, outcome: Outcome) returns (shared: bool)
      requires Valid() && request.Pending? && OfPage(no) !in refs.at
      modifies this`request, refs, refs.at.Values
      ensures Valid()
      ensures shared == request.Unfired().Some?
      ensures ResponseShared.Complete(old(Value()), no, outcome)
              == if shared then (Value().(permit := false), Value().permit) else (Value(), false)
      ensures var lists := old(refs.Value());
              var own := if shared then lists[OfPage(no) := lists[Registry]] else lists;
              refs.Value() == if request.HasMorePages() then own else own[Registry := EMPTY]
    {
      shared := SettlePage(no, outcome);
      ghost var settled := Value();
      DropIfTerminal();
      assert Value() == if settled.IsTerminal() then settled.(registered := EMPTY) else settled;
    }

    /** `complete`, under the lock: whether a drainer has to be started. */
    method Complete(no: nat, outcome: Outcome) returns (start: bool)
      requires Valid() && request.Pending? && OfPage(no) !in refs.at
      modifies this`request, this`permit, refs, refs.at.Values
      ensures Valid()
      ensures (Value(), start) == ResponseShared.Complete(old(Value()), no, outcome)
      ensures var lists := old(refs.Value());
              var own := if request.Unfired().Some? then lists[OfPage(no) := lists[Registry]] else lists;
              refs.Value() == if request.HasMorePages() then own else own[Registry := EMPTY]
    {
      start := false;
      var shared := SettleAndDrop(no, outcome);
      if shared {
        start := WakeDrainer();
      }
    }

    /** `complete_dropped`, under the lock: whose callbacks to run, if a request was in flight. */
    method CompleteDropped(no: nat) returns (taken: Option<Holder>)
      requires Valid() && OfPage(no) !in refs.at
      modifies this, refs, refs.at.Values
      ensures Valid() && refs == old(refs) && fresh(refs.at.Values - old(refs.at.Values))
      ensures Value() == ResponseShared.CompleteDropped(old(Value()), no).0
      ensures taken.None? <==> ResponseShared.CompleteDropped(old(Value()), no).1.None?
      ensures taken.Some? ==> taken.value in refs.at
      ensures taken.Some? ==> Some(refs.Value()[taken.value]) == ResponseShared.CompleteDropped(old(Value()), no).1
      ensures forall h :: h in old(refs.at) && h != Registry ==> h in refs.at && refs.Value()[h] == old(refs.Value())[h]
    {
      if !request.Pending? {
        return None;
      }
      ghost var lists := refs.Value();
      OutsiderUnseen(request, lists, unfiredPages, permit, OfPage(no), lists[Registry]);
      RegistryAlone(request, lists[OfPage(no) := lists[Registry]], unfiredPages, permit, EMPTY);
      refs.Take(OfPage(no));
      request := Settle(request, no, Errored(DROPPED), None);
      taken := Some(OfPage(no));
    }

    /** `start_fetching_next_page`, under the lock. */
    method StartFetching() returns (r: Result<(), PagingError>)
      requires Valid()
      modifies this
      ensures Valid() && refs == old(refs)
      ensures r.Ok? ==> Ok(Value()) == ResponseShared.StartFetching(old(Value()))
      ensures r.Err? ==> Value() == old(Value()) && ResponseShared.StartFetching(old(Value())) == Err(r.error)
    {
      if request.Pending? {
        return Err(InFlight);
      }
      if !request.HasMorePages() {
        return Err(Exhausted);
      }
      ghost var pages := PageValues(unfiredPages, refs.Value());
      var (pending, undelivered) := SwitchToPending(request);
      request := pending;
      if undelivered.Some? {
        unfiredPages := unfiredPages + [undelivered.value];
        assert PageValues(unfiredPages, refs.Value())
               == pages + [Undelivered(undelivered.value.rows, refs.Value()[undelivered.value.unfired])];
      }
      r := Ok(());
    }

    /** The drainer's turn under the lock; `None` parks the token. */
    method DrainerNext() returns (next: Option<Undelivered<Holder>>)
      requires Valid()
      modifies this
      ensures Valid() && refs == old(refs)
      ensures Value() == ResponseShared.DrainerNext(old(Value())).0
      ensures next.None? <==> ResponseShared.DrainerNext(old(Value())).1.None?
      ensures next.Some? ==> next.value.unfired in refs.at && Some(next.value.unfired) != request.Unfired()
      ensures next.Some? ==>
                Some(Undelivered(next.value.rows, refs.Value()[next.value.unfired]))
                    == ResponseShared.DrainerNext(old(Value())).1
      ensures next.Some? ==> forall i :: 0 <= i < |unfiredPages| ==> unfiredPages[i].unfired != next.value.unfired
    {
      if unfiredPages != [] {
        ghost var pages := PageValues(unfiredPages, refs.Value());
        next, unfiredPages := Some(unfiredPages[0]), unfiredPages[1..];
        assert PageValues(unfiredPages, refs.Value()) == pages[1..];
      } else {
        var (taken, undelivered) := TakeUnfired(request);
        request, next := taken, undelivered;
        if next.None? {
          permit := true;
        }
      }
    }

    /** `store_rows`, under the lock. */
    method KeepRows(no: nat, built: Rows) returns (rows: Rows)
      requires Valid()
      modifies this
      ensures Valid() && refs == old(refs)
      ensures (Value(), rows) == ResponseShared.KeepRows(old(Value()), no, built)
    {
      var (kept, stored) := StoreRows(request, no, built);
      request, rows := kept, stored;
    }

    /** `fire`: the calls made for a page taken out of the lock, in list order. */
    method Fire(h: Holder, rows: Rows) returns (calls: seq<(nat, Rows)>)
      requires Valid() && h in refs.at
      ensures |calls| == |refs.Value()[h].For(rows.Delivered())|
      ensures forall i :: 0 <= i < |calls| ==> calls[i] == (refs.Value()[h].For(rows.Delivered())[i], rows)
    {
      var cbs := refs.at[h].lists.For(rows.Delivered());
      calls := [];
      for i := 0 to |cbs|
        invariant |calls| == i
        invariant forall j :: 0 <= j < i ==> calls[j] == (cbs[j], rows)
      {
        calls := calls + [(cbs[i], rows)];
      }
    }
  }
}
