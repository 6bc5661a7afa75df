/** The callbacks of a `ResponseFuture`, as values. A callback is named by the number of
    the registration that added it, so no two registrations share a name. */
module Callbacks {
  import opened Common

  /** Which list a callback goes on, and which outcome it fires for. */
  datatype Delivery = Callbacks | Errbacks {
    function Other(): Delivery {
      if this == Callbacks then Errbacks else Callbacks
    }
  }

  datatype Lists = Lists(callbacks: seq<nat>, errbacks: seq<nat>) {
    function For(d: Delivery): seq<nat> {
      match d
      case Callbacks => callbacks
      case Errbacks => errbacks
    }

    predicate IsEmptyFor(d: Delivery) {
      For(d) == []
    }

    function Push(d: Delivery, cb: nat): (r: Lists)
      ensures r.For(d) == For(d) + [cb] && r.For(d.Other()) == For(d.Other())
    {
      match d
      case Callbacks => this.(callbacks := callbacks + [cb])
      case Errbacks => this.(errbacks := errbacks + [cb])
    }

    /** The lists to fire for a page settled with `outcome`; an outcome that is not
        known yet can still go either way, so then either list counts. */
    function ForOutcome(outcome: Option<Delivery>): (r: Option<Lists>)
      ensures r.Some? ==> r.value == this
      ensures r.None? && outcome.Some? ==> For(outcome.value) == []
      ensures r.None? && outcome.None? ==> this == EMPTY
    {
      var canFire := match outcome
        case Some(d) => !IsEmptyFor(d)
        case None => !IsEmptyFor(Callbacks) || !IsEmptyFor(Errbacks);
      if canFire then Some(this) else None
    }

    /** How many times `cb` is on the lists. */
    ghost function Holds(cb: nat): nat {
      multiset(callbacks)[cb] + multiset(errbacks)[cb]
    }
  }

  const EMPTY := Lists([], [])

  lemma PushHolds(lists: Lists, d: Delivery, c: nat, cb: nat)
    ensures lists.Push(d, c).Holds(cb) == lists.Holds(cb) + if c == cb then 1 else 0
  {
  }
}
