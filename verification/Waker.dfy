/** Where the coroutine of a `DriverFuture` is parked. */
module Waker {
  import opened Common

  datatype Slot =
    /** Not parked, no wake pending. */
    | Idle
    /** Woken before it could park: the next park yields `None` instead. */
    | Woken
    /** Parked on an `asyncio.Future`. */
    | Parked(future: nat)

  /** Records a wake; the parked future to deliver it to, if any. */
  function TakeParked(slot: Slot): (r: (Slot, Option<nat>))
    ensures !r.0.Parked?
    ensures r.1.Some? <==> slot.Parked?
    ensures r.1.Some? ==> slot == Parked(r.1.value) && r.0.Idle?
    ensures r.1.None? ==> r.0.Woken?
  {
    match slot
    case Parked(f) => (Idle, Some(f))
    case _ => (Woken, None)
  }

  /** Parks: the future to wait on, or `None` to be polled again at once. `created` is the
      `asyncio.Future` created if one is needed. */
  function Park(slot: Slot, done: set<nat>, created: nat): (r: (Slot, Option<nat>))
    ensures r.1.Some? ==> r.0 == Parked(r.1.value)
    ensures r.1.None? <==> slot.Woken?
    ensures r.1.None? ==> r.0.Idle?
    ensures r.1.Some? && created !in done ==> r.1.value !in done
    ensures r.1.Some? ==> (r.1 == Some(created) || r.0 == slot)
    ensures slot.Parked? && slot.future !in done ==> r.1 == Some(slot.future)
  {
    match slot
    case Woken => (Idle, None)
    case Parked(f) => if f in done then (Parked(created), Some(created)) else (slot, Some(f))
    case Idle => (Parked(created), Some(created))
  }

  class AsyncioWaker {
    var slot: Slot

    constructor ()
      ensures slot.Idle?
    {
      slot := Idle;
    }

    method Reset()
      modifies this
      ensures slot.Idle?
    {
      slot := Idle;
    }

    method YieldAsyncioFuture(done: set<nat>, created: nat) returns (yielded: Option<nat>)
      modifies this
      ensures (slot, yielded) == Park(old(slot), done, created)
    {
      if slot.Woken? {
        slot := Idle;
        return None;
      }
      if slot.Parked? && slot.future !in done {
        return Some(slot.future);
      }
      slot := Parked(created);
      yielded := Some(created);
    }

    /** `wake`: the future to hand to the batcher with the slot released. */
    method Wake() returns (parked: Option<nat>)
      modifies this
      ensures (slot, parked) == TakeParked(old(slot))
    {
      if slot.Parked? {
        parked := Some(slot.future);
        slot := Idle;
      } else {
        parked := None;
        slot := Woken;
      }
    }
  }
}
