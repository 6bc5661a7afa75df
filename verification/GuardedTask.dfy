/** A task spawned on the runtime with a completion signal. The guard that sends the signal
    when the task is torn down is created by the task's first poll. */
module GuardedTask {
  import opened Common

  datatype Task =
    /** About to be handed to the runtime. */
    | ToSpawn
    /** Spawned, never polled: no guard exists yet. */
    | Unpolled
    /** Polled at least once: the guard holds the signal. */
    | Polled
    /** The signal was sent. */
    | Signalled
    /** Torn down before its first poll: nothing is left to send the signal. */
    | Lost

  datatype Signal = Output(value: int) | TaskDropped

  datatype TaskAction = Spawn | Poll | Finish(value: int) | TearDown

  ghost predicate Enabled(t: Task, a: TaskAction) {
    match a
    case Spawn => t.ToSpawn?
    case Poll => t.Unpolled? || t.Polled?
    case Finish(_) => t.Polled?
    case TearDown => t.Unpolled? || t.Polled?
  }

  /** The next phase, and the signal sent on the way. */
  function After(t: Task, a: TaskAction): (r: (Task, Option<Signal>)) {
    match a
    case Spawn => (Unpolled, None)
    case Poll => (Polled, None)
    case Finish(v) => (Signalled, Some(Output(v)))
    case TearDown => if t.Polled? then (Signalled, Some(TaskDropped)) else (Lost, None)
  }

  ghost predicate Life(t: Task, actions: seq<TaskAction>)
    decreases |actions|
  {
    actions == [] || (Enabled(t, actions[0]) && Life(After(t, actions[0]).0, actions[1..]))
  }

  ghost function End(t: Task, actions: seq<TaskAction>): Task
    requires Life(t, actions)
    decreases |actions|
  {
    if actions == [] then t else End(After(t, actions[0]).0, actions[1..])
  }

  ghost function Signals(t: Task, actions: seq<TaskAction>): seq<Signal>
    requires Life(t, actions)
    decreases |actions|
  {
    if actions == [] then []
    else
      var sent := After(t, actions[0]).1;
      (if sent.Some? then [sent.value] else []) + Signals(After(t, actions[0]).0, actions[1..])
  }

  /** Over every life of a task: at most one signal, and one exactly when the life is over
      other than by a teardown before the first poll; it is the output of a task that finished,
      and says of one torn down that it was dropped. */
  lemma {:induction false} SignalledOnce(t: Task, actions: seq<TaskAction>)
    requires Life(t, actions)
    ensures |Signals(t, actions)| <= 1
    ensures t.ToSpawn? || t.Unpolled? || t.Polled? ==>
              (|Signals(t, actions)| == 1 <==> End(t, actions).Signalled?)
    ensures t.Signalled? || t.Lost? ==> actions == []
    ensures End(t, actions).Lost? && !t.Lost? ==> Poll !in actions && TearDown in actions && Signals(t, actions) == []
    ensures (t.ToSpawn? || t.Unpolled?) && Poll !in actions && TearDown in actions ==> End(t, actions).Lost?
    ensures forall v :: Finish(v) in actions ==> Signals(t, actions) == [Output(v)]
    ensures TearDown in actions && (t.Polled? || Poll in actions) ==> Signals(t, actions) == [TaskDropped]
    decreases |actions|
  {
    if actions != [] {
      SignalledOnce(After(t, actions[0]).0, actions[1..]);
      assert actions == [actions[0]] + actions[1..];
      assert Poll in actions <==> actions[0] == Poll || Poll in actions[1..];
      assert TearDown in actions <==> actions[0] == TearDown || TearDown in actions[1..];
      assert forall v :: Finish(v) in actions <==> actions[0] == Finish(v) || Finish(v) in actions[1..];
    }
  }

  /** The promise that whoever waits on the outcome is always told fails for a task torn
      down between its spawn and its first poll. */
  lemma TornDownUnpolledIsSilent()
    ensures Life(ToSpawn, [Spawn, TearDown])
    ensures Signals(ToSpawn, [Spawn, TearDown]) == [] && End(ToSpawn, [Spawn, TearDown]).Lost?
    ensures forall a :: !Enabled(End(ToSpawn, [Spawn, TearDown]), a)
  {
    assert [Spawn, TearDown][1..] == [TearDown];
    assert [TearDown][1..] == [];
  }

  /** The task and its guard as the runtime drives them. */
  class DropGuard {
    var polled: bool
    /** Whether the guard still holds `on_done`. */
    var onDone: bool
    var over: bool
    var sent: seq<Signal>

    ghost predicate Valid()
      reads this
    {
      (onDone ==> polled && !over && sent == []) && (polled && !onDone ==> over && |sent| == 1)
          && (!polled ==> sent == [])
    }

    function Phase(): Task
      reads this
    {
      if !polled then (if over then Lost else Unpolled)
      else if onDone then Polled else Signalled
    }

    constructor ()
      ensures Valid() && Phase() == Unpolled && sent == []
    {
      polled, onDone, over, sent := false, false, false, [];
    }

    method FirstPoll()
      requires Valid() && Phase().Unpolled?
      modifies this
      ensures Valid() && Phase() == After(old(Phase()), Poll).0 && sent == old(sent)
    {
      polled, onDone := true, true;
    }

    method Complete(value: int)
      requires Valid() && Phase().Polled?
      modifies this
      ensures Valid() && Phase() == After(old(Phase()), Finish(value)).0
      ensures sent == [After(old(Phase()), Finish(value)).1.value]
    {
      if onDone {
        onDone := false;
        sent := sent + [Output(value)];
      }
      over := true;
    }

    /** Dropping the task, at any time: after completion the guard is empty. */
    method Drop()
      requires Valid()
      modifies this
      ensures Valid()
      ensures Enabled(old(Phase()), TearDown) ==>
                var (phase, signal) := After(old(Phase()), TearDown);
                Phase() == phase && sent == if signal.Some? then [signal.value] else []
      ensures !Enabled(old(Phase()), TearDown) ==> Phase() == old(Phase()) && sent == old(sent)
    {
      if onDone {
        onDone := false;
        sent := sent + [TaskDropped];
      }
      over := true;
    }
  }
}
