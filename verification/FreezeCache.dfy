/** The two-phase cache. While active, threads look a value up, compute it outside the lock
    if it is missing, and come back to store it; freezing fills in the rest and publishes a
    read-only view. Every lock section is one step of the machine below. */
module FreezeCache {
  import opened Common

  type Key = nat

  /** The identity of a Python object. */
  type Value = nat

  /** The mapping proxy: which object it is, and the dictionary behind it. */
  datatype View = View(id: nat, content: map<Key, Value>)

  datatype CacheState =
    | Active(bindings: map<Key, Value>)
    | Frozen(bindings: map<Key, Value>, view: View)

  type Entries = seq<(Key, Value)>

  /** What a call returned. */
  datatype Returned =
    | Found(key: Key, value: Value)
    | Missing(key: Key)
    /** There is no value for the key to compute. */
    | NotComputed(key: Key)
    | Viewed(view: View)
    | Raised

  /** Where a call is. */
  datatype Job =
    | Looking(key: Key)
    | Computing(key: Key)
    | Storing(key: Key, value: Value)
    | LookingForView
    | ComputingEntries
    | Freezing(entries: Entries)
    | Over(returned: Returned)

  /** `entry(k).or_insert(v)` for every entry: what is there stays. */
  function Fill(bindings: map<Key, Value>, entries: Entries): map<Key, Value>
    decreases |entries|
  {
    if entries == [] then bindings
    else
      var (k, v) := entries[0];
      Fill(if k in bindings then bindings else bindings[k := v], entries[1..])
  }

  // The lock sections.

  function Look(s: CacheState, key: Key): Result<Returned, Job> {
    if key in s.bindings then Ok(Found(key, s.bindings[key]))
    else if s.Frozen? then Ok(Missing(key))
    else Err(Computing(key))
  }

  function Store(s: CacheState, key: Key, value: Value): (CacheState, Returned) {
    if key in s.bindings then (s, Found(key, s.bindings[key]))
    else if s.Frozen? then (s, Missing(key))
    else (Active(s.bindings[key := value]), Found(key, value))
  }

  function LookForView(s: CacheState): Result<Returned, Job> {
    if s.Frozen? then Ok(Viewed(s.view)) else Err(ComputingEntries)
  }

  /** `id` is the new view's identity, `fits` whether the dictionary could be filled. */
  function Freeze(s: CacheState, entries: Entries, id: nat, fits: bool): (CacheState, Returned) {
    if s.Frozen? then (s, Viewed(s.view))
    else if !fits then (s, Raised)
    else
      var frozen := Fill(s.bindings, entries);
      (Frozen(frozen, View(id, frozen)), Viewed(View(id, frozen)))
  }

  // ----------------------------------------------------------------------------------- the machine

  /** The cache, and the calls made so far, in order. */
  datatype System = System(state: CacheState, jobs: seq<Job>)

  datatype Computed = Value(value: Value) | NoValue | Error

  datatype Step =
    | Call(key: Key)
    | CallForView
    /** A call goes on: to its next lock section, or with what it computed. */
    | GoOn(job: nat)
    | Compute(job: nat, result: Computed)
    | ComputeEntries(job: nat, entries: seq<(Key, Computed)>)
    | DoFreeze(job: nat, id: nat, fits: bool)

  ghost predicate CanStep(s: System, step: Step) {
    match step
    case Call(_) => true
    case CallForView => true
    case GoOn(j) => j < |s.jobs| && (s.jobs[j].Looking? || s.jobs[j].Storing? || s.jobs[j].LookingForView?)
    case Compute(j, _) => j < |s.jobs| && s.jobs[j].Computing?
    case ComputeEntries(j, _) => j < |s.jobs| && s.jobs[j].ComputingEntries?
    case DoFreeze(j, _, _) => j < |s.jobs| && s.jobs[j].Freezing?
  }

  function Return(s: System, j: nat, r: Returned): System
    requires j < |s.jobs|
  {
    s.(jobs := s.jobs[j := Over(r)])
  }

  function AfterLooking(s: System, j: nat, looked: Result<Returned, Job>): System
    requires j < |s.jobs|
  {
    match looked
    case Ok(r) => Return(s, j, r)
    case Err(job) => s.(jobs := s.jobs[j := job])
  }

  /** The entries, unless one could not be made. */
  function Collected(entries: seq<(Key, Computed)>): Option<Entries> {
    if entries == [] then Some([])
    else if !entries[0].1.Value? then None
    else
      match Collected(entries[1..])
      case None => None
      case Some(rest) => Some([(entries[0].0, entries[0].1.value)] + rest)
  }

  function Next(s: System, step: Step): System
    requires CanStep(s, step)
  {
    match step
    case Call(key) => s.(jobs := s.jobs + [Looking(key)])
    case CallForView => s.(jobs := s.jobs + [LookingForView])
    case GoOn(j) => (
      match s.jobs[j]
      case Looking(key) => AfterLooking(s, j, Look(s.state, key))
      case Storing(key, value) =>
        var (state, r) := Store(s.state, key, value);
        Return(s.(state := state), j, r)
      case LookingForView => AfterLooking(s, j, LookForView(s.state))
      case _ => s)
    case Compute(j, result) => (
      match result
      case Value(v) => s.(jobs := s.jobs[j := Storing(s.jobs[j].key, v)])
      case NoValue => Return(s, j, NotComputed(s.jobs[j].key))
      case Error => Return(s, j, Raised))
    case ComputeEntries(j, entries) => (
      match Collected(entries)
      case None => Return(s, j, Raised)
      case Some(es) => s.(jobs := s.jobs[j := Freezing(es)]))
    case DoFreeze(j, id, fits) =>
      var (state, r) := Freeze(s.state, s.jobs[j].entries, id, fits);
      Return(s.(state := state), j, r)
  }

  datatype Run = Begun | Then(before: Run, step: Step)

  ghost predicate Possible(r: Run)
    decreases r, 0
  {
    r.Then? ==> Possible(r.before) && CanStep(StateOf(r.before), r.step)
  }

  ghost function StateOf(r: Run): System
    requires Possible(r)
    decreases r, 1
  {
    match r
    case Begun => System(Active(map[]), [])
    case Then(before, step) => Next(StateOf(before), step)
  }

  /** `later` goes on from `r`. */
  ghost predicate GoesOnFrom(later: Run, r: Run) {
    later == r || (later.Then? && GoesOnFrom(later.before, r))
  }

  // -------------------------------------------------------------------------------- what it promises

  /** Nothing bound is bound anew or lost. */
  ghost predicate Keeps(before: map<Key, Value>, after: map<Key, Value>) {
    forall k :: k in before ==> k in after && after[k] == before[k]
  }

  lemma {:induction false} FillKeeps(bindings: map<Key, Value>, entries: Entries)
    ensures Keeps(bindings, Fill(bindings, entries))
    ensures forall i :: 0 <= i < |entries| ==> entries[i].0 in Fill(bindings, entries)
    ensures forall k :: k in Fill(bindings, entries) && k !in bindings ==>
              IsFirstFor(entries, k, Fill(bindings, entries)[k])
    decreases |entries|
  {
    if entries != [] {
      var (k, v) := entries[0];
      var one := if k in bindings then bindings else bindings[k := v];
      var rest := entries[1..];
      FillKeeps(one, rest);
      assert forall i :: 0 < i < |entries| ==> entries[i] == rest[i - 1];
      forall l | l in Fill(bindings, entries) && l !in bindings
        ensures IsFirstFor(entries, l, Fill(bindings, entries)[l])
      {
        if l == k {
          assert IsFirstAt(entries, 0, l, v);
        } else {
          var i: nat :| IsFirstAt(rest, i, l, Fill(one, rest)[l]);
          assert IsFirstAt(entries, i + 1, l, Fill(one, rest)[l]);
        }
      }
    }
  }

  ghost predicate IsFirstAt(entries: Entries, i: nat, key: Key, value: Value) {
    i < |entries| && entries[i] == (key, value) && forall j :: 0 <= j < i ==> entries[j].0 != key
  }

  /** The first of the entries for the key has that value. */
  ghost predicate IsFirstFor(entries: Entries, key: Key, value: Value) {
    exists i: nat :: IsFirstAt(entries, i, key, value)
  }

  /** The entries are those computed, in order, unless one could not be. */
  lemma {:induction false} CollectedIsAll(computed: seq<(Key, Computed)>)
    ensures Collected(computed).Some? <==> forall i :: 0 <= i < |computed| ==> computed[i].1.Value?
    ensures Collected(computed).Some? ==>
              && |Collected(computed).value| == |computed|
              && forall i :: 0 <= i < |computed| ==>
                   computed[i] == (Collected(computed).value[i].0, Value(Collected(computed).value[i].1))
  {
    if computed != [] {
      CollectedIsAll(computed[1..]);
      assert forall i :: 0 < i < |computed| ==> computed[i] == computed[1..][i - 1];
    }
  }

  /** Everything returned so far still holds: the key is bound to the value returned, the view
      is the cache's view, and the view shows the cache. */
  ghost predicate StillHolds(s: System, r: Returned) {
    match r
    case Found(key, value) => key in s.state.bindings && s.state.bindings[key] == value
    case Missing(key) => s.state.Frozen? && key !in s.state.bindings
    case Viewed(view) => s.state.Frozen? && s.state.view == view
    case NotComputed(_) => true
    case Raised => true
  }

  ghost predicate CacheInv(s: System) {
    && (forall j :: 0 <= j < |s.jobs| && s.jobs[j].Over? ==> StillHolds(s, s.jobs[j].returned))
    && (s.state.Frozen? ==> s.state.view.content == s.state.bindings)
  }

  /** One step keeps every binding, and none once the cache is frozen adds any. */
  lemma StepOnlyAdds(s: System, step: Step)
    requires CanStep(s, step)
    ensures Keeps(s.state.bindings, Next(s, step).state.bindings)
    ensures s.state.Frozen? ==> Next(s, step).state == s.state
  {
    if step.DoFreeze? {
      FillKeeps(s.state.bindings, s.jobs[step.job].entries);
    }
  }

  lemma StepKeepsInv(s: System, step: Step)
    requires CacheInv(s) && CanStep(s, step)
    ensures CacheInv(Next(s, step))
  {
    StepOnlyAdds(s, step);
    var s' := Next(s, step);
    forall j | 0 <= j < |s'.jobs| && s'.jobs[j].Over? ensures StillHolds(s', s'.jobs[j].returned) {
      if j < |s.jobs| && s.jobs[j].Over? {
        assert s'.jobs[j] == s.jobs[j];
        assert StillHolds(s, s.jobs[j].returned);
      }
    }
  }

  lemma {:induction false} EveryRunKeepsInv(r: Run)
    requires Possible(r)
    ensures CacheInv(StateOf(r))
  {
    match r
    case Begun =>
    case Then(before, step) =>
      EveryRunKeepsInv(before);
      StepKeepsInv(StateOf(before), step);
  }

  /** Whoever asks for a key, and whenever, gets the same object; all views are one object,
      and it shows what the lookups find. */
  lemma EverybodyGetsTheSame(r: Run, i: nat, j: nat)
    requires Possible(r)
    requires i < |StateOf(r).jobs| && StateOf(r).jobs[i].Over? && j < |StateOf(r).jobs| && StateOf(r).jobs[j].Over?
    ensures match (StateOf(r).jobs[i].returned, StateOf(r).jobs[j].returned)
            case (Found(k, v), Found(l, w)) => k == l ==> v == w
            case (Found(k, v), Missing(l)) => k != l
            case (Viewed(v), Viewed(w)) => v == w
            case (Viewed(view), Found(k, v)) => k in view.content && view.content[k] == v
            case (Viewed(view), Missing(k)) => k !in view.content
            case _ => true
  {
    EveryRunKeepsInv(r);
    var jobs := StateOf(r).jobs;
    assert StillHolds(StateOf(r), jobs[i].returned) && StillHolds(StateOf(r), jobs[j].returned);
  }

  /** Over any stretch of a run, bindings survive, a freeze included, and nothing is added
      after it. */
  lemma {:induction false} BindingsSurvive(r: Run, later: Run)
    requires Possible(r) && Possible(later) && GoesOnFrom(later, r)
    ensures Keeps(StateOf(r).state.bindings, StateOf(later).state.bindings)
    ensures StateOf(r).state.Frozen? ==> StateOf(later).state == StateOf(r).state
  {
    if later != r {
      BindingsSurvive(r, later.before);
      StepOnlyAdds(StateOf(later.before), later.step);
    }
  }

  /** A freeze that fails changes nothing; one that works keeps what was there, adds the first
      value given for every key that was missing, and nothing else. */
  lemma FreezeFillsIn(s: CacheState, entries: Entries, id: nat, fits: bool)
    ensures Freeze(s, entries, id, fits).1.Raised? <==> s.Active? && !fits
    ensures Freeze(s, entries, id, fits).1.Raised? || s.Frozen? ==> Freeze(s, entries, id, fits).0 == s
    ensures var s' := Freeze(s, entries, id, fits).0;
            s.Active? && fits ==>
              && s'.Frozen? && Keeps(s.bindings, s'.bindings)
              && (forall i :: 0 <= i < |entries| ==> entries[i].0 in s'.bindings)
              && (forall k :: k in s'.bindings && k !in s.bindings ==> IsFirstFor(entries, k, s'.bindings[k]))
  {
    FillKeeps(s.bindings, entries);
  }

  // --------------------------------------------------------------------- where a value comes from

  /** What each call was for, from the steps: a key, or the view. */
  ghost function Asked(r: Run): seq<Option<Key>> {
    match r
    case Begun => []
    case Then(before, Call(key)) => Asked(before) + [Some(key)]
    case Then(before, CallForView) => Asked(before) + [None]
    case Then(before, _) => Asked(before)
  }

  /** What call `j` computed, if it did. */
  ghost function ComputedBy(r: Run, j: nat): Option<Computed> {
    match r
    case Begun => None
    case Then(before, Compute(i, result)) => if i == j then Some(result) else ComputedBy(before, j)
    case Then(before, _) => ComputedBy(before, j)
  }

  ghost function EntriesBy(r: Run, j: nat): Option<seq<(Key, Computed)>> {
    match r
    case Begun => None
    case Then(before, ComputeEntries(i, entries)) => if i == j then Some(entries) else EntriesBy(before, j)
    case Then(before, _) => EntriesBy(before, j)
  }

  /** A call is where its steps have brought it, and what it returned is about what it was for. */
  ghost predicate JobFits(job: Job, asked: Option<Key>, computed: Option<Computed>,
                          entries: Option<seq<(Key, Computed)>>)
  {
    match job
    case Looking(k) => asked == Some(k) && computed.None?
    case Computing(k) => asked == Some(k) && computed.None?
    case Storing(k, v) => asked == Some(k) && computed == Some(Value(v))
    case LookingForView => asked.None? && entries.None?
    case ComputingEntries => asked.None? && entries.None?
    case Freezing(es) => asked.None? && entries.Some? && Collected(entries.value) == Some(es)
    case Over(returned) => ReturnFits(returned, asked, computed)
  }

  /** A call for a key returns a value for it or that there is none, unless computing it failed;
      a call for the view returns that, or fails. */
  ghost predicate ReturnFits(returned: Returned, asked: Option<Key>, computed: Option<Computed>) {
    match returned
    case Found(k, _) => asked == Some(k) && (computed.None? || computed.value.Value?)
    case Missing(k) => asked == Some(k) && (computed.None? || computed.value.Value?)
    case NotComputed(k) => asked == Some(k) && computed == Some(NoValue)
    case Raised => asked.None? || computed == Some(Error)
    case Viewed(_) => asked.None?
  }

  /** Call `j` was for the key, computed the value, and returned it. */
  ghost predicate StoredBy(r: Run, j: nat, key: Key, value: Value)
    requires Possible(r)
  {
    && j < |Asked(r)| && Asked(r)[j] == Some(key) && ComputedBy(r, j) == Some(Value(value))
    && j < |StateOf(r).jobs| && StateOf(r).jobs[j] == Over(Found(key, value))
  }

  /** Call `j` gave the value for the key among the entries of a freeze. */
  ghost predicate ListedBy(r: Run, j: nat, key: Key, value: Value) {
    && j < |Asked(r)| && Asked(r)[j].None?
    && EntriesBy(r, j).Some? && (key, Value(value)) in EntriesBy(r, j).value
  }

  ghost predicate JobsFit(r: Run)
    requires Possible(r)
  {
    var jobs := StateOf(r).jobs;
    && |jobs| == |Asked(r)|
    && (forall j: nat :: j < |jobs| ==> Fits(r, j))
    && (forall j: nat :: j >= |jobs| ==> ComputedBy(r, j).None? && EntriesBy(r, j).None?)
  }

  ghost predicate Fits(r: Run, j: nat)
    requires Possible(r) && j < |StateOf(r).jobs| == |Asked(r)|
  {
    JobFits(StateOf(r).jobs[j], Asked(r)[j], ComputedBy(r, j), EntriesBy(r, j))
  }

  /** Only the call whose turn it is moves on. */
  lemma OtherJobsStay(r: Run, step: Step, j: nat)
    requires Possible(Then(r, step)) && !step.Call? && !step.CallForView? && step.job != j
    ensures |StateOf(Then(r, step)).jobs| == |StateOf(r).jobs| && Asked(Then(r, step)) == Asked(r)
    ensures j < |StateOf(r).jobs| ==> StateOf(Then(r, step)).jobs[j] == StateOf(r).jobs[j]
    ensures ComputedBy(Then(r, step), j) == ComputedBy(r, j) && EntriesBy(Then(r, step), j) == EntriesBy(r, j)
  {
  }

  lemma ItsTurnFits(r: Run, step: Step)
    requires Possible(Then(r, step)) && JobsFit(r) && !step.Call? && !step.CallForView?
    ensures |StateOf(Then(r, step)).jobs| == |StateOf(r).jobs| && Asked(Then(r, step)) == Asked(r)
    ensures Fits(Then(r, step), step.job)
  {
    assert Fits(r, step.job);
  }

  /** A new call has computed nothing, and the others stay where they are. */
  lemma NewCallFits(r: Run, step: Step, j: nat)
    requires Possible(Then(r, step)) && JobsFit(r) && (step.Call? || step.CallForView?)
    ensures |StateOf(Then(r, step)).jobs| == |StateOf(r).jobs| + 1 == |Asked(Then(r, step))|
    ensures if j <= |StateOf(r).jobs| then Fits(Then(r, step), j)
            else ComputedBy(Then(r, step), j).None? && EntriesBy(Then(r, step), j).None?
  {
    assert j < |StateOf(r).jobs| ==> Fits(r, j);
    assert ComputedBy(Then(r, step), j) == ComputedBy(r, j) && EntriesBy(Then(r, step), j) == EntriesBy(r, j);
  }

  lemma StepKeepsJobsFit(r: Run, step: Step)
    requires Possible(Then(r, step)) && JobsFit(r)
    ensures JobsFit(Then(r, step))
  {
    var after := Then(r, step);
    if step.Call? || step.CallForView? {
      NewCallFits(r, step, 0);
      forall j: nat
        ensures if j < |StateOf(after).jobs| then Fits(after, j)
                else ComputedBy(after, j).None? && EntriesBy(after, j).None?
      {
        NewCallFits(r, step, j);
      }
    } else {
      ItsTurnFits(r, step);
      forall j: nat | j != step.job
        ensures if j < |StateOf(after).jobs| then Fits(after, j)
                else ComputedBy(after, j).None? && EntriesBy(after, j).None?
      {
        OtherJobsStay(r, step, j);
        assert j < |StateOf(r).jobs| ==> Fits(r, j);
      }
    }
  }

  /** A call for the key computed the value and returned it; or, once frozen, a call for the view
      gave it. */
  ghost predicate HasOrigin(r: Run, key: Key, value: Value)
    requires Possible(r)
  {
    || (exists j: nat :: StoredBy(r, j, key, value))
    || (StateOf(r).state.Frozen? && exists j: nat :: ListedBy(r, j, key, value))
  }

  lemma OriginStays(r: Run, step: Step, key: Key, value: Value)
    requires Possible(Then(r, step)) && JobsFit(r) && HasOrigin(r, key, value)
    ensures HasOrigin(Then(r, step), key, value)
  {
    if j: nat :| StoredBy(r, j, key, value) {
      assert Fits(r, j);
      assert StoredBy(Then(r, step), j, key, value);
    } else {
      var j: nat :| ListedBy(r, j, key, value);
      assert Fits(r, j);
      assert ListedBy(Then(r, step), j, key, value);
    }
  }

  /** A value stored by `get_or_init` is the one its call computed. */
  lemma StoredHasOrigin(r: Run, j: nat, key: Key)
    requires Possible(Then(r, GoOn(j))) && JobsFit(r)
    requires key in StateOf(Then(r, GoOn(j))).state.bindings && key !in StateOf(r).state.bindings
    ensures HasOrigin(Then(r, GoOn(j)), key, StateOf(Then(r, GoOn(j))).state.bindings[key])
  {
    assert Fits(r, j);
    assert StoredBy(Then(r, GoOn(j)), j, key, StateOf(Then(r, GoOn(j))).state.bindings[key]);
  }

  /** A value added by a freeze is one of its entries. */
  lemma FrozenHasOrigin(r: Run, j: nat, id: nat, fits: bool, key: Key)
    requires Possible(Then(r, DoFreeze(j, id, fits))) && JobsFit(r)
    requires key in StateOf(Then(r, DoFreeze(j, id, fits))).state.bindings && key !in StateOf(r).state.bindings
    ensures HasOrigin(Then(r, DoFreeze(j, id, fits)), key, StateOf(Then(r, DoFreeze(j, id, fits))).state.bindings[key])
  {
    var s, after := StateOf(r), Then(r, DoFreeze(j, id, fits));
    var entries, value := s.jobs[j].entries, StateOf(after).state.bindings[key];
    assert Fits(r, j);
    FillKeeps(s.state.bindings, entries);
    var i: nat :| IsFirstAt(entries, i, key, value);
    CollectedIsAll(EntriesBy(r, j).value);
    assert EntriesBy(r, j).value[i] == (key, Value(value));
    assert ListedBy(after, j, key, value);
  }

  /** Over every run, each call is where its steps brought it, returned something about what it
      was for, and every value bound has its origin. */
  lemma {:induction false} EveryValueHasItsOrigin(r: Run)
    requires Possible(r)
    ensures JobsFit(r)
    ensures forall k :: k in StateOf(r).state.bindings ==> HasOrigin(r, k, StateOf(r).state.bindings[k])
  {
    if r.Then? {
      EveryValueHasItsOrigin(r.before);
      StepKeepsJobsFit(r.before, r.step);
      StepOnlyAdds(StateOf(r.before), r.step);
      var s, s' := StateOf(r.before).state, StateOf(r).state;
      forall k | k in s'.bindings ensures HasOrigin(r, k, s'.bindings[k]) {
        if k in s.bindings {
          OriginStays(r.before, r.step, k, s.bindings[k]);
        } else if r.step.GoOn? {
          StoredHasOrigin(r.before, r.step.job, k);
        } else {
          FrozenHasOrigin(r.before, r.step.job, r.step.id, r.step.fits, k);
        }
      }
    }
  }

  /** A call that has to look only, or has looked and is over. */
  predicate OnlyLooks(job: Job) {
    job.Looking? || job.LookingForView? || job.Over?
  }

  /** Call `j` needs nothing computed: its key is bound, or the cache is frozen. */
  ghost predicate IsThere(s: CacheState, asked: Option<Key>) {
    s.Frozen? || (asked.Some? && asked.value in s.bindings)
  }

  ghost predicate ComputedNothing(r: Run, j: nat)
    requires Possible(r) && j < |StateOf(r).jobs|
  {
    OnlyLooks(StateOf(r).jobs[j]) && ComputedBy(r, j).None? && EntriesBy(r, j).None?
  }

  lemma ItOnlyLooks(r: Run, step: Step, j: nat)
    requires Possible(Then(r, step)) && JobsFit(r) && j < |Asked(r)| && ComputedNothing(r, j)
    requires IsThere(StateOf(r).state, Asked(r)[j])
    ensures j < |StateOf(Then(r, step)).jobs| && ComputedNothing(Then(r, step), j)
  {
    if !step.Call? && !step.CallForView? && step.job != j {
      OtherJobsStay(r, step, j);
    } else {
      assert Fits(r, j);
    }
  }

  /** What is there is not computed again: a call made for a key after it was bound computes
      nothing, nor does any call made once the cache was frozen. */
  lemma {:induction false} NothingIsComputedTwice(r: Run, later: Run, j: nat)
    requires Possible(r) && Possible(later) && GoesOnFrom(later, r) && |Asked(r)| <= j < |Asked(later)|
    requires IsThere(StateOf(r).state, Asked(later)[j])
    ensures j < |StateOf(later).jobs| && ComputedNothing(later, j)
  {
    EveryValueHasItsOrigin(later.before);
    if j < |Asked(later.before)| {
      assert Asked(later)[j] == Asked(later.before)[j];
      NothingIsComputedTwice(r, later.before, j);
      BindingsSurvive(r, later.before);
      ItOnlyLooks(later.before, later.step, j);
    } else {
      NewCallFits(later.before, later.step, j);
    }
  }

  /** What a call for a key got was computed by a call for that key, which got it too, or given
      for it by a call for the view. */
  lemma FoundHasItsOrigin(r: Run, j: nat, key: Key, value: Value)
    requires Possible(r) && j < |StateOf(r).jobs| && StateOf(r).jobs[j] == Over(Found(key, value))
    ensures j < |Asked(r)| && Asked(r)[j] == Some(key) && HasOrigin(r, key, value)
  {
    EveryRunKeepsInv(r);
    EveryValueHasItsOrigin(r);
    assert StillHolds(StateOf(r), StateOf(r).jobs[j].returned) && Fits(r, j);
  }

  /** So a call that is the only one for its key, on a cache that is not frozen, gets what it
      computed, and that is what is cached. */
  lemma OnlyCallGetsWhatItComputed(r: Run, j: nat, key: Key, value: Value)
    requires Possible(r) && StateOf(r).state.Active?
    requires j < |Asked(r)| && forall i: nat :: i < |Asked(r)| ==> (Asked(r)[i] == Some(key) <==> i == j)
    requires ComputedBy(r, j) == Some(Value(value)) && j < |StateOf(r).jobs| && StateOf(r).jobs[j].Over?
    ensures StateOf(r).jobs[j] == Over(Found(key, value))
    ensures key in StateOf(r).state.bindings && StateOf(r).state.bindings[key] == value
  {
    EveryRunKeepsInv(r);
    EveryValueHasItsOrigin(r);
    var s := StateOf(r);
    assert StillHolds(s, s.jobs[j].returned) && Fits(r, j);
    var found := s.jobs[j].returned.value;
    var i: nat :| StoredBy(r, i, key, found);
  }

  // ------------------------------------------------------------------------ as the program keeps it

  class Cache {
    var state: CacheState

    constructor ()
      ensures state == Active(map[])
    {
      state := Active(map[]);
    }

    /** The first section of `get_or_init`. */
    method ReadValue(key: Key) returns (looked: Result<Returned, Job>)
      ensures looked == Look(state, key)
    {
      if key in state.bindings {
        return Ok(Found(key, state.bindings[key]));
      }
      if state.Frozen? {
        return Ok(Missing(key));
      }
      looked := Err(Computing(key));
    }

    /** Its second section, with the value computed in between. */
    method WriteValue(key: Key, value: Value) returns (r: Returned)
      modifies this
      ensures (state, r) == old(Store(state, key, value))
    {
      match state {
        case Active(bindings) =>
          if key in bindings {
            r := Found(key, bindings[key]);
          } else {
            state := Active(bindings[key := value]);
            r := Found(key, value);
          }
        case Frozen(bindings, _) =>
          r := if key in bindings then Found(key, bindings[key]) else Missing(key);
      }
    }

    /** The second section of `get_or_init_python_mapping`. `unfit` are the keys the
        dictionary does not take. */
    method WriteView(entries: Entries, id: nat, unfit: set<Key>) returns (r: Returned)
      modifies this
      ensures (state, r) == old(Freeze(state, entries, id, Fill(state.bindings, entries).Keys !! unfit))
    {
      if state.Frozen? {
        return Viewed(state.view);
      }
      var frozen := state.bindings;
      for i := 0 to |entries|
        invariant Fill(frozen, entries[i..]) == Fill(state.bindings, entries)
      {
        var (k, v) := entries[i];
        assert entries[i..][0] == entries[i] && entries[i..][1..] == entries[i + 1..];
        if k !in frozen {
          frozen := frozen[k := v];
        }
      }
      assert entries[|entries|..] == [];

      var dict: map<Key, Value>, todo := map[], frozen.Keys;
      while todo != {}
        invariant todo <= frozen.Keys && dict.Keys == frozen.Keys - todo && dict.Keys !! unfit
        invariant forall k :: k in dict ==> dict[k] == frozen[k]
        decreases |todo|
      {
        var k :| k in todo;
        if k in unfit {
          return Raised;
        }
        dict, todo := dict[k := frozen[k]], todo - {k};
      }
      assert dict == frozen;
      state := Frozen(frozen, View(id, dict));
      r := Viewed(View(id, dict));
    }
  }
}
