/** The cache of namedtuple classes, keyed by the column names they were made from. Threads
    look a class up, make it outside the lock if it is missing, and come back to store it. */
module NamedTuples {
  import opened Common
  import opened FieldNames

  // -------------------------------------------------------------------------------------- the key

  const NUL: char := '\0'

  /** The names, each one ended by a NUL. */
  function Key(columns: seq<string>): string {
    if columns == [] then "" else columns[0] + [NUL] + Key(columns[1..])
  }

  method ComputeKey(columns: seq<string>) returns (key: string)
    ensures key == Key(columns)
  {
    key := "";
    for i := 0 to |columns|
      invariant key + Key(columns[i..]) == Key(columns)
    {
      assert columns[i..][0] == columns[i] && columns[i..][1..] == columns[i + 1..];
      key := key + columns[i] + [NUL];
    }
    assert key + "" == key;
  }

  predicate FreeOfNul(columns: seq<string>) {
    forall i :: 0 <= i < |columns| ==> '\0' !in columns[i]
  }

  /** What comes before the first NUL, and what comes after it. */
  function FirstName(key: string): (r: (string, string))
    requires NUL in key
    ensures NUL !in r.0 && key == r.0 + [NUL] + r.1
  {
    if key[0] == NUL then ("", key[1..])
    else
      var (name, rest) := FirstName(key[1..]);
      ([key[0]] + name, rest)
  }

  /** The names a key was made from. */
  function Names(key: string): (columns: seq<string>)
    ensures FreeOfNul(columns)
    decreases |key|
  {
    if NUL !in key then [] else
      var (name, rest) := FirstName(key);
      [name] + Names(rest)
  }

  lemma {:induction false} FirstNameOf(name: string, rest: string)
    requires NUL !in name
    ensures FirstName(name + [NUL] + rest) == (name, rest)
  {
    var key := name + [NUL] + rest;
    assert key[|name|] == NUL;
    if name != "" {
      FirstNameOf(name[1..], rest);
      assert key[1..] == name[1..] + [NUL] + rest;
      assert name == [name[0]] + name[1..];
    }
  }

  /** The key gives the names back. */
  lemma {:induction false} NamesOfKey(columns: seq<string>)
    requires FreeOfNul(columns)
    ensures Names(Key(columns)) == columns
  {
    if columns != [] {
      assert (columns[0] + [NUL] + Key(columns[1..]))[|columns[0]|] == NUL;
      FirstNameOf(columns[0], Key(columns[1..]));
      NamesOfKey(columns[1..]);
      assert FreeOfNul(columns[1..]);
    }
  }

  lemma {:induction false} KeyOfNames(key: string)
    requires key == "" || key[|key| - 1] == NUL
    ensures Key(Names(key)) == key
    decreases |key|
  {
    if key != "" {
      var (name, rest) := FirstName(key);
      assert rest != "" ==> rest[|rest| - 1] == key[|key| - 1];
      KeyOfNames(rest);
    }
  }

  lemma {:induction false} KeyEndsInNul(columns: seq<string>)
    ensures Key(columns) == "" || Key(columns)[|Key(columns)| - 1] == NUL
  {
    if columns != [] {
      KeyEndsInNul(columns[1..]);
    }
  }

  /** Two shapes share a key only if one of them has a name with a NUL in it. */
  lemma KeyIsInjective(a: seq<string>, b: seq<string>)
    requires FreeOfNul(a) && FreeOfNul(b) && Key(a) == Key(b)
    ensures a == b
  {
    NamesOfKey(a);
    NamesOfKey(b);
  }

  /** And whenever a name has one, some shape without any shares the key. */
  lemma KeysCollideExactlyOnNul(a: seq<string>)
    ensures (exists b :: FreeOfNul(b) && b != a && Key(b) == Key(a)) <==> !FreeOfNul(a)
  {
    KeyEndsInNul(a);
    KeyOfNames(Key(a));
    if FreeOfNul(a) {
      forall b | FreeOfNul(b) && Key(b) == Key(a) ensures b == a {
        KeyIsInjective(a, b);
      }
    } else {
      assert FreeOfNul(Names(Key(a)));
    }
  }

  // ------------------------------------------------------------------------------------ the cache

  const LIMIT := 512

  /** A class: which object, and its fields. */
  datatype Class = Class(id: nat, fields: seq<string>)

  type Classes = map<string, Class>

  datatype Job =
    | Looking(columns: seq<string>)
    | Making(columns: seq<string>)
    | Storing(columns: seq<string>, made: Class)
    | Over

  /** The write section: full, the cache is emptied first; a class stored meanwhile wins. */
  function Store(classes: Classes, key: string, made: Class): (Classes, Class) {
    var room := if |classes| >= LIMIT then map[] else classes;
    if key in room then (room, room[key]) else (room[key := made], made)
  }

  datatype System = System(classes: Classes, jobs: seq<Job>, returned: seq<(seq<string>, Class)>)

  datatype Step =
    | Call(columns: seq<string>)
    | Look(job: nat)
    | Make(job: nat, made: Class)
    /** `poisoned`: the lock cannot be had, and the class is not stored. */
    | DoStore(job: nat, poisoned: bool)

  ghost predicate CanStep(s: System, step: Step, keywords: set<string>) {
    match step
    case Call(_) => true
    case Look(j) => j < |s.jobs| && s.jobs[j].Looking?
    case Make(j, made) => j < |s.jobs| && s.jobs[j].Making? && AreFieldNames(made.fields, s.jobs[j].columns, keywords)
    case DoStore(j, _) => j < |s.jobs| && s.jobs[j].Storing?
  }

  function Next(s: System, step: Step): System
    requires exists keywords :: CanStep(s, step, keywords)
  {
    match step
    case Call(columns) => s.(jobs := s.jobs + [Looking(columns)])
    case Look(j) =>
      var columns := s.jobs[j].columns;
      if Key(columns) in s.classes then
        s.(jobs := s.jobs[j := Over], returned := s.returned + [(columns, s.classes[Key(columns)])])
      else s.(jobs := s.jobs[j := Making(columns)])
    case Make(j, made) => s.(jobs := s.jobs[j := Storing(s.jobs[j].columns, made)])
    case DoStore(j, poisoned) =>
      var Storing(columns, made) := s.jobs[j];
      var (classes, class_) := if poisoned then (s.classes, made) else Store(s.classes, Key(columns), made);
      System(classes, s.jobs[j := Over], s.returned + [(columns, class_)])
  }

  datatype Run = Begun | Then(before: Run, step: Step)

  ghost predicate Possible(r: Run, keywords: set<string>)
    decreases r, 0
  {
    r.Then? ==> Possible(r.before, keywords) && CanStep(StateOf(r.before, keywords), r.step, keywords)
  }

  ghost function StateOf(r: Run, keywords: set<string>): System
    requires Possible(r, keywords)
    decreases r, 1
  {
    match r
    case Begun => System(map[], [], [])
    case Then(before, step) => Next(StateOf(before, keywords), step)
  }

  ghost predicate Fits(columns: seq<string>, c: Class, keywords: set<string>) {
    AreFieldNames(c.fields, columns, keywords)
  }

  /** The class was made for a shape that has this key. */
  ghost predicate MadeFor(called: set<seq<string>>, key: string, c: Class, keywords: set<string>) {
    exists shape :: shape in called && Key(shape) == key && Fits(shape, c, keywords)
  }

  /** Every class cached or returned was made for a shape that was called for and shares the key. */
  ghost predicate ClassesInv(s: System, called: set<seq<string>>, keywords: set<string>) {
    && (forall key :: key in s.classes ==> MadeFor(called, key, s.classes[key], keywords))
    && (forall j :: 0 <= j < |s.jobs| && !s.jobs[j].Over? ==> s.jobs[j].columns in called)
    && (forall j :: 0 <= j < |s.jobs| && s.jobs[j].Storing? ==> Fits(s.jobs[j].columns, s.jobs[j].made, keywords))
    && (forall i :: 0 <= i < |s.returned| ==> s.returned[i].0 in called)
    && (forall i :: 0 <= i < |s.returned| ==> MadeFor(called, Key(s.returned[i].0), s.returned[i].1, keywords))
    && |s.classes| <= LIMIT
  }

  lemma CallKeepsInv(s: System, called: set<seq<string>>, columns: seq<string>, keywords: set<string>)
    requires ClassesInv(s, called, keywords)
    ensures ClassesInv(s.(jobs := s.jobs + [Looking(columns)]), called + {columns}, keywords)
  {
    forall key, c | MadeFor(called, key, c, keywords) ensures MadeFor(called + {columns}, key, c, keywords) {
      var shape :| shape in called && Key(shape) == key && Fits(shape, c, keywords);
      assert shape in called + {columns};
    }
  }

  /** What is stored is keyed by its own columns, and there is room for it. */
  lemma StoreFits(classes: Classes, called: set<seq<string>>, columns: seq<string>, made: Class, keywords: set<string>)
    requires forall key :: key in classes ==> MadeFor(called, key, classes[key], keywords)
    requires columns in called && Fits(columns, made, keywords) && |classes| <= LIMIT
    ensures var (after, kept) := Store(classes, Key(columns), made);
            && (forall key :: key in after ==> MadeFor(called, key, after[key], keywords))
            && MadeFor(called, Key(columns), kept, keywords) && |after| <= LIMIT
  {
    var room := if |classes| >= LIMIT then map[] else classes;
    assert MadeFor(called, Key(columns), made, keywords);
    assert |room[Key(columns) := made]| <= |room| + 1;
  }

  lemma StoreKeepsInv(s: System, called: set<seq<string>>, j: nat, poisoned: bool, keywords: set<string>)
    requires ClassesInv(s, called, keywords) && CanStep(s, DoStore(j, poisoned), keywords)
    ensures ClassesInv(Next(s, DoStore(j, poisoned)), called, keywords)
  {
    var Storing(columns, made) := s.jobs[j];
    StoreFits(s.classes, called, columns, made, keywords);
    assert MadeFor(called, Key(columns), made, keywords);
  }

  lemma LookKeepsInv(s: System, called: set<seq<string>>, j: nat, keywords: set<string>)
    requires ClassesInv(s, called, keywords) && CanStep(s, Look(j), keywords)
    ensures ClassesInv(Next(s, Look(j)), called, keywords)
  {
  }

  lemma MakeKeepsInv(s: System, called: set<seq<string>>, j: nat, made: Class, keywords: set<string>)
    requires ClassesInv(s, called, keywords) && CanStep(s, Make(j, made), keywords)
    ensures ClassesInv(Next(s, Make(j, made)), called, keywords)
  {
  }

  ghost function CalledBy(step: Step): set<seq<string>> {
    if step.Call? then {step.columns} else {}
  }

  lemma StepKeepsInv(s: System, called: set<seq<string>>, step: Step, keywords: set<string>)
    requires ClassesInv(s, called, keywords) && CanStep(s, step, keywords)
    ensures ClassesInv(Next(s, step), called + CalledBy(step), keywords)
  {
    assert !step.Call? ==> called + CalledBy(step) == called;
    match step
    case Call(columns) => CallKeepsInv(s, called, columns, keywords);
    case Look(j) => LookKeepsInv(s, called, j, keywords);
    case Make(j, made) => MakeKeepsInv(s, called, j, made, keywords);
    case DoStore(j, poisoned) => StoreKeepsInv(s, called, j, poisoned, keywords);
  }

  /** What the calls so far were for. */
  ghost function Called(r: Run): set<seq<string>> {
    if r.Begun? then {} else Called(r.before) + CalledBy(r.step)
  }

  lemma {:induction false} EveryRunKeepsInv(r: Run, keywords: set<string>)
    requires Possible(r, keywords)
    ensures ClassesInv(StateOf(r, keywords), Called(r), keywords)
  {
    match r
    case Begun =>
    case Then(before, step) =>
      EveryRunKeepsInv(before, keywords);
      StepKeepsInv(StateOf(before, keywords), Called(before), step, keywords);
  }

  /** No call is for another shape with the key of `columns`. */
  ghost predicate KeepsApart(r: Run, columns: seq<string>) {
    forall shape :: shape in Called(r) && Key(shape) == Key(columns) ==> shape == columns
  }

  /** Whatever is cached, cleared or stored by others meanwhile, a caller gets a class with
      the fields its own columns would have given, unless there was a call for another shape
      with the same key. */
  lemma CallersGetTheirFields(r: Run, keywords: set<string>, i: nat, fields: seq<string>)
    requires Possible(r, keywords) && i < |StateOf(r, keywords).returned|
    requires KeepsApart(r, StateOf(r, keywords).returned[i].0)
    requires AreFieldNames(fields, StateOf(r, keywords).returned[i].0, keywords)
    ensures StateOf(r, keywords).returned[i].1.fields == fields
    ensures |StateOf(r, keywords).classes| <= 512
  {
    EveryRunKeepsInv(r, keywords);
    var (columns, c) := StateOf(r, keywords).returned[i];
    assert MadeFor(Called(r), Key(columns), c, keywords);
    FieldNamesAreUnique(c.fields, fields, columns, keywords);
  }

  /** Every call is for names without a NUL. */
  ghost predicate Ordinary(r: Run) {
    forall columns :: columns in Called(r) ==> FreeOfNul(columns)
  }

  /** Ordinary calls get what is theirs. */
  lemma OrdinaryCallersGetTheirFields(r: Run, keywords: set<string>, i: nat, fields: seq<string>)
    requires Possible(r, keywords) && Ordinary(r) && i < |StateOf(r, keywords).returned|
    requires AreFieldNames(fields, StateOf(r, keywords).returned[i].0, keywords)
    ensures StateOf(r, keywords).returned[i].1.fields == fields
  {
    EveryRunKeepsInv(r, keywords);
    var columns := StateOf(r, keywords).returned[i].0;
    forall shape | shape in Called(r) && Key(shape) == Key(columns) ensures shape == columns {
      KeyIsInjective(shape, columns);
    }
    CallersGetTheirFields(r, keywords, i, fields);
  }

  // ------------------------------------------------------------------------ one class for a shape

  /** The lock could always be had. */
  ghost predicate NeverPoisoned(r: Run) {
    r.Then? ==> NeverPoisoned(r.before) && !(r.step.DoStore? && r.step.poisoned)
  }

  ghost function KeysOf(called: set<seq<string>>): set<string> {
    set columns | columns in called :: Key(columns)
  }

  /** What was returned is cached, and nothing else than what was called for. */
  ghost predicate StillCached(s: System, called: set<seq<string>>) {
    && s.classes.Keys <= KeysOf(called)
    && (forall j :: 0 <= j < |s.jobs| && !s.jobs[j].Over? ==> s.jobs[j].columns in called)
    && (forall i :: 0 <= i < |s.returned| ==> IsCached(s.classes, s.returned[i].0, s.returned[i].1))
  }

  ghost predicate IsCached(classes: Classes, columns: seq<string>, c: Class) {
    Key(columns) in classes && classes[Key(columns)] == c
  }

  lemma {:induction false} SubsetIsSmaller(a: set<string>, b: set<string>)
    requires a <= b
    ensures |a| <= |b|
  {
    if x :| x in a {
      SubsetIsSmaller(a - {x}, b - {x});
    }
  }

  /** As long as the cache is not full, storing only adds. */
  lemma StoreOnlyAdds(classes: Classes, key: string, made: Class)
    requires |classes| < 512
    ensures var (after, kept) := Store(classes, key, made);
            && key in after && after[key] == kept && (key !in classes ==> kept == made)
            && after.Keys == classes.Keys + {key} && forall k :: k in classes ==> after[k] == classes[k]
  {
  }

  lemma StoreKeepsCached(s: System, called: set<seq<string>>, j: nat, keywords: set<string>)
    requires StillCached(s, called) && CanStep(s, DoStore(j, false), keywords) && |KeysOf(called)| < 512
    ensures StillCached(Next(s, DoStore(j, false)), called)
  {
    var Storing(columns, made) := s.jobs[j];
    SubsetIsSmaller(s.classes.Keys, KeysOf(called));
    assert |s.classes| == |s.classes.Keys|;
    StoreOnlyAdds(s.classes, Key(columns), made);
    assert Key(columns) in KeysOf(called);
  }

  lemma OthersKeepCached(s: System, called: set<seq<string>>, step: Step, keywords: set<string>)
    requires StillCached(s, called) && CanStep(s, step, keywords) && (step.Look? || step.Make?)
    ensures StillCached(Next(s, step), called)
  {
  }

  lemma CallKeepsCached(s: System, called: set<seq<string>>, columns: seq<string>)
    requires StillCached(s, called)
    ensures StillCached(s.(jobs := s.jobs + [Looking(columns)]), called + {columns})
  {
    forall key | key in KeysOf(called) ensures key in KeysOf(called + {columns}) {
      var shape :| shape in called && Key(shape) == key;
      assert shape in called + {columns};
    }
  }

  lemma StepKeepsCached(s: System, called: set<seq<string>>, step: Step, keywords: set<string>)
    requires StillCached(s, called) && CanStep(s, step, keywords) && |KeysOf(called)| < 512
    requires !(step.DoStore? && step.poisoned)
    ensures StillCached(Next(s, step), called + CalledBy(step))
  {
    assert !step.Call? ==> called + CalledBy(step) == called;
    match step
    case Call(columns) => CallKeepsCached(s, called, columns);
    case DoStore(j, _) => StoreKeepsCached(s, called, j, keywords);
    case _ => OthersKeepCached(s, called, step, keywords);
  }

  lemma {:induction false} EveryRunKeepsCached(r: Run, keywords: set<string>)
    requires Possible(r, keywords) && NeverPoisoned(r) && |KeysOf(Called(r))| < 512
    ensures StillCached(StateOf(r, keywords), Called(r))
  {
    if r.Then? {
      assert KeysOf(Called(r.before)) <= KeysOf(Called(r)) by {
        assert Called(r.before) <= Called(r);
      }
      SubsetIsSmaller(KeysOf(Called(r.before)), KeysOf(Called(r)));
      EveryRunKeepsCached(r.before, keywords);
      StepKeepsCached(StateOf(r.before, keywords), Called(r.before), r.step, keywords);
    }
  }

  /** While there are fewer than 512 keys, all calls for a shape get one and the same class,
      however many threads make it at a time. */
  lemma OneClassForAShape(r: Run, keywords: set<string>, i: nat, j: nat)
    requires Possible(r, keywords) && NeverPoisoned(r) && |KeysOf(Called(r))| < 512
    requires i < |StateOf(r, keywords).returned| && j < |StateOf(r, keywords).returned|
    requires StateOf(r, keywords).returned[i].0 == StateOf(r, keywords).returned[j].0
    ensures StateOf(r, keywords).returned[i].1 == StateOf(r, keywords).returned[j].1
  {
    EveryRunKeepsCached(r, keywords);
    var returned := StateOf(r, keywords).returned;
    assert IsCached(StateOf(r, keywords).classes, returned[i].0, returned[i].1);
    assert IsCached(StateOf(r, keywords).classes, returned[j].0, returned[j].1);
  }

  // ------------------------------------------------------------------------- another shape's class

  lemma {:induction false} NamesAreCounted(key: string)
    ensures |Names(key)| == multiset(key)[NUL]
    decreases |key|
  {
    if NUL in key {
      var (name, rest) := FirstName(key);
      NamesAreCounted(rest);
      assert multiset(name)[NUL] == 0;
    }
  }

  /** A key has a NUL for every name, and then those in the names. */
  lemma {:induction false} NulsOfKey(columns: seq<string>)
    ensures multiset(Key(columns))[NUL] >= |columns|
    ensures !FreeOfNul(columns) ==> multiset(Key(columns))[NUL] > |columns|
  {
    if columns != [] {
      NulsOfKey(columns[1..]);
      assert multiset(Key(columns)) == multiset(columns[0]) + multiset([NUL]) + multiset(Key(columns[1..]));
      if !FreeOfNul(columns) && NUL !in columns[0] {
        var i :| 0 <= i < |columns| && NUL in columns[i];
        assert NUL in columns[1..][i - 1];
      }
    }
  }

  lemma GoesOn(r: Run, step: Step, keywords: set<string>, expected: System)
    requires Possible(r, keywords) && CanStep(StateOf(r, keywords), step, keywords)
    requires Next(StateOf(r, keywords), step) == expected
    ensures Possible(Then(r, step), keywords) && StateOf(Then(r, step), keywords) == expected
    ensures Called(Then(r, step)) == Called(r) + CalledBy(step)
  {
  }

  /** A class is made and stored for `columns`. */
  lemma ClassIsStored(columns: seq<string>, made: Class, keywords: set<string>) returns (r: Run)
    requires Fits(columns, made, keywords)
    ensures Possible(r, keywords) && Called(r) == {columns}
    ensures StateOf(r, keywords) == System(map[Key(columns) := made], [Over], [(columns, made)])
  {
    var empty: Classes := map[];
    GoesOn(Begun, Call(columns), keywords, System(empty, [Looking(columns)], []));
    r := Then(Begun, Call(columns));
    GoesOn(r, Look(0), keywords, System(empty, [Making(columns)], []));
    r := Then(r, Look(0));
    GoesOn(r, Make(0, made), keywords, System(empty, [Storing(columns, made)], []));
    r := Then(r, Make(0, made));
    GoesOn(r, DoStore(0, false), keywords, System(map[Key(columns) := made], [Over], [(columns, made)]));
    r := Then(r, DoStore(0, false));
  }

  /** A call for `columns` finds the class stored for `other` under the same key. */
  lemma CallFindsIt(r0: Run, columns: seq<string>, other: seq<string>, made: Class, keywords: set<string>)
            returns (r: Run)
    requires Possible(r0, keywords) && Called(r0) == {other}
    requires StateOf(r0, keywords) == System(map[Key(columns) := made], [Over], [(other, made)])
    ensures Possible(r, keywords) && Called(r) == {other, columns}
    ensures StateOf(r, keywords).returned == [(other, made), (columns, made)]
  {
    var classes := map[Key(columns) := made];
    GoesOn(r0, Call(columns), keywords, System(classes, [Over, Looking(columns)], [(other, made)]));
    r := Then(r0, Call(columns));
    GoesOn(r, Look(1), keywords, System(classes, [Over, Over], [(other, made), (columns, made)]));
    r := Then(r, Look(1));
  }

  /** Some call for `columns` got a class with fields that are not theirs. */
  ghost predicate GetsAnothersClass(r: Run, columns: seq<string>, keywords: set<string>)
    requires Possible(r, keywords)
  {
    exists i :: 0 <= i < |StateOf(r, keywords).returned| && StateOf(r, keywords).returned[i].0 == columns
                && !Fits(columns, StateOf(r, keywords).returned[i].1, keywords)
  }

  /** Two calls are enough: the first for another number of columns with the same key. */
  lemma SharedKeyGivesAnothersClass(columns: seq<string>, other: seq<string>, keywords: set<string>) returns (r: Run)
    requires Key(other) == Key(columns) && |other| != |columns|
    ensures Possible(r, keywords) && Called(r) == {other, columns} && GetsAnothersClass(r, columns, keywords)
  {
    var fields := FieldNamesExist(other, keywords, |other|);
    var made := Class(0, fields);
    r := ClassIsStored(other, made, keywords);
    r := CallFindsIt(r, columns, other, made, keywords);
    assert StateOf(r, keywords).returned[1] == (columns, made);
  }

  /** The shape without a NUL that shares the key of `columns` has more names. */
  lemma ShapeWithoutNul(columns: seq<string>) returns (other: seq<string>)
    requires !FreeOfNul(columns)
    ensures FreeOfNul(other) && Key(other) == Key(columns) && |other| > |columns|
  {
    other := Names(Key(columns));
    KeyEndsInNul(columns);
    KeyOfNames(Key(columns));
    NamesAreCounted(Key(columns));
    NulsOfKey(columns);
  }

  /** A shape with the key of `columns` in which the first two names are one. */
  lemma ShapeWithNul(columns: seq<string>) returns (other: seq<string>)
    requires |columns| >= 2
    ensures Key(other) == Key(columns) && |other| < |columns|
  {
    other := [columns[0] + [NUL] + columns[1]] + columns[2..];
    assert other[1..] == columns[2..] == columns[1..][1..];
    assert Key(columns) == columns[0] + [NUL] + (columns[1] + [NUL] + Key(columns[2..]));
  }

  /** A caller whose columns have a NUL in them is handed the class of the shape it shares its
      key with: that has more fields than the caller has columns. */
  lemma NulGetsAnothersClass(columns: seq<string>, keywords: set<string>) returns (r: Run)
    requires !FreeOfNul(columns)
    ensures Possible(r, keywords) && OrdinaryBut(r, columns) && GetsAnothersClass(r, columns, keywords)
  {
    var other := ShapeWithoutNul(columns);
    r := SharedKeyGivesAnothersClass(columns, other, keywords);
  }

  /** And a caller with two columns or more, whatever they are, is handed the class of a shape
      with fewer fields, if somebody else's columns have a NUL in them. */
  lemma OrdinaryCallerGetsAnothersClass(columns: seq<string>, keywords: set<string>) returns (r: Run)
    requires |columns| >= 2
    ensures Possible(r, keywords) && GetsAnothersClass(r, columns, keywords)
  {
    var other := ShapeWithNul(columns);
    r := SharedKeyGivesAnothersClass(columns, other, keywords);
  }

  /** One column without a NUL, or none, has a key of its own. */
  lemma NoOtherHasTheKey(columns: seq<string>, shape: seq<string>)
    requires FreeOfNul(columns) && |columns| <= 1 && Key(shape) == Key(columns)
    ensures shape == columns
  {
    NamesOfKey(columns);
    NamesAreCounted(Key(columns));
    NulsOfKey(shape);
    if FreeOfNul(shape) {
      KeyIsInjective(shape, columns);
    }
  }

  lemma TheirOwnUnlessShared(r: Run, columns: seq<string>, keywords: set<string>)
    requires Possible(r, keywords) && KeepsApart(r, columns)
    ensures !GetsAnothersClass(r, columns, keywords)
  {
    EveryRunKeepsInv(r, keywords);
    var returned := StateOf(r, keywords).returned;
    forall i | 0 <= i < |returned| && returned[i].0 == columns ensures Fits(columns, returned[i].1, keywords) {
      assert MadeFor(Called(r), Key(columns), returned[i].1, keywords);
    }
  }

  /** Whatever others call for, a caller can get another shape's class if, and only if, one of
      its columns has a NUL in it or there are two of them or more. */
  lemma AnothersClassExactlyWhen(columns: seq<string>, keywords: set<string>)
    ensures (exists r :: Possible(r, keywords) && GetsAnothersClass(r, columns, keywords))
            <==> !FreeOfNul(columns) || |columns| >= 2
  {
    if !FreeOfNul(columns) {
      var r := NulGetsAnothersClass(columns, keywords);
    } else if |columns| >= 2 {
      var r := OrdinaryCallerGetsAnothersClass(columns, keywords);
    } else {
      forall r | Possible(r, keywords) ensures !GetsAnothersClass(r, columns, keywords) {
        forall shape | shape in Called(r) && Key(shape) == Key(columns) ensures shape == columns {
          NoOtherHasTheKey(columns, shape);
        }
        TheirOwnUnlessShared(r, columns, keywords);
      }
    }
  }

  /** Every other call is for names without a NUL. */
  ghost predicate OrdinaryBut(r: Run, columns: seq<string>) {
    forall shape :: shape in Called(r) ==> FreeOfNul(shape) || shape == columns
  }

  /** Among calls for ordinary columns, a call can get another shape's class if, and only if,
      its own columns have a NUL in them. */
  lemma AnothersClassExactlyOnNul(columns: seq<string>, keywords: set<string>)
    ensures (exists r :: Possible(r, keywords) && OrdinaryBut(r, columns) && GetsAnothersClass(r, columns, keywords))
            <==> !FreeOfNul(columns)
  {
    if FreeOfNul(columns) {
      forall r | Possible(r, keywords) && OrdinaryBut(r, columns) ensures !GetsAnothersClass(r, columns, keywords) {
        forall shape | shape in Called(r) && Key(shape) == Key(columns) ensures shape == columns {
          KeyIsInjective(shape, columns);
        }
        TheirOwnUnlessShared(r, columns, keywords);
      }
    } else {
      var r := NulGetsAnothersClass(columns, keywords);
    }
  }

  // ------------------------------------------------------------------------ as the program keeps it

  class ClassCache {
    var classes: Classes

    constructor ()
      ensures classes == map[]
    {
      classes := map[];
    }

    /** The read section. */
    method Get(columns: seq<string>) returns (found: Option<Class>)
      ensures found == if Key(columns) in classes then Some(classes[Key(columns)]) else None
    {
      var key := ComputeKey(columns);
      found := if key in classes then Some(classes[key]) else None;
    }

    /** What is done between the sections. */
    method Make(columns: seq<string>, keywords: set<string>, id: nat) returns (made: Class)
      ensures made.id == id && AreFieldNames(made.fields, columns, keywords)
    {
      var names, _ := ComputeFieldNames(columns, keywords);
      made := Class(id, names);
    }

    /** The write section. */
    method Put(columns: seq<string>, made: Class) returns (kept: Class)
      modifies this
      ensures (classes, kept) == old(Store(classes, Key(columns), made))
    {
      var key := ComputeKey(columns);
      if |classes| >= LIMIT {
        classes := map[];
      }
      if key !in classes {
        classes := classes[key := made];
      }
      kept := classes[key];
    }
  }
}
