/** Exactly which Python values are read as they were written. */
module CodecExact {
  import opened Common
  import opened Codec
  import opened CodecRoundTrip
  import opened PyEquality

  /** What every Python object satisfies: elements of a set and keys of a dict are hashable
      and different. */
  ghost predicate IsPython(v: Py) {
    match v
    case PyList(items) => forall i :: 0 <= i < |items| ==> IsPython(items[i])
    case PyTuple(items) => forall i :: 0 <= i < |items| ==> IsPython(items[i])
    case PySet(items) => AreDistinct(items) && forall i :: 0 <= i < |items| ==> Hashable(items[i]) && IsPython(items[i])
    case PyDict(entries) =>
      && DistinctKeys(entries)
      && forall i :: 0 <= i < |entries| ==>
          Hashable(entries[i].key) && IsPython(entries[i].key) && IsPython(entries[i].value)
    case _ => true
  }

  ghost predicate AreDistinct(items: seq<Py>) {
    forall i, j :: 0 <= i < j < |items| ==> items[i] != items[j]
  }

  ghost predicate DistinctKeys(entries: seq<Entry>) {
    forall i, j :: 0 <= i < j < |entries| ==> entries[i].key != entries[j].key
  }

  /** What every CQL type satisfies: the fields of a UDT have different names. */
  ghost predicate IsCql(t: Type) {
    match t
    case ListOf(e) => IsCql(e)
    case SetOf(e) => IsCql(e)
    case MapOf(k, w) => IsCql(k) && IsCql(w)
    case TupleOf(ts) => forall i :: 0 <= i < |ts| ==> IsCql(ts[i])
    case UdtOf(fs) =>
      && (forall i :: 0 <= i < |fs| ==> IsCql(fs[i].typ))
      && (forall i, j :: 0 <= i < j < |fs| ==> fs[i].name != fs[j].name)
    case _ => true
  }

  /** The key is the name of one of the fields. */
  ghost predicate IsField(key: Py, fs: seq<Field>) {
    exists i :: 0 <= i < |fs| && key == PyStr(fs[i].name)
  }

  /** No None for a collection, no bool for an int, no tuple that is empty or short, no dict
      with anything but the fields of its UDT. */
  ghost predicate Canonical(t: Type, v: Py)
    decreases t
  {
    match (t, v)
    case (_, PyNone) => !t.ListOf? && !t.SetOf? && !t.MapOf?
    case (IntOf(_), PyBool(_)) => false
    case (ListOf(e), PyList(items)) => forall i :: 0 <= i < |items| ==> Canonical(e, items[i])
    case (SetOf(e), PySet(items)) => forall i :: 0 <= i < |items| ==> Canonical(e, items[i])
    case (MapOf(k, w), PyDict(entries)) =>
      forall i :: 0 <= i < |entries| ==> Canonical(k, entries[i].key) && Canonical(w, entries[i].value)
    case (TupleOf(ts), PyTuple(items)) =>
      items != [] && |items| == |ts| && forall i :: 0 <= i < |ts| ==> Canonical(ts[i], items[i])
    case (UdtOf(fs), PyDict(entries)) =>
      && fs != []
      && (forall i :: 0 <= i < |fs| ==>
            var found := Lookup(entries, PyStr(fs[i].name));
            found.Some? && Canonical(fs[i].typ, found.value))
      && (forall j :: 0 <= j < |entries| ==> IsField(entries[j].key, fs))
    case _ => true
  }

  // ----------------------------------------------------------------------------- sets and dicts

  lemma {:induction false} SetOfDistinct(items: seq<Py>)
    requires AreDistinct(items) && forall i :: 0 <= i < |items| ==> Hashable(items[i])
    ensures SetOfItems(items) == Some(items)
  {
    if items != [] {
      var last := |items| - 1;
      SetOfDistinct(items[..last]);
      assert items[last] !in items[..last];
      assert items == items[..last] + [items[last]];
    }
  }

  lemma {:induction false} SetOfMembers(items: seq<Py>)
    requires SetOfItems(items).Some?
    ensures forall x :: x in SetOfItems(items).value ==> x in items
  {
    if items != [] {
      SetOfMembers(items[..|items| - 1]);
    }
  }

  lemma {:induction false} DictOfDistinct(entries: seq<Entry>)
    requires DistinctKeys(entries) && forall i :: 0 <= i < |entries| ==> Hashable(entries[i].key)
    ensures DictOfEntries(entries) == Some(entries)
  {
    if entries != [] {
      var last := |entries| - 1;
      DictOfDistinct(entries[..last]);
      assert IndexOf(entries[..last], entries[last].key) == last;
      assert entries == entries[..last] + [entries[last]];
    }
  }

  ghost predicate HasKey(entries: seq<Entry>, key: Py) {
    exists i :: 0 <= i < |entries| && entries[i].key == key
  }

  ghost predicate HasValue(entries: seq<Entry>, value: Py) {
    exists i :: 0 <= i < |entries| && entries[i].value == value
  }

  lemma {:induction false} DictOfMembers(entries: seq<Entry>)
    requires DictOfEntries(entries).Some?
    ensures var d := DictOfEntries(entries).value;
            forall k :: 0 <= k < |d| ==> HasKey(entries, d[k].key) && HasValue(entries, d[k].value)
  {
    if entries != [] {
      var last, d := |entries| - 1, DictOfEntries(entries).value;
      DictOfMembers(entries[..last]);
      var before := DictOfEntries(entries[..last]).value;
      forall k | 0 <= k < |d| ensures HasKey(entries, d[k].key) && HasValue(entries, d[k].value) {
        if k < |before| {
          var i :| 0 <= i < last && entries[..last][i].key == before[k].key;
          var j :| 0 <= j < last && entries[..last][j].value == before[k].value;
          assert entries[i].key == before[k].key && entries[j].value == before[k].value;
        }
        assert HasKey(entries, entries[last].key) && HasValue(entries, entries[last].value);
      }
    }
  }

  lemma {:induction false} LookupAt(entries: seq<Entry>, i: nat)
    requires DistinctKeys(entries) && i < |entries|
    ensures Lookup(entries, entries[i].key) == Some(entries[i].value)
  {
    if i > 0 {
      LookupAt(entries[1..], i - 1);
    }
  }

  lemma {:induction false} LookupIndex(entries: seq<Entry>, key: Py) returns (i: nat)
    requires Lookup(entries, key).Some?
    ensures i < |entries| && entries[i] == Entry(key, Lookup(entries, key).value)
  {
    i := 0;
    if entries[0].key != key {
      i := LookupIndex(entries[1..], key);
      i := i + 1;
    }
  }

  // ------------------------------------------------------------------------- element by element

  lemma {:induction false} AllPointwise(t: Type, vs: seq<Py>)
    ensures ReadBackAll(t, vs).Some? <==> forall i :: 0 <= i < |vs| ==> ReadBack(t, vs[i]).Some?
    ensures ReadBackAll(t, vs).Some? ==> |ReadBackAll(t, vs).value| == |vs|
    ensures ReadBackAll(t, vs).Some? ==> forall i :: 0 <= i < |vs| ==>
        ReadBack(t, vs[i]) == Some(ReadBackAll(t, vs).value[i])
  {
    if vs != [] {
      AllPointwise(t, vs[1..]);
      assert forall i :: 0 < i < |vs| ==> vs[i] == vs[1..][i - 1];
      assert forall j :: 0 <= j < |vs[1..]| ==> vs[1..][j] == vs[j + 1];
    }
  }

  lemma {:induction false} EntriesPointwise(t: Type, es: seq<Entry>)
    requires t.MapOf?
    ensures ReadBackEntries(t, es).Some? <==> forall i :: 0 <= i < |es| ==>
        ReadBack(t.key, es[i].key).Some? && ReadBack(t.value, es[i].value).Some?
    ensures ReadBackEntries(t, es).Some? ==> |ReadBackEntries(t, es).value| == |es|
    ensures ReadBackEntries(t, es).Some? ==>
              forall i :: 0 <= i < |es| ==>
                var e := ReadBackEntries(t, es).value[i];
                ReadBack(t.key, es[i].key) == Some(e.key) && ReadBack(t.value, es[i].value) == Some(e.value)
  {
    if es != [] {
      EntriesPointwise(t, es[1..]);
      assert forall i :: 0 < i < |es| ==> es[i] == es[1..][i - 1];
      assert forall j :: 0 <= j < |es[1..]| ==> es[1..][j] == es[j + 1];
    }
  }

  lemma {:induction false} TuplePointwise(ts: seq<Type>, vs: seq<Py>)
    requires |ts| == |vs|
    ensures ReadBackTuple(ts, vs).Some? <==> forall i :: 0 <= i < |vs| ==> ReadBack(ts[i], vs[i]).Some?
    ensures ReadBackTuple(ts, vs).Some? ==> |ReadBackTuple(ts, vs).value| == |vs|
    ensures ReadBackTuple(ts, vs).Some? ==> forall i :: 0 <= i < |vs| ==>
        ReadBack(ts[i], vs[i]) == Some(ReadBackTuple(ts, vs).value[i])
    decreases |vs|
  {
    if vs != [] {
      TuplePointwise(ts[1..], vs[1..]);
      assert forall i :: 0 < i < |vs| ==> vs[i] == vs[1..][i - 1] && ts[i] == ts[1..][i - 1];
      assert forall j :: 0 <= j < |vs[1..]| ==> vs[1..][j] == vs[j + 1] && ts[1..][j] == ts[j + 1];
    }
  }

  /** The field is there, and what is there can be read. */
  ghost predicate FieldComesBack(f: Field, entries: seq<Entry>) {
    Lookup(entries, PyStr(f.name)).Some? && ReadBack(f.typ, Lookup(entries, PyStr(f.name)).value).Some?
  }

  lemma {:induction false} FieldsPointwise(fs: seq<Field>, entries: seq<Entry>)
    ensures ReadBackFields(fs, entries).Some? <==> forall i :: 0 <= i < |fs| ==> FieldComesBack(fs[i], entries)
    ensures ReadBackFields(fs, entries).Some? ==> |ReadBackFields(fs, entries).value| == |fs|
    ensures ReadBackFields(fs, entries).Some? ==>
              forall i :: 0 <= i < |fs| ==>
                var e := ReadBackFields(fs, entries).value[i];
                e.key == PyStr(fs[i].name) && ReadBack(fs[i].typ, Lookup(entries, e.key).value) == Some(e.value)
    decreases |fs|
  {
    if fs != [] {
      FieldsPointwise(fs[1..], entries);
      assert forall i :: 0 < i < |fs| ==> fs[i] == fs[1..][i - 1];
      assert forall j :: 0 <= j < |fs[1..]| ==> fs[1..][j] == fs[j + 1];
    }
  }

  // ------------------------------------------------------------------------ what reading gives

  lemma AllReadAreCanonical(t: Type, vs: seq<Py>)
    requires IsCql(t) && ReadBackAll(t, vs).Some?
    ensures forall x :: x in ReadBackAll(t, vs).value ==> Canonical(t, x)
    decreases t, 2
  {
    AllPointwise(t, vs);
    forall i | 0 <= i < |vs| ensures Canonical(t, ReadBackAll(t, vs).value[i]) {
      ReadIsCanonical(t, vs[i]);
    }
  }

  lemma EntriesReadAreCanonical(t: Type, es: seq<Entry>)
    requires IsCql(t) && t.MapOf? && ReadBackEntries(t, es).Some?
    ensures forall i :: 0 <= i < |ReadBackEntries(t, es).value| ==>
              var e := ReadBackEntries(t, es).value[i]; Canonical(t.key, e.key) && Canonical(t.value, e.value)
    decreases t, 0, 0
  {
    EntriesPointwise(t, es);
    forall i | 0 <= i < |es|
      ensures var e := ReadBackEntries(t, es).value[i]; Canonical(t.key, e.key) && Canonical(t.value, e.value)
    {
      ReadIsCanonical(t.key, es[i].key);
      ReadIsCanonical(t.value, es[i].value);
    }
  }

  lemma MapReadIsCanonical(t: Type, es: seq<Entry>)
    requires IsCql(t) && t.MapOf? && AsDict(ReadBackEntries(t, es)).Some?
    ensures Canonical(t, AsDict(ReadBackEntries(t, es)).value)
    decreases t, 0, 1
  {
    EntriesReadAreCanonical(t, es);
    var back := ReadBackEntries(t, es).value;
    DictOfMembers(back);
    var d := DictOfEntries(back).value;
    forall k | 0 <= k < |d| ensures Canonical(t.key, d[k].key) && Canonical(t.value, d[k].value) {
      assert HasKey(back, d[k].key) && HasValue(back, d[k].value);
    }
  }

  /** The entries read for a UDT are a dict as they are. */
  lemma FieldsReadAreDict(fs: seq<Field>, entries: seq<Entry>)
    requires IsCql(UdtOf(fs)) && ReadBackFields(fs, entries).Some?
    ensures DistinctKeys(ReadBackFields(fs, entries).value)
    ensures DictOfEntries(ReadBackFields(fs, entries).value) == ReadBackFields(fs, entries)
  {
    FieldsPointwise(fs, entries);
    DictOfDistinct(ReadBackFields(fs, entries).value);
  }

  lemma UdtReadIsCanonical(fs: seq<Field>, entries: seq<Entry>)
    requires IsCql(UdtOf(fs)) && fs != [] && ReadBackFields(fs, entries).Some?
    ensures Canonical(UdtOf(fs), PyDict(ReadBackFields(fs, entries).value))
    decreases fs, 0
  {
    FieldsPointwise(fs, entries);
    FieldsReadAreDict(fs, entries);
    var back := ReadBackFields(fs, entries).value;
    forall i | 0 <= i < |fs|
      ensures Lookup(back, PyStr(fs[i].name)).Some? && Canonical(fs[i].typ, Lookup(back, PyStr(fs[i].name)).value)
      ensures IsField(back[i].key, fs)
    {
      LookupAt(back, i);
      ReadIsCanonical(fs[i].typ, Lookup(entries, PyStr(fs[i].name)).value);
    }
  }

  lemma TupleReadIsCanonical(ts: seq<Type>, items: seq<Py>)
    requires IsCql(TupleOf(ts)) && |ts| == |items| && ReadBackTuple(ts, items).Some?
    ensures |ReadBackTuple(ts, items).value| == |ts|
    ensures forall i :: 0 <= i < |ts| ==> Canonical(ts[i], ReadBackTuple(ts, items).value[i])
    decreases ts, 0
  {
    TuplePointwise(ts, items);
    forall i | 0 <= i < |ts| ensures Canonical(ts[i], ReadBackTuple(ts, items).value[i]) {
      ReadIsCanonical(ts[i], items[i]);
    }
  }

  /** Whatever was written, what is read for it is canonical. */
  lemma ReadIsCanonical(t: Type, v: Py)
    requires IsCql(t) && ReadBack(t, v).Some?
    ensures Canonical(t, ReadBack(t, v).value)
    decreases t, 1
  {
    match (t, v) {
      case (ListOf(e), PyList(items)) => AllReadAreCanonical(e, items);
      case (SetOf(e), PySet(items)) =>
        AllReadAreCanonical(e, items);
        SetOfMembers(ReadBackAll(e, items).value);
      case (MapOf(_, _), PyDict(entries)) => MapReadIsCanonical(t, entries);
      case (TupleOf(ts), PyTuple(items)) =>
        if |items| == |ts| && items != [] {
          TupleReadIsCanonical(ts, items);
        }
      case (UdtOf(fs), PyDict(entries)) =>
        if fs != [] {
          FieldsReadAreDict(fs, entries);
          UdtReadIsCanonical(fs, entries);
        }
      case _ =>
    }
  }

  // ---------------------------------------------------------------------------------- exactly when

  /** What is read where `v` was written is the same value. */
  ghost predicate ComesBack(t: Type, v: Py) {
    ReadBack(t, v).Some? && Same(ReadBack(t, v).value, v)
  }

  lemma AllExactlyWhen(t: Type, vs: seq<Py>)
    requires IsCql(t) && forall i :: 0 <= i < |vs| ==> IsPython(vs[i])
    ensures ReadBackAll(t, vs).Some? && SameItems(ReadBackAll(t, vs).value, vs) <==>
            forall i :: 0 <= i < |vs| ==> Canonical(t, vs[i])
    decreases t, 2
  {
    AllPointwise(t, vs);
    forall i | 0 <= i < |vs| ensures ComesBack(t, vs[i]) <==> Canonical(t, vs[i]) {
      ReadsBackExactlyWhen(t, vs[i]);
    }
  }

  lemma HashablesComeBackAsTheyAre(items: seq<Py>, back: seq<Py>)
    requires SameItems(back, items) && forall i :: 0 <= i < |items| ==> Hashable(items[i])
    ensures back == items
  {
    forall i | 0 <= i < |items| ensures back[i] == items[i] {
      SameHashablesAreEqual(back[i], items[i]);
    }
  }

  lemma SetExactlyWhen(t: Type, v: Py)
    requires IsCql(t) && t.SetOf? && IsPython(v) && v.PySet?
    ensures ComesBack(t, v) <==> Canonical(t, v)
    decreases t, 0
  {
    var back := ReadBackAll(t.element, v.items);
    if Canonical(t, v) {
      AllExactlyWhen(t.element, v.items);
      HashablesComeBackAsTheyAre(v.items, back.value);
      SetOfDistinct(v.items);
    }
    if ComesBack(t, v) {
      AllReadAreCanonical(t.element, v.items);
      SetOfMembers(back.value);
      forall i | 0 <= i < |v.items| ensures Canonical(t.element, v.items[i]) {
        assert v.items[i] in SetOfItems(back.value).value;
      }
    }
  }

  /** Keys that are canonical come back as they are, and the entries in their places. */
  lemma KeysComeBack(t: Type, entries: seq<Entry>)
    requires IsCql(t) && t.MapOf? && IsPython(PyDict(entries)) && ReadBackEntries(t, entries).Some?
    requires forall i :: 0 <= i < |entries| ==> Canonical(t.key, entries[i].key)
    ensures var back := ReadBackEntries(t, entries).value;
            && |back| == |entries| && (forall i :: 0 <= i < |entries| ==> back[i].key == entries[i].key)
            && DictOfEntries(back) == Some(back)
    decreases t, 0, 0
  {
    EntriesPointwise(t, entries);
    var back := ReadBackEntries(t, entries).value;
    forall i | 0 <= i < |entries| ensures back[i].key == entries[i].key {
      ReadsBackExactlyWhen(t.key, entries[i].key);
      SameHashablesAreEqual(back[i].key, entries[i].key);
    }
    DictOfDistinct(back);
  }

  /** The entries of a canonical map can be read, and their values are the same. */
  lemma CanonicalEntriesComeBack(t: Type, entries: seq<Entry>)
    requires IsCql(t) && t.MapOf? && IsPython(PyDict(entries)) && Canonical(t, PyDict(entries))
    ensures ReadBackEntries(t, entries).Some? && |ReadBackEntries(t, entries).value| == |entries|
    ensures forall i :: 0 <= i < |entries| ==> Same(ReadBackEntries(t, entries).value[i].value, entries[i].value)
    decreases t, 0, 0
  {
    EntriesPointwise(t, entries);
    forall i | 0 <= i < |entries|
      ensures ComesBack(t.key, entries[i].key) && ComesBack(t.value, entries[i].value)
    {
      ReadsBackExactlyWhen(t.key, entries[i].key);
      ReadsBackExactlyWhen(t.value, entries[i].value);
    }
  }

  lemma CanonicalMapComesBack(t: Type, entries: seq<Entry>)
    requires IsCql(t) && t.MapOf? && IsPython(PyDict(entries)) && Canonical(t, PyDict(entries))
    ensures ComesBack(t, PyDict(entries))
    decreases t, 0, 1
  {
    CanonicalEntriesComeBack(t, entries);
    KeysComeBack(t, entries);
    var back := ReadBackEntries(t, entries).value;
    assert ReadBack(t, PyDict(entries)) == Some(PyDict(back));
    AlignedDictsAreSame(back, entries);
  }

  lemma AlignedDictsAreSame(a: seq<Entry>, b: seq<Entry>)
    requires |a| == |b| && forall i :: 0 <= i < |a| ==> a[i].key == b[i].key && Same(a[i].value, b[i].value)
    ensures Same(PyDict(a), PyDict(b))
  {
    forall i | 0 <= i < |a| ensures Holds(a[i], b) && IsHeld(a, b[i]) {
      assert SameEntry(a[i], b[i]);
    }
  }

  lemma MapThatComesBackHasItsKeys(t: Type, entries: seq<Entry>)
    requires IsCql(t) && t.MapOf? && IsPython(PyDict(entries)) && ComesBack(t, PyDict(entries))
    ensures forall i :: 0 <= i < |entries| ==> Canonical(t.key, entries[i].key)
    decreases t, 0, 0
  {
    var back := ReadBackEntries(t, entries).value;
    EntriesReadAreCanonical(t, entries);
    DictOfMembers(back);
    var d := DictOfEntries(back).value;
    forall i | 0 <= i < |entries| ensures Canonical(t.key, entries[i].key) {
      assert IsHeld(d, entries[i]);
      var k :| 0 <= k < |d| && SameEntry(d[k], entries[i]);
      assert HasKey(back, d[k].key);
    }
  }

  lemma MapThatComesBackIsAligned(t: Type, entries: seq<Entry>)
    requires IsCql(t) && t.MapOf? && IsPython(PyDict(entries)) && ComesBack(t, PyDict(entries))
    ensures var back := ReadBackEntries(t, entries).value;
            && |back| == |entries| && (forall i :: 0 <= i < |entries| ==> back[i].key == entries[i].key)
            && Same(PyDict(back), PyDict(entries))
    decreases t, 0, 1
  {
    MapThatComesBackHasItsKeys(t, entries);
    KeysComeBack(t, entries);
    var back := ReadBackEntries(t, entries).value;
    assert ReadBack(t, PyDict(entries)) == Some(PyDict(back));
  }

  lemma MapThatComesBackIsCanonical(t: Type, entries: seq<Entry>)
    requires IsCql(t) && t.MapOf? && IsPython(PyDict(entries)) && ComesBack(t, PyDict(entries))
    ensures Canonical(t, PyDict(entries))
    decreases t, 0, 2
  {
    MapThatComesBackHasItsKeys(t, entries);
    MapThatComesBackIsAligned(t, entries);
    forall i | 0 <= i < |entries| ensures Canonical(t.value, entries[i].value) {
      assert IsHeld(ReadBackEntries(t, entries).value, entries[i]);
      HeldInItsPlace(ReadBackEntries(t, entries).value, entries, i);
      EntriesPointwise(t, entries);
      ReadsBackExactlyWhen(t.value, entries[i].value);
    }
  }

  lemma HeldInItsPlace(a: seq<Entry>, b: seq<Entry>, i: nat)
    requires |a| == |b| && DistinctKeys(b) && i < |b| && forall k :: 0 <= k < |a| ==> a[k].key == b[k].key
    requires IsHeld(a, b[i])
    ensures Same(a[i].value, b[i].value)
  {
    var k :| 0 <= k < |a| && SameEntry(a[k], b[i]);
    assert b[k].key == b[i].key;
  }

  lemma MapExactlyWhen(t: Type, entries: seq<Entry>)
    requires IsCql(t) && t.MapOf? && IsPython(PyDict(entries))
    ensures ComesBack(t, PyDict(entries)) <==> Canonical(t, PyDict(entries))
    decreases t, 0, 3
  {
    if Canonical(t, PyDict(entries)) {
      CanonicalMapComesBack(t, entries);
    } else if ComesBack(t, PyDict(entries)) {
      MapThatComesBackIsCanonical(t, entries);
    }
  }

  lemma TupleExactlyWhen(ts: seq<Type>, items: seq<Py>)
    requires IsCql(TupleOf(ts)) && IsPython(PyTuple(items)) && |ts| == |items|
    ensures ReadBackTuple(ts, items).Some? && SameItems(ReadBackTuple(ts, items).value, items) <==>
            forall i :: 0 <= i < |ts| ==> Canonical(ts[i], items[i])
    decreases ts, 0
  {
    TuplePointwise(ts, items);
    forall i | 0 <= i < |ts| ensures ComesBack(ts[i], items[i]) <==> Canonical(ts[i], items[i]) {
      ReadsBackExactlyWhen(ts[i], items[i]);
    }
  }

  lemma CanonicalFieldsComeBack(fs: seq<Field>, entries: seq<Entry>)
    requires IsCql(UdtOf(fs)) && IsPython(PyDict(entries)) && Canonical(UdtOf(fs), PyDict(entries))
    ensures ReadBackFields(fs, entries).Some? && |ReadBackFields(fs, entries).value| == |fs|
    ensures forall i :: 0 <= i < |fs| ==>
              var e := ReadBackFields(fs, entries).value[i];
              e.key == PyStr(fs[i].name) && Lookup(entries, e.key).Some? && Same(e.value, Lookup(entries, e.key).value)
    decreases fs, 0
  {
    FieldsPointwise(fs, entries);
    forall i | 0 <= i < |fs|
      ensures FieldComesBack(fs[i], entries) && ComesBack(fs[i].typ, Lookup(entries, PyStr(fs[i].name)).value)
    {
      var j := LookupIndex(entries, PyStr(fs[i].name));
      ReadsBackExactlyWhen(fs[i].typ, entries[j].value);
    }
  }

  lemma FieldDictsAreSame(fs: seq<Field>, back: seq<Entry>, entries: seq<Entry>)
    requires |back| == |fs| && DistinctKeys(entries)
    requires forall i :: 0 <= i < |fs| ==>
               var e := back[i];
               e.key == PyStr(fs[i].name) && Lookup(entries, e.key).Some? && Same(e.value, Lookup(entries, e.key).value)
    requires forall j :: 0 <= j < |entries| ==> IsField(entries[j].key, fs)
    ensures Same(PyDict(back), PyDict(entries))
  {
    forall i | 0 <= i < |back| ensures Holds(back[i], entries) {
      var j := LookupIndex(entries, back[i].key);
      assert SameEntry(back[i], entries[j]);
    }
    forall j | 0 <= j < |entries| ensures IsHeld(back, entries[j]) {
      assert IsField(entries[j].key, fs);
      var i :| 0 <= i < |fs| && entries[j].key == PyStr(fs[i].name);
      LookupAt(entries, j);
      assert SameEntry(back[i], entries[j]);
    }
  }

  lemma CanonicalUdtComesBack(fs: seq<Field>, entries: seq<Entry>)
    requires IsCql(UdtOf(fs)) && IsPython(PyDict(entries)) && Canonical(UdtOf(fs), PyDict(entries))
    ensures ComesBack(UdtOf(fs), PyDict(entries))
    decreases fs, 1
  {
    CanonicalFieldsComeBack(fs, entries);
    FieldsReadAreDict(fs, entries);
    var back := ReadBackFields(fs, entries).value;
    assert ReadBack(UdtOf(fs), PyDict(entries)) == Some(PyDict(back));
    FieldDictsAreSame(fs, back, entries);
  }

  lemma UdtThatComesBackIsCanonical(fs: seq<Field>, entries: seq<Entry>)
    requires IsCql(UdtOf(fs)) && IsPython(PyDict(entries)) && ComesBack(UdtOf(fs), PyDict(entries)) && fs != []
    ensures Canonical(UdtOf(fs), PyDict(entries))
    decreases fs, 0
  {
    FieldsPointwise(fs, entries);
    FieldsReadAreDict(fs, entries);
    var back := ReadBackFields(fs, entries).value;
    forall i | 0 <= i < |fs| ensures Canonical(fs[i].typ, Lookup(entries, PyStr(fs[i].name)).value) {
      assert Holds(back[i], entries);
      var j :| 0 <= j < |entries| && SameEntry(back[i], entries[j]);
      LookupAt(entries, j);
      ReadsBackExactlyWhen(fs[i].typ, entries[j].value);
    }
    forall j | 0 <= j < |entries| ensures IsField(entries[j].key, fs) {
      assert IsHeld(back, entries[j]);
      var i :| 0 <= i < |back| && SameEntry(back[i], entries[j]);
    }
  }

  lemma UdtExactlyWhen(fs: seq<Field>, entries: seq<Entry>)
    requires IsCql(UdtOf(fs)) && IsPython(PyDict(entries))
    ensures ComesBack(UdtOf(fs), PyDict(entries)) <==> Canonical(UdtOf(fs), PyDict(entries))
    decreases fs, 2
  {
    if fs != [] {
      if Canonical(UdtOf(fs), PyDict(entries)) {
        CanonicalUdtComesBack(fs, entries);
      } else if ComesBack(UdtOf(fs), PyDict(entries)) {
        UdtThatComesBackIsCanonical(fs, entries);
      }
    }
  }

  lemma ListExactlyWhen(t: Type, v: Py)
    requires IsCql(t) && t.ListOf? && IsPython(v) && v.PyList?
    ensures ComesBack(t, v) <==> Canonical(t, v)
    decreases t, 0
  {
    AllExactlyWhen(t.element, v.items);
  }

  lemma FullTupleExactlyWhen(t: Type, v: Py)
    requires IsCql(t) && t.TupleOf? && IsPython(v) && v.PyTuple?
    ensures ComesBack(t, v) <==> Canonical(t, v)
    decreases t, 0
  {
    if |v.items| == |t.elements| {
      TupleExactlyWhen(t.elements, v.items);
    }
  }

  /** The type is a collection and the value one of its kind. */
  predicate IsComposed(t: Type, v: Py) {
    || (t.ListOf? && v.PyList?) || (t.SetOf? && v.PySet?) || (t.TupleOf? && v.PyTuple?)
    || ((t.MapOf? || t.UdtOf?) && v.PyDict?)
  }

  lemma SimpleExactlyWhen(t: Type, v: Py)
    requires !IsComposed(t, v)
    ensures ComesBack(t, v) <==> Canonical(t, v)
  {
    SameIsReflexive(v);
  }

  /** What is read for a value is the same value exactly when it is canonical. */
  lemma ReadsBackExactlyWhen(t: Type, v: Py)
    requires IsCql(t) && IsPython(v)
    ensures ComesBack(t, v) <==> Canonical(t, v)
    decreases t, 1
  {
    if !IsComposed(t, v) {
      SimpleExactlyWhen(t, v);
    } else {
      match t
      case ListOf(_) => ListExactlyWhen(t, v);
      case SetOf(_) => SetExactlyWhen(t, v);
      case MapOf(_, _) => MapExactlyWhen(t, v.entries);
      case TupleOf(_) => FullTupleExactlyWhen(t, v);
      case UdtOf(fs) => UdtExactlyWhen(fs, v.entries);
    }
  }

  /** What was read is the same value, and what comes after it is untouched. */
  ghost predicate IsRead(read: Option<(Py, Bytes)>, v: Py, rest: Bytes) {
    read.Some? && Same(read.value.0, v) && read.value.1 == rest
  }

  /** The round trip: what the serializer wrote for a value, with anything behind it, reads as
      that value and leaves the rest exactly when the value is canonical for its type. */
  lemma RoundTrip(t: Type, v: Py, rest: Bytes)
    requires IsCql(t) && IsPython(v) && Cell(t, v).Ok?
    ensures IsRead(ParseCell(t, Cell(t, v).value + rest), v, rest) <==> Canonical(t, v)
  {
    CellReadsBack(t, v, rest);
    ReadsBackExactlyWhen(t, v);
  }

  /** None where a list, a set or a map is written reads as an empty one, wherever it is. */
  lemma NoneReadsAsEmpty(t: Type, rest: Bytes)
    requires t.ListOf? || t.SetOf? || t.MapOf?
    ensures Cell(t, PyNone).Ok?
    ensures ParseCell(t, Cell(t, PyNone).value + rest) == Some((OfNull(t), rest)) && OfNull(t) != PyNone
  {
    CellReadsBack(t, PyNone, rest);
  }

  /** Equal bytes were written for the same value, if those are canonical. */
  lemma WritingIsInjective(t: Type, v: Py, w: Py)
    requires IsCql(t) && IsPython(v) && IsPython(w) && Canonical(t, v) && Canonical(t, w)
    requires Cell(t, v).Ok? && Cell(t, w) == Cell(t, v)
    ensures Same(v, w)
  {
    RoundTrip(t, v, []);
    RoundTrip(t, w, []);
    var read := ParseCell(t, Cell(t, v).value + []).value.0;
    SameIsSymmetric(read, v);
    SameIsTransitive(v, read, w);
  }
}
