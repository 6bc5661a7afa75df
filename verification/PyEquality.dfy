/** When two Python values are the same value: lists and tuples element by element, sets by
    their members and dicts by what they hold for each key, in whatever order. Values of
    different types are different, even where Python compares them equal, as it does True and 1. */
module PyEquality {
  import opened Codec

  ghost predicate Same(a: Py, b: Py) {
    match (a, b)
    case (PyList(xs), PyList(ys)) => SameItems(xs, ys)
    case (PyTuple(xs), PyTuple(ys)) => SameItems(xs, ys)
    case (PySet(xs), PySet(ys)) => forall x :: x in xs <==> x in ys
    case (PyDict(xs), PyDict(ys)) =>
      && (forall i :: 0 <= i < |xs| ==> Holds(xs[i], ys))
      && (forall j :: 0 <= j < |ys| ==> IsHeld(xs, ys[j]))
    case _ => a == b
  }

  ghost predicate SameItems(xs: seq<Py>, ys: seq<Py>)
    decreases xs
  {
    |xs| == |ys| && forall i :: 0 <= i < |xs| ==> Same(xs[i], ys[i])
  }

  ghost predicate SameEntry(d: Entry, e: Entry) {
    d.key == e.key && Same(d.value, e.value)
  }

  /** `ys` has the entry `e`. */
  ghost predicate Holds(e: Entry, ys: seq<Entry>) {
    exists j :: 0 <= j < |ys| && SameEntry(e, ys[j])
  }

  ghost predicate IsHeld(xs: seq<Entry>, e: Entry)
    decreases xs
  {
    exists i :: 0 <= i < |xs| && SameEntry(xs[i], e)
  }

  lemma {:induction false} SameIsReflexive(a: Py)
    ensures Same(a, a)
  {
    match a
    case PyList(xs) => forall i | 0 <= i < |xs| ensures Same(xs[i], xs[i]) { SameIsReflexive(xs[i]); }
    case PyTuple(xs) => forall i | 0 <= i < |xs| ensures Same(xs[i], xs[i]) { SameIsReflexive(xs[i]); }
    case PyDict(xs) =>
      forall i | 0 <= i < |xs| ensures Holds(xs[i], xs) && IsHeld(xs, xs[i]) {
        SameIsReflexive(xs[i].value);
        assert SameEntry(xs[i], xs[i]);
      }
    case _ =>
  }

  lemma {:induction false} SameIsSymmetric(a: Py, b: Py)
    requires Same(a, b)
    ensures Same(b, a)
  {
    match (a, b)
    case (PyList(xs), PyList(ys)) => SameItemsAreSymmetric(xs, ys);
    case (PyTuple(xs), PyTuple(ys)) => SameItemsAreSymmetric(xs, ys);
    case (PyDict(xs), PyDict(ys)) => SameDictsAreSymmetric(xs, ys);
    case _ =>
  }

  lemma {:induction false} SameItemsAreSymmetric(xs: seq<Py>, ys: seq<Py>)
    requires SameItems(xs, ys)
    ensures SameItems(ys, xs)
    decreases xs
  {
    forall i | 0 <= i < |xs| ensures Same(ys[i], xs[i]) {
      SameIsSymmetric(xs[i], ys[i]);
    }
  }

  lemma {:induction false} SameEntriesAreSymmetric(d: Entry, e: Entry)
    requires SameEntry(d, e)
    ensures SameEntry(e, d)
  {
    SameIsSymmetric(d.value, e.value);
  }

  lemma {:induction false} SameDictsAreSymmetric(xs: seq<Entry>, ys: seq<Entry>)
    requires Same(PyDict(xs), PyDict(ys))
    ensures Same(PyDict(ys), PyDict(xs))
    decreases xs
  {
    forall i | 0 <= i < |xs| ensures IsHeld(ys, xs[i]) {
      assert Holds(xs[i], ys);
      var j :| 0 <= j < |ys| && SameEntry(xs[i], ys[j]);
      SameEntriesAreSymmetric(xs[i], ys[j]);
    }
    forall j | 0 <= j < |ys| ensures Holds(ys[j], xs) {
      assert IsHeld(xs, ys[j]);
      var i :| 0 <= i < |xs| && SameEntry(xs[i], ys[j]);
      SameEntriesAreSymmetric(xs[i], ys[j]);
    }
  }

  lemma {:induction false} SameIsTransitive(a: Py, b: Py, c: Py)
    requires Same(a, b) && Same(b, c)
    ensures Same(a, c)
  {
    match (a, b, c)
    case (PyList(xs), PyList(ys), PyList(zs)) =>
      forall i | 0 <= i < |xs| ensures Same(xs[i], zs[i]) { SameIsTransitive(xs[i], ys[i], zs[i]); }
    case (PyTuple(xs), PyTuple(ys), PyTuple(zs)) =>
      forall i | 0 <= i < |xs| ensures Same(xs[i], zs[i]) { SameIsTransitive(xs[i], ys[i], zs[i]); }
    case (PyDict(xs), PyDict(ys), PyDict(zs)) => SameDictsAreTransitive(xs, ys, zs);
    case _ =>
  }

  lemma {:induction false} SameEntriesAreTransitive(d: Entry, e: Entry, f: Entry)
    requires SameEntry(d, e) && SameEntry(e, f)
    ensures SameEntry(d, f)
  {
    SameIsTransitive(d.value, e.value, f.value);
  }

  lemma {:induction false} SameDictsAreTransitive(xs: seq<Entry>, ys: seq<Entry>, zs: seq<Entry>)
    requires Same(PyDict(xs), PyDict(ys)) && Same(PyDict(ys), PyDict(zs))
    ensures Same(PyDict(xs), PyDict(zs))
    decreases xs
  {
    forall i | 0 <= i < |xs| ensures Holds(xs[i], zs) {
      assert Holds(xs[i], ys);
      var j :| 0 <= j < |ys| && SameEntry(xs[i], ys[j]);
      assert Holds(ys[j], zs);
      var k :| 0 <= k < |zs| && SameEntry(ys[j], zs[k]);
      SameEntriesAreTransitive(xs[i], ys[j], zs[k]);
    }
    forall k | 0 <= k < |zs| ensures IsHeld(xs, zs[k]) {
      assert IsHeld(ys, zs[k]);
      var j :| 0 <= j < |ys| && SameEntry(ys[j], zs[k]);
      assert IsHeld(xs, ys[j]);
      var i :| 0 <= i < |xs| && SameEntry(xs[i], ys[j]);
      SameEntriesAreTransitive(xs[i], ys[j], zs[k]);
    }
  }

  /** What can be a member or a key has no order to it. */
  lemma {:induction false} SameHashablesAreEqual(a: Py, b: Py)
    requires Same(a, b) && (Hashable(a) || Hashable(b))
    ensures a == b
  {
    if a.PyTuple? && b.PyTuple? {
      forall i | 0 <= i < |a.items| ensures a.items[i] == b.items[i] {
        SameHashablesAreEqual(a.items[i], b.items[i]);
      }
    }
  }
}
