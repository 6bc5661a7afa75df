/** Which error writing a value gives: that of the first thing that cannot be written. */
module CodecErrors {
  import opened Common
  import opened Codec
  import opened CodecFormat

  /** Writing `v` fails with `error`. */
  ghost predicate FailsWith(t: Type, v: Py, error: Error)
    decreases t, 1
  {
    match (t, v)
    case (IntOf(_), PyInt(_)) => !Writable(t, v) && error == ValueOverflow
    case (IntOf(_), PyBool(_)) => false
    case (Boolean, PyBool(_)) => false
    case (Text, PyStr(utf8)) => |utf8| > 0x7fff_ffff && error == SizeOverflow
    case (Blob, PyBytes(bytes)) => |bytes| > 0x7fff_ffff && error == SizeOverflow
    case (ListOf(e), PyList(items)) => ItemsFail(e, items, error)
    case (SetOf(e), PySet(items)) => ItemsFail(e, items, error)
    case (MapOf(_, _), PyDict(entries)) =>
      if |entries| > 0x7fff_ffff then error == TooManyElements
      else if EntriesWritable(t, entries) then Size(t, v) > 0x7fff_ffff && error == SizeOverflow
      else exists i: nat :: FirstBadEntryAt(t, entries, i) && PairFails(t, entries[i], error)
    case (TupleOf(ts), PyTuple(items)) =>
      if |items| > |ts| then error == WrongElementCount
      else if TupleWritable(ts, items) then Size(t, v) > 0x7fff_ffff && error == SizeOverflow
      else exists i: nat :: FirstBadElementAt(ts, items, i) && FailsWith(ts[i], items[i], error)
    case (UdtOf(fs), PyDict(entries)) =>
      if FieldsWritable(fs, entries) then Size(t, v) > 0x7fff_ffff && error == SizeOverflow
      else exists i: nat :: FirstBadFieldAt(fs, entries, i) && FieldFails(fs[i], entries, error)
    case _ => error == Mismatch
  }

  ghost predicate ItemsFail(t: Type, items: seq<Py>, error: Error)
    decreases t, 2
  {
    if |items| > 0x7fff_ffff then error == TooManyElements
    else if AllWritable(t, items) then 4 + CellsSize(t, items) > 0x7fff_ffff && error == SizeOverflow
    else exists i: nat :: FirstBadAt(t, items, i) && FailsWith(t, items[i], error)
  }

  /** A key comes before its value. */
  ghost predicate PairFails(t: Type, e: Entry, error: Error)
    requires t.MapOf?
    decreases t, 0
  {
    if e.key.PyNone? || Writable(t.key, e.key) then !e.value.PyNone? && FailsWith(t.value, e.value, error)
    else FailsWith(t.key, e.key, error)
  }

  /** A field that is missing, or one of the wrong kind: None is no value. */
  ghost predicate FieldFails(f: Field, entries: seq<Entry>, error: Error)
    decreases f
  {
    var v := Lookup(entries, PyStr(f.name));
    if v.None? then error == MissingField else FailsWith(f.typ, v.value, error)
  }

  ghost predicate ItemWritable(t: Type, v: Py) {
    v.PyNone? || Writable(t, v)
  }

  /** The first item that cannot be written. */
  ghost predicate FirstBadAt(t: Type, items: seq<Py>, i: nat) {
    i < |items| && !ItemWritable(t, items[i]) && forall j :: 0 <= j < i ==> ItemWritable(t, items[j])
  }

  ghost predicate FirstBadEntryAt(t: Type, entries: seq<Entry>, i: nat)
    requires t.MapOf?
  {
    i < |entries| && !EntryWritable(t, entries[i]) && forall j :: 0 <= j < i ==> EntryWritable(t, entries[j])
  }

  ghost predicate FirstBadElementAt(ts: seq<Type>, items: seq<Py>, i: nat)
    requires |items| <= |ts|
  {
    i < |items| && !Writable(ts[i], items[i]) && forall j :: 0 <= j < i ==> Writable(ts[j], items[j])
  }

  ghost predicate FirstBadFieldAt(fs: seq<Field>, entries: seq<Entry>, i: nat) {
    i < |fs| && !FieldWritable(fs[i], entries) && forall j :: 0 <= j < i ==> FieldWritable(fs[j], entries)
  }

  // ---------------------------------------------------------------------------- is the error given

  /** For values of the type, the printer gives the error said above. */
  ghost predicate ErrorsFit(t: Type) {
    forall v, error :: FailsWith(t, v, error) <==> Contents(t, v) == Err(error)
  }

  lemma CellFails(t: Type, v: Py, error: Error)
    requires ErrorsFit(t)
    ensures Framed(Contents(t, v)) == Err(error) <==> FailsWith(t, v, error)
    ensures Framed(Contents(t, v)).Ok? <==> Writable(t, v)
    ensures Cell(t, v).Ok? <==> v.PyNone? || Writable(t, v)
  {
    CellIsWrittenWhen(t, v);
    ContentsAreWrittenWhen(t, v);
  }

  /** All of them, one after another. */
  ghost function InARow(cells: seq<Written>): Written {
    if cells == [] then Ok([]) else Both(cells[0], InARow(cells[1..]))
  }

  ghost predicate FirstErrorAt(cells: seq<Written>, i: nat, error: Error) {
    i < |cells| && cells[i] == Err(error) && forall j :: 0 <= j < i ==> cells[j].Ok?
  }

  lemma {:induction false} FirstErrorCounts(cells: seq<Written>, error: Error)
    ensures InARow(cells) == Err(error) <==> exists i: nat :: FirstErrorAt(cells, i, error)
  {
    if cells != [] {
      var rest := cells[1..];
      FirstErrorCounts(rest, error);
      if i: nat :| FirstErrorAt(cells, i, error) {
        if i > 0 {
          assert FirstErrorAt(rest, i - 1, error);
        }
      }
      if cells[0] == Err(error) {
        assert FirstErrorAt(cells, 0, error);
      } else if i: nat :| FirstErrorAt(rest, i, error) {
        if cells[0].Ok? {
          assert FirstErrorAt(cells, i + 1, error);
        }
      }
    }
  }

  ghost function CellsOf(t: Type, vs: seq<Py>): (cells: seq<Written>)
    ensures |cells| == |vs| && forall i :: 0 <= i < |vs| ==> cells[i] == Cell(t, vs[i])
  {
    seq(|vs|, i requires 0 <= i < |vs| => Cell(t, vs[i]))
  }

  lemma {:induction false} CellsInARow(t: Type, vs: seq<Py>)
    ensures Cells(t, vs) == InARow(CellsOf(t, vs))
  {
    if vs != [] {
      CellsInARow(t, vs[1..]);
      assert CellsOf(t, vs)[1..] == CellsOf(t, vs[1..]);
    }
  }

  ghost predicate ItemFails(t: Type, v: Py, error: Error) {
    !ItemWritable(t, v) && FailsWith(t, v, error)
  }

  lemma ItemFailsWith(t: Type, v: Py, error: Error)
    requires ErrorsFit(t)
    ensures Cell(t, v).Ok? <==> ItemWritable(t, v)
    ensures Cell(t, v) == Err(error) <==> ItemFails(t, v, error)
  {
    CellFails(t, v, error);
  }

  lemma CellsFailAt(t: Type, vs: seq<Py>, i: nat, error: Error)
    requires ErrorsFit(t)
    ensures FirstErrorAt(CellsOf(t, vs), i, error) <==> FirstBadAt(t, vs, i) && FailsWith(t, vs[i], error)
  {
    var cells := CellsOf(t, vs);
    forall j | 0 <= j < |vs|
      ensures cells[j].Ok? <==> ItemWritable(t, vs[j])
      ensures cells[j] == Err(error) <==> ItemFails(t, vs[j], error)
    {
      ItemFailsWith(t, vs[j], error);
    }
  }

  ghost predicate FirstItemFails(t: Type, vs: seq<Py>, error: Error) {
    exists i: nat :: FirstBadAt(t, vs, i) && FailsWith(t, vs[i], error)
  }

  lemma CellsFail(t: Type, vs: seq<Py>, error: Error)
    requires ErrorsFit(t)
    ensures Cells(t, vs) == Err(error) <==> FirstItemFails(t, vs, error)
  {
    CellsInARow(t, vs);
    FirstErrorCounts(CellsOf(t, vs), error);
    forall i: nat
      ensures FirstErrorAt(CellsOf(t, vs), i, error) <==> FirstBadAt(t, vs, i) && FailsWith(t, vs[i], error)
    {
      CellsFailAt(t, vs, i, error);
    }
  }

  lemma PairFailsWith(t: Type, e: Entry, error: Error)
    requires t.MapOf? && ErrorsFit(t.key) && ErrorsFit(t.value)
    ensures Both(Cell(t.key, e.key), Cell(t.value, e.value)) == Err(error) <==> PairFails(t, e, error)
    ensures Both(Cell(t.key, e.key), Cell(t.value, e.value)).Ok? <==> EntryWritable(t, e)
  {
    CellFails(t.key, e.key, error);
    CellFails(t.value, e.value, error);
  }

  ghost function PairsOf(t: Type, entries: seq<Entry>): (cells: seq<Written>)
    requires t.MapOf?
    ensures |cells| == |entries|
    ensures forall i :: 0 <= i < |entries| ==>
              cells[i] == Both(Cell(t.key, entries[i].key), Cell(t.value, entries[i].value))
  {
    seq(|entries|, i requires 0 <= i < |entries| => Both(Cell(t.key, entries[i].key), Cell(t.value, entries[i].value)))
  }

  lemma {:induction false} EntriesInARow(t: Type, entries: seq<Entry>)
    requires t.MapOf?
    ensures EntryCells(t, entries) == InARow(PairsOf(t, entries))
  {
    if entries != [] {
      EntriesInARow(t, entries[1..]);
      assert PairsOf(t, entries)[1..] == PairsOf(t, entries[1..]);
    }
  }

  lemma EntriesFailAt(t: Type, entries: seq<Entry>, i: nat, error: Error)
    requires t.MapOf? && ErrorsFit(t.key) && ErrorsFit(t.value)
    ensures FirstErrorAt(PairsOf(t, entries), i, error) <==>
              FirstBadEntryAt(t, entries, i) && PairFails(t, entries[i], error)
  {
    var cells := PairsOf(t, entries);
    forall j | 0 <= j < |entries|
      ensures cells[j].Ok? <==> EntryWritable(t, entries[j])
      ensures cells[j] == Err(error) <==> PairFails(t, entries[j], error)
    {
      PairFailsWith(t, entries[j], error);
    }
  }

  lemma EntriesFail(t: Type, entries: seq<Entry>, error: Error)
    requires t.MapOf? && ErrorsFit(t.key) && ErrorsFit(t.value)
    ensures EntryCells(t, entries) == Err(error) <==>
              exists i: nat :: FirstBadEntryAt(t, entries, i) && PairFails(t, entries[i], error)
  {
    EntriesInARow(t, entries);
    FirstErrorCounts(PairsOf(t, entries), error);
    if i: nat :| FirstBadEntryAt(t, entries, i) && PairFails(t, entries[i], error) {
      EntriesFailAt(t, entries, i, error);
    }
    if i: nat :| FirstErrorAt(PairsOf(t, entries), i, error) {
      EntriesFailAt(t, entries, i, error);
    }
  }

  ghost function ElementsOf(ts: seq<Type>, vs: seq<Py>): (cells: seq<Written>)
    requires |vs| <= |ts|
    ensures |cells| == |vs| && forall i :: 0 <= i < |vs| ==> cells[i] == Framed(Contents(ts[i], vs[i]))
  {
    seq(|vs|, i requires 0 <= i < |vs| => Framed(Contents(ts[i], vs[i])))
  }

  lemma {:induction false} ElementsInARow(ts: seq<Type>, vs: seq<Py>)
    requires |vs| <= |ts|
    ensures TupleCells(ts, vs) == InARow(ElementsOf(ts, vs))
  {
    if vs != [] {
      ElementsInARow(ts[1..], vs[1..]);
      assert ElementsOf(ts, vs)[1..] == ElementsOf(ts[1..], vs[1..]);
    }
  }

  lemma TupleFailsAt(ts: seq<Type>, vs: seq<Py>, i: nat, error: Error)
    requires |vs| <= |ts| && forall i :: 0 <= i < |ts| ==> ErrorsFit(ts[i])
    ensures FirstErrorAt(ElementsOf(ts, vs), i, error) <==>
              FirstBadElementAt(ts, vs, i) && FailsWith(ts[i], vs[i], error)
  {
    var cells := ElementsOf(ts, vs);
    forall j | 0 <= j < |vs|
      ensures cells[j].Ok? <==> Writable(ts[j], vs[j])
      ensures cells[j] == Err(error) <==> FailsWith(ts[j], vs[j], error)
    {
      CellFails(ts[j], vs[j], error);
    }
  }

  lemma TupleFails(ts: seq<Type>, vs: seq<Py>, error: Error)
    requires |vs| <= |ts| && forall i :: 0 <= i < |ts| ==> ErrorsFit(ts[i])
    ensures TupleCells(ts, vs) == Err(error) <==>
              exists i: nat :: FirstBadElementAt(ts, vs, i) && FailsWith(ts[i], vs[i], error)
  {
    ElementsInARow(ts, vs);
    FirstErrorCounts(ElementsOf(ts, vs), error);
    if i: nat :| FirstBadElementAt(ts, vs, i) && FailsWith(ts[i], vs[i], error) {
      TupleFailsAt(ts, vs, i, error);
    }
    if i: nat :| FirstErrorAt(ElementsOf(ts, vs), i, error) {
      TupleFailsAt(ts, vs, i, error);
    }
  }

  ghost function FieldOf(f: Field, entries: seq<Entry>): Written {
    match Lookup(entries, PyStr(f.name))
    case None => Err(MissingField)
    case Some(v) => Framed(Contents(f.typ, v))
  }

  ghost function FieldsOf(fs: seq<Field>, entries: seq<Entry>): (cells: seq<Written>)
    ensures |cells| == |fs| && forall i :: 0 <= i < |fs| ==> cells[i] == FieldOf(fs[i], entries)
  {
    seq(|fs|, i requires 0 <= i < |fs| => FieldOf(fs[i], entries))
  }

  lemma {:induction false} FieldsInARow(fs: seq<Field>, entries: seq<Entry>)
    ensures FieldCells(fs, entries) == InARow(FieldsOf(fs, entries))
  {
    if fs != [] {
      FieldsInARow(fs[1..], entries);
      assert FieldsOf(fs, entries)[1..] == FieldsOf(fs[1..], entries);
    }
  }

  lemma FieldFailsWith(f: Field, entries: seq<Entry>, error: Error)
    requires ErrorsFit(f.typ)
    ensures FieldOf(f, entries).Ok? <==> FieldWritable(f, entries)
    ensures FieldOf(f, entries) == Err(error) <==> FieldFails(f, entries, error)
  {
    var v := Lookup(entries, PyStr(f.name));
    if v.Some? {
      CellFails(f.typ, v.value, error);
    }
  }

  lemma FieldsFailAt(fs: seq<Field>, entries: seq<Entry>, i: nat, error: Error)
    requires forall i :: 0 <= i < |fs| ==> ErrorsFit(fs[i].typ)
    ensures FirstErrorAt(FieldsOf(fs, entries), i, error) <==>
              FirstBadFieldAt(fs, entries, i) && FieldFails(fs[i], entries, error)
  {
    var cells := FieldsOf(fs, entries);
    forall j | 0 <= j < |fs|
      ensures cells[j].Ok? <==> FieldWritable(fs[j], entries)
      ensures cells[j] == Err(error) <==> FieldFails(fs[j], entries, error)
    {
      FieldFailsWith(fs[j], entries, error);
    }
  }

  lemma FieldsFail(fs: seq<Field>, entries: seq<Entry>, error: Error)
    requires forall i :: 0 <= i < |fs| ==> ErrorsFit(fs[i].typ)
    ensures FieldCells(fs, entries) == Err(error) <==>
              exists i: nat :: FirstBadFieldAt(fs, entries, i) && FieldFails(fs[i], entries, error)
  {
    FieldsInARow(fs, entries);
    FirstErrorCounts(FieldsOf(fs, entries), error);
    if i: nat :| FirstBadFieldAt(fs, entries, i) && FieldFails(fs[i], entries, error) {
      FieldsFailAt(fs, entries, i, error);
    }
    if i: nat :| FirstErrorAt(FieldsOf(fs, entries), i, error) {
      FieldsFailAt(fs, entries, i, error);
    }
  }

  lemma CountedFails(t: Type, items: seq<Py>, error: Error)
    requires Cells(t, items) == Err(error) <==> FirstItemFails(t, items, error)
    ensures ItemsFail(t, items, error) <==> Counted(|items|, Cells(t, items)) == Err(error)
  {
    CellsAreWrittenWhen(t, items);
  }

  lemma ItemsFailWith(t: Type, items: seq<Py>, error: Error)
    requires ErrorsFit(t)
    ensures ItemsFail(t, items, error) <==> Counted(|items|, Cells(t, items)) == Err(error)
  {
    CellsFail(t, items, error);
    CountedFails(t, items, error);
  }

  lemma DictFailsWith(t: Type, entries: seq<Entry>, error: Error)
    requires t.MapOf? && ErrorsFit(t.key) && ErrorsFit(t.value)
    ensures FailsWith(t, PyDict(entries), error) <==> Counted(|entries|, EntryCells(t, entries)) == Err(error)
  {
    EntriesFail(t, entries, error);
    EntriesAreWrittenWhen(t, entries);
  }

  lemma TupleFailsWith(t: Type, items: seq<Py>, error: Error)
    requires t.TupleOf? && |items| <= |t.elements| && forall i :: 0 <= i < |t.elements| ==> ErrorsFit(t.elements[i])
    ensures FailsWith(t, PyTuple(items), error) <==> SizedCells(TupleCells(t.elements, items)) == Err(error)
  {
    TupleFails(t.elements, items, error);
    TupleIsWrittenWhen(t.elements, items);
  }

  lemma UdtFailsWith(t: Type, entries: seq<Entry>, error: Error)
    requires t.UdtOf? && forall i :: 0 <= i < |t.fields| ==> ErrorsFit(t.fields[i].typ)
    ensures FailsWith(t, PyDict(entries), error) <==> SizedCells(FieldCells(t.fields, entries)) == Err(error)
  {
    FieldsFail(t.fields, entries, error);
    FieldsAreWrittenWhen(t.fields, entries);
  }

  lemma OthersFailWith(t: Type, v: Py, error: Error)
    requires !((t.ListOf? && v.PyList?) || (t.SetOf? && v.PySet?) || ((t.MapOf? || t.UdtOf?) && v.PyDict?))
    requires t.TupleOf? && v.PyTuple? ==> |v.items| > |t.elements|
    ensures FailsWith(t, v, error) <==> Contents(t, v) == Err(error)
  {
    ContentsAreWrittenWhen(t, v);
    if t.IntOf? && v.PyBool? {
      ContentsAreWrittenWhen(t, PyInt(if v.b then 1 else 0));
    }
  }

  /** For every type, value and error: writing fails with it if, and only if, it is the error of
      the first thing that cannot be written. */
  lemma {:induction false} ErrorsAreTheFirst(t: Type)
    ensures ErrorsFit(t)
    decreases t
  {
    match t {
      case ListOf(e) => ErrorsAreTheFirst(e);
      case SetOf(e) => ErrorsAreTheFirst(e);
      case MapOf(k, w) => ErrorsAreTheFirst(k); ErrorsAreTheFirst(w);
      case TupleOf(ts) => forall i | 0 <= i < |ts| ensures ErrorsFit(ts[i]) { ErrorsAreTheFirst(ts[i]); }
      case UdtOf(fs) => forall i | 0 <= i < |fs| ensures ErrorsFit(fs[i].typ) { ErrorsAreTheFirst(fs[i].typ); }
      case _ =>
    }
    forall v, error ensures FailsWith(t, v, error) <==> Contents(t, v) == Err(error) {
      if (t.ListOf? && v.PyList?) || (t.SetOf? && v.PySet?) {
        ItemsFailWith(t.element, v.items, error);
      } else if t.MapOf? && v.PyDict? {
        DictFailsWith(t, v.entries, error);
      } else if t.TupleOf? && v.PyTuple? && |v.items| <= |t.elements| {
        TupleFailsWith(t, v.items, error);
      } else if t.UdtOf? && v.PyDict? {
        UdtFailsWith(t, v.entries, error);
      } else {
        OthersFailWith(t, v, error);
      }
    }
  }
}
