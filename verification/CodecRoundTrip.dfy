/** What becomes of a Python value that is written and read again, told without any bytes. */
module CodecRoundTrip {
  import opened Common
  import opened BigEndian
  import opened Codec

  /** What is read for null. */
  function OfNull(t: Type): Py {
    match t
    case ListOf(_) => PyList([])
    case SetOf(_) => PySet([])
    case MapOf(_, _) => PyDict([])
    case _ => PyNone
  }

  /** What is read where `v` was written; nothing if that cannot be read. */
  function ReadBack(t: Type, v: Py): Option<Py>
    decreases t, 1
  {
    match (t, v)
    case (_, PyNone) => Some(OfNull(t))
    case (IntOf(_), PyBool(b)) => Some(PyInt(if b then 1 else 0))
    case (ListOf(e), PyList(items)) => AsList(ReadBackAll(e, items))
    case (SetOf(e), PySet(items)) => AsSet(ReadBackAll(e, items))
    case (MapOf(_, _), PyDict(entries)) => AsDict(ReadBackEntries(t, entries))
    // Without a cell there are no bytes, and no bytes is the empty value.
    case (TupleOf(ts), PyTuple(items)) =>
      if items == [] then Some(PyEmpty)
      else if |items| != |ts| then None
      else AsTuple(ReadBackTuple(ts, items))
    case (UdtOf(fs), PyDict(entries)) => if fs == [] then Some(PyEmpty) else AsDict(ReadBackFields(fs, entries))
    case _ => Some(v)
  }

  function ReadBackAll(t: Type, vs: seq<Py>): Option<seq<Py>>
    decreases t, 3, |vs|
  {
    if vs == [] then Some([])
    else
      match (ReadBack(t, vs[0]), ReadBackAll(t, vs[1..]))
      case (Some(r), Some(rs)) => Some([r] + rs)
      case _ => None
  }

  function ReadBackEntries(t: Type, entries: seq<Entry>): Option<seq<Entry>>
    requires t.MapOf?
    decreases t, 0, |entries|
  {
    if entries == [] then Some([])
    else
      match (ReadBack(t.key, entries[0].key), ReadBack(t.value, entries[0].value), ReadBackEntries(t, entries[1..]))
      case (Some(k), Some(v), Some(es)) => Some([Entry(k, v)] + es)
      case _ => None
  }

  function ReadBackTuple(ts: seq<Type>, vs: seq<Py>): Option<seq<Py>>
    requires |ts| == |vs|
    decreases ts
  {
    if vs == [] then Some([])
    else
      match (ReadBack(ts[0], vs[0]), ReadBackTuple(ts[1..], vs[1..]))
      case (Some(r), Some(rs)) => Some([r] + rs)
      case _ => None
  }

  /** Only the fields of the type, and in its order. */
  function ReadBackFields(fs: seq<Field>, entries: seq<Entry>): Option<seq<Entry>>
    decreases fs
  {
    if fs == [] then Some([])
    else
      var name := PyStr(fs[0].name);
      match Lookup(entries, name)
      case None => None
      case Some(v) =>
        match (ReadBack(fs[0].typ, v), ReadBackFields(fs[1..], entries))
        case (Some(r), Some(es)) => Some([Entry(name, r)] + es)
        case _ => None
  }

  // --------------------------------------------------------------------------------- the framing

  lemma Int32RoundTrip(n: int, rest: Bytes)
    requires -1 <= n <= MAX
    ensures (Int32(n) + rest)[..4] == Int32(n) && (Int32(n) + rest)[4..] == rest
    ensures DecodeInt((Int32(n) + rest)[..4]) == n
  {
    assert Span(1) == 256 && Span(2) == 0x1_0000 && Span(3) == 0x100_0000 && Span(4) == 0x1_0000_0000;
    assert (Int32(n) + rest)[..4] == Int32(n);
    IntRoundTrip(n, 4);
  }

  lemma NullIsTaken(rest: Bytes)
    ensures TakeCell(Int32(-1) + rest) == Some((None, rest))
  {
    Int32RoundTrip(-1, rest);
  }

  lemma FrameIsTaken(bytes: Bytes, rest: Bytes)
    requires |bytes| <= MAX
    ensures TakeCell(Int32(|bytes|) + bytes + rest) == Some((Some(bytes), rest))
  {
    var frame := Int32(|bytes|) + bytes + rest;
    assert frame == Int32(|bytes|) + (bytes + rest);
    Int32RoundTrip(|bytes|, bytes + rest);
    assert frame[4..4 + |bytes|] == bytes && frame[4 + |bytes|..] == rest;
  }

  // ---------------------------------------------------------------------------------- the values

  /** The cell of `v` with more behind it reads as `v` does. */
  ghost predicate ReadsBack(t: Type, v: Py, cell: Bytes, rest: Bytes) {
    ParseCell(t, cell + rest) == (match ReadBack(t, v) case None => None case Some(r) => Some((r, rest)))
  }

  lemma FramedReadsBack(t: Type, v: Py, rest: Bytes)
    requires Framed(Contents(t, v)).Ok?
    ensures ReadsBack(t, v, Framed(Contents(t, v)).value, rest)
    ensures |Framed(Contents(t, v)).value| >= 4
    decreases t, 2
  {
    var bytes := Contents(t, v).value;
    ContentsReadBack(t, v);
    FrameIsTaken(bytes, rest);
  }

  lemma CellReadsBack(t: Type, v: Py, rest: Bytes)
    requires Cell(t, v).Ok?
    ensures ReadsBack(t, v, Cell(t, v).value, rest)
    decreases t, 3
  {
    if v.PyNone? {
      NullIsTaken(rest);
    } else {
      FramedReadsBack(t, v, rest);
    }
  }

  lemma {:induction false} CellsReadBack(t: Type, vs: seq<Py>)
    requires Cells(t, vs).Ok?
    ensures ParseCells(t, |vs|, Cells(t, vs).value) == ReadBackAll(t, vs)
    decreases t, 4, |vs|
  {
    if vs != [] {
      var cell, rest := Cell(t, vs[0]).value, Cells(t, vs[1..]).value;
      assert Cells(t, vs).value == cell + rest;
      CellReadsBack(t, vs[0], rest);
      CellsReadBack(t, vs[1..]);
    }
  }

  /** The first entry and what comes after it. */
  lemma EntryReadsBack(t: Type, e: Entry, rest: Bytes)
    requires t.MapOf? && Cell(t.key, e.key).Ok? && Cell(t.value, e.value).Ok?
    ensures var value := Cell(t.value, e.value).value;
            && ReadsBack(t.key, e.key, Cell(t.key, e.key).value, value + rest)
            && ReadsBack(t.value, e.value, value, rest)
    decreases t, 0, 0
  {
    CellReadsBack(t.key, e.key, Cell(t.value, e.value).value + rest);
    CellReadsBack(t.value, e.value, rest);
  }

  lemma FirstEntryComesFirst(t: Type, entries: seq<Entry>)
    requires t.MapOf? && entries != [] && EntryCells(t, entries).Ok?
    ensures var key, value := Cell(t.key, entries[0].key), Cell(t.value, entries[0].value);
            var rest := EntryCells(t, entries[1..]);
            && key.Ok? && value.Ok? && rest.Ok?
            && EntryCells(t, entries).value == key.value + (value.value + rest.value)
  {
    var key, value := Cell(t.key, entries[0].key).value, Cell(t.value, entries[0].value).value;
    ConcatAssociates(key, value, EntryCells(t, entries[1..]).value);
  }

  lemma {:induction false} EntriesReadBack(t: Type, entries: seq<Entry>)
    requires t.MapOf? && EntryCells(t, entries).Ok?
    ensures ParseEntries(t, |entries|, EntryCells(t, entries).value) == ReadBackEntries(t, entries)
    decreases t, 0, |entries|
  {
    if entries != [] {
      FirstEntryComesFirst(t, entries);
      EntryReadsBack(t, entries[0], EntryCells(t, entries[1..]).value);
      EntriesReadBack(t, entries[1..]);
    }
  }

  /** A tuple shorter than its type cannot be read. */
  lemma {:induction false} TupleReadsBack(ts: seq<Type>, vs: seq<Py>)
    requires |vs| <= |ts| && TupleCells(ts, vs).Ok?
    ensures ParseTuple(ts, TupleCells(ts, vs).value) == if |vs| < |ts| then None else ReadBackTuple(ts, vs)
    decreases ts
  {
    if vs != [] {
      FramedReadsBack(ts[0], vs[0], TupleCells(ts[1..], vs[1..]).value);
      TupleReadsBack(ts[1..], vs[1..]);
    }
  }

  lemma {:induction false} FieldsReadBack(fs: seq<Field>, entries: seq<Entry>)
    requires FieldCells(fs, entries).Ok?
    ensures ParseFields(fs, FieldCells(fs, entries).value) == ReadBackFields(fs, entries)
    decreases fs
  {
    if fs != [] {
      var v := Lookup(entries, PyStr(fs[0].name)).value;
      FramedReadsBack(fs[0].typ, v, FieldCells(fs[1..], entries).value);
      FieldsReadBack(fs[1..], entries);
    }
  }

  lemma CountIsTaken(n: nat, rest: Bytes)
    requires n <= MAX
    ensures TakeCount(Int32(n) + rest) == Some((n, rest))
  {
    Int32RoundTrip(n, rest);
  }

  /** What was written for `v` reads as `v` does. */
  lemma ContentsReadBack(t: Type, v: Py)
    requires Contents(t, v).Ok?
    ensures Parse(t, Some(Contents(t, v).value)) == ReadBack(t, v)
    decreases t, 1
  {
    match (t, v) {
      case (IntOf(kind), PyInt(n)) => IntRoundTrip(n, kind.Width());
      case (IntOf(kind), PyBool(b)) => IntRoundTrip(if b then 1 else 0, kind.Width());
      case (ListOf(e), PyList(items)) => SequenceReadsBack(e, items);
      case (SetOf(e), PySet(items)) => SequenceReadsBack(e, items);
      case (MapOf(_, _), PyDict(entries)) =>
        EntriesReadBack(t, entries);
        CountIsTaken(|entries|, EntryCells(t, entries).value);
      case (TupleOf(ts), PyTuple(items)) =>
        TupleReadsBack(ts, items);
        if items != [] {
          FramedReadsBack(ts[0], items[0], []);
        }
      case (UdtOf(fs), PyDict(entries)) =>
        FieldsReadBack(fs, entries);
        if fs != [] {
          FramedReadsBack(fs[0].typ, Lookup(entries, PyStr(fs[0].name)).value, []);
        }
      case _ =>
    }
  }

  lemma SequenceReadsBack(e: Type, items: seq<Py>)
    requires Counted(|items|, Cells(e, items)).Ok?
    ensures var bytes := Counted(|items|, Cells(e, items)).value;
            && bytes != []
            && TakeCount(bytes) == Some((|items|, Cells(e, items).value))
            && ParseCells(e, |items|, Cells(e, items).value) == ReadBackAll(e, items)
    decreases e, 5
  {
    CellsReadBack(e, items);
    CountIsTaken(|items|, Cells(e, items).value);
  }
}
