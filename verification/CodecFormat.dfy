/** The wire format of a value, said without the printer: which bytes stand for a value of a type,
    after sections 3, 6 and 7 of the CQL binary protocol v4, and exactly which values have any. */
module CodecFormat {
  import opened Common
  import opened BigEndian
  import opened Codec

  // ------------------------------------------------------------------------------------- numbers

  /** Two, four bytes as a number, the first counting most. */
  ghost function Two(a: int, b: int): int { 0x100 * a + b }

  ghost function Four(a: int, b: int, c: int, d: int): int { 0x100_0000 * a + 0x1_0000 * b + 0x100 * c + d }

  /** The bytes are those of `n` in two's complement. */
  ghost predicate IsInt(kind: IntKind, n: int, b: Bytes) {
    match kind
    case TinyInt => |b| == 1 && -0x80 <= n < 0x80 && b[0] == if n < 0 then n + 0x100 else n
    case SmallInt => |b| == 2 && -0x8000 <= n < 0x8000 && Two(b[0], b[1]) == if n < 0 then n + 0x1_0000 else n
    case Int => IsInt32(n, b)
    case BigInt => IsInt64(n, b)
    case Counter => IsInt64(n, b)
  }

  ghost predicate IsInt32(n: int, b: Bytes) {
    && |b| == 4 && -0x8000_0000 <= n < 0x8000_0000
    && Four(b[0], b[1], b[2], b[3]) == if n < 0 then n + 0x1_0000_0000 else n
  }

  ghost predicate IsInt64(n: int, b: Bytes) {
    && |b| == 8 && -0x8000_0000_0000_0000 <= n < 0x8000_0000_0000_0000
    && 0x1_0000_0000 * Four(b[0], b[1], b[2], b[3]) + Four(b[4], b[5], b[6], b[7])
       == if n < 0 then n + 0x1_0000_0000_0000_0000 else n
  }

  lemma Spans()
    ensures Span(1) == 0x100 && Span(2) == 0x1_0000 && Span(4) == 0x1_0000_0000 && Span(8) == 0x1_0000_0000_0000_0000
  {
    assert Span(1) == 0x100 && Span(2) == 0x1_0000 && Span(3) == 0x100_0000;
    assert Span(4) == 0x1_0000_0000 && Span(5) == 0x100_0000_0000 && Span(6) == 0x1_0000_0000_0000;
    assert Span(7) == 0x100_0000_0000_0000;
  }

  lemma DecodeOne(b: Bytes)
    requires |b| == 1
    ensures Decode(b) == b[0]
  {
    assert b[..0] == [];
  }

  lemma DecodeTwo(b: Bytes)
    requires |b| == 2
    ensures Decode(b) == Two(b[0], b[1])
  {
    DecodeOne(b[..1]);
  }

  lemma DecodeFour(b: Bytes)
    requires |b| == 4
    ensures Decode(b) == Four(b[0], b[1], b[2], b[3])
  {
    DecodeTwo(b[..2]);
    assert b[..3][..2] == b[..2];
  }

  lemma DecodeEight(b: Bytes)
    requires |b| == 8
    ensures Decode(b) == 0x1_0000_0000 * Four(b[0], b[1], b[2], b[3]) + Four(b[4], b[5], b[6], b[7])
  {
    DecodeFour(b[..4]);
    assert b[..7][..6] == b[..6] && b[..6][..5] == b[..5] && b[..5][..4] == b[..4];
    assert Decode(b[..5]) == 0x100 * Decode(b[..4]) + b[4];
    assert Decode(b[..6]) == 0x100 * Decode(b[..5]) + b[5];
    assert Decode(b[..7]) == 0x100 * Decode(b[..6]) + b[6];
  }

  /** The integers of a kind, by their bytes. */
  lemma IntDecodes(kind: IntKind, n: int, b: Bytes)
    ensures IsInt(kind, n, b) <==>
              |b| == kind.Width() && Fits(n, kind.Width()) && Decode(b) == if n < 0 then n + Span(kind.Width()) else n
  {
    Spans();
    match |b| {
      case 1 => DecodeOne(b);
      case 2 => DecodeTwo(b);
      case 4 => DecodeFour(b);
      case 8 => DecodeEight(b);
      case _ =>
    }
  }

  lemma BytesFormat(n: int, width: nat, b: Bytes)
    requires width > 0
    ensures |b| == width && Fits(n, width) && Decode(b) == (if n < 0 then n + Span(width) else n)
            <==> IntBytes(n, width) == Ok(b)
  {
    EncodeDecode(b);
    if Fits(n, width) {
      DecodeEncode(if n < 0 then n + Span(width) else n, width);
    }
  }

  /** What is written for an integer are its bytes, and it is written if it has any. */
  lemma IntFormat(kind: IntKind, n: int, b: Bytes)
    ensures IsInt(kind, n, b) <==> IntBytes(n, kind.Width()) == Ok(b)
  {
    IntDecodes(kind, n, b);
    BytesFormat(n, kind.Width(), b);
  }

  lemma Int32Format(n: int, b: Bytes)
    requires -1 <= n <= 0x7fff_ffff
    ensures IsInt32(n, b) <==> b == Int32(n)
  {
    Spans();
    IntFormat(Int, n, b);
  }

  // -------------------------------------------------------------------------------------- values

  ghost function Joined(cells: seq<Bytes>): Bytes {
    if cells == [] then [] else cells[0] + Joined(cells[1..])
  }

  /** A count in four bytes, and then the cells. */
  ghost predicate IsCollection(b: Bytes, count: nat, cells: seq<Bytes>) {
    4 <= |b| <= 0x7fff_ffff && IsInt32(count, b[..4]) && b[4..] == Joined(cells)
  }

  /** The bytes of a value of a type. */
  ghost predicate IsContents(t: Type, v: Py, b: Bytes)
    decreases t, 1
  {
    match (t, v)
    case (IntOf(kind), PyInt(n)) => IsInt(kind, n, b)
    case (IntOf(kind), PyBool(true_)) => IsInt(kind, if true_ then 1 else 0, b)
    case (Boolean, PyBool(true_)) => b == if true_ then [1] else [0]
    case (Text, PyStr(utf8)) => b == utf8 && |b| <= 0x7fff_ffff
    case (Blob, PyBytes(bytes)) => b == bytes && |b| <= 0x7fff_ffff
    case (ListOf(e), PyList(items)) => exists cells :: IsCollection(b, |items|, cells) && AreCells(e, items, cells)
    case (SetOf(e), PySet(items)) => exists cells :: IsCollection(b, |items|, cells) && AreCells(e, items, cells)
    case (MapOf(_, _), PyDict(entries)) =>
      exists keys, values ::
        AreEntryCells(t, entries, keys, values) && IsCollection(b, |entries|, Alternating(keys, values))
    case (TupleOf(ts), PyTuple(items)) =>
      |b| <= 0x7fff_ffff && exists cells :: b == Joined(cells) && AreTupleCells(ts, items, cells)
    case (UdtOf(fs), PyDict(entries)) =>
      |b| <= 0x7fff_ffff && exists cells :: b == Joined(cells) && AreFieldCells(fs, entries, cells)
    case _ => false
  }

  ghost predicate AreCells(t: Type, vs: seq<Py>, cells: seq<Bytes>)
    decreases t, 4
  {
    |cells| == |vs| && forall i :: 0 <= i < |vs| ==> IsCell(t, vs[i], cells[i])
  }

  ghost predicate AreEntryCells(t: Type, entries: seq<Entry>, keys: seq<Bytes>, values: seq<Bytes>)
    requires t.MapOf?
    ensures AreEntryCells(t, entries, keys, values) ==> |keys| == |values|
    decreases t, 0
  {
    && |keys| == |values| == |entries|
    && (forall i :: 0 <= i < |entries| ==> IsCell(t.key, entries[i].key, keys[i]))
    && (forall i :: 0 <= i < |entries| ==> IsCell(t.value, entries[i].value, values[i]))
  }

  /** As many elements as there are, and none of them null. */
  ghost predicate AreTupleCells(ts: seq<Type>, vs: seq<Py>, cells: seq<Bytes>)
    decreases ts
  {
    |cells| == |vs| <= |ts| && forall i :: 0 <= i < |vs| ==> IsValueCell(ts[i], vs[i], cells[i])
  }

  /** The fields in the order of the type, and none of them null. */
  ghost predicate AreFieldCells(fs: seq<Field>, entries: seq<Entry>, cells: seq<Bytes>)
    decreases fs
  {
    |cells| == |fs| && forall i :: 0 <= i < |fs| ==> IsFieldCell(fs[i], entries, cells[i])
  }

  ghost predicate IsFieldCell(f: Field, entries: seq<Entry>, cell: Bytes)
    decreases f
  {
    exists v :: Has(entries, PyStr(f.name), v) && IsValueCell(f.typ, v, cell)
  }

  /** A cell that is not null: its length in four bytes, and then that many. */
  ghost predicate IsValueCell(t: Type, v: Py, cell: Bytes)
    decreases t, 2
  {
    4 <= |cell| && IsInt32(|cell| - 4, cell[..4]) && IsContents(t, v, cell[4..])
  }

  /** A cell: null is the length -1. */
  ghost predicate IsCell(t: Type, v: Py, cell: Bytes)
    decreases t, 3
  {
    if v.PyNone? then IsInt32(-1, cell) else IsValueCell(t, v, cell)
  }

  /** Keys and values by turns. */
  ghost function Alternating(keys: seq<Bytes>, values: seq<Bytes>): seq<Bytes>
    requires |keys| == |values|
  {
    if keys == [] then [] else [keys[0], values[0]] + Alternating(keys[1..], values[1..])
  }

  /** The dict has the value for the key. */
  ghost predicate Has(entries: seq<Entry>, key: Py, v: Py) {
    exists i: nat :: HasAt(entries, i, key, v)
  }

  ghost predicate HasAt(entries: seq<Entry>, i: nat, key: Py, v: Py) {
    i < |entries| && entries[i] == Entry(key, v) && forall j :: 0 <= j < i ==> entries[j].key != key
  }

  // ---------------------------------------------------------------------- are what is written

  lemma {:induction false} LookupHas(entries: seq<Entry>, key: Py, v: Py)
    ensures Has(entries, key, v) <==> Lookup(entries, key) == Some(v)
  {
    if entries != [] {
      var rest := entries[1..];
      LookupHas(rest, key, v);
      if entries[0] == Entry(key, v) {
        assert HasAt(entries, 0, key, v);
      } else if i: nat :| HasAt(rest, i, key, v) {
        if entries[0].key != key {
          assert HasAt(entries, i + 1, key, v);
        }
      }
      if i: nat :| HasAt(entries, i, key, v) {
        if i > 0 {
          assert HasAt(rest, i - 1, key, v);
        }
      }
    }
  }

  lemma CollectionFormat(b: Bytes, count: nat, cells: seq<Bytes>)
    ensures IsCollection(b, count, cells) <==> Counted(count, Ok(Joined(cells))) == Ok(b)
  {
    if |b| >= 4 && count <= MAX {
      Int32Format(count, b[..4]);
      assert b == b[..4] + b[4..];
    }
    if count <= MAX {
      var bytes := Int32(count) + Joined(cells);
      assert bytes[..4] == Int32(count) && bytes[4..] == Joined(cells);
    }
  }

  lemma JoinTwo(a: Bytes, b: Bytes, rest: seq<Bytes>)
    ensures Joined([a, b] + rest) == a + b + Joined(rest)
  {
    assert ([a, b] + rest)[1..] == [b] + rest && ([b] + rest)[1..] == rest;
    ConcatAssociates(a, b, Joined(rest));
  }

  lemma ValueCellFormat(t: Type, v: Py, cell: Bytes)
    ensures IsValueCell(t, v, cell) <==> Framed(Contents(t, v)) == Ok(cell)
    decreases t, 2
  {
    if |cell| >= 4 {
      ContentsFormat(t, v, cell[4..]);
      assert cell == cell[..4] + cell[4..];
      if |cell| - 4 <= MAX {
        Int32Format(|cell| - 4, cell[..4]);
      }
    }
    if Framed(Contents(t, v)) == Ok(cell) {
      assert cell[4..] == Contents(t, v).value && cell[..4] == Int32(|cell| - 4);
    }
  }

  lemma CellFormat(t: Type, v: Py, cell: Bytes)
    ensures IsCell(t, v, cell) <==> Cell(t, v) == Ok(cell)
    decreases t, 3
  {
    if v.PyNone? {
      Int32Format(-1, cell);
    } else {
      ValueCellFormat(t, v, cell);
    }
  }

  /** Cells that are those of the values are what is written for them. */
  lemma {:induction false} CellsAreWritten(t: Type, vs: seq<Py>, cells: seq<Bytes>)
    requires AreCells(t, vs, cells)
    ensures Cells(t, vs) == Ok(Joined(cells))
    decreases t, 4, |vs|
  {
    if vs != [] {
      CellFormat(t, vs[0], cells[0]);
      CellsAreWritten(t, vs[1..], cells[1..]);
    }
  }

  /** And what is written are such cells. */
  lemma {:induction false} WrittenAreCells(t: Type, vs: seq<Py>) returns (cells: seq<Bytes>)
    requires Cells(t, vs).Ok?
    ensures AreCells(t, vs, cells)
    decreases t, 4, |vs|
  {
    cells := [];
    if vs != [] {
      var rest := WrittenAreCells(t, vs[1..]);
      cells := [Cell(t, vs[0]).value] + rest;
      CellFormat(t, vs[0], cells[0]);
    }
  }

  lemma {:induction false} EntriesAreWritten(t: Type, entries: seq<Entry>, keys: seq<Bytes>, values: seq<Bytes>)
    requires t.MapOf? && AreEntryCells(t, entries, keys, values)
    ensures EntryCells(t, entries) == Ok(Joined(Alternating(keys, values)))
    decreases t, 0, |entries|
  {
    if entries != [] {
      CellFormat(t.key, entries[0].key, keys[0]);
      CellFormat(t.value, entries[0].value, values[0]);
      EntriesAreWritten(t, entries[1..], keys[1..], values[1..]);
      JoinTwo(keys[0], values[0], Alternating(keys[1..], values[1..]));
    }
  }

  lemma {:induction false} WrittenAreEntries(t: Type, entries: seq<Entry>)
            returns (keys: seq<Bytes>, values: seq<Bytes>)
    requires t.MapOf? && EntryCells(t, entries).Ok?
    ensures AreEntryCells(t, entries, keys, values)
    decreases t, 0, |entries|
  {
    keys, values := [], [];
    if entries != [] {
      var ks, vs := WrittenAreEntries(t, entries[1..]);
      keys := [Cell(t.key, entries[0].key).value] + ks;
      values := [Cell(t.value, entries[0].value).value] + vs;
      CellFormat(t.key, entries[0].key, keys[0]);
      CellFormat(t.value, entries[0].value, values[0]);
    }
  }

  lemma {:induction false} TupleIsWritten(ts: seq<Type>, vs: seq<Py>, cells: seq<Bytes>)
    requires AreTupleCells(ts, vs, cells)
    ensures TupleCells(ts, vs) == Ok(Joined(cells))
    decreases ts
  {
    if vs != [] {
      ValueCellFormat(ts[0], vs[0], cells[0]);
      TupleIsWritten(ts[1..], vs[1..], cells[1..]);
    }
  }

  lemma {:induction false} WrittenIsTuple(ts: seq<Type>, vs: seq<Py>) returns (cells: seq<Bytes>)
    requires |vs| <= |ts| && TupleCells(ts, vs).Ok?
    ensures AreTupleCells(ts, vs, cells)
    decreases ts
  {
    cells := [];
    if vs != [] {
      var rest := WrittenIsTuple(ts[1..], vs[1..]);
      cells := [Framed(Contents(ts[0], vs[0])).value] + rest;
      ValueCellFormat(ts[0], vs[0], cells[0]);
    }
  }

  lemma {:induction false} FieldsAreWritten(fs: seq<Field>, entries: seq<Entry>, cells: seq<Bytes>)
    requires AreFieldCells(fs, entries, cells)
    ensures FieldCells(fs, entries) == Ok(Joined(cells))
    decreases fs
  {
    if fs != [] {
      assert IsFieldCell(fs[0], entries, cells[0]);
      var v :| Has(entries, PyStr(fs[0].name), v) && IsValueCell(fs[0].typ, v, cells[0]);
      LookupHas(entries, PyStr(fs[0].name), v);
      ValueCellFormat(fs[0].typ, v, cells[0]);
      FieldsAreWritten(fs[1..], entries, cells[1..]);
    }
  }

  lemma {:induction false} WrittenAreFields(fs: seq<Field>, entries: seq<Entry>) returns (cells: seq<Bytes>)
    requires FieldCells(fs, entries).Ok?
    ensures AreFieldCells(fs, entries, cells)
    decreases fs
  {
    cells := [];
    if fs != [] {
      var v := Lookup(entries, PyStr(fs[0].name)).value;
      var rest := WrittenAreFields(fs[1..], entries);
      cells := [Framed(Contents(fs[0].typ, v)).value] + rest;
      LookupHas(entries, PyStr(fs[0].name), v);
      ValueCellFormat(fs[0].typ, v, cells[0]);
      assert IsFieldCell(fs[0], entries, cells[0]);
    }
  }

  lemma ItemsFormat(e: Type, items: seq<Py>, b: Bytes)
    ensures (exists cells :: IsCollection(b, |items|, cells) && AreCells(e, items, cells))
            <==> Counted(|items|, Cells(e, items)) == Ok(b)
    decreases e, 5
  {
    if cells :| IsCollection(b, |items|, cells) && AreCells(e, items, cells) {
      CellsAreWritten(e, items, cells);
      CollectionFormat(b, |items|, cells);
    }
    if Counted(|items|, Cells(e, items)) == Ok(b) {
      var cells := WrittenAreCells(e, items);
      CellsAreWritten(e, items, cells);
      CollectionFormat(b, |items|, cells);
    }
  }

  lemma DictIsWritten(t: Type, entries: seq<Entry>, b: Bytes, keys: seq<Bytes>, values: seq<Bytes>)
    requires t.MapOf? && AreEntryCells(t, entries, keys, values)
    ensures IsCollection(b, |entries|, Alternating(keys, values)) <==>
              Counted(|entries|, EntryCells(t, entries)) == Ok(b)
    decreases t, 1, 0
  {
    EntriesAreWritten(t, entries, keys, values);
    CollectionFormat(b, |entries|, Alternating(keys, values));
  }

  lemma DictFormat(t: Type, entries: seq<Entry>, b: Bytes)
    requires t.MapOf?
    ensures IsContents(t, PyDict(entries), b) <==> Counted(|entries|, EntryCells(t, entries)) == Ok(b)
    decreases t, 1, 1
  {
    if IsContents(t, PyDict(entries), b) {
      var keys, values :|
        AreEntryCells(t, entries, keys, values) && IsCollection(b, |entries|, Alternating(keys, values));
      DictIsWritten(t, entries, b, keys, values);
    } else if EntryCells(t, entries).Ok? {
      var keys, values := WrittenAreEntries(t, entries);
      DictIsWritten(t, entries, b, keys, values);
    }
  }

  lemma TupleFormat(t: Type, items: seq<Py>, b: Bytes)
    requires t.TupleOf? && |items| <= |t.elements|
    ensures IsContents(t, PyTuple(items), b) <==> SizedCells(TupleCells(t.elements, items)) == Ok(b)
    decreases t, 1, 0
  {
    if cells :| b == Joined(cells) && AreTupleCells(t.elements, items, cells) {
      TupleIsWritten(t.elements, items, cells);
    }
    if SizedCells(TupleCells(t.elements, items)) == Ok(b) {
      var cells := WrittenIsTuple(t.elements, items);
      TupleIsWritten(t.elements, items, cells);
    }
  }

  lemma UdtFormat(t: Type, entries: seq<Entry>, b: Bytes)
    requires t.UdtOf?
    ensures IsContents(t, PyDict(entries), b) <==> SizedCells(FieldCells(t.fields, entries)) == Ok(b)
    decreases t, 1, 0
  {
    if cells :| b == Joined(cells) && AreFieldCells(t.fields, entries, cells) {
      FieldsAreWritten(t.fields, entries, cells);
    }
    if SizedCells(FieldCells(t.fields, entries)) == Ok(b) {
      var cells := WrittenAreFields(t.fields, entries);
      FieldsAreWritten(t.fields, entries, cells);
    }
  }

  predicate IsLeaf(t: Type) {
    t.IntOf? || t.Boolean? || t.Text? || t.Blob?
  }

  lemma LeafFormat(t: Type, v: Py, b: Bytes)
    requires IsLeaf(t)
    ensures IsContents(t, v, b) <==> Contents(t, v) == Ok(b)
  {
    if t.IntOf? && v.PyInt? {
      IntFormat(t.kind, v.n, b);
    } else if t.IntOf? && v.PyBool? {
      IntFormat(t.kind, if v.b then 1 else 0, b);
    }
  }

  lemma MixedUp(t: Type, v: Py, b: Bytes)
    requires !IsLeaf(t)
    requires !(t.ListOf? && v.PyList?) && !(t.SetOf? && v.PySet?) && !((t.MapOf? || t.UdtOf?) && v.PyDict?)
    requires t.TupleOf? && v.PyTuple? ==> |v.items| > |t.elements|
    ensures !IsContents(t, v, b) && Contents(t, v).Err?
  {
  }

  /** For every type and value: the printer writes exactly the bytes of the value, and an error
      exactly if there are none. */
  lemma ContentsFormat(t: Type, v: Py, b: Bytes)
    ensures IsContents(t, v, b) <==> Contents(t, v) == Ok(b)
    decreases t, 1
  {
    if IsLeaf(t) {
      LeafFormat(t, v, b);
    } else if (t.ListOf? && v.PyList?) || (t.SetOf? && v.PySet?) {
      ItemsFormat(t.element, v.items, b);
    } else if t.MapOf? && v.PyDict? {
      DictFormat(t, v.entries, b);
    } else if t.TupleOf? && v.PyTuple? && |v.items| <= |t.elements| {
      TupleFormat(t, v.items, b);
    } else if t.UdtOf? && v.PyDict? {
      UdtFormat(t, v.entries, b);
    } else {
      MixedUp(t, v, b);
    }
  }

  // ------------------------------------------------------------------- and what can be written

  /** The bytes a value takes. */
  ghost function Size(t: Type, v: Py): nat
    decreases t, 1
  {
    match (t, v)
    case (IntOf(TinyInt), _) => 1
    case (IntOf(SmallInt), _) => 2
    case (IntOf(Int), _) => 4
    case (IntOf(_), _) => 8
    case (Boolean, _) => 1
    case (Text, PyStr(utf8)) => |utf8|
    case (Blob, PyBytes(bytes)) => |bytes|
    case (ListOf(e), PyList(items)) => 4 + CellsSize(e, items)
    case (SetOf(e), PySet(items)) => 4 + CellsSize(e, items)
    case (MapOf(_, _), PyDict(entries)) => 4 + EntriesSize(t, entries)
    case (TupleOf(ts), PyTuple(items)) => TupleSize(ts, items)
    case (UdtOf(fs), PyDict(entries)) => FieldsSize(fs, entries)
    case _ => 0
  }

  /** With its length, or -1 for null, in front. */
  ghost function CellSize(t: Type, v: Py): nat
    decreases t, 2
  {
    if v.PyNone? then 4 else 4 + Size(t, v)
  }

  ghost function CellsSize(t: Type, vs: seq<Py>): nat
    decreases t, 3, |vs|
  {
    if vs == [] then 0 else CellSize(t, vs[0]) + CellsSize(t, vs[1..])
  }

  ghost function EntriesSize(t: Type, entries: seq<Entry>): nat
    requires t.MapOf?
    decreases t, 0, |entries|
  {
    if entries == [] then 0
    else CellSize(t.key, entries[0].key) + CellSize(t.value, entries[0].value) + EntriesSize(t, entries[1..])
  }

  ghost function TupleSize(ts: seq<Type>, vs: seq<Py>): nat
    decreases ts
  {
    if vs == [] || ts == [] then 0 else 4 + Size(ts[0], vs[0]) + TupleSize(ts[1..], vs[1..])
  }

  ghost function FieldsSize(fs: seq<Field>, entries: seq<Entry>): nat
    decreases fs
  {
    if fs == [] then 0
    else
      var v := Lookup(entries, PyStr(fs[0].name));
      4 + (if v.Some? then Size(fs[0].typ, v.value) else 0) + FieldsSize(fs[1..], entries)
  }

  /** An integer of its width; a bool for a bool or an integer; text and bytes; collections of
      what can be written or is None; tuples no longer than their type, and dicts with all the
      fields, of what can be written. Nothing takes more than 2^31 - 1 bytes. */
  ghost predicate Writable(t: Type, v: Py)
    decreases t, 1
  {
    && Size(t, v) <= 0x7fff_ffff
    && match (t, v)
       case (IntOf(TinyInt), PyInt(n)) => -0x80 <= n < 0x80
       case (IntOf(SmallInt), PyInt(n)) => -0x8000 <= n < 0x8000
       case (IntOf(Int), PyInt(n)) => -0x8000_0000 <= n < 0x8000_0000
       case (IntOf(_), PyInt(n)) => -0x8000_0000_0000_0000 <= n < 0x8000_0000_0000_0000
       case (IntOf(_), PyBool(_)) => true
       case (Boolean, PyBool(_)) => true
       case (Text, PyStr(_)) => true
       case (Blob, PyBytes(_)) => true
       case (ListOf(e), PyList(items)) => AllWritable(e, items)
       case (SetOf(e), PySet(items)) => AllWritable(e, items)
       case (MapOf(_, _), PyDict(entries)) => EntriesWritable(t, entries)
       case (TupleOf(ts), PyTuple(items)) => TupleWritable(ts, items)
       case (UdtOf(fs), PyDict(entries)) => FieldsWritable(fs, entries)
       case _ => false
  }

  ghost predicate AllWritable(t: Type, vs: seq<Py>)
    decreases t, 3
  {
    forall i :: 0 <= i < |vs| ==> vs[i].PyNone? || Writable(t, vs[i])
  }

  ghost predicate EntriesWritable(t: Type, entries: seq<Entry>)
    requires t.MapOf?
    decreases t, 0
  {
    forall i :: 0 <= i < |entries| ==> EntryWritable(t, entries[i])
  }

  ghost predicate EntryWritable(t: Type, e: Entry)
    requires t.MapOf?
    decreases t, 0, 0
  {
    (e.key.PyNone? || Writable(t.key, e.key)) && (e.value.PyNone? || Writable(t.value, e.value))
  }

  ghost predicate TupleWritable(ts: seq<Type>, vs: seq<Py>)
    decreases ts
  {
    |vs| <= |ts| && forall i :: 0 <= i < |vs| ==> Writable(ts[i], vs[i])
  }

  ghost predicate FieldsWritable(fs: seq<Field>, entries: seq<Entry>)
    decreases fs
  {
    forall i :: 0 <= i < |fs| ==> FieldWritable(fs[i], entries)
  }

  ghost predicate FieldWritable(f: Field, entries: seq<Entry>)
    decreases f
  {
    var v := Lookup(entries, PyStr(f.name));
    v.Some? && Writable(f.typ, v.value)
  }

  /** What is written has that size, and is written exactly if it can be. */
  ghost predicate IsWrittenWhen(w: Written, size: nat, can: bool) {
    (w.Ok? <==> can) && (w.Ok? ==> |w.value| == size)
  }

  lemma IntIsWrittenWhen(kind: IntKind, n: int)
    ensures IsWrittenWhen(IntBytes(n, kind.Width()), Size(IntOf(kind), PyInt(n)), Writable(IntOf(kind), PyInt(n)))
  {
    Spans();
  }

  lemma CellIsWrittenWhen(t: Type, v: Py)
    ensures IsWrittenWhen(Cell(t, v), CellSize(t, v), v.PyNone? || Writable(t, v))
    ensures IsWrittenWhen(Framed(Contents(t, v)), 4 + Size(t, v), Writable(t, v))
    decreases t, 2
  {
    ContentsAreWrittenWhen(t, v);
  }

  lemma {:induction false} CellsAreWrittenWhen(t: Type, vs: seq<Py>)
    ensures IsWrittenWhen(Cells(t, vs), CellsSize(t, vs), AllWritable(t, vs)) && CellsSize(t, vs) >= 4 * |vs|
    decreases t, 3, |vs|
  {
    if vs != [] {
      CellIsWrittenWhen(t, vs[0]);
      CellsAreWrittenWhen(t, vs[1..]);
      assert AllWritable(t, vs) <==> (vs[0].PyNone? || Writable(t, vs[0])) && AllWritable(t, vs[1..]) by {
        assert forall i :: 0 < i < |vs| ==> vs[i] == vs[1..][i - 1];
      }
    }
  }

  lemma {:induction false} EntriesAreWrittenWhen(t: Type, entries: seq<Entry>)
    requires t.MapOf?
    ensures IsWrittenWhen(EntryCells(t, entries), EntriesSize(t, entries), EntriesWritable(t, entries))
    ensures EntriesSize(t, entries) >= 4 * |entries|
    decreases t, 0, |entries|
  {
    if entries != [] {
      CellIsWrittenWhen(t.key, entries[0].key);
      CellIsWrittenWhen(t.value, entries[0].value);
      EntriesAreWrittenWhen(t, entries[1..]);
      assert EntriesWritable(t, entries) <==> EntryWritable(t, entries[0]) && EntriesWritable(t, entries[1..]) by {
        assert forall i :: 0 < i < |entries| ==> entries[i] == entries[1..][i - 1];
      }
    }
  }

  lemma {:induction false} TupleIsWrittenWhen(ts: seq<Type>, vs: seq<Py>)
    requires |vs| <= |ts|
    ensures IsWrittenWhen(TupleCells(ts, vs), TupleSize(ts, vs), TupleWritable(ts, vs))
    decreases ts
  {
    if vs != [] {
      CellIsWrittenWhen(ts[0], vs[0]);
      TupleIsWrittenWhen(ts[1..], vs[1..]);
      assert TupleWritable(ts, vs) <==> Writable(ts[0], vs[0]) && TupleWritable(ts[1..], vs[1..]) by {
        assert forall i :: 0 < i < |vs| ==> vs[i] == vs[1..][i - 1] && ts[i] == ts[1..][i - 1];
      }
    }
  }

  lemma {:induction false} FieldsAreWrittenWhen(fs: seq<Field>, entries: seq<Entry>)
    ensures IsWrittenWhen(FieldCells(fs, entries), FieldsSize(fs, entries), FieldsWritable(fs, entries))
    decreases fs
  {
    if fs != [] {
      var v := Lookup(entries, PyStr(fs[0].name));
      if v.Some? {
        CellIsWrittenWhen(fs[0].typ, v.value);
      }
      FieldsAreWrittenWhen(fs[1..], entries);
      assert FieldsWritable(fs, entries) <==> FieldWritable(fs[0], entries) && FieldsWritable(fs[1..], entries) by {
        assert forall i :: 0 < i < |fs| ==> fs[i] == fs[1..][i - 1];
      }
    }
  }

  /** For every type and value: it is written exactly if it can be, in that many bytes. */
  lemma ContentsAreWrittenWhen(t: Type, v: Py)
    ensures IsWrittenWhen(Contents(t, v), Size(t, v), Writable(t, v))
    decreases t, 1
  {
    if t.IntOf? && v.PyInt? {
      IntIsWrittenWhen(t.kind, v.n);
    } else if t.IntOf? && v.PyBool? {
      IntIsWrittenWhen(t.kind, if v.b then 1 else 0);
    } else if (t.ListOf? && v.PyList?) || (t.SetOf? && v.PySet?) {
      CellsAreWrittenWhen(t.element, v.items);
    } else if t.MapOf? && v.PyDict? {
      EntriesAreWrittenWhen(t, v.entries);
    } else if t.TupleOf? && v.PyTuple? && |v.items| <= |t.elements| {
      TupleIsWrittenWhen(t.elements, v.items);
    } else if t.UdtOf? && v.PyDict? {
      FieldsAreWrittenWhen(t.fields, v.entries);
    }
  }
}
