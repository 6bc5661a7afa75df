/** What a cell reads as, said without the parser: the bytes that come from the server need not be
    ones this driver would write. */
module CodecReading {
  import opened Common
  import opened BigEndian
  import opened Codec
  import opened CodecFormat

  /** A cell on the wire: its length in four bytes and that many, or any negative length for null. */
  ghost predicate IsSlice(b: Bytes, cell: Option<Bytes>) {
    match cell
    case None => exists n :: n < 0 && IsInt32(n, b)
    case Some(bytes) => 4 <= |b| && IsInt32(|bytes|, b[..4]) && b[4..] == bytes
  }

  /** What null reads as. */
  ghost function NullOf(t: Type): Py {
    match t
    case ListOf(_) => PyList([])
    case SetOf(_) => PySet([])
    case MapOf(_, _) => PyDict([])
    case _ => PyNone
  }

  /** A cell of a type reads as `v`. Bytes after the last cell that counts are ignored. */
  ghost predicate ReadsAs(t: Type, cell: Option<Bytes>, v: Py)
    decreases t, 1
  {
    match cell
    case None => v == NullOf(t)
    case Some(b) =>
      if b == [] && !t.Text? && !t.Blob? then v == PyEmpty
      else
        match t
        case IntOf(kind) => v.PyInt? && IsInt(kind, v.n, b)
        case Boolean => |b| == 1 && v == PyBool(b[0] != 0)
        case Text => v == PyStr(b)
        case Blob => v == PyBytes(b)
        case ListOf(e) => v.PyList? && ItemsReadAs(e, b, v.items)
        case SetOf(e) => v.PySet? && exists items :: ItemsReadAs(e, b, items) && SetOfItems(items) == Some(v.items)
        case MapOf(_, _) =>
          v.PyDict? && exists entries :: EntriesReadAs(t, b, entries) && DictOfEntries(entries) == Some(v.entries)
        case TupleOf(ts) => v.PyTuple? && TupleReadsAs(ts, b, v.items)
        case UdtOf(fs) =>
          v.PyDict? && exists entries :: FieldsReadAs(fs, b, entries) && DictOfEntries(entries) == Some(v.entries)
  }

  /** A count in four bytes and that many cells. */
  ghost predicate ItemsReadAs(t: Type, b: Bytes, vs: seq<Py>)
    decreases t, 3
  {
    && 4 <= |b| && IsInt32(|vs|, b[..4])
    && exists slices, cells, rest :: IsFrame(b[4..], slices, cells, rest) && |cells| == |vs| && AllRead(t, cells, vs)
  }

  ghost predicate AllRead(t: Type, cells: seq<Option<Bytes>>, vs: seq<Py>)
    requires |cells| == |vs|
    decreases t, 2
  {
    forall i :: 0 <= i < |vs| ==> ReadsAs(t, cells[i], vs[i])
  }

  /** The frame is the cells, and something after them. */
  ghost predicate IsFrame(frame: Bytes, slices: seq<Bytes>, cells: seq<Option<Bytes>>, rest: Bytes) {
    && frame == Joined(slices) + rest && |slices| == |cells|
    && forall i :: 0 <= i < |cells| ==> IsSlice(slices[i], cells[i])
  }

  /** A count in four bytes and twice as many cells, keys and values by turns. */
  ghost predicate EntriesReadAs(t: Type, b: Bytes, entries: seq<Entry>)
    requires t.MapOf?
    decreases t, 0, 1
  {
    && 4 <= |b| && IsInt32(|entries|, b[..4])
    && exists slices, cells, rest ::
         IsFrame(b[4..], slices, cells, rest) && |cells| == 2 * |entries| && EntriesRead(t, cells, entries)
  }

  ghost predicate EntriesRead(t: Type, cells: seq<Option<Bytes>>, entries: seq<Entry>)
    requires t.MapOf? && |cells| == 2 * |entries|
    decreases t, 0, 0
  {
    forall i :: 0 <= i < |entries| ==>
      ReadsAs(t.key, cells[2 * i], entries[i].key) && ReadsAs(t.value, cells[2 * i + 1], entries[i].value)
  }

  /** A cell for every element. */
  ghost predicate TupleReadsAs(ts: seq<Type>, b: Bytes, vs: seq<Py>)
    decreases ts, 1
  {
    && |vs| == |ts|
    && exists slices, cells, rest :: IsFrame(b, slices, cells, rest) && |cells| == |ts| && EachRead(ts, cells, vs)
  }

  ghost predicate EachRead(ts: seq<Type>, cells: seq<Option<Bytes>>, vs: seq<Py>)
    requires |cells| == |vs| == |ts|
    decreases ts, 0
  {
    forall i :: 0 <= i < |ts| ==> ReadsAs(ts[i], cells[i], vs[i])
  }

  /** A cell for every field, or for the first of them: then the others are null. */
  ghost predicate FieldsReadAs(fs: seq<Field>, b: Bytes, entries: seq<Entry>)
    decreases fs, 1
  {
    && |entries| == |fs|
    && exists slices, cells, rest :: IsFrame(b, slices, cells, rest) && |cells| <= |fs|
         && (|cells| < |fs| ==> rest == []) && FieldsRead(fs, cells, entries)
  }

  ghost predicate FieldsRead(fs: seq<Field>, cells: seq<Option<Bytes>>, entries: seq<Entry>)
    requires |entries| == |fs|
    decreases fs, 0
  {
    forall i :: 0 <= i < |fs| ==>
      && entries[i].key == PyStr(fs[i].name)
      && ReadsAs(fs[i].typ, if i < |cells| then cells[i] else None, entries[i].value)
  }

  // ------------------------------------------------------------------- the sets and dicts read

  /** `x` is `v`, or in it if that is a tuple, and so on. */
  ghost predicate IsIn(x: Py, v: Py) {
    x == v || (v.PyTuple? && exists i :: 0 <= i < |v.items| && IsIn(x, v.items[i]))
  }

  /** What cannot be hashed are lists, sets and dicts, and tuples with any of them. */
  lemma {:induction false} HashableExactly(v: Py)
    ensures Hashable(v) <==> forall x :: IsIn(x, v) ==> !x.PyList? && !x.PySet? && !x.PyDict?
  {
    if v.PyTuple? {
      forall i | 0 <= i < |v.items|
        ensures Hashable(v.items[i]) <==> forall x :: IsIn(x, v.items[i]) ==> !x.PyList? && !x.PySet? && !x.PyDict?
      {
        HashableExactly(v.items[i]);
      }
      assert forall i, x :: 0 <= i < |v.items| && IsIn(x, v.items[i]) ==> IsIn(x, v);
    } else {
      assert IsIn(v, v);
    }
  }

  /** A set can be made of what can be hashed; it has those members, each of them once. */
  lemma {:induction false} SetIsExactly(items: seq<Py>)
    ensures SetOfItems(items).Some? <==> forall i :: 0 <= i < |items| ==> Hashable(items[i])
    ensures SetOfItems(items).Some? ==>
              && (forall x :: x in SetOfItems(items).value <==> x in items)
              && Distinct(SetOfItems(items).value)
  {
    if items != [] {
      var last := |items| - 1;
      SetIsExactly(items[..last]);
      assert items == items[..last] + [items[last]];
    }
  }

  ghost predicate Distinct(items: seq<Py>) {
    forall i, j :: 0 <= i < j < |items| ==> items[i] != items[j]
  }

  /** Entry `i` is the last for its key. */
  ghost predicate IsLastAt(entries: seq<Entry>, i: nat, key: Py, value: Py) {
    i < |entries| && entries[i] == Entry(key, value) && forall j :: i < j < |entries| ==> entries[j].key != key
  }

  ghost predicate IsLastFor(entries: seq<Entry>, key: Py, value: Py) {
    exists i: nat :: IsLastAt(entries, i, key, value)
  }

  ghost predicate DistinctKeys(entries: seq<Entry>) {
    forall i, j :: 0 <= i < j < |entries| ==> entries[i].key != entries[j].key
  }

  lemma LastGrows(entries: seq<Entry>, e: Entry, key: Py, value: Py)
    ensures IsLastFor(entries + [e], key, value) <==>
              if key == e.key then value == e.value else IsLastFor(entries, key, value)
  {
    var more := entries + [e];
    if key == e.key && value == e.value {
      assert IsLastAt(more, |entries|, key, value);
    }
    if i: nat :| IsLastAt(entries, i, key, value) {
      if key != e.key {
        assert IsLastAt(more, i, key, value);
      }
    }
    if i: nat :| IsLastAt(more, i, key, value) {
      if i < |entries| {
        assert more[|entries|] == e;
        assert forall j :: 0 <= j < |entries| ==> more[j] == entries[j];
        assert IsLastAt(entries, i, key, value);
      }
    }
  }

  lemma SetInIs(dict: seq<Entry>, e: Entry)
    requires DistinctKeys(dict) && Hashable(e.key)
    ensures SetIn(Some(dict), e).Some? && DistinctKeys(SetIn(Some(dict), e).value)
    ensures forall x :: x in SetIn(Some(dict), e).value <==> x == e || (x in dict && x.key != e.key)
  {
    var after := SetIn(Some(dict), e).value;
    var k := IndexOf(dict, e.key);
    assert e == Entry(e.key, e.value);
    forall x ensures x in after <==> x == e || (x in dict && x.key != e.key) {
      if x in after {
        var i :| 0 <= i < |after| && after[i] == x;
        assert i < |dict| && i != k ==> x == dict[i] && x.key != e.key;
      }
      if x == e {
        assert after[k] == e;
      } else if x in dict && x.key != e.key {
        var i :| 0 <= i < |dict| && dict[i] == x;
        assert after[i] == x;
      }
    }
  }

  /** A dict can be made of entries whose keys can be hashed; it has every key once, with the
      value of the last entry for it. */
  lemma {:induction false} DictIsExactly(entries: seq<Entry>)
    ensures DictOfEntries(entries).Some? <==> forall i :: 0 <= i < |entries| ==> Hashable(entries[i].key)
    ensures DictOfEntries(entries).Some? ==>
              && DistinctKeys(DictOfEntries(entries).value)
              && (forall x :: x in DictOfEntries(entries).value <==> IsLastFor(entries, x.key, x.value))
  {
    if entries != [] {
      var last := |entries| - 1;
      var before, e := entries[..last], entries[last];
      DictIsExactly(before);
      assert entries == before + [e];
      if DictOfEntries(entries).Some? {
        SetInIs(DictOfEntries(before).value, e);
        forall x: Entry ensures x in DictOfEntries(entries).value <==> IsLastFor(entries, x.key, x.value) {
          LastGrows(before, e, x.key, x.value);
          assert x == Entry(x.key, x.value);
        }
      }
    }
  }

  // --------------------------------------------------------------------------------- is what is read

  lemma IntRead(kind: IntKind, n: int, b: Bytes)
    ensures IsInt(kind, n, b) <==> |b| == kind.Width() && DecodeInt(b) == n
  {
    IntDecodes(kind, n, b);
  }

  lemma SliceIsTaken(b: Bytes, cell: Option<Bytes>, rest: Bytes)
    requires IsSlice(b, cell)
    ensures |b| >= 4 && TakeCell(b + rest) == Some((cell, rest))
  {
    var frame := b + rest;
    assert frame[..4] == b[..4];
    if cell.None? {
      var n :| n < 0 && IsInt32(n, b);
      IntRead(Int, n, b);
      assert b[..4] == b && frame[4..] == rest;
    } else {
      IntRead(Int, |cell.value|, b[..4]);
      assert frame[4..|b|] == cell.value && frame[|b|..] == rest;
    }
  }

  lemma TakenIsSlice(frame: Bytes) returns (b: Bytes)
    requires TakeCell(frame).Some?
    ensures IsSlice(b, TakeCell(frame).value.0) && frame == b + TakeCell(frame).value.1
  {
    var n := DecodeInt(frame[..4]);
    IntRead(Int, n, frame[..4]);
    if n < 0 {
      b := frame[..4];
    } else {
      b := frame[..4 + n];
      assert b[..4] == frame[..4] && b[4..] == frame[4..4 + n];
    }
  }

  /** The parser and the relation agree on cells of the type. */
  ghost predicate Agrees(t: Type) {
    forall cell, v :: Parse(t, cell) == Some(v) <==> ReadsAs(t, cell, v)
  }

  lemma JoinFirst(first: Bytes, slices: seq<Bytes>, rest: Bytes)
    ensures Joined([first] + slices) + rest == first + (Joined(slices) + rest)
  {
    assert ([first] + slices)[1..] == slices;
    ConcatAssociates(first, Joined(slices), rest);
  }

  lemma {:induction false} TupleIsRead(ts: seq<Type>, slices: seq<Bytes>, cells: seq<Option<Bytes>>, rest: Bytes,
            vs: seq<Py>)
    requires |cells| == |vs| == |ts| && IsFrame(Joined(slices) + rest, slices, cells, rest) && EachRead(ts, cells, vs)
    requires forall i :: 0 <= i < |ts| ==> Agrees(ts[i])
    ensures ParseTuple(ts, Joined(slices) + rest) == Some(vs)
  {
    if ts != [] {
      assert slices == [slices[0]] + slices[1..] && vs == [vs[0]] + vs[1..];
      JoinFirst(slices[0], slices[1..], rest);
      SliceIsTaken(slices[0], cells[0], Joined(slices[1..]) + rest);
      assert Agrees(ts[0]) && ReadsAs(ts[0], cells[0], vs[0]);
      TupleIsRead(ts[1..], slices[1..], cells[1..], rest, vs[1..]);
    }
  }

  lemma {:induction false} ReadIsTuple(ts: seq<Type>, frame: Bytes, vs: seq<Py>)
            returns (slices: seq<Bytes>, cells: seq<Option<Bytes>>, rest: Bytes)
    requires ParseTuple(ts, frame) == Some(vs) && forall i :: 0 <= i < |ts| ==> Agrees(ts[i])
    ensures |cells| == |vs| == |ts| && IsFrame(frame, slices, cells, rest) && EachRead(ts, cells, vs)
  {
    slices, cells, rest := [], [], frame;
    if ts != [] {
      var (v, tail) := ParseCell(ts[0], frame).value;
      var cell := TakeCell(frame).value.0;
      var first := TakenIsSlice(frame);
      assert Agrees(ts[0]) && ReadsAs(ts[0], cell, v);
      slices, cells, rest := ReadIsTuple(ts[1..], tail, vs[1..]);
      JoinFirst(first, slices, rest);
      slices, cells := [first] + slices, [cell] + cells;
    }
  }

  lemma TupleFormat(ts: seq<Type>, frame: Bytes, vs: seq<Py>)
    requires forall i :: 0 <= i < |ts| ==> Agrees(ts[i])
    ensures ParseTuple(ts, frame) == Some(vs) <==> TupleReadsAs(ts, frame, vs)
  {
    if TupleReadsAs(ts, frame, vs) {
      var slices, cells, rest :| IsFrame(frame, slices, cells, rest) && |cells| == |ts| && EachRead(ts, cells, vs);
      TupleIsRead(ts, slices, cells, rest, vs);
    } else if ParseTuple(ts, frame) == Some(vs) {
      var slices, cells, rest := ReadIsTuple(ts, frame, vs);
    }
  }

  // Lists, sets and maps are read as tuples are, with as many elements as their count says.

  ghost function Repeat(t: Type, n: nat): seq<Type> {
    if n == 0 then [] else [t] + Repeat(t, n - 1)
  }

  lemma {:induction false} RepeatIs(t: Type, n: nat)
    ensures |Repeat(t, n)| == n && forall i :: 0 <= i < n ==> Repeat(t, n)[i] == t
  {
    if n > 0 {
      RepeatIs(t, n - 1);
    }
  }

  lemma {:induction false} CellsAreATuple(t: Type, n: nat, frame: Bytes)
    ensures ParseCells(t, n, frame) == ParseTuple(Repeat(t, n), frame)
  {
    if n > 0 {
      var ts := Repeat(t, n);
      assert ts[0] == t && ts[1..] == Repeat(t, n - 1);
      if ParseCell(t, frame).Some? {
        CellsAreATuple(t, n - 1, ParseCell(t, frame).value.1);
      }
    }
  }

  lemma CountFormat(b: Bytes, n: nat, rest: Bytes)
    ensures TakeCount(b) == Some((n, rest)) <==> 4 <= |b| && IsInt32(n, b[..4]) && rest == b[4..]
  {
    if |b| >= 4 {
      IntRead(Int, n, b[..4]);
      IntRead(Int, DecodeInt(b[..4]), b[..4]);
    }
  }

  /** The parser takes as many items as counted. */
  ghost predicate ItemsParse(t: Type, b: Bytes, vs: seq<Py>) {
    var counted := TakeCount(b);
    counted.Some? && counted.value.0 == |vs| && ParseCells(t, |vs|, counted.value.1) == Some(vs)
  }

  lemma ItemsFormat(t: Type, b: Bytes, vs: seq<Py>)
    requires Agrees(t)
    ensures ItemsReadAs(t, b, vs) <==> ItemsParse(t, b, vs)
  {
    if |b| >= 4 {
      CountFormat(b, |vs|, b[4..]);
      RepeatIs(t, |vs|);
      CellsAreATuple(t, |vs|, b[4..]);
      TupleFormat(Repeat(t, |vs|), b[4..], vs);
      ItemsAreATuple(t, b[4..], vs);
    }
  }

  lemma ItemsAreATuple(t: Type, frame: Bytes, vs: seq<Py>)
    ensures (exists slices, cells, rest ::
               IsFrame(frame, slices, cells, rest) && |cells| == |vs| && AllRead(t, cells, vs))
            <==> TupleReadsAs(Repeat(t, |vs|), frame, vs)
  {
    RepeatIs(t, |vs|);
    var ts := Repeat(t, |vs|);
    forall cells: seq<Option<Bytes>> | |cells| == |vs| ensures AllRead(t, cells, vs) <==> EachRead(ts, cells, vs) {
    }
  }

  ghost function Turns(t: Type, n: nat): seq<Type>
    requires t.MapOf?
  {
    if n == 0 then [] else [t.key, t.value] + Turns(t, n - 1)
  }

  lemma {:induction false} TurnsAre(t: Type, n: nat)
    requires t.MapOf?
    ensures |Turns(t, n)| == 2 * n
    ensures forall i :: 0 <= i < n ==> Turns(t, n)[2 * i] == t.key && Turns(t, n)[2 * i + 1] == t.value
    ensures forall i :: 0 <= i < 2 * n ==> Turns(t, n)[i] == t.key || Turns(t, n)[i] == t.value
  {
    if n > 0 {
      TurnsAre(t, n - 1);
      assert forall i :: 2 <= i < 2 * n ==> Turns(t, n)[i] == Turns(t, n - 1)[i - 2];
      forall i | 0 <= i < n ensures Turns(t, n)[2 * i] == t.key && Turns(t, n)[2 * i + 1] == t.value {
        if i > 0 {
          assert Turns(t, n)[2 * i] == Turns(t, n - 1)[2 * (i - 1)];
          assert Turns(t, n)[2 * i + 1] == Turns(t, n - 1)[2 * (i - 1) + 1];
        }
      }
    }
  }

  /** Keys and values by turns. */
  ghost function Flat(entries: seq<Entry>): seq<Py> {
    if entries == [] then [] else [entries[0].key, entries[0].value] + Flat(entries[1..])
  }

  lemma {:induction false} FlatIs(entries: seq<Entry>)
    ensures |Flat(entries)| == 2 * |entries|
    ensures forall i :: 0 <= i < |entries| ==>
              Flat(entries)[2 * i] == entries[i].key && Flat(entries)[2 * i + 1] == entries[i].value
  {
    if entries != [] {
      var rest := entries[1..];
      FlatIs(rest);
      forall i | 0 <= i < |entries|
        ensures Flat(entries)[2 * i] == entries[i].key && Flat(entries)[2 * i + 1] == entries[i].value
      {
        if i > 0 {
          assert Flat(entries)[2 * i] == Flat(rest)[2 * (i - 1)];
          assert Flat(entries)[2 * i + 1] == Flat(rest)[2 * (i - 1) + 1];
          assert rest[i - 1] == entries[i];
        }
      }
    }
  }

  lemma {:induction false} FlatInjective(a: seq<Entry>, b: seq<Entry>)
    requires Flat(a) == Flat(b)
    ensures a == b
  {
    FlatIs(a);
    FlatIs(b);
    assert |a| == |b|;
    forall i | 0 <= i < |a| ensures a[i] == b[i] {
      assert Flat(a)[2 * i] == Flat(b)[2 * i] && Flat(a)[2 * i + 1] == Flat(b)[2 * i + 1];
    }
  }

  lemma {:induction false} EntriesAreATuple(t: Type, n: nat, frame: Bytes)
    requires t.MapOf?
    ensures match ParseEntries(t, n, frame)
            case None => ParseTuple(Turns(t, n), frame).None?
            case Some(entries) => |entries| == n && ParseTuple(Turns(t, n), frame) == Some(Flat(entries))
  {
    if n > 0 {
      var ts := Turns(t, n);
      assert ts[0] == t.key && ts[1..] == [t.value] + Turns(t, n - 1) && ts[1..][1..] == Turns(t, n - 1);
      if ParseCell(t.key, frame).Some? {
        var (k, rest) := ParseCell(t.key, frame).value;
        if ParseCell(t.value, rest).Some? {
          var (v, rest') := ParseCell(t.value, rest).value;
          EntriesAreATuple(t, n - 1, rest');
          PairIsRead(t, n, frame, k, rest, v, rest');
        }
      }
    }
  }

  lemma PairIsRead(t: Type, n: nat, frame: Bytes, k: Py, rest: Bytes, v: Py, rest': Bytes)
    requires t.MapOf? && n > 0
    requires ParseCell(t.key, frame) == Some((k, rest)) && ParseCell(t.value, rest) == Some((v, rest'))
    ensures ParseTuple(Turns(t, n), frame) ==
              match ParseTuple(Turns(t, n - 1), rest') case None => None case Some(vs) => Some([k, v] + vs)
  {
    var ts := Turns(t, n);
    assert ts[0] == t.key && ts[1..] == [t.value] + Turns(t, n - 1) && ts[1..][1..] == Turns(t, n - 1);
    assert ParseTuple(ts[1..], rest) ==
             match ParseTuple(Turns(t, n - 1), rest') case None => None case Some(vs) => Some([v] + vs);
    var tail := ParseTuple(Turns(t, n - 1), rest');
    if tail.Some? {
      assert [k] + ([v] + tail.value) == [k, v] + tail.value;
    }
  }

  lemma EntriesReadAsATuple(t: Type, frame: Bytes, entries: seq<Entry>)
    requires t.MapOf?
    ensures (exists slices, cells, rest ::
               IsFrame(frame, slices, cells, rest) && |cells| == 2 * |entries| && EntriesRead(t, cells, entries))
            <==> TupleReadsAs(Turns(t, |entries|), frame, Flat(entries))
  {
    var ts, vs := Turns(t, |entries|), Flat(entries);
    TurnsAre(t, |entries|);
    FlatIs(entries);
    forall cells: seq<Option<Bytes>> | |cells| == 2 * |entries|
      ensures EntriesRead(t, cells, entries) <==> EachRead(ts, cells, vs)
    {
      EntriesReadEach(t, cells, entries);
    }
  }

  lemma EntriesReadEach(t: Type, cells: seq<Option<Bytes>>, entries: seq<Entry>)
    requires t.MapOf? && |cells| == 2 * |entries| == |Turns(t, |entries|)| == |Flat(entries)|
    ensures EntriesRead(t, cells, entries) <==> EachRead(Turns(t, |entries|), cells, Flat(entries))
  {
    var ts, vs := Turns(t, |entries|), Flat(entries);
    TurnsAre(t, |entries|);
    FlatIs(entries);
    if EntriesRead(t, cells, entries) {
      forall j | 0 <= j < |ts| ensures ReadsAs(ts[j], cells[j], vs[j]) {
        var i := j / 2;
        assert ReadsAs(t.key, cells[2 * i], entries[i].key) && ReadsAs(t.value, cells[2 * i + 1], entries[i].value);
        assert j == 2 * i || j == 2 * i + 1;
      }
    }
    if EachRead(ts, cells, vs) {
      forall i | 0 <= i < |entries|
        ensures ReadsAs(t.key, cells[2 * i], entries[i].key) && ReadsAs(t.value, cells[2 * i + 1], entries[i].value)
      {
        assert ReadsAs(ts[2 * i], cells[2 * i], vs[2 * i]) && ReadsAs(ts[2 * i + 1], cells[2 * i + 1], vs[2 * i + 1]);
      }
    }
  }

  ghost predicate EntriesParse(t: Type, b: Bytes, entries: seq<Entry>)
    requires t.MapOf?
  {
    var counted := TakeCount(b);
    counted.Some? && counted.value.0 == |entries| && ParseEntries(t, |entries|, counted.value.1) == Some(entries)
  }

  lemma EntriesFormat(t: Type, b: Bytes, entries: seq<Entry>)
    requires t.MapOf? && Agrees(t.key) && Agrees(t.value)
    ensures EntriesReadAs(t, b, entries) <==> EntriesParse(t, b, entries)
  {
    if |b| >= 4 {
      CountFormat(b, |entries|, b[4..]);
      TurnsAre(t, |entries|);
      EntriesAreATuple(t, |entries|, b[4..]);
      TupleFormat(Turns(t, |entries|), b[4..], Flat(entries));
      EntriesReadAsATuple(t, b[4..], entries);
      if ParseEntries(t, |entries|, b[4..]).Some? && EntriesReadAs(t, b, entries) {
        FlatInjective(ParseEntries(t, |entries|, b[4..]).value, entries);
      }
    }
  }

  // The fields of a UDT.

  /** The first field, and then the others. */
  lemma FieldsInTurn(fs: seq<Field>, frame: Bytes, v: Py, tail: Bytes)
    requires fs != [] && ParseField(fs[0].typ, frame) == Some((v, tail))
    ensures ParseFields(fs, frame) ==
              match ParseFields(fs[1..], tail)
              case None => None
              case Some(es) => Some([Entry(PyStr(fs[0].name), v)] + es)
  {
  }

  lemma FieldIsRead(t: Type, slice: Bytes, cell: Option<Bytes>, rest: Bytes, v: Py)
    requires Agrees(t) && IsSlice(slice, cell) && ReadsAs(t, cell, v)
    ensures ParseField(t, slice + rest) == Some((v, rest))
  {
    SliceIsTaken(slice, cell, rest);
    assert Parse(t, cell) == Some(v);
  }

  lemma ReadIsField(t: Type, frame: Bytes, v: Py, tail: Bytes) returns (slice: Bytes, cell: Option<Bytes>)
    requires Agrees(t) && frame != [] && ParseField(t, frame) == Some((v, tail))
    ensures IsSlice(slice, cell) && ReadsAs(t, cell, v) && frame == slice + tail
  {
    assert ParseCell(t, frame) == Some((v, tail));
    cell := TakeCell(frame).value.0;
    slice := TakenIsSlice(frame);
    assert Parse(t, cell) == Some(v);
  }

  lemma {:induction false} FieldsAreRead(fs: seq<Field>, slices: seq<Bytes>, cells: seq<Option<Bytes>>, rest: Bytes,
            entries: seq<Entry>)
    requires |entries| == |fs| >= |cells| && IsFrame(Joined(slices) + rest, slices, cells, rest)
    requires (|cells| < |fs| ==> rest == []) && FieldsRead(fs, cells, entries)
    requires forall i :: 0 <= i < |fs| ==> Agrees(fs[i].typ)
    ensures ParseFields(fs, Joined(slices) + rest) == Some(entries)
  {
    if fs != [] {
      var t, e := fs[0].typ, entries[0];
      assert entries == [e] + entries[1..] && e == Entry(PyStr(fs[0].name), e.value);
      assert Agrees(t);
      if cells == [] {
        assert ReadsAs(t, None, e.value) && Joined(slices) + rest == [];
        FieldsAreRead(fs[1..], slices, cells, rest, entries[1..]);
        FieldsInTurn(fs, [], e.value, []);
      } else {
        var tail := Joined(slices[1..]) + rest;
        assert slices == [slices[0]] + slices[1..];
        JoinFirst(slices[0], slices[1..], rest);
        FieldIsRead(t, slices[0], cells[0], tail, e.value);
        FieldsAreRead(fs[1..], slices[1..], cells[1..], rest, entries[1..]);
        FieldsInTurn(fs, slices[0] + tail, e.value, tail);
      }
    }
  }

  lemma {:induction false} ReadAreFields(fs: seq<Field>, frame: Bytes, entries: seq<Entry>)
            returns (slices: seq<Bytes>, cells: seq<Option<Bytes>>, rest: Bytes)
    requires ParseFields(fs, frame) == Some(entries) && forall i :: 0 <= i < |fs| ==> Agrees(fs[i].typ)
    ensures |entries| == |fs| >= |cells| && IsFrame(frame, slices, cells, rest)
    ensures (|cells| < |fs| ==> rest == []) && FieldsRead(fs, cells, entries)
    ensures frame == [] ==> cells == []
  {
    slices, cells, rest := [], [], frame;
    if fs != [] {
      var t := fs[0].typ;
      var (v, tail) := ParseField(t, frame).value;
      FieldsInTurn(fs, frame, v, tail);
      assert Agrees(t);
      slices, cells, rest := ReadAreFields(fs[1..], tail, entries[1..]);
      if frame == [] {
        assert ReadsAs(t, None, v);
      } else {
        var first, cell := ReadIsField(t, frame, v, tail);
        JoinFirst(first, slices, rest);
        slices, cells := [first] + slices, [cell] + cells;
      }
    }
  }

  lemma FieldsFormat(fs: seq<Field>, b: Bytes, entries: seq<Entry>)
    requires forall i :: 0 <= i < |fs| ==> Agrees(fs[i].typ)
    ensures ParseFields(fs, b) == Some(entries) <==> FieldsReadAs(fs, b, entries)
  {
    if FieldsReadAs(fs, b, entries) {
      var slices, cells, rest :| IsFrame(b, slices, cells, rest) && |cells| <= |fs|
        && (|cells| < |fs| ==> rest == []) && FieldsRead(fs, cells, entries);
      FieldsAreRead(fs, slices, cells, rest, entries);
    } else if ParseFields(fs, b) == Some(entries) {
      var slices, cells, rest := ReadAreFields(fs, b, entries);
    }
  }

  // All the types.

  lemma LeafRead(t: Type, b: Bytes, v: Py)
    requires IsLeaf(t)
    ensures Parse(t, Some(b)) == Some(v) <==> ReadsAs(t, Some(b), v)
  {
    if t.IntOf? && b != [] {
      if v.PyInt? {
        IntRead(t.kind, v.n, b);
      }
      IntRead(t.kind, DecodeInt(b), b);
    }
  }

  lemma ListRead(t: Type, b: Bytes, v: Py)
    requires (t.ListOf? || t.SetOf?) && b != [] && Agrees(t.element)
    ensures Parse(t, Some(b)) == Some(v) <==> ReadsAs(t, Some(b), v)
  {
    forall vs ensures ItemsReadAs(t.element, b, vs) <==> ItemsParse(t.element, b, vs) {
      ItemsFormat(t.element, b, vs);
    }
    if TakeCount(b).Some? {
      var (n, frame) := TakeCount(b).value;
      ParsedAreCounted(t.element, n, frame);
    }
  }

  lemma {:induction false} ParsedAreCounted(t: Type, n: nat, frame: Bytes)
    ensures ParseCells(t, n, frame).Some? ==> |ParseCells(t, n, frame).value| == n
  {
    if n > 0 && ParseCell(t, frame).Some? {
      ParsedAreCounted(t, n - 1, ParseCell(t, frame).value.1);
    }
  }

  lemma DictRead(t: Type, b: Bytes, v: Py)
    requires t.MapOf? && b != [] && Agrees(t.key) && Agrees(t.value)
    ensures Parse(t, Some(b)) == Some(v) <==> ReadsAs(t, Some(b), v)
  {
    forall entries ensures EntriesReadAs(t, b, entries) <==> EntriesParse(t, b, entries) {
      EntriesFormat(t, b, entries);
    }
    if TakeCount(b).Some? {
      var (n, frame) := TakeCount(b).value;
      EntriesAreATuple(t, n, frame);
    }
  }

  lemma UdtRead(t: Type, b: Bytes, v: Py)
    requires t.UdtOf? && b != [] && forall i :: 0 <= i < |t.fields| ==> Agrees(t.fields[i].typ)
    ensures Parse(t, Some(b)) == Some(v) <==> ReadsAs(t, Some(b), v)
  {
    forall entries ensures ParseFields(t.fields, b) == Some(entries) <==> FieldsReadAs(t.fields, b, entries) {
      FieldsFormat(t.fields, b, entries);
    }
  }

  lemma TupleRead(t: Type, b: Bytes, v: Py)
    requires t.TupleOf? && b != [] && forall i :: 0 <= i < |t.elements| ==> Agrees(t.elements[i])
    ensures Parse(t, Some(b)) == Some(v) <==> ReadsAs(t, Some(b), v)
  {
    if v.PyTuple? {
      TupleFormat(t.elements, b, v.items);
    }
  }

  /** For every type, every cell and every value: the parser reads the cell as the value if, and
      only if, it stands for it. */
  lemma {:induction false} ReadsExactly(t: Type)
    ensures Agrees(t)
    decreases t
  {
    match t {
      case ListOf(e) => ReadsExactly(e);
      case SetOf(e) => ReadsExactly(e);
      case MapOf(k, w) => ReadsExactly(k); ReadsExactly(w);
      case TupleOf(ts) => forall i | 0 <= i < |ts| ensures Agrees(ts[i]) { ReadsExactly(ts[i]); }
      case UdtOf(fs) => forall i | 0 <= i < |fs| ensures Agrees(fs[i].typ) { ReadsExactly(fs[i].typ); }
      case _ =>
    }
    forall cell, v ensures Parse(t, cell) == Some(v) <==> ReadsAs(t, cell, v) {
      if cell.Some? && (cell.value != [] || IsLeaf(t)) {
        match t {
          case ListOf(_) => ListRead(t, cell.value, v);
          case SetOf(_) => ListRead(t, cell.value, v);
          case MapOf(_, _) => DictRead(t, cell.value, v);
          case TupleOf(_) => TupleRead(t, cell.value, v);
          case UdtOf(_) => UdtRead(t, cell.value, v);
          case _ => LeafRead(t, cell.value, v);
        }
      }
    }
  }
}
