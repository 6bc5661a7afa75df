/** The codec as the program runs it: dispatch on the type, and loops that append to a buffer
    or fill a collection, stopping at the first error. */
module CodecLoops {
  import opened Common
  import opened BigEndian
  import opened Codec

  // -------------------------------------------------------------------------------------- writing

  lemma BothMoves(buffer: Bytes, first: Written, rest: Written)
    ensures first.Err? ==> Both(Ok(buffer), Both(first, rest)) == Err(first.error)
    ensures first.Ok? ==> Both(Ok(buffer), Both(first, rest)) == Both(Ok(buffer + first.value), rest)
  {
    if first.Ok? && rest.Ok? {
      assert buffer + (first.value + rest.value) == (buffer + first.value) + rest.value;
    }
  }

  lemma BothOfAll(buffer: Bytes, cells: Written)
    ensures Both(Ok([]), cells) == cells && Both(Ok(buffer), Ok([])) == Ok(buffer)
  {
    assert buffer + [] == buffer;
    if cells.Ok? {
      assert [] + cells.value == cells.value;
    }
  }

  /** `serialize_arbitrary_value`. */
  method WriteValue(t: Type, v: Py) returns (written: Written)
    ensures written == Contents(t, v)
    decreases t, 1
  {
    match (t, v) {
      case (IntOf(kind), PyInt(n)) => written := IntBytes(n, kind.Width());
      case (IntOf(kind), PyBool(b)) => written := IntBytes(if b then 1 else 0, kind.Width());
      case (Boolean, PyBool(b)) => written := Ok([if b then 1 else 0]);
      case (Text, PyStr(utf8)) => written := Sized(utf8);
      case (Blob, PyBytes(bytes)) => written := Sized(bytes);
      case (ListOf(e), PyList(items)) => written := WriteSequence(e, items);
      case (SetOf(e), PySet(items)) => written := WriteSequence(e, items);
      case (MapOf(_, _), PyDict(entries)) => written := WriteMap(t, entries);
      case (TupleOf(ts), PyTuple(items)) => written := WriteTuple(ts, items);
      case (UdtOf(fs), PyDict(entries)) => written := WriteUdt(fs, entries);
      case _ => written := Err(Mismatch);
    }
  }

  method WriteCell(t: Type, v: Py) returns (written: Written)
    ensures written == Cell(t, v)
    decreases t, 2
  {
    if v.PyNone? {
      return Ok(Int32(-1));
    }
    var contents := WriteValue(t, v);
    written := Framed(contents);
  }

  method WriteSequence(e: Type, items: seq<Py>) returns (written: Written)
    ensures written == Counted(|items|, Cells(e, items))
    decreases e, 3
  {
    if |items| > MAX {
      return Err(TooManyElements);
    }
    var buffer: Bytes := [];
    BothOfAll([], Cells(e, items));
    for i := 0 to |items|
      invariant Both(Ok(buffer), Cells(e, items[i..])) == Cells(e, items)
    {
      var cell := WriteCell(e, items[i]);
      assert items[i..][0] == items[i] && items[i..][1..] == items[i + 1..];
      BothMoves(buffer, cell, Cells(e, items[i + 1..]));
      if cell.Err? {
        return cell;
      }
      buffer := buffer + cell.value;
    }
    BothOfAll(buffer, Ok([]));
    written := Sized(Int32(|items|) + buffer);
  }

  method WriteMap(t: Type, entries: seq<Entry>) returns (written: Written)
    requires t.MapOf?
    ensures written == Counted(|entries|, EntryCells(t, entries))
    decreases t, 0
  {
    if |entries| > MAX {
      return Err(TooManyElements);
    }
    var buffer: Bytes := [];
    BothOfAll([], EntryCells(t, entries));
    for i := 0 to |entries|
      invariant Both(Ok(buffer), EntryCells(t, entries[i..])) == EntryCells(t, entries)
    {
      var key := WriteCell(t.key, entries[i].key);
      assert entries[i..][0] == entries[i] && entries[i..][1..] == entries[i + 1..];
      ghost var pair := Both(Cell(t.key, entries[i].key), Cell(t.value, entries[i].value));
      BothMoves(buffer, pair, EntryCells(t, entries[i + 1..]));
      if key.Err? {
        return key;
      }
      var value := WriteCell(t.value, entries[i].value);
      if value.Err? {
        return value;
      }
      assert pair == Ok(key.value + value.value);
      assert buffer + (key.value + value.value) == buffer + key.value + value.value;
      buffer := buffer + key.value + value.value;
    }
    BothOfAll(buffer, Ok([]));
    written := Sized(Int32(|entries|) + buffer);
  }

  method WriteTuple(ts: seq<Type>, items: seq<Py>) returns (written: Written)
    ensures written == if |items| > |ts| then Err(WrongElementCount) else SizedCells(TupleCells(ts, items))
    decreases ts, 0
  {
    if |items| > |ts| {
      return Err(WrongElementCount);
    }
    var buffer: Bytes := [];
    BothOfAll([], TupleCells(ts, items));
    for i := 0 to |items|
      invariant Both(Ok(buffer), TupleCells(ts[i..], items[i..])) == TupleCells(ts, items)
    {
      var contents := WriteValue(ts[i], items[i]);
      assert ts[i..][0] == ts[i] && ts[i..][1..] == ts[i + 1..];
      assert items[i..][0] == items[i] && items[i..][1..] == items[i + 1..];
      BothMoves(buffer, Framed(contents), TupleCells(ts[i + 1..], items[i + 1..]));
      var cell := Framed(contents);
      if cell.Err? {
        return cell;
      }
      buffer := buffer + cell.value;
    }
    BothOfAll(buffer, Ok([]));
    written := Sized(buffer);
  }

  method WriteUdt(fs: seq<Field>, entries: seq<Entry>) returns (written: Written)
    ensures written == SizedCells(FieldCells(fs, entries))
    decreases fs, 0
  {
    var buffer: Bytes := [];
    BothOfAll([], FieldCells(fs, entries));
    for i := 0 to |fs|
      invariant Both(Ok(buffer), FieldCells(fs[i..], entries)) == FieldCells(fs, entries)
    {
      assert fs[i..][0] == fs[i] && fs[i..][1..] == fs[i + 1..];
      var item := Lookup(entries, PyStr(fs[i].name));
      if item.None? {
        return Err(MissingField);
      }
      var contents := WriteValue(fs[i].typ, item.value);
      BothMoves(buffer, Framed(contents), FieldCells(fs[i + 1..], entries));
      var cell := Framed(contents);
      if cell.Err? {
        return cell;
      }
      buffer := buffer + cell.value;
    }
    BothOfAll(buffer, Ok([]));
    written := Sized(buffer);
  }

  // -------------------------------------------------------------------------------------- reading

  /** What was read already, and what is read of the rest. */
  function After<T>(read: seq<T>, rest: Option<seq<T>>): Option<seq<T>> {
    if rest.None? then None else Some(read + rest.value)
  }

  lemma AfterMoves<T>(read: seq<T>, x: T, rest: Option<seq<T>>)
    ensures After(read, After([x], rest)) == After(read + [x], rest)
    ensures After([], rest) == rest && After(read, Some([])) == Some(read)
  {
    if rest.Some? {
      assert read + ([x] + rest.value) == (read + [x]) + rest.value;
      assert [] + rest.value == rest.value;
    }
    assert read + [] == read;
  }

  lemma {:induction false} OnceUnhashable(read: seq<Py>, more: seq<Py>)
    requires SetOfItems(read).None?
    ensures SetOfItems(read + more).None?
    decreases |more|
  {
    if more == [] {
      assert read + more == read;
    } else {
      var last := |more| - 1;
      OnceUnhashable(read, more[..last]);
      assert (read + more)[..|read + more| - 1] == read + more[..last];
    }
  }

  lemma {:induction false} OnceUnhashableKey(read: seq<Entry>, more: seq<Entry>)
    requires DictOfEntries(read).None?
    ensures DictOfEntries(read + more).None?
    decreases |more|
  {
    if more == [] {
      assert read + more == read;
    } else {
      var last := |more| - 1;
      OnceUnhashableKey(read, more[..last]);
      assert (read + more)[..|read + more| - 1] == read + more[..last];
    }
  }

  method ReadCell(t: Type, frame: Bytes) returns (read: Option<(Py, Bytes)>)
    ensures read == ParseCell(t, frame)
    decreases t, 2
  {
    var cell := TakeCell(frame);
    if cell.None? {
      return None;
    }
    var v := ReadValue(t, cell.value.0);
    read := if v.None? then None else Some((v.value, cell.value.1));
  }

  /** `deser_cql_py_value`. */
  method ReadValue(t: Type, cell: Option<Bytes>) returns (v: Option<Py>)
    ensures v == Parse(t, cell)
    decreases t, 1
  {
    if cell == Some([]) && !t.Text? && !t.Blob? {
      return Some(PyEmpty);
    }
    if cell.None? {
      match t {
        case ListOf(_) => return Some(PyList([]));
        case SetOf(_) => return Some(PySet([]));
        case MapOf(_, _) => return Some(PyDict([]));
        case _ => return Some(PyNone);
      }
    }
    var bytes := cell.value;
    match t {
      case IntOf(kind) => v := if |bytes| == kind.Width() then Some(PyInt(DecodeInt(bytes))) else None;
      case Boolean => v := if |bytes| == 1 then Some(PyBool(bytes[0] != 0)) else None;
      case Text => v := Some(PyStr(bytes));
      case Blob => v := Some(PyBytes(bytes));
      case ListOf(e) => v := ReadList(e, bytes);
      case SetOf(e) => v := ReadSet(e, bytes);
      case MapOf(_, _) => v := ReadMap(t, bytes);
      case TupleOf(ts) => v := ReadTuple(ts, bytes);
      case UdtOf(fs) => v := ReadUdt(fs, bytes);
    }
  }

  method ReadList(e: Type, bytes: Bytes) returns (v: Option<Py>)
    ensures v == match TakeCount(bytes) case None => None case Some((n, rest)) => AsList(ParseCells(e, n, rest))
    decreases e, 3
  {
    var counted := TakeCount(bytes);
    if counted.None? {
      return None;
    }
    var (n, frame) := counted.value;
    var list: seq<Py> := [];
    AfterMoves([], PyNone, ParseCells(e, n, frame));
    for i := 0 to n
      invariant After(list, ParseCells(e, n - i, frame)) == ParseCells(e, n, counted.value.1)
    {
      var read := ReadCell(e, frame);
      if read.None? {
        return None;
      }
      AfterMoves(list, read.value.0, ParseCells(e, n - i - 1, read.value.1));
      list, frame := list + [read.value.0], read.value.1;
    }
    AfterMoves(list, PyNone, Some([]));
    v := Some(PyList(list));
  }

  method ReadSet(e: Type, bytes: Bytes) returns (v: Option<Py>)
    ensures v == match TakeCount(bytes) case None => None case Some((n, rest)) => AsSet(ParseCells(e, n, rest))
    decreases e, 3
  {
    var counted := TakeCount(bytes);
    if counted.None? {
      return None;
    }
    var (n, frame) := counted.value;
    ghost var all := ParseCells(e, n, frame);
    var items: seq<Py> := [];
    ghost var list: seq<Py> := [];
    AfterMoves([], PyNone, all);
    for i := 0 to n
      invariant After(list, ParseCells(e, n - i, frame)) == all
      invariant SetOfItems(list) == Some(items)
    {
      var read := ReadCell(e, frame);
      if read.None? {
        return None;
      }
      ghost var rest := ParseCells(e, n - i - 1, read.value.1);
      AfterMoves(list, read.value.0, rest);
      assert (list + [read.value.0])[..|list|] == list;
      list, frame := list + [read.value.0], read.value.1;
      var added := AddTo(Some(items), read.value.0);
      if added.None? {
        if rest.Some? {
          OnceUnhashable(list, rest.value);
        }
        return None;
      }
      items := added.value;
    }
    AfterMoves(list, PyNone, Some([]));
    v := Some(PySet(items));
  }

  method ReadMap(t: Type, bytes: Bytes) returns (v: Option<Py>)
    requires t.MapOf?
    ensures v == match TakeCount(bytes) case None => None case Some((n, rest)) => AsDict(ParseEntries(t, n, rest))
    decreases t, 0
  {
    var counted := TakeCount(bytes);
    if counted.None? {
      return None;
    }
    var (n, frame) := counted.value;
    ghost var all := ParseEntries(t, n, frame);
    var dict: seq<Entry> := [];
    ghost var list: seq<Entry> := [];
    AfterMoves([], Entry(PyNone, PyNone), all);
    for i := 0 to n
      invariant After(list, ParseEntries(t, n - i, frame)) == all
      invariant DictOfEntries(list) == Some(dict)
    {
      var key := ReadCell(t.key, frame);
      if key.None? {
        return None;
      }
      var value := ReadCell(t.value, key.value.1);
      if value.None? {
        return None;
      }
      var e := Entry(key.value.0, value.value.0);
      ghost var rest := ParseEntries(t, n - i - 1, value.value.1);
      AfterMoves(list, e, rest);
      assert (list + [e])[..|list|] == list;
      list, frame := list + [e], value.value.1;
      var set_ := SetIn(Some(dict), e);
      if set_.None? {
        if rest.Some? {
          OnceUnhashableKey(list, rest.value);
        }
        return None;
      }
      dict := set_.value;
    }
    AfterMoves(list, Entry(PyNone, PyNone), Some([]));
    v := Some(PyDict(dict));
  }

  method ReadTuple(ts: seq<Type>, bytes: Bytes) returns (v: Option<Py>)
    ensures v == AsTuple(ParseTuple(ts, bytes))
    decreases ts, 0
  {
    var items: seq<Py>, frame := [], bytes;
    AfterMoves([], PyNone, ParseTuple(ts, bytes));
    for i := 0 to |ts|
      invariant After(items, ParseTuple(ts[i..], frame)) == ParseTuple(ts, bytes)
    {
      assert ts[i..][0] == ts[i] && ts[i..][1..] == ts[i + 1..];
      var read := ReadCell(ts[i], frame);
      if read.None? {
        return None;
      }
      AfterMoves(items, read.value.0, ParseTuple(ts[i + 1..], read.value.1));
      items, frame := items + [read.value.0], read.value.1;
    }
    AfterMoves(items, PyNone, Some([]));
    v := Some(PyTuple(items));
  }

  method ReadUdt(fs: seq<Field>, bytes: Bytes) returns (v: Option<Py>)
    ensures v == AsDict(ParseFields(fs, bytes))
    decreases fs, 0
  {
    var dict: seq<Entry>, frame := [], bytes;
    ghost var list: seq<Entry>, all := [], ParseFields(fs, bytes);
    AfterMoves([], Entry(PyNone, PyNone), all);
    for i := 0 to |fs|
      invariant After(list, ParseFields(fs[i..], frame)) == all
      invariant DictOfEntries(list) == Some(dict)
    {
      assert fs[i..][0] == fs[i] && fs[i..][1..] == fs[i + 1..];
      var value: Py;
      if frame == [] {
        var missing := ReadValue(fs[i].typ, None);
        if missing.None? {
          return None;
        }
        value := missing.value;
      } else {
        var read := ReadCell(fs[i].typ, frame);
        if read.None? {
          return None;
        }
        value, frame := read.value.0, read.value.1;
      }
      var e := Entry(PyStr(fs[i].name), value);
      AfterMoves(list, e, ParseFields(fs[i + 1..], frame));
      assert (list + [e])[..|list|] == list;
      list := list + [e];
      dict := SetIn(Some(dict), e).value;
    }
    AfterMoves(list, Entry(PyNone, PyNone), Some([]));
    v := Some(PyDict(dict));
  }
}
