/** Python values as CQL values and back, after sections 6 and 7 of the CQL binary protocol v4.
    A value is a cell: a length and that many bytes, or -1 for null. */
module Codec {
  import opened Common
  import opened BigEndian

  type Bytes = seq<Byte>

  datatype IntKind = TinyInt | SmallInt | Int | BigInt | Counter {
    function Width(): (w: nat)
      ensures w > 0
    {
      match this
      case TinyInt => 1
      case SmallInt => 2
      case Int => 4
      case BigInt => 8
      case Counter => 8
    }
  }

  datatype Type =
    | IntOf(kind: IntKind)
    | Boolean
    | Text
    | Blob
    | ListOf(element: Type)
    | SetOf(element: Type)
    | MapOf(key: Type, value: Type)
    | TupleOf(elements: seq<Type>)
    | UdtOf(fields: seq<Field>)

  datatype Field = Field(name: Bytes, typ: Type)

  /** A Python value. A text is its UTF-8 bytes; a set or dict is what iterating it gives. */
  datatype Py =
    | PyNone
    | PyBool(b: bool)
    | PyInt(n: int)
    | PyStr(utf8: Bytes)
    | PyBytes(bytes: Bytes)
    | PyList(items: seq<Py>)
    | PySet(items: seq<Py>)
    | PyDict(entries: seq<Entry>)
    | PyTuple(items: seq<Py>)
    /** The object read for a value of no bytes. */
    | PyEmpty

  datatype Entry = Entry(key: Py, value: Py)

  datatype Error = Mismatch | ValueOverflow | TooManyElements | SizeOverflow | MissingField | WrongElementCount

  type Written = Result<Bytes, Error>

  /** The largest count and length. */
  const MAX: nat := 0x7fff_ffff

  // -------------------------------------------------------------------------------------- writing

  function Int32(n: int): (bytes: Bytes)
    requires -1 <= n <= MAX
    ensures |bytes| == 4
  {
    assert Span(1) == 256 && Span(2) == 0x1_0000 && Span(3) == 0x100_0000 && Span(4) == 0x1_0000_0000;
    EncodeInt(n, 4)
  }

  /** A value is written once its length fits the frame. */
  function Sized(bytes: Bytes): Written {
    if |bytes| > MAX then Err(SizeOverflow) else Ok(bytes)
  }

  /** The cell of a value that is not null. */
  function Framed(contents: Written): Written {
    match contents
    case Err(e) => Err(e)
    case Ok(bytes) => if |bytes| > MAX then Err(SizeOverflow) else Ok(Int32(|bytes|) + bytes)
  }

  function Both(first: Written, rest: Written): Written {
    match first
    case Err(e) => Err(e)
    case Ok(a) =>
      match rest
      case Err(e) => Err(e)
      case Ok(b) => Ok(a + b)
  }

  /** A count and the elements' cells. */
  function Counted(count: nat, cells: Written): Written {
    if count > MAX then Err(TooManyElements)
    else
      match cells
      case Err(e) => Err(e)
      case Ok(bytes) => Sized(Int32(count) + bytes)
  }

  function SizedCells(cells: Written): Written {
    match cells
    case Err(e) => Err(e)
    case Ok(bytes) => Sized(bytes)
  }

  function IntBytes(n: int, width: nat): Written
    requires width > 0
  {
    if Fits(n, width) then Ok(EncodeInt(n, width)) else Err(ValueOverflow)
  }

  function Lookup(entries: seq<Entry>, key: Py): Option<Py> {
    if entries == [] then None
    else if entries[0].key == key then Some(entries[0].value)
    else Lookup(entries[1..], key)
  }

  /** The bytes of a value; None is not one. */
  function Contents(t: Type, v: Py): Written
    decreases t, 1
  {
    match (t, v)
    case (IntOf(kind), PyInt(n)) => IntBytes(n, kind.Width())
    // A Python bool is an int.
    case (IntOf(kind), PyBool(b)) => IntBytes(if b then 1 else 0, kind.Width())
    case (Boolean, PyBool(b)) => Ok([if b then 1 else 0])
    case (Text, PyStr(utf8)) => Sized(utf8)
    case (Blob, PyBytes(bytes)) => Sized(bytes)
    case (ListOf(e), PyList(items)) => Counted(|items|, Cells(e, items))
    case (SetOf(e), PySet(items)) => Counted(|items|, Cells(e, items))
    case (MapOf(_, _), PyDict(entries)) => Counted(|entries|, EntryCells(t, entries))
    case (TupleOf(ts), PyTuple(items)) =>
      if |items| > |ts| then Err(WrongElementCount) else SizedCells(TupleCells(ts, items))
    case (UdtOf(fs), PyDict(entries)) => SizedCells(FieldCells(fs, entries))
    case _ => Err(Mismatch)
  }

  /** The cell of a value, null for None. */
  function Cell(t: Type, v: Py): Written
    decreases t, 2
  {
    if v.PyNone? then Ok(Int32(-1)) else Framed(Contents(t, v))
  }

  function Cells(t: Type, vs: seq<Py>): Written
    decreases t, 3, |vs|
  {
    if vs == [] then Ok([]) else Both(Cell(t, vs[0]), Cells(t, vs[1..]))
  }

  function EntryCells(t: Type, entries: seq<Entry>): Written
    requires t.MapOf?
    decreases t, 0, |entries|
  {
    if entries == [] then Ok([])
    else Both(Both(Cell(t.key, entries[0].key), Cell(t.value, entries[0].value)), EntryCells(t, entries[1..]))
  }

  /** The elements of a tuple, as many as there are; none of them may be None. */
  function TupleCells(ts: seq<Type>, vs: seq<Py>): Written
    requires |vs| <= |ts|
    decreases ts
  {
    if vs == [] then Ok([]) else Both(Framed(Contents(ts[0], vs[0])), TupleCells(ts[1..], vs[1..]))
  }

  /** The fields of a UDT, in its order; none of them may be missing or None. */
  function FieldCells(fs: seq<Field>, entries: seq<Entry>): Written
    decreases fs
  {
    if fs == [] then Ok([])
    else
      match Lookup(entries, PyStr(fs[0].name))
      case None => Err(MissingField)
      case Some(v) => Both(Framed(Contents(fs[0].typ, v)), FieldCells(fs[1..], entries))
  }

  // -------------------------------------------------------------------------------------- reading

  /** The cell at the front of a frame, null or a slice, and what follows it. */
  function TakeCell(frame: Bytes): Option<(Option<Bytes>, Bytes)> {
    if |frame| < 4 then None
    else
      var n := DecodeInt(frame[..4]);
      if n < 0 then Some((None, frame[4..]))
      else if n > |frame| - 4 then None
      else Some((Some(frame[4..4 + n]), frame[4 + n..]))
  }

  /** The count at the front of a collection. */
  function TakeCount(frame: Bytes): Option<(nat, Bytes)> {
    if |frame| < 4 || DecodeInt(frame[..4]) < 0 then None else Some((DecodeInt(frame[..4]), frame[4..]))
  }

  /** What can be in a set, or a key of a dict. */
  predicate Hashable(v: Py) {
    match v
    case PyList(_) => false
    case PySet(_) => false
    case PyDict(_) => false
    case PyTuple(items) => forall i :: 0 <= i < |items| ==> Hashable(items[i])
    case _ => true
  }

  /** Adds to a set, in which an element is only once. */
  function AddTo(set_: Option<seq<Py>>, item: Py): Option<seq<Py>> {
    match set_
    case None => None
    case Some(items) =>
      if !Hashable(item) then None else if item in items then set_ else Some(items + [item])
  }

  function SetOfItems(items: seq<Py>): Option<seq<Py>> {
    if items == [] then Some([]) else AddTo(SetOfItems(items[..|items| - 1]), items[|items| - 1])
  }

  function IndexOf(entries: seq<Entry>, key: Py): (i: nat)
    ensures i <= |entries|
    ensures i < |entries| ==> entries[i].key == key
    ensures forall j :: 0 <= j < i ==> entries[j].key != key
  {
    if entries == [] || entries[0].key == key then 0 else 1 + IndexOf(entries[1..], key)
  }

  /** Sets an item of a dict; a key that is there keeps its place. */
  function SetIn(dict: Option<seq<Entry>>, e: Entry): Option<seq<Entry>> {
    match dict
    case None => None
    case Some(entries) =>
      var i := IndexOf(entries, e.key);
      if !Hashable(e.key) then None
      else if i < |entries| then Some(entries[i := Entry(e.key, e.value)])
      else Some(entries + [e])
  }

  function DictOfEntries(entries: seq<Entry>): Option<seq<Entry>> {
    if entries == [] then Some([]) else SetIn(DictOfEntries(entries[..|entries| - 1]), entries[|entries| - 1])
  }

  function AsList(items: Option<seq<Py>>): Option<Py> {
    if items.Some? then Some(PyList(items.value)) else None
  }

  function AsSet(items: Option<seq<Py>>): Option<Py> {
    if items.None? || SetOfItems(items.value).None? then None else Some(PySet(SetOfItems(items.value).value))
  }

  function AsDict(entries: Option<seq<Entry>>): Option<Py> {
    if entries.None? || DictOfEntries(entries.value).None? then None
        else Some(PyDict(DictOfEntries(entries.value).value))
  }

  function AsTuple(items: Option<seq<Py>>): Option<Py> {
    if items.Some? then Some(PyTuple(items.value)) else None
  }

  /** The value of a cell; nothing if it cannot be read. */
  function Parse(t: Type, cell: Option<Bytes>): Option<Py>
    decreases t, 1
  {
    if cell == Some([]) && !t.Text? && !t.Blob? then Some(PyEmpty)
    else
      match cell
      case None => Some(if t.ListOf? then PyList([]) else if t.SetOf? then PySet([])
          else if t.MapOf? then PyDict([]) else PyNone)
      case Some(bytes) =>
        match t
        case IntOf(kind) => if |bytes| == kind.Width() then Some(PyInt(DecodeInt(bytes))) else None
        case Boolean => if |bytes| == 1 then Some(PyBool(bytes[0] != 0)) else None
        case Text => Some(PyStr(bytes))
        case Blob => Some(PyBytes(bytes))
        case ListOf(e) =>
          (match TakeCount(bytes)
           case None => None
           case Some((n, rest)) => AsList(ParseCells(e, n, rest)))
        case SetOf(e) =>
          (match TakeCount(bytes)
           case None => None
           case Some((n, rest)) => AsSet(ParseCells(e, n, rest)))
        case MapOf(_, _) =>
          (match TakeCount(bytes)
           case None => None
           case Some((n, rest)) => AsDict(ParseEntries(t, n, rest)))
        case TupleOf(ts) => AsTuple(ParseTuple(ts, bytes))
        case UdtOf(fs) => AsDict(ParseFields(fs, bytes))
  }

  /** The cell at the front of a frame as a value of type `t`. */
  function ParseCell(t: Type, frame: Bytes): Option<(Py, Bytes)>
    decreases t, 2
  {
    match TakeCell(frame)
    case None => None
    case Some((cell, rest)) =>
      match Parse(t, cell)
      case None => None
      case Some(v) => Some((v, rest))
  }

  function ParseCells(t: Type, n: nat, frame: Bytes): Option<seq<Py>>
    decreases t, 3, n
  {
    if n == 0 then Some([])
    else
      match ParseCell(t, frame)
      case None => None
      case Some((v, rest)) =>
        match ParseCells(t, n - 1, rest)
        case None => None
        case Some(vs) => Some([v] + vs)
  }

  function ParseEntries(t: Type, n: nat, frame: Bytes): Option<seq<Entry>>
    requires t.MapOf?
    decreases t, 0, n
  {
    if n == 0 then Some([])
    else
      match ParseCell(t.key, frame)
      case None => None
      case Some((k, rest)) =>
        match ParseCell(t.value, rest)
        case None => None
        case Some((v, rest')) =>
          match ParseEntries(t, n - 1, rest')
          case None => None
          case Some(es) => Some([Entry(k, v)] + es)
  }

  /** A tuple has all its elements. */
  function ParseTuple(ts: seq<Type>, frame: Bytes): Option<seq<Py>>
    decreases ts
  {
    if ts == [] then Some([])
    else
      match ParseCell(ts[0], frame)
      case None => None
      case Some((v, rest)) =>
        match ParseTuple(ts[1..], rest)
        case None => None
        case Some(vs) => Some([v] + vs)
  }

  /** Fields missing at the end of a UDT are null. */
  function ParseField(t: Type, frame: Bytes): Option<(Py, Bytes)>
    decreases t, 3
  {
    if frame != [] then ParseCell(t, frame)
    else
      match Parse(t, None)
      case None => None
      case Some(v) => Some((v, []))
  }

  function ParseFields(fs: seq<Field>, frame: Bytes): Option<seq<Entry>>
    decreases fs
  {
    if fs == [] then Some([])
    else
      match ParseField(fs[0].typ, frame)
      case None => None
      case Some((v, rest)) =>
        match ParseFields(fs[1..], rest)
        case None => None
        case Some(es) => Some([Entry(PyStr(fs[0].name), v)] + es)
  }
}
