/**
 * Composite types, that is described lists (ramqp-core/src/codec/described.rs and encode.rs:249-340): fields
 * written in order with trailing nulls left out, and read back field by field. Section 1.4 of Part 1 of the
 * AMQP 1.0 specification.
 */
module Composite {
  import opened Collections
  import opened Wire
  import opened Values
  import opened ValueDecode

  /** How a field is declared; `ty` restricts its variant, `None` is any value. */
  datatype Kind =
    | Req(ty: Option<nat>)
    | Opt(ty: Option<nat>)
    | Default(ty: Option<nat>, default: Value)
    | Symbols
    | ReqSymbols

  /** What a field holds. */
  datatype Field = Absent | Present(v: Value) | Syms(ss: seq<seq<byte>>)

  /** What is written for a field. */
  datatype Cell = Plain(v: Value) | SymbolArray(ss: seq<seq<byte>>)

  // ---------------------------------------------------------------- writing

  function SymbolBodies(ss: seq<seq<byte>>): seq<byte> {
    if ss == [] then [] else BE(|ss[0]|, 4) + ss[0] + SymbolBodies(ss[1..])
  }

  function CellBytes(c: Cell): seq<byte> {
    match c
    case Plain(v) => Enc(v)
    case SymbolArray(ss) => [ARRAY32] + Sized(|ss|, [SYM32] + SymbolBodies(ss))
  }

  function CellOf(kind: Kind, f: Field): Cell {
    match f
    case Absent => Plain(Null)
    case Present(v) => Plain(v)
    case Syms(ss) => if kind.Symbols? && ss == [] then Plain(Null) else SymbolArray(ss)
  }

  function Concat(cs: seq<Cell>): seq<byte> {
    if cs == [] then [] else CellBytes(cs[0]) + Concat(cs[1..])
  }

  /** How many cells are left once the trailing nulls are gone. */
  function KeepCount(cs: seq<Cell>): (n: nat)
    ensures n <= |cs|
  {
    if cs == [] then 0
    else if CellBytes(cs[|cs| - 1]) == [NULL] then KeepCount(cs[..|cs| - 1])
    else |cs|
  }

  /** Only bare nulls are left out, and as many of them as there are. */
  lemma {:induction false} KeepCountCuts(cs: seq<Cell>)
    ensures var n := KeepCount(cs);
            && (n > 0 ==> CellBytes(cs[n - 1]) != [NULL])
            && (forall i :: n <= i < |cs| ==> CellBytes(cs[i]) == [NULL])
  {
    hide CellBytes;
    if cs != [] && CellBytes(cs[|cs| - 1]) == [NULL] {
      var rest := cs[..|cs| - 1];
      KeepCountCuts(rest);
      forall i | KeepCount(cs) <= i < |cs| ensures CellBytes(cs[i]) == [NULL] {
        if i < |cs| - 1 { assert rest[i] == cs[i]; }
      }
    }
  }

  function DescriptorBytes(code: nat): seq<byte> {
    if code <= 255 then [SMALL_ULONG] + BE(code, 1) else [ULONG] + BE(code, 8)
  }

  function ListBytes(code: nat, count: nat, content: seq<byte>): seq<byte> {
    [DESCRIBED] + DescriptorBytes(code) + [LIST32] + Sized(count, content)
  }

  /** The encoding of a composite. */
  function EncodeList(code: nat, cs: seq<Cell>): seq<byte> {
    ListBytes(code, KeepCount(cs), Concat(cs[..KeepCount(cs)]))
  }

  // ---------------------------------------------------------------- reading

  /** A list decoder: the unread fields' bytes, and how many fields they are. */
  datatype Reader = Reader(body: seq<byte>, remaining: nat)

  datatype Read<+T> = Got(value: T, reader: Reader) | Bad(error: Error)

  /** The constructors each type's decoder accepts. */
  predicate CodeFor(tag: nat, code: byte) {
    if tag < 6 then CodeForUnsigned(tag, code)
    else if tag < 12 then CodeForSigned(tag, code)
    else CodeForOther(tag, code)
  }

  predicate CodeForUnsigned(tag: nat, code: byte) {
    || (tag == 0 && code == NULL)
    || (tag == 1 && (code == BOOL || code == BOOL_TRUE || code == BOOL_FALSE))
    || (tag == 2 && code == UBYTE)
    || (tag == 3 && code == USHORT)
    || (tag == 4 && (code == UINT || code == SMALL_UINT || code == UINT_0))
    || (tag == 5 && (code == ULONG || code == SMALL_ULONG || code == ULONG_0))
  }

  predicate CodeForSigned(tag: nat, code: byte) {
    || (tag == 6 && code == BYTE)
    || (tag == 7 && code == SHORT)
    || (tag == 8 && (code == INT || code == SMALL_INT))
    || (tag == 9 && (code == LONG || code == SMALL_LONG))
    || (tag == 10 && code == FLOAT)
    || (tag == 11 && code == DOUBLE)
  }

  predicate CodeForOther(tag: nat, code: byte) {
    || (tag == 12 && code == DECIMAL32)
    || (tag == 13 && code == DECIMAL64)
    || (tag == 14 && code == DECIMAL128)
    || (tag == 15 && code == CHAR)
    || (tag == 16 && code == TIMESTAMP)
    || (tag == 17 && code == UUID)
    || (tag == 18 && (code == VBIN8 || code == VBIN32))
    || (tag == 19 && (code == STR8 || code == STR32))
    || (tag == 20 && (code == SYM8 || code == SYM32))
    || (tag == 21 && (code == LIST_0 || code == LIST8 || code == LIST32))
    || (tag == 22 && (code == MAP8 || code == MAP32))
    || (tag == 23 && (code == ARRAY8 || code == ARRAY32))
    || (tag == 24 && code == DESCRIBED)
  }

  function ReadTyped(buf: seq<byte>, ty: Option<nat>): Result<Value> {
    if buf == [] then Err(Eof)
    else if ty.Some? && !CodeFor(ty.value, buf[0]) then Err(InvalidFormatCode)
    else DecodeValue(buf, 0)
  }

  predicate AtNull(buf: seq<byte>) { buf != [] && buf[0] == NULL }

  function ReadSymbolBody(ctor: byte, body: seq<byte>): Result<seq<byte>> {
    if ctor == SYM8 || ctor == SYM32 then
      match ReadVar(body, if ctor == SYM8 then 1 else 4)
      case Err(e) => Err(e)
      case Ok(raw, rest) => if Utf8(raw) then Ok(raw, rest) else Err(InvalidUtf8)
    else Err(InvalidFormatCode)
  }

  function ReadSymbolBodies(ctor: byte, body: seq<byte>, count: nat): Result<seq<seq<byte>>>
    decreases count
  {
    if count == 0 then Ok([], body) else
      match ReadSymbolBody(ctor, body)
      case Err(e) => Err(e)
      case Ok(s, rest) =>
        match ReadSymbolBodies(ctor, rest, count - 1)
        case Err(e) => Err(e)
        case Ok(ss, rest2) => Ok([s] + ss, rest2)
  }

  /** The content of a symbol array. */
  function ReadSymbolArray(f: Framed): Result<seq<seq<byte>>> {
    if f.count == 0 then Ok([], f.content)
    else if f.content == [] then Err(Eof)
    else ReadSymbolBodies(f.content[0], f.content[1..], f.count)
  }

  /** A `multiple` field that is there: an array of symbols, or a single one. */
  function ReadMultiple(buf: seq<byte>): Result<Field> {
    if buf != [] && (buf[0] == ARRAY8 || buf[0] == ARRAY32) then
      match ReadFrame(buf[1..], Width(buf[0]))
      case Err(e) => Err(e)
      case Ok(f, rest) =>
        (match ReadSymbolArray(f)
         case Err(e) => Err(e)
         case Ok(ss, _) => Ok(Syms(ss), rest))
    else
      match ReadTyped(buf, Some(20))
      case Err(e) => Err(e)
      case Ok(v, rest) => if v.Symbol? then Ok(Syms([v.raw]), rest) else Err(InvalidFormatCode)
  }

  /** What a field that is left out or null reads as; nothing for a mandatory one. */
  function WhenMissing(kind: Kind): Option<Field> {
    match kind
    case Req(_) => None
    case ReqSymbols => None
    case Opt(_) => Some(Absent)
    case Default(_, d) => Some(Present(d))
    case Symbols => Some(Syms([]))
  }

  /** A field that is neither left out nor null. */
  function ReadThere(kind: Kind, buf: seq<byte>): Result<Field> {
    if kind.Symbols? || kind.ReqSymbols? then ReadMultiple(buf)
    else
      match ReadTyped(buf, kind.ty)
      case Err(e) => Err(e)
      case Ok(v, rest) => Ok(Present(v), rest)
  }

  function ReadField(kind: Kind, r: Reader): Read<Field> {
    if r.remaining == 0 || AtNull(r.body) then
      match WhenMissing(kind)
      case None => Bad(MissingField)
      case Some(f) => Got(f, if r.remaining == 0 then r else Reader(r.body[1..], r.remaining - 1))
    else
      match ReadThere(kind, r.body)
      case Err(e) => Bad(e)
      case Ok(f, rest) => Got(f, Reader(rest, r.remaining - 1))
  }

  /** The fields of a schema, in order. */
  function ReadFields(kinds: seq<Kind>, r: Reader): Read<seq<Field>> {
    if kinds == [] then Got([], r) else
      match ReadField(kinds[0], r)
      case Bad(e) => Bad(e)
      case Got(f, r2) =>
        match ReadFields(kinds[1..], r2)
        case Bad(e) => Bad(e)
        case Got(fs, r3) => Got([f] + fs, r3)
  }

  function DecodeDescriptor(buf: seq<byte>): Result<Value> {
    if buf == [] then Err(Eof)
    else if buf[0] == ULONG_0 || buf[0] == SMALL_ULONG || buf[0] == ULONG || buf[0] == SYM8 || buf[0] == SYM32 then
      DecodeScalar(buf[0], buf[1..])
    else Err(InvalidFormatCode)
  }

  function ReadListHeader(buf: seq<byte>): Result<Framed> {
    if buf == [] then Err(Eof)
    else if buf[0] == LIST_0 then Ok(Framed(0, []), buf[1..])
    else if buf[0] == LIST8 || buf[0] == LIST32 then ReadFrame(buf[1..], Width(buf[0]))
    else Err(InvalidFormatCode)
  }

  /** Open a described list with the expected descriptor. */
  function OpenList(buf: seq<byte>, code: nat): Result<Framed> {
    if buf == [] then Err(Eof)
    else if buf[0] != DESCRIBED then Err(InvalidFormatCode)
    else
      match DecodeDescriptor(buf[1..])
      case Err(e) => Err(e)
      case Ok(d, rest) => if d == Ulong(code) then ReadListHeader(rest) else Err(UnexpectedDescriptor)
  }

  /** Decode a composite; fields beyond the schema are ignored. */
  function DecodeList(buf: seq<byte>, code: nat, kinds: seq<Kind>): Result<seq<Field>> {
    match OpenList(buf, code)
    case Err(e) => Err(e)
    case Ok(f, rest) =>
      match ReadFields(kinds, Reader(f.content, f.count))
      case Bad(e) => Err(e)
      case Got(fs, _) => Ok(fs, rest)
  }
}
