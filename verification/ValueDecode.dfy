/**
 * Decoding a self-describing value (ramqp-core/src/codec/value.rs:302-538). The nesting limit alone bounds
 * the recursion, so decoding ends on every input, also where elements take no bytes.
 */
module ValueDecode {
  import opened Wire
  import opened Values

  // ---------------------------------------------------------------- scalars

  function AsSigned(r: Result<nat>, width: nat, make: int -> Value): Result<Value> {
    match r
    case Ok(n, rest) => Ok(make(Signed(n, width)), rest)
    case Err(e) => Err(e)
  }

  function As(r: Result<nat>, make: nat -> Value): Result<Value> {
    match r
    case Ok(n, rest) => Ok(make(n), rest)
    case Err(e) => Err(e)
  }

  function Raw(r: Result<seq<byte>>, make: seq<byte> -> Value): Result<Value> {
    match r
    case Ok(b, rest) => Ok(make(b), rest)
    case Err(e) => Err(e)
  }

  /** A length of `width` bytes, then that many bytes. */
  function ReadVar(buf: seq<byte>, width: nat): Result<seq<byte>> {
    match ReadUint(buf, width)
    case Ok(n, rest) => ReadBytes(rest, n)
    case Err(e) => Err(e)
  }

  function Text(r: Result<seq<byte>>, make: seq<byte> -> Value): Result<Value> {
    match r
    case Ok(b, rest) => if Utf8(b) then Ok(make(b), rest) else Err(InvalidUtf8)
    case Err(e) => Err(e)
  }

  function ReadBool(buf: seq<byte>): Result<Value> {
    match ReadUint(buf, 1)
    case Ok(n, rest) =>
      if n == 0 then Ok(Bool(false), rest) else if n == 1 then Ok(Bool(true), rest) else Err(InvalidValue)
    case Err(e) => Err(e)
  }

  function ReadChar(buf: seq<byte>): Result<Value> {
    match ReadUint(buf, 4)
    case Ok(n, rest) => if IsChar(n) then Ok(Char(n), rest) else Err(InvalidValue)
    case Err(e) => Err(e)
  }

  /** Constructors whose value holds no other value. */
  function DecodeScalar(code: byte, buf: seq<byte>): Result<Value> {
    if code < 0x50 then DecodeZeroWidth(code, buf)
    else if code < 0x70 then DecodeNarrow(code, buf)
    else if code < 0xA0 then DecodeFixed(code, buf)
    else DecodeVar(code, buf)
  }

  function DecodeZeroWidth(code: byte, buf: seq<byte>): Result<Value> {
    if code == NULL then Ok(Null, buf)
    else if code == BOOL_TRUE then Ok(Bool(true), buf)
    else if code == BOOL_FALSE then Ok(Bool(false), buf)
    else if code == UINT_0 then Ok(Uint(0), buf)
    else if code == ULONG_0 then Ok(Ulong(0), buf)
    else if code == LIST_0 then Ok(List([]), buf)
    else Err(InvalidFormatCode)
  }

  function DecodeNarrow(code: byte, buf: seq<byte>): Result<Value> {
    if code == UBYTE then As(ReadUint(buf, 1), (n: nat) => Ubyte(n))
    else if code == BYTE then AsSigned(ReadUint(buf, 1), 1, i => Byte(i))
    else if code == SMALL_UINT then As(ReadUint(buf, 1), (n: nat) => Uint(n))
    else if code == SMALL_ULONG then As(ReadUint(buf, 1), (n: nat) => Ulong(n))
    else if code == SMALL_INT then AsSigned(ReadUint(buf, 1), 1, i => Int(i))
    else if code == SMALL_LONG then AsSigned(ReadUint(buf, 1), 1, i => Long(i))
    else if code == BOOL then ReadBool(buf)
    else if code == USHORT then As(ReadUint(buf, 2), (n: nat) => Ushort(n))
    else if code == SHORT then AsSigned(ReadUint(buf, 2), 2, i => Short(i))
    else Err(InvalidFormatCode)
  }

  function DecodeFixed(code: byte, buf: seq<byte>): Result<Value> {
    if code == UINT then As(ReadUint(buf, 4), (n: nat) => Uint(n))
    else if code == INT then AsSigned(ReadUint(buf, 4), 4, i => Int(i))
    else if code == FLOAT then As(ReadUint(buf, 4), (n: nat) => Float(n))
    else if code == CHAR then ReadChar(buf)
    else if code == DECIMAL32 then Raw(ReadBytes(buf, 4), b => Decimal32(b))
    else if code == ULONG then As(ReadUint(buf, 8), (n: nat) => Ulong(n))
    else if code == LONG then AsSigned(ReadUint(buf, 8), 8, i => Long(i))
    else if code == DOUBLE then As(ReadUint(buf, 8), (n: nat) => Double(n))
    else if code == TIMESTAMP then AsSigned(ReadUint(buf, 8), 8, i => Timestamp(i))
    else if code == DECIMAL64 then Raw(ReadBytes(buf, 8), b => Decimal64(b))
    else if code == DECIMAL128 then Raw(ReadBytes(buf, 16), b => Decimal128(b))
    else if code == UUID then Raw(ReadBytes(buf, 16), b => Uuid(b))
    else Err(InvalidFormatCode)
  }

  function DecodeVar(code: byte, buf: seq<byte>): Result<Value> {
    if code == VBIN8 then Raw(ReadVar(buf, 1), b => Binary(b))
    else if code == VBIN32 then Raw(ReadVar(buf, 4), b => Binary(b))
    else if code == STR8 then Text(ReadVar(buf, 1), b => String(b))
    else if code == STR32 then Text(ReadVar(buf, 4), b => String(b))
    else if code == SYM8 then Text(ReadVar(buf, 1), b => Symbol(b))
    else if code == SYM32 then Text(ReadVar(buf, 4), b => Symbol(b))
    else Err(InvalidFormatCode)
  }

  // ---------------------------------------------------------------- compounds

  predicate CompoundCode(code: byte) {
    code == LIST8 || code == LIST32 || code == MAP8 || code == MAP32 || code == ARRAY8 || code == ARRAY32
  }

  function Width(code: byte): nat {
    if code == LIST8 || code == MAP8 || code == ARRAY8 then 1 else 4
  }

  /** A compound's count and its content, cut off from what follows it. */
  datatype Framed = Framed(count: nat, content: seq<byte>)

  function ReadFrame(buf: seq<byte>, width: nat): Result<Framed> {
    match ReadVar(buf, width)
    case Err(e) => Err(e)
    case Ok(b, rest) =>
      match ReadUint(b, width)
      case Err(e) => Err(e)
      case Ok(count, content) => Ok(Framed(count, content), rest)
  }

  predicate TooMany(count: nat, code: byte, remaining: nat) {
    count > if ZeroWidth(code) then MAX_ZERO_WIDTH_ARRAY else remaining
  }

  /** What may still nest, as a termination measure. */
  function Room(depth: nat): nat { if depth <= MAX_DEPTH then MAX_DEPTH + 1 - depth else 0 }

  function DecodeValue(buf: seq<byte>, depth: nat): Result<Value>
    decreases Room(depth), 2, 0
  {
    match ReadUint(buf, 1)
    case Err(e) => Err(e)
    case Ok(_, rest) => DecodeBody(rest, buf[0], depth)
  }

  function DecodeBody(buf: seq<byte>, code: byte, depth: nat): Result<Value>
    decreases Room(depth), 1, 0
  {
    if depth > MAX_DEPTH then Err(NestingTooDeep)
    else if code == DESCRIBED then
      match DecodeValue(buf, depth + 1)
      case Err(e) => Err(e)
      case Ok(d, rest) =>
        (match DecodeValue(rest, depth + 1)
         case Err(e) => Err(e)
         case Ok(x, rest2) => Ok(Described(d, x), rest2))
    else if CompoundCode(code) then
      match ReadFrame(buf, Width(code))
      case Err(e) => Err(e)
      case Ok(f, rest) =>
        (match DecodeContent(f, code, depth + 1)
         case Err(e) => Err(e)
         case Ok(v, _) => Ok(v, rest))
    else DecodeScalar(code, buf)
  }

  function DecodeContent(f: Framed, code: byte, depth: nat): Result<Value>
    decreases Room(depth), 5, 0
  {
    if code == MAP8 || code == MAP32 then
      if f.count % 2 != 0 then Err(InvalidValue)
      else Items(DecodeN(f.content, f.count, depth), vs => Map(vs))
    else if code == LIST8 || code == LIST32 then Items(DecodeN(f.content, f.count, depth), vs => List(vs))
    else Items(DecodeArray(f.content, f.count, depth), vs => Array(vs))
  }

  function Items(r: Result<seq<Value>>, make: seq<Value> -> Value): Result<Value> {
    match r
    case Ok(vs, rest) => Ok(make(vs), rest)
    case Err(e) => Err(e)
  }

  function DecodeN(buf: seq<byte>, count: nat, depth: nat): Result<seq<Value>>
    decreases Room(depth), 3, count
  {
    if count == 0 then Ok([], buf) else
      match DecodeValue(buf, depth)
      case Err(e) => Err(e)
      case Ok(v, rest) =>
        match DecodeN(rest, count - 1, depth)
        case Err(e) => Err(e)
        case Ok(vs, rest2) => Ok([v] + vs, rest2)
  }

  /** Bare elements that share the constructor `code`. */
  function DecodeBodies(buf: seq<byte>, code: byte, count: nat, depth: nat): Result<seq<Value>>
    decreases Room(depth), 3, count
  {
    if count == 0 then Ok([], buf) else
      match DecodeBody(buf, code, depth)
      case Err(e) => Err(e)
      case Ok(v, rest) =>
        match DecodeBodies(rest, code, count - 1, depth)
        case Err(e) => Err(e)
        case Ok(vs, rest2) => Ok([v] + vs, rest2)
  }

  function DescribeAll(d: Value, vs: seq<Value>): seq<Value> {
    seq(|vs|, i requires 0 <= i < |vs| => Described(d, vs[i]))
  }

  function DecodeArray(buf: seq<byte>, count: nat, depth: nat): Result<seq<Value>>
    decreases Room(depth), 4, 0
  {
    if buf == [] then Err(Eof)
    else if buf[0] == DESCRIBED then
      match DecodeValue(buf[1..], depth)
      case Err(e) => Err(e)
      case Ok(d, rest) =>
        if rest == [] then Err(Eof)
        else if TooMany(count, rest[0], |rest| - 1) then Err(InvalidValue)
        else
          (match DecodeBodies(rest[1..], rest[0], count, depth)
           case Err(e) => Err(e)
           case Ok(vs, rest2) => Ok(DescribeAll(d, vs), rest2))
    else if TooMany(count, buf[0], |buf| - 1) then Err(InvalidValue)
    else DecodeBodies(buf[1..], buf[0], count, depth)
  }

  /** `Value::decode`. */
  function Decode(buf: seq<byte>): Result<Value> {
    DecodeValue(buf, 0)
  }
}
