/**
 * The self-describing AMQP value (ramqp-core/src/codec/value.rs) and its wire form: sections 1.2 and 1.6 of
 * Part 1 of the AMQP 1.0 specification. Floats are their bit patterns, strings and symbols their UTF-8
 * bytes, and a map lists key, value, key, value.
 */
module Values {
  import opened Wire

  const U32_MAX: nat := 0xFFFF_FFFF

  datatype Value =
    | Null
    | Bool(b: bool)
    | Ubyte(n: nat)
    | Ushort(n: nat)
    | Uint(n: nat)
    | Ulong(n: nat)
    | Byte(i: int)
    | Short(i: int)
    | Int(i: int)
    | Long(i: int)
    | Float(n: nat)
    | Double(n: nat)
    | Decimal32(raw: seq<byte>)
    | Decimal64(raw: seq<byte>)
    | Decimal128(raw: seq<byte>)
    | Char(n: nat)
    | Timestamp(i: int)
    | Uuid(raw: seq<byte>)
    | Binary(raw: seq<byte>)
    | String(raw: seq<byte>)
    | Symbol(raw: seq<byte>)
    | List(items: seq<Value>)
    | Map(items: seq<Value>)
    | Array(items: seq<Value>)
    | Described(descriptor: Value, value: Value)

  const DESCRIBED: byte := 0x00
  const NULL: byte := 0x40
  const BOOL_TRUE: byte := 0x41
  const BOOL_FALSE: byte := 0x42
  const UINT_0: byte := 0x43
  const ULONG_0: byte := 0x44
  const LIST_0: byte := 0x45
  const UBYTE: byte := 0x50
  const BYTE: byte := 0x51
  const SMALL_UINT: byte := 0x52
  const SMALL_ULONG: byte := 0x53
  const SMALL_INT: byte := 0x54
  const SMALL_LONG: byte := 0x55
  const BOOL: byte := 0x56
  const USHORT: byte := 0x60
  const SHORT: byte := 0x61
  const UINT: byte := 0x70
  const INT: byte := 0x71
  const FLOAT: byte := 0x72
  const CHAR: byte := 0x73
  const DECIMAL32: byte := 0x74
  const ULONG: byte := 0x80
  const LONG: byte := 0x81
  const DOUBLE: byte := 0x82
  const TIMESTAMP: byte := 0x83
  const DECIMAL64: byte := 0x84
  const DECIMAL128: byte := 0x94
  const UUID: byte := 0x98
  const VBIN8: byte := 0xA0
  const STR8: byte := 0xA1
  const SYM8: byte := 0xA3
  const VBIN32: byte := 0xB0
  const STR32: byte := 0xB1
  const SYM32: byte := 0xB3
  const LIST8: byte := 0xC0
  const MAP8: byte := 0xC1
  const LIST32: byte := 0xD0
  const MAP32: byte := 0xD1
  const ARRAY8: byte := 0xE0
  const ARRAY32: byte := 0xF0

  predicate Compound(v: Value) { v.List? || v.Map? || v.Array? }

  predicate Scalar(v: Value) { !Compound(v) && !v.Described? }

  // ---------------------------------------------------------------- scalars

  /** Two's complement of `width` bytes. */
  function Unsigned(i: int, width: nat): nat {
    if i >= 0 then i else if i + Pow256(width) >= 0 then i + Pow256(width) else 0
  }

  function Signed(n: nat, width: nat): int {
    if n < Pow256(width) / 2 then n else n - Pow256(width)
  }

  function SmallOr(n: nat, zero: byte, small: byte, wide: byte, width: nat): (byte, seq<byte>) {
    if n == 0 then (zero, []) else if n <= 255 then (small, BE(n, 1)) else (wide, BE(n, width))
  }

  function SignedForm(i: int, small: byte, wide: byte, width: nat): (byte, seq<byte>) {
    if -128 <= i <= 127 then (small, BE(Unsigned(i, 1), 1)) else (wide, BE(Unsigned(i, width), width))
  }

  function VarForm(raw: seq<byte>, code8: byte, code32: byte): (byte, seq<byte>) {
    if |raw| <= 255 then (code8, BE(|raw|, 1) + raw) else (code32, BE(|raw|, 4) + raw)
  }

  /** The constructor and the bytes a scalar is written with on its own. */
  function Compact(v: Value): (byte, seq<byte>)
    requires Scalar(v)
  {
    match v
    case Null => (NULL, [])
    case Bool(b) => (if b then BOOL_TRUE else BOOL_FALSE, [])
    case Uint(n) => SmallOr(n, UINT_0, SMALL_UINT, UINT, 4)
    case Ulong(n) => SmallOr(n, ULONG_0, SMALL_ULONG, ULONG, 8)
    case Int(i) => SignedForm(i, SMALL_INT, INT, 4)
    case Long(i) => SignedForm(i, SMALL_LONG, LONG, 8)
    case Binary(raw) => VarForm(raw, VBIN8, VBIN32)
    case String(raw) => VarForm(raw, STR8, STR32)
    case Symbol(raw) => VarForm(raw, SYM8, SYM32)
    case _ => Wide(v)
  }

  /** The constructor and the bytes a scalar is written with as an array element. */
  function Wide(v: Value): (byte, seq<byte>)
    requires Scalar(v)
  {
    match v
    case Null => (NULL, [])
    case Bool(b) => (BOOL, [if b then 1 else 0])
    case Ubyte(n) => (UBYTE, BE(n, 1))
    case Ushort(n) => (USHORT, BE(n, 2))
    case Uint(n) => (UINT, BE(n, 4))
    case Ulong(n) => (ULONG, BE(n, 8))
    case Byte(i) => (BYTE, BE(Unsigned(i, 1), 1))
    case Short(i) => (SHORT, BE(Unsigned(i, 2), 2))
    case Int(i) => (INT, BE(Unsigned(i, 4), 4))
    case Long(i) => (LONG, BE(Unsigned(i, 8), 8))
    case Float(n) => (FLOAT, BE(n, 4))
    case Double(n) => (DOUBLE, BE(n, 8))
    case Decimal32(raw) => (DECIMAL32, raw)
    case Decimal64(raw) => (DECIMAL64, raw)
    case Decimal128(raw) => (DECIMAL128, raw)
    case Char(n) => (CHAR, BE(n, 4))
    case Timestamp(i) => (TIMESTAMP, BE(Unsigned(i, 8), 8))
    case Uuid(raw) => (UUID, raw)
    case Binary(raw) => (VBIN32, BE(|raw|, 4) + raw)
    case String(raw) => (STR32, BE(|raw|, 4) + raw)
    case Symbol(raw) => (SYM32, BE(|raw|, 4) + raw)
  }

  /** A Unicode scalar value. */
  predicate IsChar(n: nat) { n < 0xD800 || 0xE000 <= n < 0x11_0000 }

  /** The values a scalar's Rust type can hold, with lengths that fit a u32. */
  predicate ScalarOk(v: Value)
    requires Scalar(v)
  {
    match v
    case Null => true
    case Bool(_) => true
    case Ubyte(n) => n < 0x100
    case Ushort(n) => n < 0x1_0000
    case Uint(n) => n < 0x1_0000_0000
    case Ulong(n) => n < 0x1_0000_0000_0000_0000
    case Byte(i) => -0x80 <= i < 0x80
    case Short(i) => -0x8000 <= i < 0x8000
    case Int(i) => -0x8000_0000 <= i < 0x8000_0000
    case Long(i) => -0x8000_0000_0000_0000 <= i < 0x8000_0000_0000_0000
    case Float(n) => n < 0x1_0000_0000
    case Double(n) => n < 0x1_0000_0000_0000_0000
    case Decimal32(raw) => |raw| == 4
    case Decimal64(raw) => |raw| == 8
    case Decimal128(raw) => |raw| == 16
    case Char(n) => IsChar(n)
    case Timestamp(i) => -0x8000_0000_0000_0000 <= i < 0x8000_0000_0000_0000
    case Uuid(raw) => |raw| == 16
    case Binary(raw) => |raw| <= U32_MAX
    case String(raw) => |raw| <= U32_MAX && Utf8(raw)
    case Symbol(raw) => |raw| <= U32_MAX && Utf8(raw)
  }

  /** Which variant a value is. */
  function Tag(v: Value): nat {
    match v
    case Null => 0 case Bool(_) => 1 case Ubyte(_) => 2 case Ushort(_) => 3 case Uint(_) => 4 case Ulong(_) => 5
    case Byte(_) => 6 case Short(_) => 7 case Int(_) => 8 case Long(_) => 9 case Float(_) => 10 case Double(_) => 11
    case Decimal32(_) => 12 case Decimal64(_) => 13 case Decimal128(_) => 14 case Char(_) => 15 case Timestamp(_) => 16
    case Uuid(_) => 17 case Binary(_) => 18 case String(_) => 19 case Symbol(_) => 20
    case List(_) => 21 case Map(_) => 22 case Array(_) => 23 case Described(_, _) => 24
  }

  // ---------------------------------------------------------------- the wire form

  function Code(v: Value): byte {
    match v
    case List(_) => LIST32
    case Map(_) => MAP32
    case Array(_) => ARRAY32
    case Described(_, _) => DESCRIBED
    case _ => Compact(v).0
  }

  /** A compound's size, count and content: the size counts the count field. */
  function Sized(count: nat, content: seq<byte>): seq<byte> {
    BE(|content| + 4, 4) + BE(count, 4) + content
  }

  /** What follows the constructor. */
  function Body(v: Value): seq<byte>
    decreases v, 0
  {
    match v
    case List(items) => Sized(|items|, EncAll(items))
    case Map(items) => Sized(|items|, EncAll(items))
    case Array(items) => Sized(|items|, ArrayContent(items))
    case Described(d, x) => Enc(d) + Enc(x)
    case _ => Compact(v).1
  }

  function Enc(v: Value): seq<byte>
    decreases v, 1
  {
    [Code(v)] + Body(v)
  }

  function EncAll(items: seq<Value>): seq<byte>
    decreases items, 0
  {
    if items == [] then [] else Enc(items[0]) + EncAll(items[1..])
  }

  /** One shared constructor, chosen by the first element, then the bare elements. */
  function ArrayContent(items: seq<Value>): seq<byte>
    decreases items, 1
  {
    if items == [] then [NULL]
    else if Scalar(items[0]) then [Wide(items[0]).0] + WideAll(items, Tag(items[0]))
    else if Compound(items[0]) then [Code(items[0])] + BodyAll(items)
    else [DESCRIBED] + SharedPart(items[0]) + InnerAll(items)
  }

  /** The descriptor and the inner constructor, written once for all described elements. */
  function SharedPart(v: Value): seq<byte>
    requires v.Described?
    decreases v, 0
  {
    Enc(v.descriptor) + [Code(v.value)]
  }

  function InnerBody(v: Value): seq<byte>
    requires v.Described?
    decreases v, 0
  {
    Body(v.value)
  }

  /** An element of another variant than the first writes nothing. */
  function WideAll(items: seq<Value>, tag: nat): seq<byte> {
    if items == [] then []
    else (if Scalar(items[0]) && Tag(items[0]) == tag then Wide(items[0]).1 else []) + WideAll(items[1..], tag)
  }

  function BodyAll(items: seq<Value>): seq<byte>
    decreases items, 0
  {
    if items == [] then [] else Body(items[0]) + BodyAll(items[1..])
  }

  function InnerAll(items: seq<Value>): seq<byte>
    decreases items, 0
  {
    if items == [] then []
    else (if items[0].Described? then InnerBody(items[0]) else []) + InnerAll(items[1..])
  }

  // ---------------------------------------------------------------- well-formed values

  const MAX_DEPTH: nat := 64
  const MAX_ZERO_WIDTH_ARRAY: nat := 1024

  predicate ZeroWidth(code: byte) {
    code == NULL || code == BOOL_TRUE || code == BOOL_FALSE || code == UINT_0 || code == ULONG_0 || code == LIST_0
  }

  /** The constructor an array's elements share. */
  function ElementCode(items: seq<Value>): byte
    requires items != []
  {
    var v := items[0];
    if Scalar(v) then Wide(v).0 else if Compound(v) then Code(v) else Code(v.value)
  }

  /** Elements of one variant, and described ones with one descriptor and one inner constructor. */
  predicate Homogeneous(items: seq<Value>) {
    forall i :: 0 <= i < |items| ==>
      && Tag(items[i]) == Tag(items[0])
      && (items[i].Described? && items[0].Described? ==>
            items[i].descriptor == items[0].descriptor && Code(items[i].value) == Code(items[0].value))
  }

  /** Sizes in u32, homogeneous arrays, and at most 1024 elements that take no bytes. */
  predicate WellFormed(v: Value) {
    match v
    case List(items) => (forall i :: 0 <= i < |items| ==> WellFormed(items[i])) && |EncAll(items)| + 4 <= U32_MAX
    case Map(items) =>
      (forall i :: 0 <= i < |items| ==> WellFormed(items[i])) && |EncAll(items)| + 4 <= U32_MAX && |items| % 2 == 0
    case Array(items) =>
      && (forall i :: 0 <= i < |items| ==> WellFormed(items[i]))
      && |ArrayContent(items)| + 4 <= U32_MAX && Homogeneous(items)
      && (items != [] && ZeroWidth(ElementCode(items)) ==> |items| <= MAX_ZERO_WIDTH_ARRAY)
    case Described(d, x) => WellFormed(d) && WellFormed(x)
    case _ => ScalarOk(v)
  }

  /** The decoder's count of nesting stays within its limit. */
  predicate Fits(v: Value, depth: nat) {
    && depth <= MAX_DEPTH
    && match v
       case List(items) => forall i :: 0 <= i < |items| ==> Fits(items[i], depth + 1)
       case Map(items) => forall i :: 0 <= i < |items| ==> Fits(items[i], depth + 1)
       case Array(items) =>
         forall i :: 0 <= i < |items| ==>
           if items[i].Described? then Fits(items[i].descriptor, depth + 1) && Fits(items[i].value, depth + 1)
           else Fits(items[i], depth + 1)
       case Described(d, x) => Fits(d, depth + 1) && Fits(x, depth + 1)
       case _ => true
  }
}
