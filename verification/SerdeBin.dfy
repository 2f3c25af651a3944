/**
 * The cluster's binary serialization (ramqp-broker/src/serde_bin.rs): not self-describing, so both ends know
 * the schema. Floats are their bit patterns, strings their UTF-8 bytes, structs and tuples their fields in
 * order, maps sequences of pairs.
 */
module SerdeBin {
  import opened Wire
  import opened Values

  datatype Schema =
    | Num(width: nat, signed: bool)
    | Flag
    | Letter
    | Str
    | Blob
    | Maybe(inner: Schema)
    | Seq(element: Schema)
    | Tuple(fields: seq<Schema>)
    | Enum(variants: seq<Schema>)

  datatype Data =
    | N(i: int)
    | B(b: bool)
    | C(n: nat)
    | R(raw: seq<byte>)
    | Nothing
    | Just(d: Data)
    | L(items: seq<Data>)
    | V(index: nat, payload: Data)

  const U64: nat := 0x1_0000_0000_0000_0000

  datatype Problem = Ended | TrailingBytes | InvalidBool | InvalidChar | NotUtf8 | InvalidOptionTag | UnknownVariant

  datatype Parsed<+T> = Done(value: T, rest: seq<byte>) | Fault(problem: Problem)

  // ---------------------------------------------------------------- little-endian

  function LE(n: nat, k: nat): (s: seq<byte>)
    ensures |s| == k
    decreases k
  {
    if k == 0 then [] else [(n % 256) as byte] + LE(n / 256, k - 1)
  }

  function FromLE(s: seq<byte>): nat {
    if s == [] then 0 else s[0] as nat + 256 * FromLE(s[1..])
  }

  lemma {:induction false} FromLEOfLE(n: nat, k: nat)
    requires n < Pow256(k)
    ensures FromLE(LE(n, k)) == n
    decreases k
  {
    if k > 0 {
      FromLEOfLE(n / 256, k - 1);
      assert LE(n, k)[1..] == LE(n / 256, k - 1);
    }
  }

  lemma {:induction false} LEOfFromLE(s: seq<byte>)
    ensures FromLE(s) < Pow256(|s|) && LE(FromLE(s), |s|) == s
  {
    if s != [] {
      LEOfFromLE(s[1..]);
      var x, y := s[0] as nat, FromLE(s[1..]);
      assert (x + 256 * y) / 256 == y && (x + 256 * y) % 256 == x;
      assert s == [s[0]] + s[1..];
    }
  }

  // ---------------------------------------------------------------- schemas

  predicate SchemaOk(s: Schema) {
    match s
    case Num(width, _) => width > 0
    case Maybe(inner) => SchemaOk(inner)
    case Seq(element) => SchemaOk(element)
    case Tuple(fields) => forall i :: 0 <= i < |fields| ==> SchemaOk(fields[i])
    case Enum(variants) => |variants| <= U32_MAX && forall i :: 0 <= i < |variants| ==> SchemaOk(variants[i])
    case _ => true
  }

  /** A value of the schema's type. */
  predicate Conforms(s: Schema, d: Data) {
    match s
    case Num(w, signed) =>
      d.N? && (if signed then 0 <= 2 * d.i + Pow256(w) && 2 * d.i < Pow256(w) else 0 <= d.i < Pow256(w))
    case Flag => d.B?
    case Letter => d.C? && IsChar(d.n)
    case Str => d.R? && |d.raw| < U64 && Utf8(d.raw)
    case Blob => d.R? && |d.raw| < U64
    case Maybe(inner) => d.Nothing? || (d.Just? && Conforms(inner, d.d))
    case Seq(element) => d.L? && |d.items| < U64 && forall i :: 0 <= i < |d.items| ==> Conforms(element, d.items[i])
    case Tuple(fields) =>
      d.L? && |d.items| == |fields| && forall i :: 0 <= i < |fields| ==> Conforms(fields[i], d.items[i])
    case Enum(variants) => d.V? && d.index < |variants| && Conforms(variants[d.index], d.payload)
  }

  // ---------------------------------------------------------------- writing

  function Ser(s: Schema, d: Data): seq<byte>
    requires Conforms(s, d)
    decreases s, 0
  {
    match s
    case Num(w, _) => LE(Unsigned(d.i, w), w)
    case Flag => [if d.b then 1 else 0]
    case Letter => LE(d.n, 4)
    case Str => LE(|d.raw|, 8) + d.raw
    case Blob => LE(|d.raw|, 8) + d.raw
    case Maybe(inner) => if d.Nothing? then [0] else [1] + Ser(inner, d.d)
    case Seq(element) => LE(|d.items|, 8) + SerAll(element, d.items)
    case Tuple(fields) => SerFields(fields, d.items)
    case Enum(variants) => LE(d.index, 4) + Ser(variants[d.index], d.payload)
  }

  function SerAll(s: Schema, items: seq<Data>): seq<byte>
    requires forall i :: 0 <= i < |items| ==> Conforms(s, items[i])
    decreases s, 1, |items|
  {
    if items == [] then [] else Ser(s, items[0]) + SerAll(s, items[1..])
  }

  function SerFields(fields: seq<Schema>, items: seq<Data>): seq<byte>
    requires |items| == |fields| && forall i :: 0 <= i < |fields| ==> Conforms(fields[i], items[i])
    decreases fields, 0
  {
    if fields == [] then [] else Ser(fields[0], items[0]) + SerFields(fields[1..], items[1..])
  }

  // ---------------------------------------------------------------- reading

  function Take(buf: seq<byte>, n: nat): Parsed<seq<byte>> {
    if |buf| < n then Fault(Ended) else Done(buf[..n], buf[n..])
  }

  function TakeUint(buf: seq<byte>, k: nat): Parsed<nat> {
    if |buf| < k then Fault(Ended) else Done(FromLE(buf[..k]), buf[k..])
  }

  function TakeBlob(buf: seq<byte>): Parsed<seq<byte>> {
    match TakeUint(buf, 8)
    case Fault(e) => Fault(e)
    case Done(n, rest) => Take(rest, n)
  }

  function De(s: Schema, buf: seq<byte>): Parsed<Data>
    decreases s, 0
  {
    match s
    case Num(w, signed) =>
      (match TakeUint(buf, w)
       case Fault(e) => Fault(e)
       case Done(n, rest) => Done(N(if signed then Signed(n, w) else n), rest))
    case Flag =>
      (match TakeUint(buf, 1)
       case Fault(e) => Fault(e)
       case Done(n, rest) => if n > 1 then Fault(InvalidBool) else Done(B(n == 1), rest))
    case Letter =>
      (match TakeUint(buf, 4)
       case Fault(e) => Fault(e)
       case Done(n, rest) => if IsChar(n) then Done(C(n), rest) else Fault(InvalidChar))
    case Str =>
      (match TakeBlob(buf)
       case Fault(e) => Fault(e)
       case Done(raw, rest) => if Utf8(raw) then Done(R(raw), rest) else Fault(NotUtf8))
    case Blob =>
      (match TakeBlob(buf)
       case Fault(e) => Fault(e)
       case Done(raw, rest) => Done(R(raw), rest))
    case Maybe(inner) =>
      (match TakeUint(buf, 1)
       case Fault(e) => Fault(e)
       case Done(n, rest) =>
         if n == 0 then Done(Nothing, rest)
         else if n > 1 then Fault(InvalidOptionTag)
         else
           match De(inner, rest)
           case Fault(e) => Fault(e)
           case Done(d, rest2) => Done(Just(d), rest2))
    case Seq(element) =>
      (match TakeUint(buf, 8)
       case Fault(e) => Fault(e)
       case Done(n, rest) => AsList(DeAll(element, rest, n)))
    case Tuple(fields) => AsList(DeFields(fields, buf))
    case Enum(variants) =>
      (match TakeUint(buf, 4)
       case Fault(e) => Fault(e)
       case Done(n, rest) =>
         if n >= |variants| then Fault(UnknownVariant) else
           match De(variants[n], rest)
           case Fault(e) => Fault(e)
           case Done(d, rest2) => Done(V(n, d), rest2))
  }

  function AsList(r: Parsed<seq<Data>>): Parsed<Data> {
    match r
    case Fault(e) => Fault(e)
    case Done(ds, rest) => Done(L(ds), rest)
  }

  function Cons(d: Data, r: Parsed<seq<Data>>): Parsed<seq<Data>> {
    match r
    case Fault(e) => Fault(e)
    case Done(ds, rest) => Done([d] + ds, rest)
  }

  function DeAll(s: Schema, buf: seq<byte>, n: nat): Parsed<seq<Data>>
    decreases s, 1, n
  {
    if n == 0 then Done([], buf) else
      match De(s, buf)
      case Fault(e) => Fault(e)
      case Done(d, rest) => Cons(d, DeAll(s, rest, n - 1))
  }

  function DeFields(fields: seq<Schema>, buf: seq<byte>): Parsed<seq<Data>>
    decreases fields, 0
  {
    if fields == [] then Done([], buf) else
      match De(fields[0], buf)
      case Fault(e) => Fault(e)
      case Done(d, rest) => Cons(d, DeFields(fields[1..], rest))
  }

  function ToVec(s: Schema, d: Data): seq<byte>
    requires Conforms(s, d)
  {
    Ser(s, d)
  }

  /** The whole input, or an error. */
  function FromSlice(s: Schema, bytes: seq<byte>): Parsed<Data> {
    match De(s, bytes)
    case Fault(e) => Fault(e)
    case Done(d, rest) => if rest == [] then Done(d, []) else Fault(TrailingBytes)
  }
}
