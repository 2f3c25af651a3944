/**
 * Decoding inverts encoding (ramqp-core/src/codec/value.rs): every well-formed value comes back, and exactly
 * the bytes that follow it are left.
 */
module ValueRoundTrip {
  import opened Wire
  import opened Values
  import opened ValueDecode

  // ---------------------------------------------------------------- scalars

  lemma VarBack(raw: seq<byte>, width: nat, s: seq<byte>)
    requires |raw| < Pow256(width)
    ensures ReadVar(BE(|raw|, width) + raw + s, width) == Ok(raw, s)
  {
    assert BE(|raw|, width) + raw + s == BE(|raw|, width) + (raw + s);
    ReadBack(|raw|, width, raw + s);
    BytesBack(raw, s);
  }

  lemma SignedBack(i: int, width: nat, s: seq<byte>)
    requires 0 <= 2 * i + Pow256(width) && 2 * i < Pow256(width) && Pow256(width) % 2 == 0
    ensures ReadUint(BE(Unsigned(i, width), width) + s, width) == Ok(Unsigned(i, width), s)
    ensures Signed(Unsigned(i, width), width) == i
  {
    ReadBack(Unsigned(i, width), width, s);
  }

  lemma NoBytes(s: seq<byte>)
    ensures [] + s == s
  {
  }

  lemma UnsignedWide(v: Value, s: seq<byte>)
    requires Scalar(v) && ScalarOk(v)
    requires v.Ubyte? || v.Ushort? || v.Uint? || v.Ulong? || v.Float? || v.Double? || v.Char?
    ensures DecodeScalar(Wide(v).0, Wide(v).1 + s) == Ok(v, s)
  {
    hide BE, ReadUint, Pow256;
    Powers();
    match v
    case Ubyte(n) => ReadBack(n, 1, s);
    case Ushort(n) => ReadBack(n, 2, s);
    case Uint(n) => ReadBack(n, 4, s);
    case Ulong(n) => ReadBack(n, 8, s);
    case Float(n) => ReadBack(n, 4, s);
    case Double(n) => ReadBack(n, 8, s);
    case Char(n) => ReadBack(n, 4, s);
  }

  lemma SignedWide(v: Value, s: seq<byte>)
    requires Scalar(v) && ScalarOk(v) && (v.Byte? || v.Short? || v.Int? || v.Long? || v.Timestamp?)
    ensures DecodeScalar(Wide(v).0, Wide(v).1 + s) == Ok(v, s)
  {
    hide BE, ReadUint, Pow256, Unsigned, Signed;
    Powers();
    match v
    case Byte(i) => SignedBack(i, 1, s);
    case Short(i) => SignedBack(i, 2, s);
    case Int(i) => SignedBack(i, 4, s);
    case Long(i) => SignedBack(i, 8, s);
    case Timestamp(i) => SignedBack(i, 8, s);
  }

  lemma RawWide(v: Value, s: seq<byte>)
    requires Scalar(v) && ScalarOk(v) && (v.Decimal32? || v.Decimal64? || v.Decimal128? || v.Uuid?)
    ensures DecodeScalar(Wide(v).0, Wide(v).1 + s) == Ok(v, s)
  {
    hide ReadBytes;
    BytesBack(v.raw, s);
  }

  lemma TextWide(v: Value, s: seq<byte>)
    requires Scalar(v) && ScalarOk(v) && (v.Binary? || v.String? || v.Symbol?)
    ensures DecodeScalar(Wide(v).0, Wide(v).1 + s) == Ok(v, s)
  {
    hide BE, ReadVar, Pow256, Utf8;
    Powers();
    VarBack(v.raw, 4, s);
  }

  /** An array element of a scalar type. */
  lemma WideBack(v: Value, s: seq<byte>)
    requires Scalar(v) && ScalarOk(v)
    ensures DecodeScalar(Wide(v).0, Wide(v).1 + s) == Ok(v, s)
  {
    hide Wide, DecodeScalar, ScalarOk;
    match v
    case Null => EmptyWide(v, s);
    case Bool(b) => EmptyWide(v, s);
    case Ubyte(_) => UnsignedWide(v, s);
    case Ushort(_) => UnsignedWide(v, s);
    case Uint(_) => UnsignedWide(v, s);
    case Ulong(_) => UnsignedWide(v, s);
    case Float(_) => UnsignedWide(v, s);
    case Double(_) => UnsignedWide(v, s);
    case Char(_) => UnsignedWide(v, s);
    case Byte(_) => SignedWide(v, s);
    case Short(_) => SignedWide(v, s);
    case Int(_) => SignedWide(v, s);
    case Long(_) => SignedWide(v, s);
    case Timestamp(_) => SignedWide(v, s);
    case Decimal32(_) => RawWide(v, s);
    case Decimal64(_) => RawWide(v, s);
    case Decimal128(_) => RawWide(v, s);
    case Uuid(_) => RawWide(v, s);
    case Binary(_) => TextWide(v, s);
    case String(_) => TextWide(v, s);
    case Symbol(_) => TextWide(v, s);
  }

  lemma EmptyWide(v: Value, s: seq<byte>)
    requires v.Null? || v.Bool?
    ensures DecodeScalar(Wide(v).0, Wide(v).1 + s) == Ok(v, s)
  {
    NoBytes(s);
    if v.Bool? {
      var x: byte := if v.b then 1 else 0;
      Powers();
      assert BE(x as nat, 1) == [x];
      ReadBack(x as nat, 1, s);
    }
  }

  lemma UintCompact(v: Value, s: seq<byte>)
    requires Scalar(v) && ScalarOk(v) && (v.Uint? || v.Ulong?)
    ensures DecodeScalar(Compact(v).0, Compact(v).1 + s) == Ok(v, s)
  {
    hide BE, ReadUint, Pow256;
    Powers();
    NoBytes(s);
    if v.n <= 255 { ReadBack(v.n, 1, s); } else { ReadBack(v.n, if v.Uint? then 4 else 8, s); }
  }

  lemma IntCompact(v: Value, s: seq<byte>)
    requires Scalar(v) && ScalarOk(v) && (v.Int? || v.Long?)
    ensures DecodeScalar(Compact(v).0, Compact(v).1 + s) == Ok(v, s)
  {
    hide BE, ReadUint, Pow256, Unsigned, Signed;
    Powers();
    if -128 <= v.i <= 127 { SignedBack(v.i, 1, s); } else { SignedBack(v.i, if v.Int? then 4 else 8, s); }
  }

  lemma TextCompact(v: Value, s: seq<byte>)
    requires Scalar(v) && ScalarOk(v) && (v.Binary? || v.String? || v.Symbol?)
    ensures DecodeScalar(Compact(v).0, Compact(v).1 + s) == Ok(v, s)
  {
    hide BE, ReadVar, Pow256, Utf8;
    Powers();
    if |v.raw| <= 255 { VarBack(v.raw, 1, s); } else { VarBack(v.raw, 4, s); }
  }

  /** A scalar on its own. */
  lemma CompactBack(v: Value, s: seq<byte>)
    requires Scalar(v) && ScalarOk(v)
    ensures DecodeScalar(Compact(v).0, Compact(v).1 + s) == Ok(v, s)
  {
    hide Wide, DecodeScalar, ScalarOk;
    if v.Uint? || v.Ulong? { UintCompact(v, s); }
    else if v.Int? || v.Long? { IntCompact(v, s); }
    else if v.Binary? || v.String? || v.Symbol? { TextCompact(v, s); }
    else if v.Bool? { BoolCompact(v, s); }
    else { WideBack(v, s); CompactIsWide(v); }
  }

  lemma CompactIsWide(v: Value)
    requires Scalar(v) && !v.Uint? && !v.Ulong? && !v.Int? && !v.Long?
    requires !v.Binary? && !v.String? && !v.Symbol? && !v.Bool?
    ensures Compact(v) == Wide(v)
  {
  }

  lemma BoolCompact(v: Value, s: seq<byte>)
    requires v.Bool?
    ensures DecodeScalar(Compact(v).0, Compact(v).1 + s) == Ok(v, s)
  {
    NoBytes(s);
  }

  // ---------------------------------------------------------------- compounds

  lemma FrameBack(count: nat, content: seq<byte>, s: seq<byte>)
    requires |content| + 4 <= U32_MAX && count <= U32_MAX
    ensures ReadFrame(Sized(count, content) + s, 4) == Ok(Framed(count, content), s)
  {
    hide BE, ReadVar, Pow256;
    Powers();
    var b := BE(count, 4) + content;
    assert Sized(count, content) + s == BE(|b|, 4) + b + s;
    VarBack(b, 4, s);
    ReadBack(count, 4, content);
  }

  /** Every encoding starts with its constructor. */
  lemma ValueBack(v: Value, s: seq<byte>, depth: nat)
    ensures DecodeValue(Enc(v) + s, depth) == DecodeBody(Body(v) + s, Code(v), depth)
  {
    hide DecodeBody, Code, Body;
    var buf := Enc(v) + s;
    assert buf[0] == Code(v) && buf[1..] == Body(v) + s;
  }

  lemma ScalarIsNotCompound(v: Value)
    requires Scalar(v) && ScalarOk(v)
    ensures !CompoundCode(Compact(v).0) && Compact(v).0 != DESCRIBED
    ensures !CompoundCode(Wide(v).0) && Wide(v).0 != DESCRIBED
  {
  }

  /** What a value needs of the sequences inside it, to come back at a depth. */
  ghost predicate Good(items: seq<Value>, depth: nat) {
    forall i :: 0 <= i < |items| ==> WellFormed(items[i]) && Fits(items[i], depth)
  }

  lemma BodyBackScalar(v: Value, s: seq<byte>, depth: nat)
    requires Scalar(v) && ScalarOk(v) && depth <= MAX_DEPTH
    ensures DecodeBody(Body(v) + s, Code(v), depth) == Ok(v, s)
    ensures DecodeBody(Wide(v).1 + s, Wide(v).0, depth) == Ok(v, s)
  {
    hide DecodeScalar, Compact, Wide, ScalarOk, CompoundCode;
    ScalarIsNotCompound(v);
    CompactBack(v, s);
    WideBack(v, s);
    ScalarForm(v);
  }

  lemma ScalarForm(v: Value)
    requires Scalar(v)
    ensures Body(v) == Compact(v).1 && Code(v) == Compact(v).0
  {
    hide Compact;
  }

  lemma {:induction false} EncAllLength(items: seq<Value>)
    ensures |EncAll(items)| >= |items|
  {
    hide Body, Code;
    if items != [] { EncAllLength(items[1..]); }
  }

  lemma ScalarTakesBytes(v: Value)
    requires Scalar(v) && ScalarOk(v)
    ensures ZeroWidth(Compact(v).0) || |Compact(v).1| >= 1
    ensures v.Null? || (!ZeroWidth(Wide(v).0) && |Wide(v).1| >= 1)
  {
  }

  lemma BodyTakesBytes(v: Value)
    requires WellFormed(v) && !ZeroWidth(Code(v))
    ensures |Body(v)| >= 1
  {
    if Scalar(v) {
      ScalarTakesBytes(v);
      ScalarForm(v);
    }
  }

  /** Any value, its constructor read: the body comes back, and what follows it is left. */
  lemma {:induction false} BodyBack(v: Value, s: seq<byte>, depth: nat)
    requires WellFormed(v) && Fits(v, depth)
    ensures DecodeBody(Body(v) + s, Code(v), depth) == Ok(v, s)
    decreases v, 2
  {
    hide DecodeBody, Body, Code;
    match v
    case List(items) => ListBack(v, s, depth);
    case Map(items) => ListBack(v, s, depth);
    case Array(items) => ArrayBack(v, s, depth);
    case Described(d, x) => DescribedBack(v, s, depth);
    case _ => BodyBackScalar(v, s, depth);
  }

  lemma {:induction false} DescribedBack(v: Value, s: seq<byte>, depth: nat)
    requires v.Described? && WellFormed(v) && Fits(v, depth)
    ensures DecodeBody(Body(v) + s, Code(v), depth) == Ok(v, s)
    decreases v, 1
  {
    hide DecodeBody, Code;
    var d, x := v.descriptor, v.value;
    assert Body(v) + s == Enc(d) + (Enc(x) + s);
    ValueBack(d, Enc(x) + s, depth + 1);
    BodyBack(d, Enc(x) + s, depth + 1);
    ValueBack(x, s, depth + 1);
    BodyBack(x, s, depth + 1);
    DescribedSteps(v, s, depth);
  }

  lemma DescribedSteps(v: Value, s: seq<byte>, depth: nat)
    requires v.Described? && depth <= MAX_DEPTH
    requires DecodeValue(Body(v) + s, depth + 1) == Ok(v.descriptor, Enc(v.value) + s)
    requires DecodeValue(Enc(v.value) + s, depth + 1) == Ok(v.value, s)
    ensures DecodeBody(Body(v) + s, Code(v), depth) == Ok(v, s)
  {
    hide DecodeValue, Body, Enc;
  }

  // ---------------------------------------------------------------- lists and maps

  lemma {:induction false} AllBack(items: seq<Value>, s: seq<byte>, depth: nat)
    requires Good(items, depth)
    ensures DecodeN(EncAll(items) + s, |items|, depth) == Ok(items, s)
    decreases items, 0
  {
    hide DecodeBody, DecodeValue, Enc, WellFormed, Fits;
    if items == [] {
      NoBytes(s);
    } else {
      var tail := EncAll(items[1..]) + s;
      assert EncAll(items) + s == Enc(items[0]) + tail;
      ValueBack(items[0], tail, depth);
      BodyBack(items[0], tail, depth);
      AllBack(items[1..], s, depth);
      assert [items[0]] + items[1..] == items;
    }
  }

  lemma {:induction false} ListBack(v: Value, s: seq<byte>, depth: nat)
    requires (v.List? || v.Map?) && WellFormed(v) && Fits(v, depth)
    ensures DecodeBody(Body(v) + s, Code(v), depth) == Ok(v, s)
    decreases v, 1
  {
    hide DecodeBody, DecodeN, EncAll, Sized, Code;
    EncAllLength(v.items);
    FrameBack(|v.items|, EncAll(v.items), s);
    AllBack(v.items, [], depth + 1);
    assert EncAll(v.items) + [] == EncAll(v.items);
    ListSteps(v, s, depth);
  }

  lemma ListSteps(v: Value, s: seq<byte>, depth: nat)
    requires (v.List? || v.Map?) && depth <= MAX_DEPTH && (v.Map? ==> |v.items| % 2 == 0)
    requires ReadFrame(Body(v) + s, 4) == Ok(Framed(|v.items|, EncAll(v.items)), s)
    requires DecodeN(EncAll(v.items), |v.items|, depth + 1) == Ok(v.items, [])
    ensures DecodeBody(Body(v) + s, Code(v), depth) == Ok(v, s)
  {
    hide DecodeN, DecodeArray, EncAll, Body, ReadFrame;
  }

  // ---------------------------------------------------------------- arrays

  lemma ArraySteps(v: Value, s: seq<byte>, depth: nat)
    requires v.Array? && depth <= MAX_DEPTH
    requires ReadFrame(Body(v) + s, 4) == Ok(Framed(|v.items|, ArrayContent(v.items)), s)
    requires DecodeArray(ArrayContent(v.items), |v.items|, depth + 1) == Ok(v.items, [])
    ensures DecodeBody(Body(v) + s, Code(v), depth) == Ok(v, s)
  {
    hide DecodeN, DecodeArray, ArrayContent, Body, ReadFrame;
  }

  /** The content of an array of `count` elements written after the shared constructor. */
  lemma SharedBack(code: byte, bodies: seq<byte>, items: seq<Value>, depth: nat)
    requires code != DESCRIBED && DecodeBodies(bodies, code, |items|, depth) == Ok(items, [])
    requires if ZeroWidth(code) then |items| <= MAX_ZERO_WIDTH_ARRAY else |items| <= |bodies|
    ensures DecodeArray([code] + bodies, |items|, depth) == Ok(items, [])
  {
    hide DecodeBodies, DecodeValue;
    assert ([code] + bodies)[1..] == bodies;
  }

  lemma {:induction false} WideAllBack(items: seq<Value>, tag: nat, code: byte, s: seq<byte>, depth: nat)
    requires depth <= MAX_DEPTH
    requires forall i :: 0 <= i < |items| ==>
               Scalar(items[i]) && ScalarOk(items[i]) && Tag(items[i]) == tag && Wide(items[i]).0 == code
    ensures DecodeBodies(WideAll(items, tag) + s, code, |items|, depth) == Ok(items, s)
    ensures ZeroWidth(code) || |WideAll(items, tag)| >= |items|
  {
    hide DecodeBody, Wide, ScalarOk, Tag;
    if items == [] {
      NoBytes(s);
    } else {
      var tail := WideAll(items[1..], tag) + s;
      assert WideAll(items, tag) + s == Wide(items[0]).1 + tail;
      BodyBackScalar(items[0], tail, depth);
      ScalarTakesBytes(items[0]);
      WideAllBack(items[1..], tag, code, s, depth);
      assert [items[0]] + items[1..] == items;
      if items[0].Null? { NullCode(items[0]); }
    }
  }

  lemma NullCode(v: Value)
    requires v.Null?
    ensures ZeroWidth(Wide(v).0)
  {
  }

  lemma SameTagSameCode(a: Value, b: Value)
    requires Tag(a) == Tag(b)
    ensures Scalar(a) == Scalar(b) && Compound(a) == Compound(b) && a.Described? == b.Described?
    ensures Scalar(a) ==> Wide(a).0 == Wide(b).0
    ensures Compound(a) ==> Code(a) == Code(b) && CompoundCode(Code(a)) && !ZeroWidth(Code(a)) && Code(a) != DESCRIBED
  {
  }

  lemma {:induction false} BodiesBack(items: seq<Value>, code: byte, s: seq<byte>, depth: nat)
    requires Good(items, depth) && !ZeroWidth(code) && forall i :: 0 <= i < |items| ==> Code(items[i]) == code
    ensures DecodeBodies(BodyAll(items) + s, code, |items|, depth) == Ok(items, s)
    ensures |BodyAll(items)| >= |items|
    decreases items, 0
  {
    hide DecodeBody, Body, WellFormed, Fits, Code;
    if items == [] {
      NoBytes(s);
    } else {
      var tail := BodyAll(items[1..]) + s;
      assert BodyAll(items) + s == Body(items[0]) + tail;
      BodyBack(items[0], tail, depth);
      BodyTakesBytes(items[0]);
      BodiesBack(items[1..], code, s, depth);
      assert [items[0]] + items[1..] == items;
    }
  }

  ghost predicate GoodDescribed(items: seq<Value>, d: Value, code: byte, depth: nat) {
    forall i :: 0 <= i < |items| ==>
      && items[i].Described? && items[i].descriptor == d && Code(items[i].value) == code
      && WellFormed(items[i].value) && Fits(items[i].value, depth)
  }

  function Inner(items: seq<Value>): seq<Value>
    requires forall i :: 0 <= i < |items| ==> items[i].Described?
  {
    seq(|items|, i requires 0 <= i < |items| => items[i].value)
  }

  lemma {:induction false} InnerBodyBack(v: Value, s: seq<byte>, depth: nat)
    requires v.Described? && WellFormed(v.value) && Fits(v.value, depth)
    ensures DecodeBody(InnerBody(v) + s, Code(v.value), depth) == Ok(v.value, s)
    ensures ZeroWidth(Code(v.value)) || |InnerBody(v)| >= 1
    decreases v, 0
  {
    hide DecodeBody, Code;
    BodyBack(v.value, s, depth);
    if !ZeroWidth(Code(v.value)) { BodyTakesBytes(v.value); }
  }

  lemma {:induction false} InnerAllBack(items: seq<Value>, d: Value, code: byte, s: seq<byte>, depth: nat)
    requires GoodDescribed(items, d, code, depth)
    ensures DecodeBodies(InnerAll(items) + s, code, |items|, depth) == Ok(Inner(items), s)
    ensures ZeroWidth(code) || |InnerAll(items)| >= |items|
    decreases items, 0
  {
    hide DecodeBody, InnerBody, WellFormed, Fits, Code;
    if items == [] {
      NoBytes(s);
    } else {
      var tail := InnerAll(items[1..]) + s;
      assert InnerAll(items) + s == InnerBody(items[0]) + tail;
      InnerBodyBack(items[0], tail, depth);
      InnerAllBack(items[1..], d, code, s, depth);
      assert [items[0].value] + Inner(items[1..]) == Inner(items);
    }
  }

  lemma {:induction false} DescriptorBack(v: Value, s: seq<byte>, depth: nat)
    requires v.Described? && WellFormed(v) && Fits(v.descriptor, depth)
    ensures DecodeValue(Enc(v.descriptor) + s, depth) == Ok(v.descriptor, s)
    decreases v, 0
  {
    hide DecodeBody, DecodeValue, Code;
    ValueBack(v.descriptor, s, depth);
    BodyBack(v.descriptor, s, depth);
  }

  lemma {:induction false} DescribedArrayBack(items: seq<Value>, depth: nat)
    requires items != [] && items[0].Described? && WellFormed(items[0]) && Fits(items[0].descriptor, depth)
    requires GoodDescribed(items, items[0].descriptor, Code(items[0].value), depth)
    requires ZeroWidth(Code(items[0].value)) ==> |items| <= MAX_ZERO_WIDTH_ARRAY
    ensures DecodeArray([DESCRIBED] + SharedPart(items[0]) + InnerAll(items), |items|, depth) == Ok(items, [])
    decreases items, 1
  {
    hide DecodeBodies, DecodeValue, InnerAll, Enc, Code, WellFormed, Fits;
    var d, code := items[0].descriptor, Code(items[0].value);
    var rest := [code] + InnerAll(items);
    var buf := [DESCRIBED] + SharedPart(items[0]) + InnerAll(items);
    assert buf[1..] == Enc(d) + rest;
    DescriptorBack(items[0], rest, depth);
    InnerAllBack(items, d, code, [], depth);
    assert InnerAll(items) + [] == InnerAll(items);
    assert rest[1..] == InnerAll(items);
    assert DescribeAll(d, Inner(items)) == items;
  }

  lemma {:induction false} ContentBack(items: seq<Value>, depth: nat)
    requires items != [] && !items[0].Described? && Homogeneous(items) && Good(items, depth) && depth <= MAX_DEPTH
    requires ZeroWidth(ElementCode(items)) ==> |items| <= MAX_ZERO_WIDTH_ARRAY
    ensures DecodeArray(ArrayContent(items), |items|, depth) == Ok(items, [])
    ensures |items| <= MAX_ZERO_WIDTH_ARRAY || |items| <= |ArrayContent(items)|
    decreases items, 1
  {
    hide DecodeArray, DecodeBodies, BodyAll, WideAll, Wide, Code, Tag, Fits;
    forall i | 0 <= i < |items|
      ensures Scalar(items[i]) == Scalar(items[0])
      ensures (Scalar(items[i]) ==> ScalarOk(items[i]) && Wide(items[i]).0 == Wide(items[0]).0)
      ensures Compound(items[i]) == Compound(items[0]) && (Compound(items[0]) ==> Code(items[i]) == Code(items[0]))
    {
      SameTagSameCode(items[i], items[0]);
    }
    SameTagSameCode(items[0], items[0]);
    if Scalar(items[0]) {
      ScalarIsNotCompound(items[0]);
      WideAllBack(items, Tag(items[0]), Wide(items[0]).0, [], depth);
      assert WideAll(items, Tag(items[0])) + [] == WideAll(items, Tag(items[0]));
      SharedBack(Wide(items[0]).0, WideAll(items, Tag(items[0])), items, depth);
    } else {
      BodiesBack(items, Code(items[0]), [], depth);
      assert BodyAll(items) + [] == BodyAll(items);
      SharedBack(Code(items[0]), BodyAll(items), items, depth);
    }
  }

  lemma EmptyArray(depth: nat)
    ensures DecodeArray([NULL], 0, depth) == Ok([], [])
  {
    assert [NULL][1..] == [];
  }

  /** An array's content comes back one level down. */
  lemma {:induction false} ArrayContentBack(v: Value, depth: nat)
    requires v.Array? && WellFormed(v) && Fits(v, depth)
    ensures DecodeArray(ArrayContent(v.items), |v.items|, depth + 1) == Ok(v.items, [])
    ensures |v.items| <= U32_MAX
    decreases v, 0
  {
    hide DecodeArray, Code;
    var items := v.items;
    if items == [] {
      EmptyArray(depth + 1);
    } else if items[0].Described? {
      AllDescribed(v, depth);
      DescribedArrayBack(items, depth + 1);
      InnerAllBack(items, items[0].descriptor, Code(items[0].value), [], depth + 1);
    } else {
      NoneDescribed(v, depth);
      ContentBack(items, depth + 1);
    }
  }

  lemma AllDescribed(v: Value, depth: nat)
    requires v.Array? && WellFormed(v) && Fits(v, depth) && v.items != [] && v.items[0].Described?
    ensures GoodDescribed(v.items, v.items[0].descriptor, Code(v.items[0].value), depth + 1)
    ensures WellFormed(v.items[0]) && Fits(v.items[0].descriptor, depth + 1)
  {
    hide Code, EncAll, ArrayContent;
    forall i | 0 <= i < |v.items| ensures v.items[i].Described? && WellFormed(v.items[i].value) {
      SameTagSameCode(v.items[i], v.items[0]);
      assert WellFormed(v.items[i]);
    }
  }

  lemma NoneDescribed(v: Value, depth: nat)
    requires v.Array? && WellFormed(v) && Fits(v, depth) && v.items != [] && !v.items[0].Described?
    ensures Good(v.items, depth + 1) && depth + 1 <= MAX_DEPTH
  {
    hide Code, EncAll, ArrayContent;
    forall i | 0 <= i < |v.items| ensures !v.items[i].Described? { SameTagSameCode(v.items[i], v.items[0]); }
    assert Fits(v.items[0], depth + 1);
  }

  lemma {:induction false} ArrayBack(v: Value, s: seq<byte>, depth: nat)
    requires v.Array? && WellFormed(v) && Fits(v, depth)
    ensures DecodeBody(Body(v) + s, Code(v), depth) == Ok(v, s)
    decreases v, 1
  {
    hide DecodeBody, DecodeArray, ArrayContent, Sized, Code, Homogeneous, ElementCode;
    ArrayContentBack(v, depth);
    FrameBack(|v.items|, ArrayContent(v.items), s);
    ArraySteps(v, s, depth);
  }

  /** Decoding the encoding of a well-formed value, whatever follows it, returns the value and exactly what follows. */
  lemma RoundTrip(v: Value, suffix: seq<byte>)
    requires WellFormed(v) && Fits(v, 0)
    ensures Decode(Enc(v) + suffix) == Ok(v, suffix)
  {
    hide DecodeValue, DecodeBody, Enc, Body, Code;
    ValueBack(v, suffix, 0);
    BodyBack(v, suffix, 0);
  }
}
