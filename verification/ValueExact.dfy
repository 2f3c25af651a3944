/**
 * Exactly which values come back (ramqp-core/src/codec/value.rs:49-279, 302-538). The encoder takes any value
 * and picks an array's one constructor by its first element; the decoder limits nesting and arrays whose
 * elements take no bytes. So some values are lost, and these are all of them.
 */
module ValueExact {
  import opened Wire
  import opened Values
  import opened ValueDecode
  import opened ValueRoundTrip

  /** What the types hold and memory allows: scalars in range, sizes and counts that fit a u32. */
  predicate Sane(v: Value) {
    match v
    case List(items) => (forall i :: 0 <= i < |items| ==> Sane(items[i])) && |EncAll(items)| + 4 <= U32_MAX
    case Map(items) => (forall i :: 0 <= i < |items| ==> Sane(items[i])) && |EncAll(items)| + 4 <= U32_MAX
    case Array(items) =>
      (forall i :: 0 <= i < |items| ==> Sane(items[i])) && |ArrayContent(items)| + 4 <= U32_MAX && |items| <= U32_MAX
    case Described(d, x) => Sane(d) && Sane(x)
    case _ => ScalarOk(v)
  }

  /** Arrays of one shape, not too many elements that take no bytes, and maps of pairs. */
  predicate Regular(v: Value) {
    match v
    case List(items) => forall i :: 0 <= i < |items| ==> Regular(items[i])
    case Map(items) => (forall i :: 0 <= i < |items| ==> Regular(items[i])) && |items| % 2 == 0
    case Array(items) =>
      && (forall i :: 0 <= i < |items| ==> Regular(items[i])) && Homogeneous(items)
      && (items != [] && ZeroWidth(ElementCode(items)) ==> |items| <= MAX_ZERO_WIDTH_ARRAY)
    case Described(d, x) => Regular(d) && Regular(x)
    case _ => true
  }

  lemma {:induction false} WellFormedIs(v: Value)
    requires Sane(v)
    ensures WellFormed(v) <==> Regular(v)
  {
    hide ArrayContent, EncAll, Homogeneous, ElementCode;
    match v
    case List(items) => forall i | 0 <= i < |items| { WellFormedIs(items[i]); }
    case Map(items) => forall i | 0 <= i < |items| { WellFormedIs(items[i]); }
    case Array(items) => forall i | 0 <= i < |items| { WellFormedIs(items[i]); }
    case Described(d, x) =>
      WellFormedIs(d);
      WellFormedIs(x);
    case _ =>
  }

  // ---------------------------------------------------------------- what a constructor can give

  function CodeTag(code: byte): nat {
    if code < 0x50 then ZeroWidthTag(code) else if code < 0x70 then NarrowTag(code)
    else if code < 0xA0 then FixedTag(code) else VarTag(code)
  }

  function ZeroWidthTag(code: byte): nat {
    if code == DESCRIBED then 24 else if code == NULL then 0 else if code == BOOL_TRUE || code == BOOL_FALSE then 1
    else if code == UINT_0 then 4 else if code == ULONG_0 then 5 else 21
  }

  function NarrowTag(code: byte): nat {
    if code == UBYTE then 2 else if code == BYTE then 6 else if code == SMALL_UINT then 4
    else if code == SMALL_ULONG then 5 else if code == SMALL_INT then 8 else if code == SMALL_LONG then 9
    else if code == BOOL then 1
    else if code == USHORT then 3 else 7
  }

  function FixedTag(code: byte): nat {
    if code == UINT then 4 else if code == INT then 8 else if code == FLOAT then 10 else if code == CHAR then 15
    else if code == DECIMAL32 then 12 else if code == ULONG then 5 else if code == LONG then 9
    else if code == DOUBLE then 11 else if code == TIMESTAMP then 16 else if code == DECIMAL64 then 13
    else if code == DECIMAL128 then 14 else 17
  }

  function VarTag(code: byte): nat {
    if code == VBIN8 || code == VBIN32 then 18 else if code == STR8 || code == STR32 then 19
    else if code == SYM8 || code == SYM32 then 20 else if code == LIST8 || code == LIST32 then 21
    else if code == MAP8 || code == MAP32 then 22 else 23
  }

  lemma SmallTag(code: byte, buf: seq<byte>)
    requires code < 0x70 && DecodeScalar(code, buf).Ok? && code != DESCRIBED
    ensures Tag(DecodeScalar(code, buf).value) == CodeTag(code)
  {
    hide FromBE, Signed, DecodeFixed, DecodeVar;
  }

  lemma WideTag(code: byte, buf: seq<byte>)
    requires 0x70 <= code < 0xA0 && DecodeScalar(code, buf).Ok?
    ensures Tag(DecodeScalar(code, buf).value) == CodeTag(code)
  {
    hide FromBE, Signed, DecodeNarrow, DecodeVar;
  }

  lemma TextTag(code: byte, buf: seq<byte>)
    requires 0xA0 <= code && DecodeScalar(code, buf).Ok?
    ensures Tag(DecodeScalar(code, buf).value) == CodeTag(code)
  {
    hide Utf8, ReadVar, DecodeNarrow, DecodeFixed;
  }

  lemma ScalarTag(code: byte, buf: seq<byte>)
    requires DecodeScalar(code, buf).Ok? && code != DESCRIBED && !CompoundCode(code)
    ensures Tag(DecodeScalar(code, buf).value) == CodeTag(code)
  {
    hide DecodeScalar, CodeTag, Tag;
    if code < 0x70 { SmallTag(code, buf); } else if code < 0xA0 { WideTag(code, buf); } else { TextTag(code, buf); }
  }

  /** The constructor alone decides the variant. */
  lemma BodyTag(buf: seq<byte>, code: byte, depth: nat)
    requires DecodeBody(buf, code, depth).Ok?
    ensures Tag(DecodeBody(buf, code, depth).value) == CodeTag(code) && depth <= MAX_DEPTH
  {
    hide DecodeScalar, DecodeValue, DecodeN, DecodeArray, ReadFrame;
    if code != DESCRIBED && !CompoundCode(code) { ScalarTag(code, buf); }
  }

  lemma {:induction false} BodiesTag(buf: seq<byte>, code: byte, n: nat, depth: nat)
    requires DecodeBodies(buf, code, n, depth).Ok?
    ensures var vs := DecodeBodies(buf, code, n, depth).value;
            |vs| == n && (forall i :: 0 <= i < n ==> Tag(vs[i]) == CodeTag(code)) && (n > 0 ==> depth <= MAX_DEPTH)
    decreases n
  {
    hide DecodeBody, Tag, CodeTag;
    if n > 0 {
      BodyTag(buf, code, depth);
      BodiesTag(DecodeBody(buf, code, depth).rest, code, n - 1, depth);
    }
  }

  // ---------------------------------------------------------------- how many bytes a scalar takes

  lemma OneByte(s: seq<byte>)
    requires |s| == 1
    ensures FromBE(s) <= 255 && -128 <= Signed(FromBE(s), 1) <= 127
  {
    Powers();
    assert FromBE(s[..0]) == 0;
  }

  lemma NarrowTakes(code: byte, buf: seq<byte>)
    requires code < 0x70 && DecodeScalar(code, buf).Ok? && Scalar(DecodeScalar(code, buf).value)
    ensures var r := DecodeScalar(code, buf);
            && |buf| >= |r.rest| + |Compact(r.value).1|
            && (|buf| == |r.rest| + |Compact(r.value).1| ==> Compact(r.value).0 == code)
  {
    hide FromBE, BE, Signed, Unsigned;
    if |buf| >= 1 { OneByte(buf[..1]); }
  }

  lemma FixedTakes(code: byte, buf: seq<byte>)
    requires 0x70 <= code < 0xA0 && DecodeScalar(code, buf).Ok? && Scalar(DecodeScalar(code, buf).value)
    ensures var r := DecodeScalar(code, buf);
            && |buf| >= |r.rest| + |Compact(r.value).1|
            && (|buf| == |r.rest| + |Compact(r.value).1| ==> Compact(r.value).0 == code)
  {
    hide FromBE, BE, Signed, Unsigned;
  }

  lemma VarTakes(code: byte, buf: seq<byte>)
    requires 0xA0 <= code && DecodeScalar(code, buf).Ok? && Scalar(DecodeScalar(code, buf).value)
    ensures var r := DecodeScalar(code, buf);
            && |buf| >= |r.rest| + |Compact(r.value).1|
            && (|buf| == |r.rest| + |Compact(r.value).1| ==> Compact(r.value).0 == code)
  {
    hide FromBE, BE, Utf8;
    if |buf| >= 1 { OneByte(buf[..1]); }
  }

  /** No constructor takes fewer bytes for a scalar than its own does, and none but its own takes as few. */
  lemma ScalarTakes(code: byte, buf: seq<byte>, depth: nat)
    requires DecodeBody(buf, code, depth).Ok? && Scalar(DecodeBody(buf, code, depth).value)
    ensures var r := DecodeBody(buf, code, depth);
            && |buf| >= |r.rest| + |Body(r.value)|
            && (|buf| == |r.rest| + |Body(r.value)| ==> Code(r.value) == code)
  {
    hide DecodeScalar, DecodeValue, DecodeN, DecodeArray, ReadFrame, Compact;
    ScalarForm(DecodeBody(buf, code, depth).value);
    if code < 0x70 {
      NarrowTakes(code, buf);
    } else if code < 0xA0 {
      FixedTakes(code, buf);
    } else {
      VarTakes(code, buf);
    }
  }

  lemma {:induction false} ScalarsTake(buf: seq<byte>, code: byte, n: nat, depth: nat)
    requires DecodeBodies(buf, code, n, depth).Ok?
    requires forall i :: 0 <= i < |DecodeBodies(buf, code, n, depth).value| ==>
               Scalar(DecodeBodies(buf, code, n, depth).value[i])
    ensures var r := DecodeBodies(buf, code, n, depth);
            && |buf| >= |r.rest| + |BodyAll(r.value)|
            && (|buf| == |r.rest| + |BodyAll(r.value)| ==> forall i :: 0 <= i < |r.value| ==> Code(r.value[i]) == code)
    decreases n
  {
    hide DecodeBody, Body, Code, Scalar;
    if n > 0 {
      var a := DecodeBody(buf, code, depth);
      var b := DecodeBodies(a.rest, code, n - 1, depth);
      var vs := DecodeBodies(buf, code, n, depth).value;
      assert vs == [a.value] + b.value;
      assert vs[0] == a.value && vs[1..] == b.value;
      forall i | 0 <= i < |b.value| ensures Scalar(b.value[i]) { assert vs[i + 1] == b.value[i]; }
      ScalarTakes(code, buf, depth);
      ScalarsTake(a.rest, code, n - 1, depth);
    }
  }

  // ---------------------------------------------------------------- only these come back

  ghost predicate GivesBack(r: Result<Value>, v: Value) {
    r.Ok? && r.value == v
  }

  ghost predicate GiveBack(r: Result<seq<Value>>, vs: seq<Value>) {
    r.Ok? && r.value == vs
  }

  lemma {:induction false} OnlyGoodBody(v: Value, s: seq<byte>, depth: nat)
    requires Sane(v) && GivesBack(DecodeBody(Body(v) + s, Code(v), depth), v)
    ensures WellFormed(v) && Fits(v, depth)
    decreases v, 2
  {
    hide DecodeBody, Body, Code;
    BodyTag(Body(v) + s, Code(v), depth);
    match v
    case List(items) => OnlyGoodList(v, s, depth);
    case Map(items) => OnlyGoodList(v, s, depth);
    case Array(items) => OnlyGoodArray(v, s, depth);
    case Described(d, x) => OnlyGoodDescribed(v, s, depth);
    case _ =>
  }

  lemma {:induction false} OnlyGoodValue(v: Value, s: seq<byte>, depth: nat)
    requires Sane(v) && GivesBack(DecodeValue(Enc(v) + s, depth), v)
    ensures WellFormed(v) && Fits(v, depth) && DecodeValue(Enc(v) + s, depth) == Ok(v, s)
    decreases v, 3
  {
    hide DecodeBody, Body, Code, Sane, WellFormed, Fits;
    ValueBack(v, s, depth);
    OnlyGoodBody(v, s, depth);
    BodyBack(v, s, depth);
  }

  lemma {:induction false} OnlyGoodDescribed(v: Value, s: seq<byte>, depth: nat)
    requires v.Described? && Sane(v) && GivesBack(DecodeBody(Body(v) + s, Code(v), depth), v)
    ensures WellFormed(v) && Fits(v, depth)
    decreases v, 1
  {
    hide DecodeValue, Enc;
    var d, x := v.descriptor, v.value;
    assert Body(v) + s == Enc(d) + (Enc(x) + s);
    OnlyGoodValue(d, Enc(x) + s, depth + 1);
    OnlyGoodValue(x, s, depth + 1);
  }

  lemma {:induction false} OnlyGoodItems(items: seq<Value>, s: seq<byte>, depth: nat)
    requires (forall i :: 0 <= i < |items| ==> Sane(items[i]))
    requires GiveBack(DecodeN(EncAll(items) + s, |items|, depth), items)
    ensures Good(items, depth)
    decreases items, 0
  {
    hide DecodeValue, Enc, Sane, WellFormed, Fits;
    if items != [] {
      var tail := EncAll(items[1..]) + s;
      assert EncAll(items) + s == Enc(items[0]) + tail;
      OnlyGoodValue(items[0], tail, depth);
      OnlyGoodItems(items[1..], s, depth);
    }
  }

  lemma ListOpens(v: Value, s: seq<byte>, depth: nat)
    requires (v.List? || v.Map?) && GivesBack(DecodeBody(Body(v) + s, Code(v), depth), v)
    requires ReadFrame(Body(v) + s, 4) == Ok(Framed(|v.items|, EncAll(v.items)), s)
    ensures GiveBack(DecodeN(EncAll(v.items), |v.items|, depth + 1), v.items) && depth <= MAX_DEPTH
    ensures v.Map? ==> |v.items| % 2 == 0
  {
    hide DecodeN, DecodeArray, EncAll, Body, ReadFrame;
  }

  lemma {:induction false} OnlyGoodList(v: Value, s: seq<byte>, depth: nat)
    requires (v.List? || v.Map?) && Sane(v) && GivesBack(DecodeBody(Body(v) + s, Code(v), depth), v)
    ensures WellFormed(v) && Fits(v, depth)
    decreases v, 1
  {
    hide DecodeBody, DecodeN, EncAll, Sized, Code;
    EncAllLength(v.items);
    FrameBack(|v.items|, EncAll(v.items), s);
    ListOpens(v, s, depth);
    assert EncAll(v.items) + [] == EncAll(v.items);
    OnlyGoodItems(v.items, [], depth + 1);
  }

  // ---------------------------------------------------------------- arrays

  lemma ArrayOpens(v: Value, s: seq<byte>, depth: nat)
    requires v.Array? && GivesBack(DecodeBody(Body(v) + s, Code(v), depth), v)
    requires ReadFrame(Body(v) + s, 4) == Ok(Framed(|v.items|, ArrayContent(v.items)), s)
    ensures GiveBack(DecodeArray(ArrayContent(v.items), |v.items|, depth + 1), v.items) && depth <= MAX_DEPTH
  {
    hide DecodeN, DecodeArray, ArrayContent, Body, ReadFrame;
  }

  /** Bare elements with their own constructor. */
  lemma {:induction false} OnlyGoodBodies(items: seq<Value>, code: byte, s: seq<byte>, depth: nat)
    requires forall i :: 0 <= i < |items| ==> Sane(items[i]) && Code(items[i]) == code
    requires GiveBack(DecodeBodies(BodyAll(items) + s, code, |items|, depth), items)
    ensures Good(items, depth)
    decreases items, 0
  {
    hide DecodeBody, Body, Code, Sane, WellFormed, Fits;
    if items != [] {
      var tail := BodyAll(items[1..]) + s;
      assert BodyAll(items) + s == Body(items[0]) + tail;
      OnlyGoodBody(items[0], tail, depth);
      BodyBack(items[0], tail, depth);
      OnlyGoodBodies(items[1..], code, s, depth);
    }
  }

  /** The content after the shared constructor, when that is not a descriptor's. */
  lemma SharedOpens(code: byte, bodies: seq<byte>, n: nat, vs: seq<Value>, depth: nat)
    requires code != DESCRIBED && GiveBack(DecodeArray([code] + bodies, n, depth), vs)
    ensures GiveBack(DecodeBodies(bodies, code, n, depth), vs) && (ZeroWidth(code) ==> n <= MAX_ZERO_WIDTH_ARRAY)
  {
    hide DecodeBodies, DecodeValue;
    assert ([code] + bodies)[1..] == bodies;
  }

  lemma ScalarFits(v: Value, depth: nat)
    requires Scalar(v) && depth <= MAX_DEPTH
    ensures Fits(v, depth)
  {
  }

  lemma ScalarSane(v: Value)
    requires Scalar(v)
    ensures (Sane(v) <==> ScalarOk(v)) && (WellFormed(v) <==> ScalarOk(v))
  {
  }

  lemma OnlyGoodScalars(items: seq<Value>, depth: nat)
    requires items != [] && Scalar(items[0]) && forall i :: 0 <= i < |items| ==> Sane(items[i])
    requires GiveBack(DecodeArray(ArrayContent(items), |items|, depth), items)
    ensures Good(items, depth) && Homogeneous(items)
    ensures ZeroWidth(ElementCode(items)) ==> |items| <= MAX_ZERO_WIDTH_ARRAY
  {
    hide DecodeArray, DecodeBodies, Wide, WideAll, Sane, WellFormed, Fits, Tag, Code, ScalarOk;
    var code := Wide(items[0]).0;
    ScalarSane(items[0]);
    ScalarIsNotCompound(items[0]);
    SharedOpens(code, WideAll(items, Tag(items[0])), |items|, items, depth);
    BodiesTag(WideAll(items, Tag(items[0])), code, |items|, depth);
    forall i | 0 <= i < |items|
      ensures WellFormed(items[i]) && Fits(items[i], depth) && Tag(items[i]) == Tag(items[0])
    {
      SameTagSameCode(items[i], items[0]);
      ScalarSane(items[i]);
      ScalarFits(items[i], depth);
    }
    NotDescribed(items);
  }

  lemma NotDescribed(items: seq<Value>)
    requires items != [] && !items[0].Described? && forall i :: 0 <= i < |items| ==> Tag(items[i]) == Tag(items[0])
    ensures Homogeneous(items)
  {
    hide Tag, Code;
  }

  lemma {:induction false} OnlyGoodCompounds(items: seq<Value>, depth: nat)
    requires items != [] && Compound(items[0]) && forall i :: 0 <= i < |items| ==> Sane(items[i])
    requires GiveBack(DecodeArray(ArrayContent(items), |items|, depth), items)
    ensures Good(items, depth) && Homogeneous(items) && !ZeroWidth(ElementCode(items))
    decreases items, 1
  {
    hide DecodeArray, DecodeBodies, BodyAll, Sane, WellFormed, Fits, Tag, Code;
    var code := Code(items[0]);
    SameTagSameCode(items[0], items[0]);
    SharedOpens(code, BodyAll(items), |items|, items, depth);
    BodiesTag(BodyAll(items), code, |items|, depth);
    forall i | 0 <= i < |items| ensures Tag(items[i]) == Tag(items[0]) && Code(items[i]) == code {
      SameTagSameCode(items[i], items[0]);
    }
    assert BodyAll(items) + [] == BodyAll(items);
    OnlyGoodBodies(items, code, [], depth);
    NotDescribed(items);
  }

  // ---------------------------------------------------------------- arrays of described values

  lemma {:induction false} OnlyGoodDescriptor(v: Value, s: seq<byte>, depth: nat)
    requires v.Described? && Sane(v) && GivesBack(DecodeValue(Enc(v.descriptor) + s, depth), v.descriptor)
    ensures WellFormed(v.descriptor) && Fits(v.descriptor, depth)
    ensures DecodeValue(Enc(v.descriptor) + s, depth) == Ok(v.descriptor, s)
    decreases v, 0
  {
    hide DecodeValue, Enc;
    OnlyGoodValue(v.descriptor, s, depth);
  }

  lemma {:induction false} OnlyGoodInnerBody(v: Value, s: seq<byte>, depth: nat)
    requires v.Described? && Sane(v) && GivesBack(DecodeBody(InnerBody(v) + s, Code(v.value), depth), v.value)
    ensures WellFormed(v.value) && Fits(v.value, depth)
    ensures DecodeBody(InnerBody(v) + s, Code(v.value), depth) == Ok(v.value, s)
    decreases v, 0
  {
    hide DecodeBody, Code;
    OnlyGoodBody(v.value, s, depth);
    BodyBack(v.value, s, depth);
  }

  ghost predicate AllDescribedBy(items: seq<Value>, d: Value) {
    forall i :: 0 <= i < |items| ==> Sane(items[i]) && items[i].Described? && items[i].descriptor == d
  }

  lemma {:induction false} OnlyGoodInner(items: seq<Value>, d: Value, code: byte, s: seq<byte>, depth: nat)
    requires AllDescribedBy(items, d) && forall i :: 0 <= i < |items| ==> Code(items[i].value) == code
    requires GiveBack(DecodeBodies(InnerAll(items) + s, code, |items|, depth), Inner(items))
    ensures GoodDescribed(items, d, code, depth)
    decreases items, 0
  {
    hide DecodeBody, InnerBody, Code, Sane, WellFormed, Fits;
    if items != [] {
      var tail := InnerAll(items[1..]) + s;
      assert InnerAll(items) + s == InnerBody(items[0]) + tail;
      assert Inner(items) == [items[0].value] + Inner(items[1..]);
      assert Inner(items)[0] == items[0].value && Inner(items)[1..] == Inner(items[1..]);
      OnlyGoodInnerBody(items[0], tail, depth);
      OnlyGoodInner(items[1..], d, code, s, depth);
    }
  }

  lemma {:induction false} InnerIsBodies(items: seq<Value>)
    requires forall i :: 0 <= i < |items| ==> items[i].Described?
    ensures InnerAll(items) == BodyAll(Inner(items))
    decreases |items|
  {
    hide Body, Code;
    if items != [] {
      InnerIsBodies(items[1..]);
      assert Inner(items)[0] == items[0].value && Inner(items)[1..] == Inner(items[1..]);
    }
  }

  /** All written under the first one's constructor and read back under it: they had the same constructor. */
  lemma SameConstructor(items: seq<Value>, code: byte, depth: nat)
    requires items != [] && (forall i :: 0 <= i < |items| ==> items[i].Described?) && code == Code(items[0].value)
    requires GiveBack(DecodeBodies(InnerAll(items), code, |items|, depth), Inner(items))
    ensures forall i :: 0 <= i < |items| ==> Code(items[i].value) == code
  {
    hide DecodeBodies, InnerAll, BodyAll, Code, Tag, CodeTag;
    var vs := Inner(items);
    BodiesTag(InnerAll(items), code, |items|, depth);
    forall i | 0 <= i < |items| ensures Tag(vs[i]) == Tag(vs[0]) {}
    if Scalar(vs[0]) {
      forall i | 0 <= i < |vs| ensures Scalar(vs[i]) { SameTagSameCode(vs[i], vs[0]); }
      ScalarsTake(InnerAll(items), code, |items|, depth);
      InnerIsBodies(items);
      forall i | 0 <= i < |items| ensures Code(items[i].value) == code { assert vs[i] == items[i].value; }
    } else {
      forall i | 0 <= i < |items| ensures Code(items[i].value) == code {
        assert vs[i] == items[i].value && vs[0] == items[0].value;
        SameTagSameCode(vs[i], vs[0]);
        DescribedCode(vs[i], vs[0]);
      }
    }
  }

  lemma DescribedCode(a: Value, b: Value)
    requires (a.Described? && b.Described?) || (Compound(a) && Compound(b) && Code(a) == Code(b))
    ensures Code(a) == Code(b)
  {
  }

  ghost predicate ReadsDescribed(r: Result<Value>, n: nat, items: seq<Value>, depth: nat) {
    && r.Ok? && r.rest != [] && !TooMany(n, r.rest[0], |r.rest| - 1)
    && var b := DecodeBodies(r.rest[1..], r.rest[0], n, depth);
       b.Ok? && items == DescribeAll(r.value, b.value)
  }

  lemma DescribedOpens(buf: seq<byte>, n: nat, items: seq<Value>, depth: nat)
    requires buf != [] && buf[0] == DESCRIBED && GiveBack(DecodeArray(buf, n, depth), items)
    ensures ReadsDescribed(DecodeValue(buf[1..], depth), n, items, depth)
  {
    hide DecodeBodies, DecodeValue;
  }

  lemma {:induction false} OnlyGoodDescribeds(items: seq<Value>, depth: nat)
    requires items != [] && items[0].Described? && forall i :: 0 <= i < |items| ==> Sane(items[i])
    requires GiveBack(DecodeArray(ArrayContent(items), |items|, depth), items)
    ensures GoodDescribed(items, items[0].descriptor, Code(items[0].value), depth)
    ensures WellFormed(items[0].descriptor) && Fits(items[0].descriptor, depth)
    ensures ZeroWidth(Code(items[0].value)) ==> |items| <= MAX_ZERO_WIDTH_ARRAY
    decreases items, 1
  {
    hide DecodeArray, DecodeBodies, DecodeValue, InnerAll, Enc, Code, Sane, WellFormed, Fits;
    var d, code := items[0].descriptor, Code(items[0].value);
    var rest := [code] + InnerAll(items);
    var buf := ArrayContent(items);
    assert buf[0] == DESCRIBED && buf[1..] == Enc(d) + rest;
    DescribedOpens(buf, |items|, items, depth);
    var r := DecodeValue(Enc(d) + rest, depth);
    assert items[0] == DescribeAll(r.value, DecodeBodies(r.rest[1..], r.rest[0], |items|, depth).value)[0];
    OnlyGoodDescriptor(items[0], rest, depth);
    assert rest[1..] == InnerAll(items) && rest[0] == code;
    var vs := DecodeBodies(InnerAll(items), code, |items|, depth).value;
    assert forall i :: 0 <= i < |items| ==> items[i] == Described(d, vs[i]);
    assert vs == Inner(items);
    SameConstructor(items, code, depth);
    assert InnerAll(items) + [] == InnerAll(items);
    OnlyGoodInner(items, d, code, [], depth);
  }

  // ---------------------------------------------------------------- the theorem

  lemma ArrayIsGood(v: Value, depth: nat)
    requires v.Array? && Sane(v) && Good(v.items, depth + 1) && depth <= MAX_DEPTH && Homogeneous(v.items)
    requires forall i :: 0 <= i < |v.items| ==> !v.items[i].Described?
    requires v.items != [] && ZeroWidth(ElementCode(v.items)) ==> |v.items| <= MAX_ZERO_WIDTH_ARRAY
    ensures WellFormed(v) && Fits(v, depth)
  {
    hide ArrayContent, ElementCode, Homogeneous;
  }

  lemma DescribedShape(items: seq<Value>, d: Value, code: byte, depth: nat)
    requires items != [] && GoodDescribed(items, d, code, depth)
    ensures Homogeneous(items) && ElementCode(items) == code
  {
    hide Code, WellFormed, Fits;
  }

  lemma DescribedFits(v: Value, d: Value, code: byte, depth: nat)
    requires v.Array? && depth <= MAX_DEPTH && GoodDescribed(v.items, d, code, depth + 1) && Fits(d, depth + 1)
    ensures Fits(v, depth)
  {
    hide Code, WellFormed;
  }

  lemma DescribedArrayIsGood(v: Value, d: Value, code: byte, depth: nat)
    requires v.Array? && Sane(v) && v.items != [] && depth <= MAX_DEPTH && GoodDescribed(v.items, d, code, depth + 1)
    requires WellFormed(d) && Fits(d, depth + 1) && (ZeroWidth(code) ==> |v.items| <= MAX_ZERO_WIDTH_ARRAY)
    ensures WellFormed(v) && Fits(v, depth)
  {
    hide ArrayContent, Code, Fits, Homogeneous, ElementCode;
    DescribedShape(v.items, d, code, depth + 1);
    DescribedFits(v, d, code, depth);
    forall i | 0 <= i < |v.items| ensures WellFormed(v.items[i]) {}
  }

  lemma {:induction false} OnlyGoodArray(v: Value, s: seq<byte>, depth: nat)
    requires v.Array? && Sane(v) && GivesBack(DecodeBody(Body(v) + s, Code(v), depth), v)
    ensures WellFormed(v) && Fits(v, depth)
    decreases v, 1
  {
    hide DecodeBody, DecodeArray, ArrayContent, Sized, Code, Homogeneous, ElementCode, Good, GoodDescribed, WellFormed,
         Fits;
    var items := v.items;
    FrameBack(|items|, ArrayContent(items), s);
    ArrayOpens(v, s, depth);
    if items == [] {
      NothingIsGood(depth + 1);
      ArrayIsGood(v, depth);
    } else if items[0].Described? {
      OnlyGoodDescribeds(items, depth + 1);
      DescribedArrayIsGood(v, items[0].descriptor, Code(items[0].value), depth);
    } else {
      if Scalar(items[0]) { OnlyGoodScalars(items, depth + 1); } else { OnlyGoodCompounds(items, depth + 1); }
      forall i | 0 <= i < |items| ensures !items[i].Described? { LikeTheFirst(items, i); }
      ArrayIsGood(v, depth);
    }
  }

  lemma NothingIsGood(depth: nat)
    ensures Good([], depth) && Homogeneous([])
  {
  }

  lemma LikeTheFirst(items: seq<Value>, i: nat)
    requires Homogeneous(items) && i < |items| && !items[0].Described?
    ensures !items[i].Described?
  {
    SameTagSameCode(items[i], items[0]);
  }

  /**
   * A value comes back from its encoding, whatever follows it, if and only if its arrays are of one shape,
   * with at most 1024 elements that take no bytes, and it nests no deeper than the decoder counts.
   */
  lemma RoundTripIff(v: Value, suffix: seq<byte>)
    requires Sane(v)
    ensures Decode(Enc(v) + suffix) == Ok(v, suffix) <==> Regular(v) && Fits(v, 0)
  {
    hide DecodeValue, Enc, Sane, Regular, WellFormed, Fits;
    WellFormedIs(v);
    if Regular(v) && Fits(v, 0) {
      RoundTrip(v, suffix);
    } else if Decode(Enc(v) + suffix) == Ok(v, suffix) {
      OnlyGoodValue(v, suffix, 0);
      assert false;
    }
  }

  /** An array of a number and a null: what is written is too short for two numbers, and is refused. */
  lemma MixedArrayIsLost()
    ensures Sane(Array([Ubyte(1), Null])) && !Regular(Array([Ubyte(1), Null]))
    ensures Decode(Enc(Array([Ubyte(1), Null]))) != Ok(Array([Ubyte(1), Null]), [])
  {
    var v := Array([Ubyte(1), Null]);
    assert WideAll([Null], 2) == [];
    assert |ArrayContent(v.items)| == 2;
    assert Tag(v.items[1]) != Tag(v.items[0]);
    assert Sane(v) && !Regular(v) by {
      assert !Homogeneous(v.items);
    }
    assert Enc(v) + [] == Enc(v);
    RoundTripIff(v, []);
  }
}
