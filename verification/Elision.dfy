/**
 * Leaving out trailing nulls changes nothing a reader sees, and composites come back
 * (ramqp-core/src/codec/encode.rs:249-340, ramqp-core/src/codec/described.rs:123-252).
 */
module Elision {
  import opened Collections
  import opened Wire
  import opened Values
  import opened ValueDecode
  import opened ValueRoundTrip
  import opened ValueExact
  import opened Composite

  /** A cell the encoder can be given: a well-formed value, or symbols whose sizes fit. */
  ghost predicate CellOk(c: Cell) {
    match c
    case Plain(v) => WellFormed(v) && Fits(v, 0)
    case SymbolArray(ss) =>
      && |[SYM32] + SymbolBodies(ss)| + 4 <= U32_MAX
      && forall i :: 0 <= i < |ss| ==> |ss[i]| <= U32_MAX && Utf8(ss[i])
  }

  // ---------------------------------------------------------------- a cell reads the same whatever follows it

  /** Two readings agree but for what is left. */
  ghost predicate Alike<T>(a: Result<T>, s: seq<byte>, b: Result<T>, t: seq<byte>) {
    || (a.Err? && b.Err? && a.error == b.error)
    || (a.Ok? && b.Ok? && a.value == b.value && a.rest == s && b.rest == t)
  }

  lemma OnlyNullIsNull(v: Value)
    ensures Code(v) == NULL <==> v == Null
    ensures (Code(v) == ARRAY32 <==> v.Array?) && Code(v) != ARRAY8
  {
  }

  lemma EncStarts(v: Value, s: seq<byte>)
    ensures (Enc(v) + s) != [] && (Enc(v) + s)[0] == Code(v) && (Enc(v) + s)[1..] == Body(v) + s
  {
    hide Code, Body;
    assert (Enc(v) + s)[1..] == Body(v) + s;
  }

  lemma {:induction false} SymbolBodiesLength(ss: seq<seq<byte>>)
    ensures |SymbolBodies(ss)| >= 4 * |ss|
  {
    if ss != [] { SymbolBodiesLength(ss[1..]); }
  }

  lemma SymbolArrayStarts(ss: seq<seq<byte>>, s: seq<byte>)
    requires CellOk(SymbolArray(ss))
    ensures var buf := CellBytes(SymbolArray(ss)) + s;
            && buf != [] && buf[0] == ARRAY32
            && ReadFrame(buf[1..], 4) == Ok(Framed(|ss|, [SYM32] + SymbolBodies(ss)), s)
  {
    hide ReadFrame, SymbolBodies, Sized, Utf8;
    var content := [SYM32] + SymbolBodies(ss);
    AfterFirst(ARRAY32, Sized(|ss|, content), s);
    SymbolBodiesLength(ss);
    FrameBack(|ss|, content, s);
  }

  lemma AfterFirst(b: byte, x: seq<byte>, s: seq<byte>)
    ensures ([b] + x + s)[0] == b && ([b] + x + s)[1..] == x + s
  {
    assert ([b] + x + s)[1..] == x + s;
  }

  lemma TypedAlike(c: Cell, ty: Option<nat>, s: seq<byte>, t: seq<byte>)
    requires CellOk(c)
    ensures Alike(ReadTyped(CellBytes(c) + s, ty), s, ReadTyped(CellBytes(c) + t, ty), t)
  {
    hide DecodeValue, ReadFrame, DecodeContent, Enc, Code, Body, SymbolBodies, WellFormed, Fits, CodeFor;
    match c
    case Plain(v) =>
      EncStarts(v, s);
      EncStarts(v, t);
      RoundTrip(v, s);
      RoundTrip(v, t);
    case SymbolArray(ss) =>
      SymbolArrayStarts(ss, s);
      SymbolArrayStarts(ss, t);
      ArrayAlike(ss, s);
      ArrayAlike(ss, t);
  }

  lemma CodeOfTag(v: Value)
    requires WellFormed(v)
    ensures CodeFor(Tag(v), Code(v))
  {
    hide EncAll, ArrayContent, Homogeneous, ElementCode;
  }

  ghost function Leaving(r: Result<Value>, s: seq<byte>): Result<Value> {
    match r
    case Err(e) => Err(e)
    case Ok(v, _) => Ok(v, s)
  }

  lemma ArrayAlike(ss: seq<seq<byte>>, s: seq<byte>)
    requires CellOk(SymbolArray(ss))
    ensures DecodeValue(CellBytes(SymbolArray(ss)) + s, 0) ==
            Leaving(DecodeContent(Framed(|ss|, [SYM32] + SymbolBodies(ss)), ARRAY32, 1), s)
  {
    hide ReadFrame, DecodeContent, CellBytes, SymbolBodies;
    SymbolArrayStarts(ss, s);
  }

  lemma MultipleAlike(c: Cell, s: seq<byte>, t: seq<byte>)
    requires CellOk(c)
    ensures Alike(ReadMultiple(CellBytes(c) + s), s, ReadMultiple(CellBytes(c) + t), t)
  {
    hide ReadTyped, ReadFrame, ReadSymbolArray, WellFormed, Fits, SymbolBodies, Code, Enc, Body;
    match c
    case Plain(v) =>
      EncStarts(v, s);
      EncStarts(v, t);
      OnlyNullIsNull(v);
      if v.Array? {
        ArrayFrame(v, s);
        ArrayFrame(v, t);
      } else {
        TypedAlike(c, Some(20), s, t);
      }
    case SymbolArray(ss) =>
      SymbolArrayStarts(ss, s);
      SymbolArrayStarts(ss, t);
  }

  lemma ArrayFrame(v: Value, s: seq<byte>)
    requires v.Array? && WellFormed(v) && Fits(v, 0)
    ensures ReadFrame(Body(v) + s, 4) == Ok(Framed(|v.items|, ArrayContent(v.items)), s)
  {
    hide ReadFrame, ArrayContent, Homogeneous, ElementCode;
    ArrayContentBack(v, 0);
    FrameBack(|v.items|, ArrayContent(v.items), s);
  }

  lemma NullCells(c: Cell, s: seq<byte>)
    ensures AtNull(CellBytes(c) + s) <==> c == Plain(Null)
    ensures CellBytes(c) == [NULL] <==> c == Plain(Null)
    ensures c == Plain(Null) ==> (CellBytes(c) + s)[1..] == s
  {
    hide SymbolBodies, Code, Body;
    match c
    case Plain(v) =>
      EncStarts(v, s);
      OnlyNullIsNull(v);
      if v == Null { NullBytes(s); }
    case SymbolArray(ss) =>
  }

  lemma NullBytes(s: seq<byte>)
    ensures Enc(Null) == [NULL] && ([NULL] + s)[1..] == s
  {
  }

  /** What one read gives, apart from the reader it leaves. */
  ghost predicate SameRead(a: Read<Field>, s: Reader, b: Read<Field>, t: Reader) {
    || (a.Bad? && b.Bad? && a.error == b.error)
    || (a.Got? && b.Got? && a.value == b.value && a.reader == s && b.reader == t)
  }

  lemma FieldAlike(kind: Kind, c: Cell, s: seq<byte>, t: seq<byte>, m: nat, n: nat)
    requires CellOk(c) && m > 0 && n > 0
    ensures SameRead(ReadField(kind, Reader(CellBytes(c) + s, m)), Reader(s, m - 1),
                     ReadField(kind, Reader(CellBytes(c) + t, n)), Reader(t, n - 1))
  {
    hide CellOk, CellBytes, ReadTyped, ReadMultiple, AtNull;
    NullCells(c, s);
    NullCells(c, t);
    if c != Plain(Null) {
      if kind.Symbols? || kind.ReqSymbols? { MultipleAlike(c, s, t); } else { TypedAlike(c, kind.ty, s, t); }
    }
  }

  // ---------------------------------------------------------------- elision

  /** What a reader gets out of a list: its fields, or the error. */
  ghost function Outcome(r: Read<seq<Field>>): Read<seq<Field>> {
    match r
    case Bad(e) => Bad(e)
    case Got(fs, _) => Got(fs, Reader([], 0))
  }

  /** The reader of `cs[i..n]`. */
  ghost function At(cs: seq<Cell>, i: nat, n: nat): Reader
    requires n <= |cs|
  {
    if i < n then Reader(Concat(cs[i..n]), n - i) else Reader([], 0)
  }

  lemma ConcatStep(cs: seq<Cell>, i: nat, n: nat)
    requires i < n <= |cs|
    ensures Concat(cs[i..n]) == CellBytes(cs[i]) + Concat(cs[i + 1..n])
  {
    hide CellBytes;
    assert cs[i..n][1..] == cs[i + 1..n];
  }

  /** A reader that runs past the end of its list reads as one that has nothing left. */
  lemma {:induction false} SpentReader(kinds: seq<Kind>, body: seq<byte>)
    ensures Outcome(ReadFields(kinds, Reader(body, 0))) == Outcome(ReadFields(kinds, Reader([], 0)))
  {
    hide ReadThere, AtNull;
    if kinds != [] { SpentReader(kinds[1..], body); }
  }

  /** From any field on: the full list, and the list cut where only nulls follow, read alike. */
  lemma {:induction false} CutAlike(kinds: seq<Kind>, cs: seq<Cell>, i: nat, n: nat)
    requires n <= |cs| && forall k :: 0 <= k < |cs| ==> CellOk(cs[k])
    requires forall k :: n <= k < |cs| ==> cs[k] == Plain(Null)
    ensures Outcome(ReadFields(kinds, At(cs, i, |cs|))) == Outcome(ReadFields(kinds, At(cs, i, n)))
    decreases |kinds|
  {
    hide CellOk, CellBytes, ReadField, Concat;
    if kinds != [] && i < |cs| {
      ConcatStep(cs, i, |cs|);
      CutAlike(kinds[1..], cs, i + 1, n);
      NextAt(cs, i, |cs|);
      if i < n {
        ConcatStep(cs, i, n);
        NextAt(cs, i, n);
        FieldAlike(kinds[0], cs[i], Concat(cs[i + 1..]), Concat(cs[i + 1..n]), |cs| - i, n - i);
        assert cs[i + 1..|cs|] == cs[i + 1..];
      } else {
        NullOrNothing(kinds[0], cs[i], Concat(cs[i + 1..|cs|]), |cs| - i);
      }
    }
  }

  lemma NullOrNothing(kind: Kind, c: Cell, s: seq<byte>, m: nat)
    requires c == Plain(Null) && m > 0
    ensures SameRead(ReadField(kind, Reader(CellBytes(c) + s, m)), Reader(s, m - 1),
                     ReadField(kind, Reader([], 0)), Reader([], 0))
  {
    hide ReadThere;
    NullBytes(s);
  }

  lemma NextAt(cs: seq<Cell>, i: nat, n: nat)
    requires i < n <= |cs|
    ensures At(cs, i + 1, n) == Reader(Concat(cs[i + 1..n]), n - i - 1)
  {
    if i + 1 == n { assert cs[i + 1..n] == []; }
  }

  /** Leaving out the trailing nulls changes nothing: for every schema, the elided list reads as the full one. */
  lemma ElisionPreservesReads(kinds: seq<Kind>, cs: seq<Cell>)
    requires forall k :: 0 <= k < |cs| ==> CellOk(cs[k])
    ensures var n := KeepCount(cs);
            Outcome(ReadFields(kinds, Reader(Concat(cs), |cs|))) ==
            Outcome(ReadFields(kinds, Reader(Concat(cs[..n]), n)))
  {
    hide CellOk, CellBytes, ReadFields, Outcome;
    var n := KeepCount(cs);
    KeepCountCuts(cs);
    forall k | n <= k < |cs| ensures cs[k] == Plain(Null) { NullCells(cs[k], []); }
    CutAlike(kinds, cs, 0, n);
    assert cs[0..|cs|] == cs && cs[0..n] == cs[..n];
  }

  // ---------------------------------------------------------------- composites come back

  /** A field value of its declared kind; a present field may still be a bare null. */
  ghost predicate FieldOk(kind: Kind, f: Field) {
    match f
    case Absent => kind.Opt?
    case Present(v) =>
      && (kind.Req? || kind.Opt? || kind.Default?)
      && Sane(v) && (v != Null && kind.ty.Some? ==> Tag(v) == kind.ty.value)
    case Syms(ss) => (kind.Symbols? || kind.ReqSymbols?) && CellOk(SymbolArray(ss))
  }

  /**
   * A present null is taken for a missing field, unless null is its default; any other value comes back if its
   * arrays and maps are regular and it nests within the decoder's limit.
   */
  ghost predicate Survives(kind: Kind, f: Field) {
    f.Present? ==> if f.v == Null then kind.Default? && kind.default == Null else Regular(f.v) && Fits(f.v, 0)
  }

  lemma {:induction false} SymbolsBack(ss: seq<seq<byte>>, s: seq<byte>)
    requires forall i :: 0 <= i < |ss| ==> |ss[i]| <= U32_MAX && Utf8(ss[i])
    ensures ReadSymbolBodies(SYM32, SymbolBodies(ss) + s, |ss|) == Ok(ss, s)
    decreases |ss|
  {
    hide ReadVar, Utf8, BE, Pow256;
    if ss == [] {
      NoBytes(s);
    } else {
      var tail := SymbolBodies(ss[1..]) + s;
      assert SymbolBodies(ss) + s == BE(|ss[0]|, 4) + ss[0] + tail;
      Powers();
      VarBack(ss[0], 4, tail);
      SymbolsBack(ss[1..], s);
      assert [ss[0]] + ss[1..] == ss;
    }
  }

  lemma SymbolArrayBack(ss: seq<seq<byte>>)
    requires CellOk(SymbolArray(ss))
    ensures ReadSymbolArray(Framed(|ss|, [SYM32] + SymbolBodies(ss))).Ok?
    ensures ReadSymbolArray(Framed(|ss|, [SYM32] + SymbolBodies(ss))).value == ss
  {
    hide SymbolBodies, ReadSymbolBodies, Utf8;
    SymbolsBack(ss, []);
    assert ([SYM32] + SymbolBodies(ss))[1..] == SymbolBodies(ss) + [];
  }

  lemma ThereBack(kind: Kind, f: Field, s: seq<byte>)
    requires FieldOk(kind, f) && Survives(kind, f) && CellOf(kind, f) != Plain(Null)
    ensures ReadThere(kind, CellBytes(CellOf(kind, f)) + s) == Ok(f, s)
  {
    hide Sane, Regular, WellFormed, Fits, DecodeValue, Enc, Code, Body, ReadFrame, ReadSymbolArray, SymbolBodies, Tag,
         CodeFor;
    match f
    case Present(v) =>
      WellFormedIs(v);
      EncStarts(v, s);
      CodeOfTag(v);
      RoundTrip(v, s);
    case Syms(ss) =>
      SymbolArrayStarts(ss, s);
      SymbolArrayBack(ss);
  }

  lemma FieldBack(kind: Kind, f: Field, s: seq<byte>, n: nat)
    requires FieldOk(kind, f) && Survives(kind, f) && n > 0
    ensures ReadField(kind, Reader(CellBytes(CellOf(kind, f)) + s, n)) == Got(f, Reader(s, n - 1))
  {
    hide Sane, Regular, Fits, CellOk, CellBytes, ReadThere, AtNull;
    NullCells(CellOf(kind, f), s);
    if CellOf(kind, f) != Plain(Null) { ThereBack(kind, f, s); }
  }

  /** A value that is not regular, or nests too deep, is refused or read as another. */
  lemma FieldLost(kind: Kind, f: Field, s: seq<byte>, n: nat)
    requires FieldOk(kind, f) && !Survives(kind, f) && n > 0
    ensures var r := ReadField(kind, Reader(CellBytes(CellOf(kind, f)) + s, n)); r.Got? ==> r.value != f
  {
    hide Sane, Regular, WellFormed, Fits, DecodeValue, Enc, Code, Body, CodeFor, AtNull;
    NullCells(CellOf(kind, f), s);
    WellFormedIs(f.v);
    if f.v != Null && GivesBack(DecodeValue(Enc(f.v) + s, 0), f.v) {
      OnlyGoodValue(f.v, s, 0);
      assert false;
    }
  }

  /** A field left out with the trailing nulls: what it reads as is itself just when it survives. */
  lemma LeftOutIff(kind: Kind, f: Field)
    requires FieldOk(kind, f) && CellOf(kind, f) == Plain(Null)
    ensures WhenMissing(kind) == Some(f) <==> Survives(kind, f)
  {
    hide Sane, Regular, Fits, CellOk;
  }

  ghost function Cells(kinds: seq<Kind>, fs: seq<Field>): seq<Cell>
    requires |kinds| == |fs|
  {
    if kinds == [] then [] else [CellOf(kinds[0], fs[0])] + Cells(kinds[1..], fs[1..])
  }

  ghost predicate FieldsOk(kinds: seq<Kind>, fs: seq<Field>) {
    |kinds| == |fs| && forall i :: 0 <= i < |fs| ==> FieldOk(kinds[i], fs[i])
  }

  ghost predicate AllSurvive(kinds: seq<Kind>, fs: seq<Field>)
    requires |kinds| == |fs|
  {
    forall i :: 0 <= i < |fs| ==> Survives(kinds[i], fs[i])
  }

  lemma {:induction false} CellsAre(kinds: seq<Kind>, fs: seq<Field>)
    requires |kinds| == |fs|
    ensures |Cells(kinds, fs)| == |fs| && forall i :: 0 <= i < |fs| ==> Cells(kinds, fs)[i] == CellOf(kinds[i], fs[i])
  {
    hide CellOf;
    if fs != [] { CellsAre(kinds[1..], fs[1..]); }
  }

  /** From any field on: what is read of the list cut where only nulls follow is the fields iff they all survive. */
  lemma {:induction false} CutBackIff(kinds: seq<Kind>, fs: seq<Field>, cs: seq<Cell>, i: nat, n: nat)
    requires FieldsOk(kinds, fs) && |cs| == |fs| && i <= |fs| && n <= |fs|
    requires forall k :: 0 <= k < |fs| ==> cs[k] == CellOf(kinds[k], fs[k]) && (n <= k ==> cs[k] == Plain(Null))
    ensures var r := ReadFields(kinds[i..], At(cs, i, n));
            (r.Got? && r.value == fs[i..]) <==> AllSurvive(kinds[i..], fs[i..])
    decreases |fs| - i
  {
    hide FieldOk, CellBytes, CellOf, ReadField, WhenMissing, Survives, Concat;
    if i < |fs| {
      var kind, f := kinds[i], fs[i];
      assert kinds[i..][1..] == kinds[i + 1..] && fs[i..][1..] == fs[i + 1..];
      CutBackIff(kinds, fs, cs, i + 1, n);
      Rejoin(kinds[i..], fs[i..]);
      if i < n {
        ConcatStep(cs, i, n);
        NextAt(cs, i, n);
        if Survives(kind, f) {
          FieldBack(kind, f, Concat(cs[i + 1..n]), n - i);
        } else {
          FieldLost(kind, f, Concat(cs[i + 1..n]), n - i);
        }
      } else {
        LeftOutIff(kind, f);
        NothingThere(kind);
      }
    }
  }

  lemma NothingThere(kind: Kind)
    ensures ReadField(kind, Reader([], 0)) ==
            if WhenMissing(kind).Some? then Got(WhenMissing(kind).value, Reader([], 0)) else Bad(MissingField)
  {
  }

  lemma Rejoin(kinds: seq<Kind>, fs: seq<Field>)
    requires |kinds| == |fs| && fs != []
    ensures AllSurvive(kinds, fs) <==> Survives(kinds[0], fs[0]) && AllSurvive(kinds[1..], fs[1..])
    ensures forall x, xs :: [x] + xs == fs <==> x == fs[0] && xs == fs[1..]
  {
    hide Survives;
    if Survives(kinds[0], fs[0]) && AllSurvive(kinds[1..], fs[1..]) {
      forall i | 0 <= i < |fs| ensures Survives(kinds[i], fs[i]) {
        if i > 0 { assert kinds[1..][i - 1] == kinds[i] && fs[1..][i - 1] == fs[i]; }
      }
    }
    if AllSurvive(kinds, fs) {
      forall i | 0 <= i < |fs| - 1 ensures Survives(kinds[1..][i], fs[1..][i]) {
        assert Survives(kinds[i + 1], fs[i + 1]);
      }
    }
    forall x, xs | [x] + xs == fs ensures x == fs[0] && xs == fs[1..] {
      assert ([x] + xs)[1..] == xs;
    }
    assert [fs[0]] + fs[1..] == fs;
  }

  lemma DescriptorBack(code: nat, rest: seq<byte>)
    requires code < 0x1_0000_0000_0000_0000
    ensures DecodeDescriptor(DescriptorBytes(code) + rest) == Ok(Ulong(code), rest)
  {
    hide BE, ReadUint, Pow256;
    Powers();
    var k := if code <= 255 then 1 else 8;
    ReadBack(code, k, rest);
    AfterFirst(if code <= 255 then SMALL_ULONG else ULONG, BE(code, k), rest);
  }

  lemma ListHeaderBack(count: nat, content: seq<byte>, suffix: seq<byte>)
    requires |content| + 4 <= U32_MAX && count <= U32_MAX
    ensures ReadListHeader([LIST32] + Sized(count, content) + suffix) == Ok(Framed(count, content), suffix)
  {
    hide ReadFrame, Sized;
    AfterFirst(LIST32, Sized(count, content), suffix);
    FrameBack(count, content, suffix);
  }

  lemma OpenBack(code: nat, count: nat, content: seq<byte>, suffix: seq<byte>)
    requires code < 0x1_0000_0000_0000_0000 && |content| + 4 <= U32_MAX && count <= U32_MAX
    ensures OpenList(ListBytes(code, count, content) + suffix, code) == Ok(Framed(count, content), suffix)
  {
    hide ReadListHeader, Sized, DecodeDescriptor, DescriptorBytes;
    var rest := [LIST32] + Sized(count, content) + suffix;
    var buf := ListBytes(code, count, content) + suffix;
    assert buf[1..] == DescriptorBytes(code) + rest;
    DescriptorBack(code, rest);
    ListHeaderBack(count, content, suffix);
  }

  /**
   * A composite comes back from its encoding, with exactly what followed it left, if and only if every present
   * field does: it is not a bare null (unless declared to default to null), its arrays and maps are regular, and
   * it nests within the decoder's limit.
   */
  lemma CompositeRoundTripsIff(code: nat, kinds: seq<Kind>, fs: seq<Field>, suffix: seq<byte>)
    requires code < 0x1_0000_0000_0000_0000 && FieldsOk(kinds, fs)
    requires |Concat(Cells(kinds, fs))| + 4 <= U32_MAX && |fs| <= U32_MAX
    ensures DecodeList(EncodeList(code, Cells(kinds, fs)) + suffix, code, kinds) == Ok(fs, suffix) <==>
            AllSurvive(kinds, fs)
  {
    hide FieldOk, Cells, CellBytes, CellOf, ReadFields, Concat, OpenList, ListBytes, AllSurvive, KeepCount;
    CellsAre(kinds, fs);
    var cs := Cells(kinds, fs);
    var n := KeepCount(cs);
    KeepCountCuts(cs);
    forall k | n <= k < |cs| ensures cs[k] == Plain(Null) { NullCells(cs[k], []); }
    ConcatPrefix(cs, n);
    OpenBack(code, n, Concat(cs[..n]), suffix);
    CutBackIff(kinds, fs, cs, 0, n);
    assert kinds[0..] == kinds && fs[0..] == fs;
    CutFromStart(cs, n);
  }

  lemma CutFromStart(cs: seq<Cell>, n: nat)
    requires n <= |cs|
    ensures At(cs, 0, n) == Reader(Concat(cs[..n]), n)
  {
    assert cs[0..n] == cs[..n];
    if n == 0 { assert cs[..n] == []; }
  }

  /** A field that is there and holds null comes back as one that is not there. */
  lemma PresentNullIsLost(code: nat, suffix: seq<byte>)
    requires code < 0x1_0000_0000_0000_0000
    ensures FieldsOk([Opt(None)], [Present(Null)])
    ensures DecodeList(EncodeList(code, Cells([Opt(None)], [Present(Null)])) + suffix, code, [Opt(None)]) ==
            Ok([Absent], suffix)
  {
    hide DecodeList, EncodeList;
    assert Cells([Opt(None)], [Absent]) == [Plain(Null)] == Cells([Opt(None)], [Present(Null)]);
    assert Concat([Plain(Null)]) == [NULL];
    CompositeRoundTripsIff(code, [Opt(None)], [Absent], suffix);
  }

  /** A field that holds an array of a number and a null does not come back. */
  lemma PresentMixedArrayIsLost(code: nat, suffix: seq<byte>)
    requires code < 0x1_0000_0000_0000_0000
    ensures var fs := [Present(Array([Ubyte(1), Null]))];
            && FieldsOk([Opt(None)], fs)
            && DecodeList(EncodeList(code, Cells([Opt(None)], fs)) + suffix, code, [Opt(None)]) != Ok(fs, suffix)
  {
    hide DecodeList, EncodeList, Sane, Regular, Fits, Enc;
    var v := Array([Ubyte(1), Null]);
    MixedArrayIsLost();
    MixedArrayIsShort();
    assert Cells([Opt(None)], [Present(v)]) == [Plain(v)];
    assert Concat([Plain(v)]) == Enc(v) + [] == Enc(v);
    assert !Survives(Opt(None), Present(v));
    CompositeRoundTripsIff(code, [Opt(None)], [Present(v)], suffix);
  }

  lemma MixedArrayIsShort()
    ensures |Enc(Array([Ubyte(1), Null]))| == 11
  {
    assert WideAll([Null], 2) == [];
    assert |ArrayContent([Ubyte(1), Null])| == 2;
  }

  lemma {:induction false} ConcatPrefix(cs: seq<Cell>, n: nat)
    requires n <= |cs|
    ensures |Concat(cs[..n])| <= |Concat(cs)|
  {
    hide CellBytes;
    if n > 0 {
      assert cs[..n][1..] == cs[1..][..n - 1];
      ConcatPrefix(cs[1..], n - 1);
    }
  }
}
