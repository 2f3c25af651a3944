/** Serialization and deserialization are inverse both ways, for every schema (ramqp-broker/src/serde_bin.rs). */
module SerdeInverse {
  import opened Wire
  import opened Values
  import opened SerdeBin

  lemma TakeBack(n: nat, k: nat, s: seq<byte>)
    requires n < Pow256(k)
    ensures TakeUint(LE(n, k) + s, k) == Done(n, s)
  {
    FromLEOfLE(n, k);
    assert (LE(n, k) + s)[..k] == LE(n, k) && (LE(n, k) + s)[k..] == s;
  }

  lemma TakeWas(buf: seq<byte>, k: nat)
    requires k <= |buf|
    ensures var n := FromLE(buf[..k]); n < Pow256(k) && LE(n, k) + buf[k..] == buf
  {
    hide LE, FromLE, Pow256;
    LEOfFromLE(buf[..k]);
    assert buf[..k] + buf[k..] == buf;
  }

  lemma Even(w: nat)
    requires w > 0
    ensures Pow256(w) % 2 == 0 && Pow256(w) / 2 * 2 == Pow256(w)
  {
    assert Pow256(w) == 256 * Pow256(w - 1);
  }

  lemma BlobBack(raw: seq<byte>, s: seq<byte>)
    requires |raw| < U64
    ensures TakeBlob(LE(|raw|, 8) + raw + s) == Done(raw, s)
  {
    hide LE, TakeUint, Pow256;
    Powers();
    assert LE(|raw|, 8) + raw + s == LE(|raw|, 8) + (raw + s);
    TakeBack(|raw|, 8, raw + s);
    assert (raw + s)[..|raw|] == raw && (raw + s)[|raw|..] == s;
  }

  lemma BlobWas(buf: seq<byte>)
    requires TakeBlob(buf).Done?
    ensures var r := TakeBlob(buf); |r.value| < U64 && LE(|r.value|, 8) + r.value + r.rest == buf
  {
    hide LE, FromLE, Pow256;
    Powers();
    TakeWas(buf, 8);
    var n, rest := FromLE(buf[..8]), buf[8..];
    assert rest[..n] + rest[n..] == rest;
  }

  // ---------------------------------------------------------------- what was written reads back

  lemma NumBack(s: Schema, d: Data, t: seq<byte>)
    requires s.Num? && SchemaOk(s) && Conforms(s, d)
    ensures De(s, Ser(s, d) + t) == Done(d, t)
  {
    hide LE, TakeUint, Pow256;
    Even(s.width);
    TakeBack(Unsigned(d.i, s.width), s.width, t);
  }

  lemma SmallBack(s: Schema, d: Data, t: seq<byte>)
    requires (s.Flag? || s.Letter?) && Conforms(s, d)
    ensures De(s, Ser(s, d) + t) == Done(d, t)
  {
    hide TakeUint, Pow256;
    Powers();
    if s.Flag? {
      assert LE(if d.b then 1 else 0, 1) == [if d.b then 1 else 0];
      TakeBack(if d.b then 1 else 0, 1, t);
    } else {
      TakeBack(d.n, 4, t);
    }
  }

  /** Reading what was written gives the value, and leaves what follows. */
  lemma {:induction false} DeOfSer(s: Schema, d: Data, t: seq<byte>)
    requires SchemaOk(s) && Conforms(s, d)
    ensures De(s, Ser(s, d) + t) == Done(d, t)
    decreases s, 0
  {
    hide LE, TakeUint, TakeBlob, Pow256, Utf8;
    Powers();
    match s
    case Num(_, _) => NumBack(s, d, t);
    case Flag => SmallBack(s, d, t);
    case Letter => SmallBack(s, d, t);
    case Str => BlobBack(d.raw, t);
    case Blob => BlobBack(d.raw, t);
    case Maybe(inner) => MaybeBack(s, d, t);
    case Seq(element) =>
      assert Ser(s, d) + t == LE(|d.items|, 8) + (SerAll(element, d.items) + t);
      TakeBack(|d.items|, 8, SerAll(element, d.items) + t);
      DeAllOfSerAll(element, d.items, t);
    case Tuple(fields) => DeFieldsOfSer(fields, d.items, t);
    case Enum(variants) =>
      var v := variants[d.index];
      assert Ser(s, d) + t == LE(d.index, 4) + (Ser(v, d.payload) + t);
      TakeBack(d.index, 4, Ser(v, d.payload) + t);
      DeOfSer(v, d.payload, t);
  }

  lemma {:induction false} MaybeBack(s: Schema, d: Data, t: seq<byte>)
    requires s.Maybe? && SchemaOk(s) && Conforms(s, d)
    ensures De(s, Ser(s, d) + t) == Done(d, t)
    decreases s, 0, 0
  {
    hide TakeUint, Pow256;
    Powers();
    assert LE(0, 1) == [0] && LE(1, 1) == [1];
    if d.Nothing? {
      TakeBack(0, 1, t);
    } else {
      assert Ser(s, d) + t == [1] + (Ser(s.inner, d.d) + t);
      TakeBack(1, 1, Ser(s.inner, d.d) + t);
      DeOfSer(s.inner, d.d, t);
    }
  }

  lemma {:induction false} DeAllOfSerAll(s: Schema, items: seq<Data>, t: seq<byte>)
    requires SchemaOk(s) && forall i :: 0 <= i < |items| ==> Conforms(s, items[i])
    ensures DeAll(s, SerAll(s, items) + t, |items|) == Done(items, t)
    decreases s, 1, |items|
  {
    hide De, Ser;
    if items == [] {
      assert [] + t == t;
    } else {
      var tail := SerAll(s, items[1..]) + t;
      assert SerAll(s, items) + t == Ser(s, items[0]) + tail;
      DeOfSer(s, items[0], tail);
      DeAllOfSerAll(s, items[1..], t);
      assert [items[0]] + items[1..] == items;
    }
  }

  lemma {:induction false} DeFieldsOfSer(fields: seq<Schema>, items: seq<Data>, t: seq<byte>)
    requires forall i :: 0 <= i < |fields| ==> SchemaOk(fields[i])
    requires |items| == |fields| && forall i :: 0 <= i < |fields| ==> Conforms(fields[i], items[i])
    ensures DeFields(fields, SerFields(fields, items) + t) == Done(items, t)
    decreases fields, 0
  {
    hide De, Ser;
    if fields == [] {
      assert [] + t == t;
    } else {
      var tail := SerFields(fields[1..], items[1..]) + t;
      assert SerFields(fields, items) + t == Ser(fields[0], items[0]) + tail;
      DeOfSer(fields[0], items[0], tail);
      DeFieldsOfSer(fields[1..], items[1..], t);
      assert [items[0]] + items[1..] == items;
    }
  }

  // ---------------------------------------------------------------- what was read is what would be written

  lemma NumWas(s: Schema, buf: seq<byte>)
    requires s.Num? && SchemaOk(s) && De(s, buf).Done?
    ensures var r := De(s, buf); Conforms(s, r.value) && Ser(s, r.value) + r.rest == buf
  {
    hide LE, FromLE, Pow256;
    Even(s.width);
    TakeWas(buf, s.width);
  }

  lemma SmallWas(s: Schema, buf: seq<byte>)
    requires (s.Flag? || s.Letter?) && De(s, buf).Done?
    ensures var r := De(s, buf); Conforms(s, r.value) && Ser(s, r.value) + r.rest == buf
  {
    hide FromLE, Pow256;
    Powers();
    TakeWas(buf, if s.Flag? then 1 else 4);
    assert LE(0, 1) == [0] && LE(1, 1) == [1];
  }

  lemma TextWas(s: Schema, buf: seq<byte>)
    requires (s.Str? || s.Blob?) && De(s, buf).Done?
    ensures var r := De(s, buf); Conforms(s, r.value) && Ser(s, r.value) + r.rest == buf
  {
    hide LE, TakeBlob, Utf8;
    BlobWas(buf);
  }

  lemma {:induction false} MaybeWas(s: Schema, buf: seq<byte>)
    requires s.Maybe? && SchemaOk(s) && De(s, buf).Done?
    ensures var r := De(s, buf); Conforms(s, r.value) && Ser(s, r.value) + r.rest == buf
    decreases s, 0
  {
    hide FromLE, Pow256;
    TakeWas(buf, 1);
    assert LE(0, 1) == [0] && LE(1, 1) == [1];
    if FromLE(buf[..1]) == 1 {
      SerOfDe(s.inner, buf[1..]);
      var r := De(s, buf);
      assert Ser(s, r.value) + r.rest == [1] + (Ser(s.inner, r.value.d) + r.rest);
    }
  }

  lemma {:induction false} SeqWas(s: Schema, buf: seq<byte>)
    requires s.Seq? && SchemaOk(s) && De(s, buf).Done?
    ensures var r := De(s, buf); Conforms(s, r.value) && Ser(s, r.value) + r.rest == buf
    decreases s, 1
  {
    hide LE, FromLE, Pow256, DeAll, SerAll;
    Powers();
    TakeWas(buf, 8);
    var n := FromLE(buf[..8]);
    SerAllOfDeAll(s.element, buf[8..], n);
    var r := De(s, buf);
    assert Ser(s, r.value) + r.rest == LE(n, 8) + (SerAll(s.element, r.value.items) + r.rest);
  }

  lemma {:induction false} EnumWas(s: Schema, buf: seq<byte>)
    requires s.Enum? && SchemaOk(s) && De(s, buf).Done?
    ensures var r := De(s, buf); Conforms(s, r.value) && Ser(s, r.value) + r.rest == buf
    decreases s, 0
  {
    hide LE, FromLE, Pow256;
    TakeWas(buf, 4);
    var n := FromLE(buf[..4]);
    SerOfDe(s.variants[n], buf[4..]);
    var r := De(s, buf);
    assert Ser(s, r.value) + r.rest == LE(n, 4) + (Ser(s.variants[n], r.value.payload) + r.rest);
  }

  /** A value that is read has its schema's type, and writing it gives the very bytes that were read. */
  lemma {:induction false} SerOfDe(s: Schema, buf: seq<byte>)
    requires SchemaOk(s) && De(s, buf).Done?
    ensures var r := De(s, buf); Conforms(s, r.value) && Ser(s, r.value) + r.rest == buf
    decreases s, 2
  {
    hide De, Ser, Conforms;
    match s
    case Num(_, _) => NumWas(s, buf);
    case Flag => SmallWas(s, buf);
    case Letter => SmallWas(s, buf);
    case Str => TextWas(s, buf);
    case Blob => TextWas(s, buf);
    case Maybe(_) => MaybeWas(s, buf);
    case Seq(_) => SeqWas(s, buf);
    case Tuple(_) => TupleWas(s, buf);
    case Enum(_) => EnumWas(s, buf);
  }

  lemma {:induction false} TupleWas(s: Schema, buf: seq<byte>)
    requires s.Tuple? && SchemaOk(s) && De(s, buf).Done?
    ensures var r := De(s, buf); Conforms(s, r.value) && Ser(s, r.value) + r.rest == buf
    decreases s, 1
  {
    hide DeFields, SerFields;
    SerFieldsOfDe(s.fields, buf);
  }

  lemma {:induction false} SerAllOfDeAll(s: Schema, buf: seq<byte>, n: nat)
    requires SchemaOk(s) && DeAll(s, buf, n).Done?
    ensures var r := DeAll(s, buf, n);
            && |r.value| == n && (forall i :: 0 <= i < n ==> Conforms(s, r.value[i]))
            && SerAll(s, r.value) + r.rest == buf
    decreases s, 3, n
  {
    hide De, Ser, Conforms;
    var r := DeAll(s, buf, n);
    if n > 0 {
      SerOfDe(s, buf);
      var first := De(s, buf);
      SerAllOfDeAll(s, first.rest, n - 1);
      var others := DeAll(s, first.rest, n - 1);
      assert r.value == [first.value] + others.value && r.value[1..] == others.value;
      assert SerAll(s, r.value) + r.rest == Ser(s, first.value) + (SerAll(s, others.value) + r.rest);
    } else {
      assert [] + buf == buf;
    }
  }

  lemma {:induction false} SerFieldsOfDe(fields: seq<Schema>, buf: seq<byte>)
    requires (forall i :: 0 <= i < |fields| ==> SchemaOk(fields[i])) && DeFields(fields, buf).Done?
    ensures var r := DeFields(fields, buf);
            && |r.value| == |fields| && (forall i :: 0 <= i < |fields| ==> Conforms(fields[i], r.value[i]))
            && SerFields(fields, r.value) + r.rest == buf
    decreases fields, 3
  {
    hide De, Ser, Conforms;
    var r := DeFields(fields, buf);
    if fields != [] {
      SerOfDe(fields[0], buf);
      var first := De(fields[0], buf);
      SerFieldsOfDe(fields[1..], first.rest);
      var others := DeFields(fields[1..], first.rest);
      assert r.value == [first.value] + others.value && r.value[1..] == others.value;
      assert SerFields(fields, r.value) + r.rest ==
             Ser(fields[0], first.value) + (SerFields(fields[1..], others.value) + r.rest);
    } else {
      assert [] + buf == buf;
    }
  }

  // ---------------------------------------------------------------- the two directions

  /** `from_slice` inverts `to_vec`. */
  lemma FromSliceOfToVec(s: Schema, d: Data)
    requires SchemaOk(s) && Conforms(s, d)
    ensures FromSlice(s, ToVec(s, d)) == Done(d, [])
  {
    hide De, Ser;
    DeOfSer(s, d, []);
    assert Ser(s, d) + [] == Ser(s, d);
  }

  /** `to_vec` inverts `from_slice`: no other bytes read as that value, and trailing bytes are refused. */
  lemma ToVecOfFromSlice(s: Schema, bytes: seq<byte>)
    requires SchemaOk(s) && FromSlice(s, bytes).Done?
    ensures var d := FromSlice(s, bytes).value; Conforms(s, d) && ToVec(s, d) == bytes
  {
    hide De, Ser, Conforms;
    SerOfDe(s, bytes);
    var d := De(s, bytes).value;
    assert Ser(s, d) + [] == Ser(s, d);
  }
}
