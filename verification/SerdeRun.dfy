/**
 * The serializer and the deserializer as they run (ramqp-broker/src/serde_bin.rs): one extends its output,
 * the other advances its input and counts remaining elements down.
 */
module SerdeRun {
  import opened Wire
  import opened Values
  import opened SerdeBin

  lemma {:induction false} SerAllSnoc(s: Schema, a: seq<Data>, d: Data)
    requires (forall i :: 0 <= i < |a| ==> Conforms(s, a[i])) && Conforms(s, d)
    ensures SerAll(s, a + [d]) == SerAll(s, a) + Ser(s, d)
    decreases |a|
  {
    hide Ser, Conforms;
    if a == [] {
      assert [d][1..] == [];
    } else {
      assert (a + [d])[1..] == a[1..] + [d];
      SerAllSnoc(s, a[1..], d);
    }
  }

  lemma {:induction false} SerFieldsSnoc(fs: seq<Schema>, a: seq<Data>, f: Schema, d: Data)
    requires |fs| == |a| && (forall i :: 0 <= i < |a| ==> Conforms(fs[i], a[i])) && Conforms(f, d)
    ensures SerFields(fs + [f], a + [d]) == SerFields(fs, a) + Ser(f, d)
    decreases |a|
  {
    hide Ser, Conforms;
    if a == [] {
      assert [d][1..] == [] && [f][1..] == [];
    } else {
      assert (a + [d])[1..] == a[1..] + [d] && (fs + [f])[1..] == fs[1..] + [f];
      SerFieldsSnoc(fs[1..], a[1..], f, d);
    }
  }

  class Serializer {
    var out: seq<byte>

    constructor ()
      ensures out == []
    {
      out := [];
    }

    method Write(bytes: seq<byte>)
      modifies this
      ensures out == old(out) + bytes
    {
      out := out + bytes;
    }

    method Serialize(s: Schema, d: Data)
      requires Conforms(s, d)
      modifies this
      ensures out == old(out) + Ser(s, d)
      decreases s, 2
    {
      hide LE, SerAll, SerFields;
      match s
      case Num(w, _) => Write(LE(Unsigned(d.i, w), w));
      case Flag => Write([if d.b then 1 else 0]);
      case Letter => Write(LE(d.n, 4));
      case Str =>
        Write(LE(|d.raw|, 8));
        Write(d.raw);
      case Blob =>
        Write(LE(|d.raw|, 8));
        Write(d.raw);
      case Maybe(inner) =>
        if d.Nothing? {
          Write([0]);
        } else {
          Write([1]);
          Serialize(inner, d.d);
        }
      case Seq(element) =>
        Write(LE(|d.items|, 8));
        SerializeAll(element, d.items);
      case Tuple(fields) => SerializeFields(fields, d.items);
      case Enum(variants) =>
        Write(LE(d.index, 4));
        Serialize(variants[d.index], d.payload);
    }

    method SerializeAll(s: Schema, items: seq<Data>)
      requires forall i :: 0 <= i < |items| ==> Conforms(s, items[i])
      modifies this
      ensures out == old(out) + SerAll(s, items)
      decreases s, 3
    {
      hide Ser, SerAll, Conforms;
      NoItems(s, items);
      for i := 0 to |items|
        invariant out == old(out) + SerAll(s, items[..i])
      {
        SerAllSnoc(s, items[..i], items[i]);
        assert items[..i + 1] == items[..i] + [items[i]];
        Serialize(s, items[i]);
      }
      assert items[..|items|] == items;
    }

    method SerializeFields(fields: seq<Schema>, items: seq<Data>)
      requires |items| == |fields| && forall i :: 0 <= i < |fields| ==> Conforms(fields[i], items[i])
      modifies this
      ensures out == old(out) + SerFields(fields, items)
      decreases fields, 0
    {
      hide Ser, SerFields, Conforms;
      NoFields(fields, items);
      for i := 0 to |fields|
        invariant out == old(out) + SerFields(fields[..i], items[..i])
      {
        SerFieldsSnoc(fields[..i], items[..i], fields[i], items[i]);
        assert items[..i + 1] == items[..i] + [items[i]] && fields[..i + 1] == fields[..i] + [fields[i]];
        Serialize(fields[i], items[i]);
      }
      assert items[..|items|] == items && fields[..|fields|] == fields;
    }
  }

  lemma NoItems(s: Schema, items: seq<Data>)
    ensures SerAll(s, items[..0]) == []
  {
  }

  lemma NoFields(fields: seq<Schema>, items: seq<Data>)
    ensures SerFields(fields[..0], items[..0]) == []
  {
  }

  // ---------------------------------------------------------------- reading

  datatype Outcome<+T> = Got(value: T) | Failed(problem: Problem)

  ghost predicate Agrees<T>(r: Outcome<T>, rest: seq<byte>, spec: Parsed<T>) {
    match spec
    case Done(v, s) => r == Got(v) && rest == s
    case Fault(e) => r == Failed(e)
  }

  /** What a loop that has pushed `got` still has to read. */
  ghost function Then(got: seq<Data>, r: Parsed<seq<Data>>): Parsed<seq<Data>> {
    match r
    case Done(ds, rest) => Done(got + ds, rest)
    case Fault(e) => Fault(e)
  }

  lemma ThenNothing(r: Parsed<seq<Data>>)
    ensures Then([], r) == r
  {
    if r.Done? { assert [] + r.value == r.value; }
  }

  lemma ThenDone(got: seq<Data>, rest: seq<byte>)
    ensures Then(got, Done([], rest)) == Done(got, rest)
  {
    assert got + [] == got;
  }

  lemma ThenCons(got: seq<Data>, d: Data, r: Parsed<seq<Data>>)
    ensures Then(got, Cons(d, r)) == Then(got + [d], r)
  {
    if r.Done? { assert got + ([d] + r.value) == got + [d] + r.value; }
  }

  class Deserializer {
    var input: seq<byte>

    constructor (bytes: seq<byte>)
      ensures input == bytes
    {
      input := bytes;
    }

    method TakeN(k: nat) returns (r: Outcome<nat>)
      modifies this
      ensures Agrees(r, input, TakeUint(old(input), k))
    {
      if |input| < k { return Failed(Ended); }
      r := Got(FromLE(input[..k]));
      input := input[k..];
    }

    method TakeRaw() returns (r: Outcome<seq<byte>>)
      modifies this
      ensures Agrees(r, input, TakeBlob(old(input)))
    {
      hide TakeUint;
      var n := TakeN(8);
      if n.Failed? { return Failed(n.problem); }
      if |input| < n.value { return Failed(Ended); }
      r := Got(input[..n.value]);
      input := input[n.value..];
    }

    method Deserialize(s: Schema) returns (r: Outcome<Data>)
      modifies this
      ensures Agrees(r, input, De(s, old(input)))
      decreases s, 2
    {
      hide TakeUint, TakeBlob, DeAll, DeFields, Utf8;
      match s
      case Num(w, signed) =>
        var n := TakeN(w);
        r := if n.Failed? then Failed(n.problem) else Got(N(if signed then Signed(n.value, w) else n.value));
      case Flag =>
        var n := TakeN(1);
        if n.Failed? { return Failed(n.problem); }
        if n.value > 1 { return Failed(InvalidBool); }
        r := Got(B(n.value == 1));
      case Letter =>
        var n := TakeN(4);
        if n.Failed? { return Failed(n.problem); }
        if !IsChar(n.value) { return Failed(InvalidChar); }
        r := Got(C(n.value));
      case Str =>
        var raw := TakeRaw();
        if raw.Failed? { return Failed(raw.problem); }
        if !Utf8(raw.value) { return Failed(NotUtf8); }
        r := Got(R(raw.value));
      case Blob =>
        var raw := TakeRaw();
        r := if raw.Failed? then Failed(raw.problem) else Got(R(raw.value));
      case Maybe(inner) =>
        var n := TakeN(1);
        if n.Failed? { return Failed(n.problem); }
        if n.value == 0 { return Got(Nothing); }
        if n.value > 1 { return Failed(InvalidOptionTag); }
        var d := Deserialize(inner);
        r := if d.Failed? then d else Got(Just(d.value));
      case Seq(element) =>
        var n := TakeN(8);
        if n.Failed? { return Failed(n.problem); }
        var ds := DeserializeAll(element, n.value);
        r := if ds.Failed? then Failed(ds.problem) else Got(L(ds.value));
      case Tuple(fields) =>
        var ds := DeserializeFields(fields);
        r := if ds.Failed? then Failed(ds.problem) else Got(L(ds.value));
      case Enum(variants) =>
        var n := TakeN(4);
        if n.Failed? { return Failed(n.problem); }
        if n.value >= |variants| { return Failed(UnknownVariant); }
        var d := Deserialize(variants[n.value]);
        r := if d.Failed? then d else Got(V(n.value, d.value));
    }

    method DeserializeAll(s: Schema, n: nat) returns (r: Outcome<seq<Data>>)
      modifies this
      ensures Agrees(r, input, DeAll(s, old(input), n))
      decreases s, 3
    {
      hide De, Then;
      var got: seq<Data> := [];
      var remaining := n;
      ThenNothing(DeAll(s, input, n));
      while remaining > 0
        invariant Then(got, DeAll(s, input, remaining)) == DeAll(s, old(input), n)
      {
        remaining := remaining - 1;
        ghost var before := input;
        var d := Deserialize(s);
        if d.Failed? {
          FaultStays(got, De(s, before).problem);
          return Failed(d.problem);
        }
        ThenCons(got, d.value, DeAll(s, input, remaining));
        got := got + [d.value];
      }
      ThenDone(got, input);
      r := Got(got);
    }

    method DeserializeFields(fields: seq<Schema>) returns (r: Outcome<seq<Data>>)
      modifies this
      ensures Agrees(r, input, DeFields(fields, old(input)))
      decreases fields, 0
    {
      hide De, Then;
      var got: seq<Data> := [];
      ThenNothing(DeFields(fields, input));
      for i := 0 to |fields|
        invariant Then(got, DeFields(fields[i..], input)) == DeFields(fields, old(input))
      {
        ghost var before := input;
        assert fields[i..][1..] == fields[i + 1..] && fields[i..][0] == fields[i];
        var d := Deserialize(fields[i]);
        if d.Failed? {
          FaultStays(got, De(fields[i], before).problem);
          return Failed(d.problem);
        }
        ThenCons(got, d.value, DeFields(fields[i + 1..], input));
        got := got + [d.value];
      }
      ThenDone(got, input);
      r := Got(got);
    }
  }

  lemma FaultStays(got: seq<Data>, e: Problem)
    ensures Then(got, Fault(e)) == Fault(e)
  {
  }

  /** `to_vec`. */
  method Encode(s: Schema, d: Data) returns (bytes: seq<byte>)
    requires Conforms(s, d)
    ensures bytes == ToVec(s, d)
  {
    var ser := new Serializer();
    ser.Serialize(s, d);
    bytes := ser.out;
  }

  /** `from_slice`: the whole input, or an error. */
  method Decode(s: Schema, bytes: seq<byte>) returns (r: Outcome<Data>)
    ensures match FromSlice(s, bytes)
            case Done(d, _) => r == Got(d)
            case Fault(e) => r == Failed(e)
  {
    hide De;
    var de := new Deserializer(bytes);
    r := de.Deserialize(s);
    if r.Got? && de.input != [] { r := Failed(TrailingBytes); }
  }
}
