/**
 * Composites as they are written and read (ramqp-core/src/codec/encode.rs:249-340 and described.rs:179-252,
 * 343-365): one pass that records where each field starts, cuts the trailing nulls off and fills in the
 * header; and a list decoder advanced field by field.
 */
module CompositeWriter {
  import opened Collections
  import opened Wire
  import opened Values
  import opened ValueDecode
  import opened ValueWriter
  import opened ValueReader
  import opened Composite

  lemma {:induction false} ConcatSnoc(a: seq<Cell>, c: Cell)
    ensures Concat(a + [c]) == Concat(a) + CellBytes(c)
  {
    hide CellBytes;
    if a == [] {
      assert [c][1..] == [];
    } else {
      assert (a + [c])[1..] == a[1..] + [c];
      ConcatSnoc(a[1..], c);
    }
  }

  lemma ConcatUpTo(cs: seq<Cell>, i: nat)
    requires i < |cs|
    ensures Concat(cs[..i + 1]) == Concat(cs[..i]) + CellBytes(cs[i])
  {
    hide CellBytes, Concat;
    assert cs[..i + 1] == cs[..i] + [cs[i]];
    ConcatSnoc(cs[..i], cs[i]);
  }

  /** Where field `i` starts in the content. */
  ghost function Start(cs: seq<Cell>, i: nat): nat
    requires i <= |cs|
  {
    |Concat(cs[..i])|
  }

  /** A field's bytes are those between its start and the next. */
  lemma {:induction false} CellAt(cs: seq<Cell>, i: nat, n: nat)
    requires i < n <= |cs|
    ensures Start(cs, i) + |CellBytes(cs[i])| == Start(cs, i + 1) <= Start(cs, n)
    ensures Concat(cs[..n])[Start(cs, i)..Start(cs, i + 1)] == CellBytes(cs[i])
    ensures Concat(cs[..n])[..Start(cs, i)] == Concat(cs[..i])
    decreases n - i
  {
    hide CellBytes, Concat;
    ConcatUpTo(cs, i);
    if i + 1 < n {
      CellAt(cs, i, n - 1);
      ConcatUpTo(cs, n - 1);
    }
  }

  /** The elision loop's step. */
  lemma KeepStep(cs: seq<Cell>, count: nat)
    requires 0 < count <= |cs|
    ensures CellBytes(cs[count - 1]) == [NULL] ==> KeepCount(cs[..count]) == KeepCount(cs[..count - 1])
    ensures CellBytes(cs[count - 1]) != [NULL] ==> KeepCount(cs[..count]) == count
  {
    hide CellBytes;
    assert cs[..count][..count - 1] == cs[..count - 1];
  }

  lemma {:induction false} SymbolsSnoc(a: seq<seq<byte>>, s: seq<byte>)
    ensures SymbolBodies(a + [s]) == SymbolBodies(a) + (BE(|s|, 4) + s)
  {
    hide BE;
    if a == [] {
      assert [s][1..] == [];
    } else {
      assert (a + [s])[1..] == a[1..] + [s];
      SymbolsSnoc(a[1..], s);
    }
  }

  method PutSymbols(buf: Buffer, ss: seq<seq<byte>>)
    modifies buf
    ensures buf.data == old(buf.data) + CellBytes(SymbolArray(ss))
  {
    hide BE, SymbolBodies, Sized;
    var sizePos, countPos, start := buf.OpenCompound(ARRAY32);
    buf.PutU8(SYM32);
    NoSymbols(ss);
    for i := 0 to |ss|
      invariant buf.data == old(buf.data) + [ARRAY32] + PLACEHOLDER + PLACEHOLDER + ([SYM32] + SymbolBodies(ss[..i]))
    {
      SymbolsSnoc(ss[..i], ss[i]);
      assert ss[..i + 1] == ss[..i] + [ss[i]];
      buf.PutSlice(BE(|ss[i]|, 4));
      buf.PutSlice(ss[i]);
    }
    assert ss[..|ss|] == ss;
    buf.CloseCompound(old(buf.data), ARRAY32, [SYM32] + SymbolBodies(ss), sizePos, countPos, start, |ss|);
  }

  lemma NoSymbols(ss: seq<seq<byte>>)
    ensures SymbolBodies(ss[..0]) == []
  {
  }

  method PutCell(buf: Buffer, c: Cell)
    modifies buf
    ensures buf.data == old(buf.data) + CellBytes(c)
  {
    hide Enc, SymbolBodies, Sized;
    match c
    case Plain(v) => buf.EncodeValue(v);
    case SymbolArray(ss) => PutSymbols(buf, ss);
  }

  /** Write the fields, noting where each starts. */
  method PutFields(buf: Buffer, cs: seq<Cell>) returns (starts: seq<nat>)
    modifies buf
    ensures buf.data == old(buf.data) + Concat(cs) && |starts| == |cs|
    ensures forall i :: 0 <= i < |cs| ==> starts[i] == |old(buf.data)| + Start(cs, i)
  {
    hide CellBytes, Concat;
    starts := [];
    NoCells(cs);
    for i := 0 to |cs|
      invariant |starts| == i && buf.data == old(buf.data) + Concat(cs[..i])
      invariant forall j :: 0 <= j < i ==> starts[j] == |old(buf.data)| + Start(cs, j)
    {
      starts := starts + [|buf.data|];
      ConcatUpTo(cs, i);
      PutCell(buf, cs[i]);
    }
    assert cs[..|cs|] == cs;
  }

  lemma NoCells(cs: seq<Cell>)
    ensures Concat(cs[..0]) == []
  {
  }

  /** How many fields to keep, looking only at the buffer and the recorded starts. */
  method CountKept(data: seq<byte>, starts: seq<nat>, ghost before: seq<byte>, ghost cs: seq<Cell>) returns (count: nat)
    requires data == before + Concat(cs) && |starts| == |cs|
    requires forall i :: 0 <= i < |cs| ==> starts[i] == |before| + Start(cs, i)
    ensures count == KeepCount(cs)
  {
    hide CellBytes, Concat, KeepCount;
    count := |starts|;
    assert cs[..|cs|] == cs;
    while count > 0
      invariant 0 <= count <= |cs| && KeepCount(cs[..count]) == KeepCount(cs)
    {
      CellAt(cs, count - 1, |cs|);
      KeepStep(cs, count);
      var start := starts[count - 1];
      var end := if count < |starts| then starts[count] else |data|;
      assert data[start..end] == CellBytes(cs[count - 1]);
      IsNullCell(data, start, end);
      if end - start == 1 && data[start] == NULL {
        count := count - 1;
      } else {
        return;
      }
    }
    NoneKept(cs);
  }

  lemma IsNullCell(data: seq<byte>, start: nat, end: nat)
    requires start <= end <= |data|
    ensures data[start..end] == [NULL] <==> end - start == 1 && data[start] == NULL
  {
  }

  lemma NoneKept(cs: seq<Cell>)
    ensures KeepCount(cs[..0]) == 0
  {
  }

  /** `encode_described_list`: one pass, trailing nulls cut off, size and count exact. */
  method EncodeDescribedList(buf: Buffer, code: nat, cs: seq<Cell>)
    modifies buf
    ensures buf.data == old(buf.data) + EncodeList(code, cs)
  {
    hide CellBytes, Concat, KeepCount, Sized, BE;
    buf.PutU8(DESCRIBED);
    buf.PutSlice(DescriptorBytes(code));
    ghost var before := buf.data;
    var sizePos, countPos, contentStart := buf.OpenCompound(LIST32);
    ghost var header := buf.data;
    var starts := PutFields(buf, cs);
    var count := CountKept(buf.data, starts, header, cs);
    var newLen := if count == |starts| then |buf.data| else if count == 0 then contentStart else starts[count];
    Cut(cs, count, header);
    buf.data := buf.data[..newLen];
    buf.CloseCompound(before, LIST32, Concat(cs[..count]), sizePos, countPos, contentStart, count);
    assert buf.data == old(buf.data) + ListBytes(code, count, Concat(cs[..count]));
  }

  /** Cutting at the start of field `count` leaves exactly the first `count` fields. */
  lemma Cut(cs: seq<Cell>, count: nat, header: seq<byte>)
    requires count <= |cs|
    ensures Start(cs, count) <= |Concat(cs)|
    ensures (header + Concat(cs))[..|header| + Start(cs, count)] == header + Concat(cs[..count])
    ensures count == 0 ==> Start(cs, count) == 0
    ensures count == |cs| ==> Start(cs, count) == |Concat(cs)|
  {
    hide CellBytes, Concat;
    NoCells(cs);
    assert cs[..|cs|] == cs;
    if count < |cs| { CellAt(cs, count, |cs|); }
  }

  // ---------------------------------------------------------------- reading

  /** A read field and where the decoder stands, or the error. */
  ghost predicate Matches(r: ValueReader.Outcome<Field>, at: Reader, spec: Read<Field>) {
    match spec
    case Got(f, reader) => r == ValueReader.Got(f) && at == reader
    case Bad(e) => r == Failed(e)
  }

  class ListDecoder {
    var body: seq<byte>
    var remaining: nat

    ghost function State(): Reader
      reads this
    {
      Reader(body, remaining)
    }

    constructor (content: seq<byte>, count: nat)
      ensures State() == Reader(content, count)
    {
      body, remaining := content, count;
    }

    method ReadTypedField(ty: Option<nat>) returns (r: ValueReader.Outcome<Value>)
      modifies `body
      ensures Agrees(r, body, ReadTyped(old(body), ty))
    {
      hide DecodeValue, CodeFor;
      if body == [] { return Failed(Eof); }
      if ty.Some? && !CodeFor(ty.value, body[0]) { return Failed(InvalidFormatCode); }
      var c := new Cursor(body);
      r := c.ReadValue(0);
      body := c.data;
    }

    /** An optional or defaulted field. */
    method OptField(kind: Kind) returns (r: ValueReader.Outcome<Field>)
      requires kind.Opt? || kind.Default?
      modifies this
      ensures Matches(r, State(), ReadField(kind, old(State())))
    {
      hide ReadTyped;
      var missing := if kind.Opt? then Absent else Present(kind.default);
      if remaining == 0 { return ValueReader.Got(missing); }
      remaining := remaining - 1;
      if body != [] && body[0] == NULL {
        body := body[1..];
        return ValueReader.Got(missing);
      }
      var v := ReadTypedField(kind.ty);
      r := if v.Failed? then Failed(v.error) else ValueReader.Got(Present(v.value));
    }

    method ReqField(kind: Kind) returns (r: ValueReader.Outcome<Field>)
      requires kind.Req?
      modifies this
      ensures Matches(r, State(), ReadField(kind, old(State())))
    {
      hide ReadTyped;
      if remaining == 0 || (body != [] && body[0] == NULL) {
        if remaining > 0 { remaining := remaining - 1; }
        return Failed(MissingField);
      }
      remaining := remaining - 1;
      var v := ReadTypedField(kind.ty);
      r := if v.Failed? then Failed(v.error) else ValueReader.Got(Present(v.value));
    }

    method SymbolsField(kind: Kind) returns (r: ValueReader.Outcome<Field>)
      requires kind.Symbols? || kind.ReqSymbols?
      modifies this
      ensures Matches(r, State(), ReadField(kind, old(State())))
    {
      hide ReadMultiple;
      if remaining == 0 || (body != [] && body[0] == NULL) {
        if kind.ReqSymbols? { return Failed(MissingField); }
        if remaining > 0 { body, remaining := body[1..], remaining - 1; }
        return ValueReader.Got(Syms([]));
      }
      remaining := remaining - 1;
      r := MultipleField();
    }

    method MultipleField() returns (r: ValueReader.Outcome<Field>)
      modifies `body
      ensures Agrees(r, body, ReadMultiple(old(body)))
    {
      hide ReadTyped, ReadFrame, ReadSymbolArray;
      if body != [] && (body[0] == ARRAY8 || body[0] == ARRAY32) {
        var c := new Cursor(body[1..]);
        var f := c.TakeFrame(Width(body[0]));
        if f.Failed? { return Failed(f.error); }
        var ss := DecodeSymbolArray(f.value);
        if ss.Failed? { return Failed(ss.error); }
        body := c.data;
        r := ValueReader.Got(Syms(ss.value));
      } else {
        var v := ReadTypedField(Some(20));
        if v.Failed? { return Failed(v.error); }
        if !v.value.Symbol? { return Failed(InvalidFormatCode); }
        r := ValueReader.Got(Syms([v.value.raw]));
      }
    }
  }

  /** `decode_symbol_array`: a shared constructor, then the bare symbols. */
  method DecodeSymbolArray(f: Framed) returns (r: ValueReader.Outcome<seq<seq<byte>>>)
    ensures match ReadSymbolArray(f)
            case Ok(ss, _) => r == ValueReader.Got(ss)
            case Err(e) => r == Failed(e)
  {
    hide ReadSymbolBody, ReadSymbolBodies, Rest;
    if f.count == 0 { return ValueReader.Got([]); }
    if f.content == [] { return Failed(Eof); }
    var ctor, body := f.content[0], f.content[1..];
    var out: seq<seq<byte>> := [];
    RestNothing(ReadSymbolBodies(ctor, body, f.count));
    for i := 0 to f.count
      invariant Rest(out, ReadSymbolBodies(ctor, body, f.count - i)) == ReadSymbolBodies(ctor, f.content[1..], f.count)
    {
      RestNext(out, ctor, body, f.count - i);
      match ReadSymbolBody(ctor, body)
      case Err(e) => return Failed(e);
      case Ok(s, rest) => out, body := out + [s], rest;
    }
    RestDone(out, ctor, body);
    r := ValueReader.Got(out);
  }

  /** What a loop that has pushed `out` still has to read. */
  ghost function Rest(out: seq<seq<byte>>, r: Result<seq<seq<byte>>>): Result<seq<seq<byte>>> {
    match r
    case Ok(ss, rest) => Ok(out + ss, rest)
    case Err(e) => Err(e)
  }

  lemma RestNothing(r: Result<seq<seq<byte>>>)
    ensures Rest([], r) == r
  {
    if r.Ok? { assert [] + r.value == r.value; }
  }

  lemma RestDone(out: seq<seq<byte>>, ctor: byte, body: seq<byte>)
    ensures Rest(out, ReadSymbolBodies(ctor, body, 0)) == Ok(out, body)
  {
    assert out + [] == out;
  }

  lemma RestNext(out: seq<seq<byte>>, ctor: byte, body: seq<byte>, count: nat)
    requires count > 0
    ensures ReadSymbolBody(ctor, body).Err? ==>
              Rest(out, ReadSymbolBodies(ctor, body, count)) == Err(ReadSymbolBody(ctor, body).error)
    ensures ReadSymbolBody(ctor, body).Ok? ==>
              Rest(out, ReadSymbolBodies(ctor, body, count)) ==
              Rest(out + [ReadSymbolBody(ctor, body).value],
                   ReadSymbolBodies(ctor, ReadSymbolBody(ctor, body).rest, count - 1))
  {
    hide ReadSymbolBody;
    match ReadSymbolBody(ctor, body)
    case Err(e) =>
    case Ok(s, rest) =>
      match ReadSymbolBodies(ctor, rest, count - 1)
      case Err(e) =>
      case Ok(ss, _) => assert out + ([s] + ss) == out + [s] + ss;
  }
}
