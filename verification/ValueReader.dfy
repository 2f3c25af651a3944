/**
 * The decoder as it runs (ramqp-core/src/codec/value.rs:308-538): a cursor advanced over the input, sub-cursors
 * for compound contents, and loops that push what they read.
 */
module ValueReader {
  import opened Wire
  import opened Values
  import opened ValueDecode

  datatype Outcome<+T> = Got(value: T) | Failed(error: Error)

  /** A decoded value and where the cursor stands, or the error. */
  ghost predicate Agrees<T>(r: Outcome<T>, rest: seq<byte>, spec: Result<T>) {
    match spec
    case Ok(v, s) => r == Got(v) && rest == s
    case Err(e) => r == Failed(e)
  }

  /** What a loop that has pushed `out` still has to read. */
  ghost function Then(out: seq<Value>, r: Result<seq<Value>>): Result<seq<Value>> {
    match r
    case Ok(vs, rest) => Ok(out + vs, rest)
    case Err(e) => Err(e)
  }

  lemma ThenNothing(r: Result<seq<Value>>)
    ensures Then([], r) == r
  {
    if r.Ok? { assert [] + r.value == r.value; }
  }

  lemma ThenDone(out: seq<Value>, rest: seq<byte>)
    ensures Then(out, Ok([], rest)) == Ok(out, rest)
  {
    assert out + [] == out;
  }

  lemma NextN(out: seq<Value>, buf: seq<byte>, count: nat, depth: nat)
    requires count > 0
    ensures Then(out, DecodeN(buf, count, depth)) ==
            match DecodeValue(buf, depth)
            case Err(e) => Err(e)
            case Ok(v, rest) => Then(out + [v], DecodeN(rest, count - 1, depth))
  {
    hide DecodeValue;
    match DecodeValue(buf, depth)
    case Err(e) =>
    case Ok(v, rest) =>
      match DecodeN(rest, count - 1, depth)
      case Err(e) =>
      case Ok(vs, _) => assert out + ([v] + vs) == out + [v] + vs;
  }

  lemma NextBodies(out: seq<Value>, buf: seq<byte>, code: byte, count: nat, depth: nat)
    requires count > 0
    ensures Then(out, DecodeBodies(buf, code, count, depth)) ==
            match DecodeBody(buf, code, depth)
            case Err(e) => Err(e)
            case Ok(v, rest) => Then(out + [v], DecodeBodies(rest, code, count - 1, depth))
  {
    hide DecodeBody;
    match DecodeBody(buf, code, depth)
    case Err(e) =>
    case Ok(v, rest) =>
      match DecodeBodies(rest, code, count - 1, depth)
      case Err(e) =>
      case Ok(vs, _) => assert out + ([v] + vs) == out + [v] + vs;
  }

  class Cursor {
    var data: seq<byte>

    constructor (input: seq<byte>)
      ensures data == input
    {
      data := input;
    }

    method ReadBlock(n: nat) returns (r: Outcome<seq<byte>>)
      modifies this
      ensures Agrees(r, data, ReadBytes(old(data), n))
    {
      if |data| < n { return Failed(Eof); }
      r := Got(data[..n]);
      data := data[n..];
    }

    method ReadInt(k: nat) returns (r: Outcome<nat>)
      modifies this
      ensures Agrees(r, data, ReadUint(old(data), k))
    {
      if |data| < k { return Failed(Eof); }
      r := Got(FromBE(data[..k]));
      data := data[k..];
    }

    method ReadByte() returns (r: Outcome<byte>)
      modifies this
      ensures if old(data) == [] then r == Failed(Eof) else r == Got(old(data)[0]) && data == old(data)[1..]
    {
      if |data| < 1 { return Failed(Eof); }
      r := Got(data[0]);
      data := data[1..];
    }

    method ReadScalar(code: byte) returns (r: Outcome<Value>)
      modifies this
      ensures Agrees(r, data, DecodeScalar(code, old(data)))
    {
      hide DecodeScalar;
      match DecodeScalar(code, data)
      case Ok(v, rest) =>
        data := rest;
        r := Got(v);
      case Err(e) => r := Failed(e);
    }

    method ReadValue(depth: nat) returns (r: Outcome<Value>)
      modifies this
      ensures Agrees(r, data, DecodeValue(old(data), depth))
      decreases Room(depth), 2, 0
    {
      hide DecodeBody;
      var code := ReadByte();
      if code.Failed? { return Failed(code.error); }
      r := ReadBody(code.value, depth);
    }

    method ReadBody(code: byte, depth: nat) returns (r: Outcome<Value>)
      modifies this
      ensures Agrees(r, data, DecodeBody(old(data), code, depth))
      decreases Room(depth), 1, 0
    {
      hide DecodeValue, DecodeContent, DecodeScalar, ReadFrame;
      if depth > MAX_DEPTH { return Failed(NestingTooDeep); }
      if code == DESCRIBED {
        var d := ReadValue(depth + 1);
        if d.Failed? { return d; }
        var x := ReadValue(depth + 1);
        if x.Failed? { return x; }
        r := Got(Described(d.value, x.value));
      } else if CompoundCode(code) {
        var f := TakeFrame(Width(code));
        if f.Failed? { return Failed(f.error); }
        r := ReadContent(f.value, code, depth + 1);
      } else {
        r := ReadScalar(code);
      }
    }

    method TakeFrame(width: nat) returns (r: Outcome<Framed>)
      modifies this
      ensures Agrees(r, data, ReadFrame(old(data), width))
    {
      hide FromBE;
      var size := ReadInt(width);
      if size.Failed? { return Failed(size.error); }
      var b := ReadBlock(size.value);
      if b.Failed? { return Failed(b.error); }
      var inner := new Cursor(b.value);
      var count := inner.ReadInt(width);
      if count.Failed? { return Failed(count.error); }
      r := Got(Framed(count.value, inner.data));
    }

    static method ReadContent(f: Framed, code: byte, depth: nat) returns (r: Outcome<Value>)
      ensures match DecodeContent(f, code, depth)
              case Ok(v, _) => r == Got(v)
              case Err(e) => r == Failed(e)
      decreases Room(depth), 6, 0
    {
      hide DecodeN, DecodeArray;
      var b := new Cursor(f.content);
      if code == MAP8 || code == MAP32 {
        if f.count % 2 != 0 { return Failed(InvalidValue); }
        var vs := b.ReadN(f.count, depth);
        r := if vs.Failed? then Failed(vs.error) else Got(Map(vs.value));
      } else if code == LIST8 || code == LIST32 {
        var vs := b.ReadN(f.count, depth);
        r := if vs.Failed? then Failed(vs.error) else Got(List(vs.value));
      } else {
        var vs := b.ReadArray(f.count, depth);
        r := if vs.Failed? then Failed(vs.error) else Got(Array(vs.value));
      }
    }

    method ReadN(count: nat, depth: nat) returns (r: Outcome<seq<Value>>)
      modifies this
      ensures Agrees(r, data, DecodeN(old(data), count, depth))
      decreases Room(depth), 4, count
    {
      hide DecodeN, DecodeValue, Then;
      var out: seq<Value> := [];
      ThenNothing(DecodeN(data, count, depth));
      for i := 0 to count
        invariant Then(out, DecodeN(data, count - i, depth)) == DecodeN(old(data), count, depth)
      {
        NextN(out, data, count - i, depth);
        var v := ReadValue(depth);
        if v.Failed? { return Failed(v.error); }
        out := out + [v.value];
      }
      NoneLeft(data, depth);
      ThenDone(out, data);
      r := Got(out);
    }

    method ReadBodies(code: byte, count: nat, depth: nat) returns (r: Outcome<seq<Value>>)
      modifies this
      ensures Agrees(r, data, DecodeBodies(old(data), code, count, depth))
      decreases Room(depth), 4, count
    {
      hide DecodeBodies, DecodeBody, Then;
      var out: seq<Value> := [];
      ThenNothing(DecodeBodies(data, code, count, depth));
      for i := 0 to count
        invariant Then(out, DecodeBodies(data, code, count - i, depth)) == DecodeBodies(old(data), code, count, depth)
      {
        NextBodies(out, data, code, count - i, depth);
        var v := ReadBody(code, depth);
        if v.Failed? { return Failed(v.error); }
        out := out + [v.value];
      }
      NoBodiesLeft(data, code, depth);
      ThenDone(out, data);
      r := Got(out);
    }

    /** The shared constructor, the check of the element count, then the elements. */
    method ReadArray(count: nat, depth: nat) returns (r: Outcome<seq<Value>>)
      modifies this
      ensures Agrees(r, data, DecodeArray(old(data), count, depth))
      decreases Room(depth), 5, 0
    {
      hide DecodeValue, DecodeBodies;
      var ctor := ReadByte();
      if ctor.Failed? { return Failed(ctor.error); }
      if ctor.value == DESCRIBED {
        var d := ReadValue(depth);
        if d.Failed? { return Failed(d.error); }
        var inner := ReadByte();
        if inner.Failed? { return Failed(inner.error); }
        if TooMany(count, inner.value, |data|) { return Failed(InvalidValue); }
        var vs := ReadBodies(inner.value, count, depth);
        if vs.Failed? { return vs; }
        r := Got(DescribeAll(d.value, vs.value));
      } else {
        if TooMany(count, ctor.value, |data|) { return Failed(InvalidValue); }
        r := ReadBodies(ctor.value, count, depth);
      }
    }
  }

  lemma NoneLeft(buf: seq<byte>, depth: nat)
    ensures DecodeN(buf, 0, depth) == Ok([], buf)
  {
  }

  lemma NoBodiesLeft(buf: seq<byte>, code: byte, depth: nat)
    ensures DecodeBodies(buf, code, 0, depth) == Ok([], buf)
  {
  }
}
