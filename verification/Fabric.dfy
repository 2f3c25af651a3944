/**
 * Framing on the cluster's connections (ramqp-broker/src/cluster/fabric.rs:247-291): a total length, a
 * header length, the serialized header, the raw body; read back from a buffer that the socket fills in
 * pieces of any size.
 */
module Fabric {
  import opened Wire
  import opened SerdeBin
  import opened SerdeInverse
  import opened SerdeRun

  const MAX_FABRIC_FRAME: nat := 64 * 1024 * 1024

  datatype Frame = Frame(header: Data, body: seq<byte>)

  /** What `encode_frame` accepts. */
  predicate Sendable(s: Schema, f: Frame) {
    && SchemaOk(s) && Conforms(s, f.header)
    && |ToVec(s, f.header)| < 0x1_0000 && 2 + |ToVec(s, f.header)| + |f.body| <= MAX_FABRIC_FRAME
  }

  function Inside(s: Schema, f: Frame): seq<byte>
    requires Conforms(s, f.header)
  {
    BE(|ToVec(s, f.header)|, 2) + ToVec(s, f.header) + f.body
  }

  function FrameBytes(s: Schema, f: Frame): seq<byte>
    requires Conforms(s, f.header)
  {
    BE(|Inside(s, f)|, 4) + Inside(s, f)
  }

  function Wires(s: Schema, fs: seq<Frame>): seq<byte>
    requires forall i :: 0 <= i < |fs| ==> Conforms(s, fs[i].header)
  {
    if fs == [] then [] else FrameBytes(s, fs[0]) + Wires(s, fs[1..])
  }

  // ---------------------------------------------------------------- one frame out of the buffer

  /** A frame too short to hold a header length aborts the reader. */
  datatype Parse =
    | NeedMore
    | Parsed(frame: Frame, rest: seq<byte>)
    | TooLarge
    | Overrun
    | BadHeader(problem: Problem)
    | Aborts

  function ParseInside(s: Schema, inside: seq<byte>, rest: seq<byte>): Parse {
    if |inside| < 2 then Aborts else
      var n := FromBE(inside[..2]);
      if n > |inside| - 2 then Overrun else
        match FromSlice(s, inside[2..2 + n])
        case Fault(e) => BadHeader(e)
        case Done(h, _) => Parsed(Frame(h, inside[2 + n..]), rest)
  }

  function ParseBuffer(s: Schema, buf: seq<byte>): Parse {
    if |buf| < 4 then NeedMore else
      var total := FromBE(buf[..4]);
      if total > MAX_FABRIC_FRAME then TooLarge
      else if |buf| < 4 + total then NeedMore
      else ParseInside(s, buf[4..4 + total], buf[4 + total..])
  }

  lemma InsideBack(s: Schema, f: Frame, rest: seq<byte>)
    requires Sendable(s, f)
    ensures ParseInside(s, Inside(s, f), rest) == Parsed(f, rest)
  {
    hide FromSlice, ToVec, BE, FromBE, Pow256, Conforms, SchemaOk;
    Powers();
    var h := ToVec(s, f.header);
    FromBEOfBE(|h|, 2);
    var inside := Inside(s, f);
    assert inside[..2] == BE(|h|, 2) && inside[2..2 + |h|] == h && inside[2 + |h|..] == f.body;
    FromSliceOfToVec(s, f.header);
  }

  /** A buffer that starts with a whole frame gives that frame and keeps the rest. */
  lemma WholeFrame(s: Schema, f: Frame, rest: seq<byte>)
    requires Sendable(s, f)
    ensures ParseBuffer(s, FrameBytes(s, f) + rest) == Parsed(f, rest)
  {
    hide ParseInside, Inside, BE, FromBE, Pow256, Sendable;
    SendableFits(s, f);
    var inside := Inside(s, f);
    FromBEOfBE(|inside|, 4);
    var buf := FrameBytes(s, f) + rest;
    assert buf[..4] == BE(|inside|, 4) && buf[4..4 + |inside|] == inside && buf[4 + |inside|..] == rest;
    InsideBack(s, f, rest);
  }

  lemma SendableFits(s: Schema, f: Frame)
    requires Sendable(s, f)
    ensures Conforms(s, f.header) && |Inside(s, f)| <= MAX_FABRIC_FRAME < Pow256(4)
  {
    hide ToVec, Conforms, SchemaOk;
    Powers();
  }

  /** Part of a frame is never taken for a frame, nor for an error. */
  lemma PartialFrame(s: Schema, f: Frame, buf: seq<byte>)
    requires Sendable(s, f) && |buf| < |FrameBytes(s, f)| && buf == FrameBytes(s, f)[..|buf|]
    ensures ParseBuffer(s, buf) == NeedMore
  {
    hide ParseInside, Inside, BE, FromBE, Pow256, Sendable;
    SendableFits(s, f);
    if |buf| >= 4 {
      assert buf[..4] == FrameBytes(s, f)[..4] == BE(|Inside(s, f)|, 4);
      FromBEOfBE(|Inside(s, f)|, 4);
    }
  }

  // ---------------------------------------------------------------- reading from the socket

  /** A read of no bytes is the end of the stream. */
  predicate AtEnd(chunks: seq<seq<byte>>) { chunks == [] || chunks[0] == [] }

  /** What the socket has yet to deliver. */
  function Flat(chunks: seq<seq<byte>>): seq<byte> {
    if AtEnd(chunks) then [] else chunks[0] + Flat(chunks[1..])
  }

  datatype ReadResult =
    | GotFrame(frame: Frame, buf: seq<byte>, chunks: seq<seq<byte>>)
    | UnexpectedEof
    | Refused(why: Parse)

  function ReadFrame(s: Schema, buf: seq<byte>, chunks: seq<seq<byte>>): ReadResult
    decreases |chunks|
  {
    match ParseBuffer(s, buf)
    case Parsed(f, rest) => GotFrame(f, rest, chunks)
    case NeedMore => if AtEnd(chunks) then UnexpectedEof else ReadFrame(s, buf + chunks[0], chunks[1..])
    case other => Refused(other)
  }

  lemma SamePrefix(p: seq<byte>, a: seq<byte>, b: seq<byte>)
    requires p + a == p + b
    ensures a == b
  {
    assert a == (p + a)[|p|..] && b == (p + b)[|p|..];
  }

  /** However the bytes arrive, the next frame is the one that was sent. */
  lemma {:induction false} NextFrame(s: Schema, f: Frame, tail: seq<byte>, buf: seq<byte>, chunks: seq<seq<byte>>)
    requires Sendable(s, f) && buf + Flat(chunks) == FrameBytes(s, f) + tail
    ensures var r := ReadFrame(s, buf, chunks);
            r.GotFrame? && r.frame == f && r.buf + Flat(r.chunks) == tail
    decreases |chunks|
  {
    hide ParseBuffer, FrameBytes, Sendable, Conforms, Inside;
    SendableFits(s, f);
    var whole := FrameBytes(s, f) + tail;
    if |buf| >= |FrameBytes(s, f)| {
      var rest := buf[|FrameBytes(s, f)|..];
      assert buf == whole[..|buf|];
      assert buf == FrameBytes(s, f) + rest;
      assert FrameBytes(s, f) + (rest + Flat(chunks)) == buf + Flat(chunks);
      WholeFrame(s, f, rest);
      SamePrefix(FrameBytes(s, f), rest + Flat(chunks), tail);
    } else {
      assert buf == (buf + Flat(chunks))[..|buf|] == whole[..|buf|] == FrameBytes(s, f)[..|buf|];
      PartialFrame(s, f, buf);
      if AtEnd(chunks) {
        assert false;
      } else {
        assert (buf + chunks[0]) + Flat(chunks[1..]) == buf + Flat(chunks);
        NextFrame(s, f, tail, buf + chunks[0], chunks[1..]);
      }
    }
  }

  datatype Session = Session(frames: seq<Frame>, last: ReadResult)

  /** Read frames until the stream ends or is refused. */
  function ReadAll(s: Schema, buf: seq<byte>, chunks: seq<seq<byte>>, most: nat): Session
    decreases most
  {
    match ReadFrame(s, buf, chunks)
    case GotFrame(f, rest, left) =>
      if most == 0 then Session([], GotFrame(f, rest, left)) else
        var t := ReadAll(s, rest, left, most - 1);
        Session([f] + t.frames, t.last)
    case other => Session([], other)
  }

  lemma NothingLeft(s: Schema, buf: seq<byte>, chunks: seq<seq<byte>>)
    requires buf + Flat(chunks) == []
    ensures ReadFrame(s, buf, chunks) == UnexpectedEof
  {
    hide ParseInside;
    assert |buf + Flat(chunks)| == |buf| + |Flat(chunks)|;
    assert AtEnd(chunks);
  }

  /**
   * Any chunking of concatenated frames reads back as exactly the frames sent, in order, and then the end of
   * the stream.
   */
  lemma {:induction false} FramesSurviveChunking(s: Schema, fs: seq<Frame>, buf: seq<byte>, chunks: seq<seq<byte>>)
    requires forall i :: 0 <= i < |fs| ==> Conforms(s, fs[i].header) && Sendable(s, fs[i])
    requires buf + Flat(chunks) == Wires(s, fs)
    ensures ReadAll(s, buf, chunks, |fs|) == Session(fs, UnexpectedEof)
    decreases |fs|
  {
    hide ReadFrame, FrameBytes, Sendable, Conforms;
    if fs == [] {
      NothingLeft(s, buf, chunks);
    } else {
      NextFrame(s, fs[0], Wires(s, fs[1..]), buf, chunks);
      var r := ReadFrame(s, buf, chunks);
      FramesSurviveChunking(s, fs[1..], r.buf, r.chunks);
      assert [fs[0]] + fs[1..] == fs;
    }
  }

  // ---------------------------------------------------------------- as it runs

  /** `encode_frame`: appends the frame, or refuses one that does not fit. */
  method EncodeFrame(s: Schema, f: Frame, out: seq<byte>) returns (ok: bool, r: seq<byte>)
    requires SchemaOk(s) && Conforms(s, f.header)
    ensures ok <==> Sendable(s, f)
    ensures r == if ok then out + FrameBytes(s, f) else out
  {
    hide BE, ToVec;
    var header := Encode(s, f.header);
    if |header| > 0xFFFF { return false, out; }
    var total := 2 + |header| + |f.body|;
    if total > MAX_FABRIC_FRAME { return false, out; }
    r := out + BE(total, 4);
    r := r + BE(|header|, 2);
    r := r + header;
    r := r + f.body;
    ok := true;
  }

  class Connection {
    const schema: Schema
    var buf: seq<byte>
    var chunks: seq<seq<byte>>

    constructor (s: Schema, incoming: seq<seq<byte>>)
      ensures schema == s && buf == [] && chunks == incoming
    {
      schema, buf, chunks := s, [], incoming;
    }

    /** `read_frame`: parse what is buffered, or wait for another piece. */
    method Receive() returns (r: ReadResult)
      modifies this
      ensures r == ReadFrame(schema, old(buf), old(chunks))
      ensures r.GotFrame? ==> buf == r.buf && chunks == r.chunks
    {
      hide ParseInside;
      while true
        invariant ReadFrame(schema, buf, chunks) == ReadFrame(schema, old(buf), old(chunks))
        decreases |chunks|
      {
        if |buf| >= 4 {
          var total := FromBE(buf[..4]);
          if total > MAX_FABRIC_FRAME { return Refused(TooLarge); }
          if |buf| >= 4 + total {
            var inside := buf[4..4 + total];
            buf := buf[4 + total..];
            var p := TakeApart(inside, buf);
            if p.Parsed? { return GotFrame(p.frame, buf, chunks); }
            return Refused(p);
          }
        }
        if chunks == [] || chunks[0] == [] { return UnexpectedEof; }
        buf := buf + chunks[0];
        chunks := chunks[1..];
      }
    }

    method TakeApart(inside: seq<byte>, ghost rest: seq<byte>) returns (p: Parse)
      ensures !p.NeedMore? && (p.Parsed? ==> ParseInside(schema, inside, rest) == Parsed(p.frame, rest))
      ensures !p.Parsed? ==> p == ParseInside(schema, inside, rest)
    {
      hide FromSlice;
      if |inside| < 2 { return Aborts; }
      var n := FromBE(inside[..2]);
      if n > |inside| - 2 { return Overrun; }
      var h := Decode(schema, inside[2..2 + n]);
      p := if h.Failed? then BadHeader(h.problem) else Parsed(Frame(h.value, inside[2 + n..]), []);
    }
  }
}
