/** Bytes, big-endian integers and the reading helpers of the codec (ramqp-core/src/codec/decode.rs:76-120). */
module Wire {

  newtype byte = x: int | 0 <= x < 256

  datatype Error =
    | Eof | InvalidFormatCode | InvalidUtf8 | InvalidValue | NestingTooDeep | MissingField | UnexpectedDescriptor

  /** A value and what is left of the input, or why there is none. */
  datatype Result<+T> = Ok(value: T, rest: seq<byte>) | Err(error: Error)

  function Pow256(k: nat): (p: nat)
    ensures p > 0
  {
    if k == 0 then 1 else 256 * Pow256(k - 1)
  }

  /** The low `k` bytes of `n`, most significant first. */
  function BE(n: nat, k: nat): (s: seq<byte>)
    ensures |s| == k
  {
    if k == 0 then [] else BE(n / 256, k - 1) + [(n % 256) as byte]
  }

  function FromBE(s: seq<byte>): nat {
    if s == [] then 0 else FromBE(s[..|s| - 1]) * 256 + s[|s| - 1] as nat
  }

  lemma {:induction false} FromBEOfBE(n: nat, k: nat)
    requires n < Pow256(k)
    ensures FromBE(BE(n, k)) == n
  {
    if k > 0 {
      FromBEOfBE(n / 256, k - 1);
      assert BE(n, k)[..k - 1] == BE(n / 256, k - 1);
    }
  }

  function ReadBytes(buf: seq<byte>, n: nat): Result<seq<byte>> {
    if |buf| < n then Err(Eof) else Ok(buf[..n], buf[n..])
  }

  function ReadUint(buf: seq<byte>, k: nat): Result<nat> {
    if |buf| < k then Err(Eof) else Ok(FromBE(buf[..k]), buf[k..])
  }

  lemma ReadBack(n: nat, k: nat, suffix: seq<byte>)
    requires n < Pow256(k)
    ensures ReadUint(BE(n, k) + suffix, k) == Ok(n, suffix)
  {
    FromBEOfBE(n, k);
    var s := BE(n, k) + suffix;
    assert s[..k] == BE(n, k) && s[k..] == suffix;
  }

  lemma BytesBack(b: seq<byte>, suffix: seq<byte>)
    ensures ReadBytes(b + suffix, |b|) == Ok(b, suffix)
  {
    assert (b + suffix)[..|b|] == b && (b + suffix)[|b|..] == suffix;
  }

  lemma Powers()
    ensures Pow256(1) == 0x100 && Pow256(2) == 0x1_0000 && Pow256(4) == 0x1_0000_0000
    ensures Pow256(8) == 0x1_0000_0000_0000_0000
  {
    assert Pow256(3) == 0x100_0000;
    assert Pow256(5) == 0x100_0000_0000;
    assert Pow256(6) == 0x1_0000_0000_0000;
    assert Pow256(7) == 0x100_0000_0000_0000;
  }

  /** Well-formed UTF-8, by the byte ranges of section 4 of RFC 3629. */
  predicate Utf8(b: seq<byte>) {
    if b == [] then true
    else if b[0] <= 0x7F then Utf8(b[1..])
    else if 0xC2 <= b[0] <= 0xDF then |b| >= 2 && Tail(b[1]) && Utf8(b[2..])
    else if 0xE0 <= b[0] <= 0xEF then
      && |b| >= 3 && Tail(b[1]) && Tail(b[2])
      && (b[0] == 0xE0 ==> b[1] >= 0xA0) && (b[0] == 0xED ==> b[1] <= 0x9F)
      && Utf8(b[3..])
    else if 0xF0 <= b[0] <= 0xF4 then
      && |b| >= 4 && Tail(b[1]) && Tail(b[2]) && Tail(b[3])
      && (b[0] == 0xF0 ==> b[1] >= 0x90) && (b[0] == 0xF4 ==> b[1] <= 0x8F)
      && Utf8(b[4..])
    else false
  }

  predicate Tail(x: byte) { 0x80 <= x <= 0xBF }
}
