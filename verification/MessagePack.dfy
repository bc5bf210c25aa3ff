/**
 The few MessagePack shapes an advertisement is made of: unsigned integers and binaries.

 A reader takes a value off the front of a byte string; the rest is what it left. Readers only look at
 what they consume, which is what makes truncation detectable and trailing bytes harmless.
 */
module MessagePack {
  import opened Base

  datatype Failure = Invalid | TooLarge | OutputTooSmall

  datatype Read<+T> = Got(value: T, rest: Bytes) | Bad(error: Failure)
  {
    /** The same reading with more bytes behind. */
    function With(t: Bytes): Read<T> {
      if Got? then Got(value, rest + t) else this
    }
  }

  function ReadByte(s: Bytes): Read<byte> {
    if s == [] then Bad(Invalid) else Got(s[0], s[1..])
  }

  function Take(s: Bytes, n: nat): Read<Bytes> {
    if n > |s| then Bad(Invalid) else Got(s[..n], s[n..])
  }

  /** A big-endian integer of `n` bytes. */
  function ReadBe(s: Bytes, n: nat): Read<nat> {
    match Take(s, n)
    case Bad(e) => Bad(e)
    case Got(b, rest) => Got(FromBe(b), rest)
  }

  /** `MpReader::uint`: any encoding through 64 bits whose value fits 32. */
  function ReadUint(s: Bytes): Read<nat> {
    match ReadByte(s)
    case Bad(e) => Bad(e)
    case Got(b, rest) =>
      if b < 0x80 then Got(b, rest)
      else if b == 0xCC then ReadBe(rest, 1)
      else if b == 0xCD then ReadBe(rest, 2)
      else if b == 0xCE then ReadBe(rest, 4)
      else if b == 0xCF then
        match ReadBe(rest, 8)
        case Bad(e) => Bad(e)
        case Got(v, r) => if v > U32_MAX then Bad(TooLarge) else Got(v, r)
      else Bad(Invalid)
  }

  /** `MpReader::bin`. */
  function ReadBin(s: Bytes): Read<Bytes> {
    match ReadByte(s)
    case Bad(e) => Bad(e)
    case Got(b, rest) =>
      if b != 0xC4 && b != 0xC5 then Bad(Invalid)
      else
        match ReadBe(rest, if b == 0xC4 then 1 else 2)
        case Bad(e) => Bad(e)
        case Got(n, r) => Take(r, n)
  }

  /** `MpWriter::uint`: the shortest encoding. */
  function Uint(v: nat): (b: Bytes)
    requires v <= U32_MAX
    ensures 1 <= |b| <= 5
  {
    if v < 0x80 then [v]
    else if v <= 0xFF then [0xCC] + ToBe(v, 1)
    else if v <= 0xFFFF then [0xCD] + ToBe(v, 2)
    else [0xCE] + ToBe(v, 4)
  }

  /** `MpWriter::bin`, for binaries of at most 255 bytes. */
  function Bin(data: Bytes): (b: Bytes)
    requires |data| <= 0xFF
    ensures |b| == |data| + 2
  {
    [0xC4, |data|] + data
  }

  // --- Writers and readers ----------------------------------------------------------------------

  lemma BeBack(v: nat, n: nat, t: Bytes)
    requires v < Pow256(n)
    ensures ReadBe(ToBe(v, n) + t, n) == Got(v, t)
  {
    hide ToBe, FromBe, Pow256;
    BeRoundTrip(v, n);
    BeLength(v, n);
    assert (ToBe(v, n) + t)[..n] == ToBe(v, n) && (ToBe(v, n) + t)[n..] == t;
  }

  lemma BeLength(v: nat, n: nat)
    ensures |ToBe(v, n)| == n
  {
  }

  lemma Powers()
    ensures Pow256(1) == 0x100 && Pow256(2) == 0x1_0000 && Pow256(4) == 0x1_0000_0000
  {
    assert Pow256(2) == 256 * Pow256(1) && Pow256(1) == 256 * Pow256(0);
    assert Pow256(4) == 256 * Pow256(3) && Pow256(3) == 256 * Pow256(2);
  }

  /** What is written is read back, whatever comes after it. */
  lemma UintBack(v: nat, t: Bytes)
    requires v <= U32_MAX
    ensures ReadUint(Uint(v) + t) == Got(v, t)
  {
    hide ToBe, FromBe, Pow256, ReadBe;
    Powers();
    if v >= 0x80 {
      var n := if v <= 0xFF then 1 else if v <= 0xFFFF then 2 else 4;
      BeBack(v, n, t);
      BeLength(v, n);
      assert (Uint(v) + t)[1..] == ToBe(v, n) + t;
    } else {
      assert (Uint(v) + t)[1..] == t;
    }
  }

  lemma BinBack(data: Bytes, t: Bytes)
    requires |data| <= 0xFF
    ensures ReadBin(Bin(data) + t) == Got(data, t)
  {
    hide ReadBe;
    var s := Bin(data) + t;
    assert s[1..] == [|data|] + (data + t);
    OneByte(|data|, data + t);
    assert (data + t)[..|data|] == data && (data + t)[|data|..] == t;
  }

  lemma OneByte(n: byte, t: Bytes)
    ensures ReadBe([n] + t, 1) == Got(n, t)
  {
    assert ([n] + t)[..1] == [n] && ([n] + t)[1..] == t;
    assert [n][..0] == [];
    assert FromBe([n]) == FromBe([]) * 256 + n;
  }

  // --- Readers look no further ------------------------------------------------------------------

  lemma TakeMore(s: Bytes, n: nat, t: Bytes)
    requires Take(s, n).Got?
    ensures Take(s + t, n) == Take(s, n).With(t)
  {
    assert (s + t)[..n] == s[..n] && (s + t)[n..] == s[n..] + t;
  }

  lemma ByteMore(s: Bytes, t: Bytes)
    requires ReadByte(s).Got?
    ensures ReadByte(s + t) == ReadByte(s).With(t)
  {
    assert (s + t)[1..] == s[1..] + t;
  }

  lemma BeMore(s: Bytes, n: nat, t: Bytes)
    requires ReadBe(s, n).Got?
    ensures ReadBe(s + t, n) == ReadBe(s, n).With(t)
  {
    hide FromBe;
    TakeMore(s, n, t);
  }

  lemma UintMore(s: Bytes, t: Bytes)
    requires ReadUint(s).Got?
    ensures ReadUint(s + t) == ReadUint(s).With(t)
  {
    hide ReadBe;
    ByteMore(s, t);
    var b, rest := s[0], s[1..];
    if b >= 0x80 {
      var n := if b == 0xCC then 1 else if b == 0xCD then 2 else if b == 0xCE then 4 else 8;
      BeMore(rest, n, t);
    }
  }

  lemma BinMore(s: Bytes, t: Bytes)
    requires ReadBin(s).Got?
    ensures ReadBin(s + t) == ReadBin(s).With(t)
  {
    hide ReadBe, Take;
    ByteMore(s, t);
    var n := if s[0] == 0xC4 then 1 else 2;
    BeMore(s[1..], n, t);
    var head := ReadBe(s[1..], n);
    TakeMore(head.rest, head.value, t);
  }
}
