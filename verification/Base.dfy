/** Machine integers, options and small scans shared by every module. */
module Base {
  const U32_MAX: nat := 0xFFFF_FFFF
  const U64_MAX: int := 0xFFFF_FFFF_FFFF_FFFF

  type u64 = x: int | 0 <= x <= U64_MAX
  type byte = x: int | 0 <= x < 256
  type Bytes = seq<byte>

  /** A fixed-length hash, identifier or key, read as the big-endian integer of its bytes. */
  type Hash = nat

  datatype Option<+T> = None | Some(value: T)

  /** `u64::saturating_add`. */
  function SatAdd(a: u64, b: u64): (r: u64)
    ensures r >= a && r >= b
    ensures r == U64_MAX || r == a + b
  {
    if a + b <= U64_MAX then a + b else U64_MAX
  }

  function Min(a: int, b: int): int {
    if a <= b then a else b
  }

  predicate Distinct<T(==)>(s: seq<T>) {
    forall i, j :: 0 <= i < j < |s| ==> s[i] != s[j]
  }

  /** `iter().position(p)`, with `|s|` standing for "absent". */
  function First<T>(s: seq<T>, p: T -> bool): (r: nat)
    ensures r <= |s|
    ensures r < |s| ==> p(s[r])
    ensures forall k :: 0 <= k < r ==> !p(s[k])
  {
    if s == [] then 0
    else if p(s[0]) then 0
    else 1 + First(s[1..], p)
  }

  function Pow256(n: nat): (r: nat)
    ensures r >= 1
  {
    if n == 0 then 1 else 256 * Pow256(n - 1)
  }

  /** The integer a byte string denotes, most significant byte first. */
  function FromBe(s: Bytes): nat {
    if s == [] then 0 else FromBe(s[..|s| - 1]) * 256 + s[|s| - 1]
  }

  /** `to_be_bytes` for an integer of `len` bytes; higher digits are cut off. */
  function ToBe(n: nat, len: nat): (s: Bytes)
    ensures |s| == len
  {
    if len == 0 then [] else ToBe(n / 256, len - 1) + [n % 256]
  }

  lemma {:induction false} BeRoundTrip(n: nat, len: nat)
    requires n < Pow256(len)
    ensures FromBe(ToBe(n, len)) == n
  {
    if len != 0 {
      BeRoundTrip(n / 256, len - 1);
      assert ToBe(n, len)[..len - 1] == ToBe(n / 256, len - 1);
    }
  }

  lemma {:induction false} BytesRoundTrip(s: Bytes)
    ensures FromBe(s) < Pow256(|s|)
    ensures ToBe(FromBe(s), |s|) == s
  {
    if s != [] {
      BytesRoundTrip(s[..|s| - 1]);
      assert FromBe(s) / 256 == FromBe(s[..|s| - 1]);
    }
  }

  lemma Scale(q: nat, a: nat, b: nat)
    requires a <= b
    ensures q * a <= q * b
  {
  }

  lemma U64Fits(t: u64)
    ensures t < Pow256(8)
  {
    assert Pow256(2) == 256 * Pow256(1) == 65536;
    assert Pow256(4) == 256 * Pow256(3) && Pow256(3) == 256 * Pow256(2);
    assert Pow256(6) == 256 * Pow256(5) && Pow256(5) == 256 * Pow256(4);
    assert Pow256(8) == 256 * Pow256(7) && Pow256(7) == 256 * Pow256(6);
  }

  lemma {:induction false} SubsetSize<T>(a: set<T>, b: set<T>)
    requires a <= b
    ensures |a| <= |b| && (|a| == |b| ==> a == b)
  {
    if a != {} {
      var x :| x in a;
      SubsetSize(a - {x}, b - {x});
    }
  }

  /** A buffer with `part` written over what it had at `off`. */
  function Overlaid(buf: Bytes, off: nat, part: Bytes): (b: Bytes)
    requires off + |part| <= |buf|
    ensures |b| == |buf|
  {
    buf[..off] + part + buf[off + |part|..]
  }

  /** Copy `b` into the array at `pos`. */
  method CopyInto(a: array<byte>, pos: nat, b: Bytes)
    requires pos + |b| <= a.Length
    modifies a
    ensures a[..] == Overlaid(old(a[..]), pos, b)
    ensures a[..pos + |b|] == old(a[..pos]) + b
  {
    for i := 0 to |b|
      invariant a[..pos] == old(a[..pos]) && a[pos..pos + i] == b[..i] && a[pos + i..] == old(a[pos + i..])
    {
      a[pos + i] := b[i];
    }
    assert a[..] == a[..pos] + a[pos..pos + |b|] + a[pos + |b|..];
    assert a[..pos + |b|] == a[..pos] + a[pos..pos + |b|];
  }
}
