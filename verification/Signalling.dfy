/** Link requests and establishment proofs: their signalling trailer and what a proof signs. */
module Signalling {
  import opened Base
  import opened Wire

  const DEFAULT_MODE: nat := 1
  const MODES: nat := 8
  const MTU_DOMAIN: nat := 0x20_0000
  const PROOF_KEYS: nat := 96
  const SIGNATURE: nat := 64

  /** `SignallingData`: cipher mode and maximum packet size, in three bytes. */
  datatype Signal = Signal(mode: nat, mtu: nat)
  {
    /** A size of zero stands for the default; one below it is refused. */
    function EffectiveMtu(): (r: Option<nat>)
      ensures r.Some? ==> r.value >= MTU
    {
      if mtu == 0 then Some(MTU) else if MTU <= mtu < MTU_DOMAIN then Some(mtu) else None
    }

    function Pack(): (b: Bytes)
      ensures |b| == LINK_TRAILER
    {
      var value := mtu % MTU_DOMAIN + mode % MODES * MTU_DOMAIN;
      [value / 65536, value / 256 % 256, value % 256]
    }
  }

  const DEFAULT_SIGNAL := Signal(DEFAULT_MODE, MTU)

  function UnpackSignal(b: Bytes): (s: Signal)
    requires |b| == LINK_TRAILER
    ensures s.mode < MODES && s.mtu < MTU_DOMAIN
  {
    var value := (b[0] as int) * 65536 + (b[1] as int) * 256 + b[2];
    Signal(value / MTU_DOMAIN % MODES, value % MTU_DOMAIN)
  }

  lemma ThreeBytes(value: nat)
    requires value < 0x100_0000
    ensures value / 65536 < 256 && value / 65536 * 65536 + value / 256 % 256 * 256 + value % 256 == value
  {
    var q := value / 256;
    assert value == 256 * q + value % 256 && q == 256 * (q / 256) + q % 256;
    assert q / 256 == value / 65536;
  }

  lemma SignalRoundTrip(s: Signal)
    requires s.mode < MODES && s.mtu < MTU_DOMAIN
    ensures UnpackSignal(s.Pack()) == s
  {
    var value := s.mtu + s.mode * MTU_DOMAIN;
    assert s.mtu % MTU_DOMAIN == s.mtu && s.mode % MODES == s.mode;
    ThreeBytes(value);
    var b := s.Pack();
    assert (b[0] as int) * 65536 + (b[1] as int) * 256 + b[2] == value;
    assert value / MTU_DOMAIN == s.mode && value % MTU_DOMAIN == s.mtu;
  }

  lemma BytesOf(x: nat, y: nat, z: nat)
    requires x < 256 && y < 256 && z < 256
    ensures var value := x * 65536 + y * 256 + z; value / 65536 == x && value / 256 % 256 == y && value % 256 == z
  {
    var value := x * 65536 + y * 256 + z;
    assert value / 256 == x * 256 + y;
  }

  lemma TrailerRoundTrip(b: Bytes)
    requires |b| == LINK_TRAILER
    ensures UnpackSignal(b).Pack() == b
  {
    var value := (b[0] as int) * 65536 + (b[1] as int) * 256 + b[2];
    BytesOf(b[0], b[1], b[2]);
    var s := UnpackSignal(b);
    assert value / MTU_DOMAIN < MODES;
    assert s.mtu % MTU_DOMAIN + s.mode % MODES * MTU_DOMAIN == value;
  }

  /** The signalling of a payload with `keys` bytes of key material; the default when it has no trailer. */
  function SignalOf(payload: Bytes, keys: nat): Signal {
    if |payload| == keys + LINK_TRAILER then UnpackSignal(payload[keys..]) else DEFAULT_SIGNAL
  }

  /** `LinkRequestView::parse` and `LinkProofView::parse`. */
  predicate Parses(payload: Bytes, keys: nat) {
    (|payload| == keys || |payload| == keys + LINK_TRAILER) && SignalOf(payload, keys).EffectiveMtu().Some?
  }

  /** A request or proof is well-formed with its keys alone, or with a trailer of no size or of the default and up. */
  lemma ParsesExactly(payload: Bytes, keys: nat)
    ensures Parses(payload, keys) <==>
      || |payload| == keys
      || (|payload| == keys + LINK_TRAILER &&
          (UnpackSignal(payload[keys..]).mtu == 0 || UnpackSignal(payload[keys..]).mtu >= 500))
    ensures Parses(payload, keys) ==>
      SignalOf(payload, keys).EffectiveMtu() ==
        Some(if |payload| == keys || UnpackSignal(payload[keys..]).mtu == 0 then 500
             else UnpackSignal(payload[keys..]).mtu)
  {
    hide UnpackSignal;
  }

  /** The bytes an establishment proof signs. */
  function Signed(link: Hash, key: Hash, payload: Bytes): Bytes
    requires |payload| >= PROOF_KEYS
  {
    ToBe(link, 16) + payload[SIGNATURE..PROOF_KEYS] + ToBe(key, 32) + payload[PROOF_KEYS..]
  }

  /** What an establishment proof signs is read back part by part: link id, its key half, signing key, trailer. */
  lemma SignedParts(link: Hash, key: Hash, payload: Bytes)
    requires link < Pow256(16) && IsKey(key) && |payload| >= PROOF_KEYS
    ensures var m := Signed(link, key, payload);
      && |m| == 80 + |payload| - PROOF_KEYS
      && FromBe(m[..16]) == link && m[16..48] == payload[SIGNATURE..PROOF_KEYS] && FromBe(m[48..80]) == key
      && m[80..] == payload[PROOF_KEYS..]
  {
    hide ToBe, FromBe, Pow256;
    var m := Signed(link, key, payload);
    BeRoundTrip(link, 16);
    BeRoundTrip(key, 32);
    assert m[..16] == ToBe(link, 16) && m[48..80] == ToBe(key, 32);
  }

  /** A signed message is for one link, one key and one proof. */
  lemma SignedDecides(l: Hash, k: Hash, p: Bytes, l': Hash, k': Hash, p': Bytes)
    requires l < Pow256(16) && l' < Pow256(16) && IsKey(k) && IsKey(k')
    requires |p| >= PROOF_KEYS && |p'| >= PROOF_KEYS && Signed(l, k, p) == Signed(l', k', p')
    ensures l == l' && k == k' && p[SIGNATURE..] == p'[SIGNATURE..]
  {
    hide ToBe, FromBe, Pow256, IsKey;
    SignedParts(l, k, p);
    SignedParts(l', k', p');
    assert p[SIGNATURE..] == p[SIGNATURE..PROOF_KEYS] + p[PROOF_KEYS..];
    assert p'[SIGNATURE..] == p'[SIGNATURE..PROOF_KEYS] + p'[PROOF_KEYS..];
  }

  /** A key of 32 bytes. */
  predicate IsKey(key: Hash) {
    key < Pow256(32)
  }

  /** The Ed25519 half of an announced public key. */
  function SigningHalf(publicKey: Hash): (key: Hash)
    ensures IsKey(key)
  {
    publicKey % Pow256(32)
  }

  lemma {:induction false} FromBeJoin(a: Bytes, b: Bytes)
    ensures FromBe(a + b) == FromBe(a) * Pow256(|b|) + FromBe(b)
  {
    if b == [] {
      assert a + b == a;
    } else {
      var n := |b| - 1;
      FromBeJoin(a, b[..n]);
      assert (a + b)[..|a + b| - 1] == a + b[..n];
      Carry(FromBe(a), Pow256(n));
    }
  }

  lemma Carry(x: nat, y: nat)
    ensures x * (256 * y) == (x * y) * 256
  {
  }

  /** It is the last 32 bytes of the announced 64. */
  lemma SigningHalfIsLast(b: Bytes)
    requires |b| == 64
    ensures SigningHalf(FromBe(b)) == FromBe(b[32..])
  {
    hide FromBe, Pow256;
    FromBeJoin(b[..32], b[32..]);
    assert b == b[..32] + b[32..];
    BytesRoundTrip(b[32..]);
    Remainder(FromBe(b[..32]), Pow256(32), FromBe(b[32..]));
  }

  lemma Remainder(q: nat, d: nat, r: nat)
    requires r < d
    ensures (q * d + r) % d == r
  {
    var x := q * d + r;
    var k := x / d;
    assert x == d * k + x % d;
    if k < q {
      Scale(d, k + 1, q);
    } else if k > q {
      Scale(d, q + 1, k);
    }
  }

  /** `link_id_from_raw` on a parsed packet: the trailer does not count. */
  function LinkCore(p: Packet): Core {
    CoreOf(p.header, p.payload[..Min(|p.payload|, LINK_KEYS)])
  }
}
