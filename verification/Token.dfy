/**
 The Token that carries a resource: initialization vector, padded ciphertext, authentication tag.

 Cipher, tag and hash are parameters of which only lengths and the cipher's round trip are known.
 Padding is that of section 6.3 of RFC 5652.
 */
module Token {
  import opened Base

  const BLOCK: nat := 16
  const TAG_LEN: nat := 32
  const OVERHEAD: nat := 48
  const HASH_LEN: nat := 32

  datatype Crypto = Crypto(
    sha: Bytes -> Bytes,
    encrypt: (Bytes, Bytes, Bytes) -> Bytes,
    decrypt: (Bytes, Bytes, Bytes) -> Bytes,
    mac: (Bytes, Bytes) -> Bytes)

  /** What is known of the primitives. */
  ghost predicate Sane(c: Crypto) {
    && (forall m :: |c.sha(m)| == HASH_LEN)
    && (forall k, m :: |c.mac(k, m)| == TAG_LEN)
    && (forall k, iv, p :: |c.encrypt(k, iv, p)| == |p|)
    && (forall k, iv, p :: |c.decrypt(k, iv, p)| == |p|)
    && (forall k, iv, p :: c.decrypt(k, iv, c.encrypt(k, iv, p)) == p)
  }

  /** Such primitives exist. */
  lemma SaneExists()
    ensures Sane(Crypto(_ => seq(HASH_LEN, _ => 0), (_, _, p) => p, (_, _, p) => p, (_, _) => seq(TAG_LEN, _ => 0)))
  {
  }

  function PadLen(n: nat): (k: nat)
    ensures 1 <= k <= BLOCK && (n + k) % BLOCK == 0
  {
    BLOCK - n % BLOCK
  }

  function Pad(p: Bytes): (b: Bytes)
    ensures |b| == |p| + PadLen(|p|)
  {
    p + seq(PadLen(|p|), _ => PadLen(|p|))
  }

  /** `pkcs7_unpad`. */
  function Unpad(b: Bytes): Option<Bytes> {
    if b == [] then None
    else
      var n := b[|b| - 1];
      if n == 0 || n > BLOCK || n > |b| then None
      else if forall i :: |b| - n <= i < |b| ==> b[i] == n then Some(b[..|b| - n])
      else None
  }

  lemma UnpadPad(p: Bytes)
    ensures Unpad(Pad(p)) == Some(p)
  {
    var b := Pad(p);
    assert b[..|b| - PadLen(|p|)] == p;
  }

  /** Only padding is removed: whatever is unpadded was padded. */
  lemma PadUnpad(b: Bytes)
    requires |b| % BLOCK == 0 && Unpad(b).Some?
    ensures Pad(Unpad(b).value) == b
  {
    var p := Unpad(b).value;
    var n := b[|b| - 1];
    assert |b| == |p| + n && (|p| + n) % BLOCK == 0 && 1 <= n <= BLOCK;
    assert PadLen(|p|) == n by { Complement(|p|, n); }
  }

  lemma Complement(m: nat, n: nat)
    requires (m + n) % BLOCK == 0 && 1 <= n <= BLOCK
    ensures BLOCK - m % BLOCK == n
  {
  }

  /** `token_len`. */
  function TokenLen(n: nat): nat {
    16 + (n / BLOCK + 1) * BLOCK + TAG_LEN
  }

  /** The key's second half enciphers, its first half authenticates. */
  function Seal(c: Crypto, key: Bytes, iv: Bytes, p: Bytes): Bytes
    requires |key| == 64 && |iv| == 16
  {
    var body := iv + c.encrypt(key[32..], iv, Pad(p));
    body + c.mac(key[..32], body)
  }

  /** `token_decrypt_in_place`. */
  function Open(c: Crypto, key: Bytes, t: Bytes): Option<Bytes>
    requires |key| == 64
  {
    if |t| < 64 then None
    else
      var split := |t| - TAG_LEN;
      if c.mac(key[..32], t[..split]) != t[split..] then None
      else if (split - 16) % BLOCK != 0 then None
      else Unpad(c.decrypt(key[32..], t[..16], t[16..split]))
  }

  lemma SealLength(c: Crypto, key: Bytes, iv: Bytes, p: Bytes)
    requires Sane(c) && |key| == 64 && |iv| == 16
    ensures |Seal(c, key, iv, p)| == TokenLen(|p|)
  {
    assert |p| + PadLen(|p|) == (|p| / BLOCK + 1) * BLOCK;
  }

  /** What was sealed opens under the same key. */
  lemma OpenSeal(c: Crypto, key: Bytes, iv: Bytes, p: Bytes)
    requires Sane(c) && |key| == 64 && |iv| == 16
    ensures Open(c, key, Seal(c, key, iv, p)) == Some(p)
  {
    hide Pad, Unpad;
    var padded := Pad(p);
    PadBlocks(p);
    UnpadPad(p);
    var ct := c.encrypt(key[32..], iv, padded);
    assert |ct| == |padded|;
    var body := iv + ct;
    var t := Seal(c, key, iv, p);
    var split := |t| - TAG_LEN;
    assert t[..split] == body && t[split..] == c.mac(key[..32], body);
    assert t[..16] == iv && t[16..split] == ct;
  }

  /** A token with these parts: its tag is that of vector and ciphertext, which deciphers to the padded payload. */
  ghost predicate Authentic(c: Crypto, key: Bytes, t: Bytes, iv: Bytes, ct: Bytes, p: Bytes)
    requires |key| == 64
  {
    && |iv| == 16 && t == iv + ct + c.mac(key[..32], iv + ct)
    && c.decrypt(key[32..], iv, ct) == Pad(p)
  }

  /** A token opens exactly if it is authentic, and then to the payload that was padded. */
  lemma OpenExactly(c: Crypto, key: Bytes, t: Bytes, p: Bytes)
    requires Sane(c) && |key| == 64
    ensures Open(c, key, t) == Some(p) <==> exists iv, ct :: Authentic(c, key, t, iv, ct, p)
  {
    hide Pad, Unpad;
    if Open(c, key, t) == Some(p) {
      OpenedParts(c, key, t, p);
    }
    if iv, ct :| Authentic(c, key, t, iv, ct, p) {
      AuthenticOpens(c, key, t, iv, ct, p);
    }
  }

  lemma OpenedParts(c: Crypto, key: Bytes, t: Bytes, p: Bytes)
    requires Sane(c) && |key| == 64 && Open(c, key, t) == Some(p)
    ensures |t| >= 64 && Authentic(c, key, t, t[..16], t[16..|t| - TAG_LEN], p)
  {
    hide Pad, Unpad;
    var split := |t| - TAG_LEN;
    var iv, ct := t[..16], t[16..split];
    assert iv + ct == t[..split];
    PadUnpad(c.decrypt(key[32..], iv, ct));
    assert t == iv + ct + t[split..];
  }

  lemma AuthenticOpens(c: Crypto, key: Bytes, t: Bytes, iv: Bytes, ct: Bytes, p: Bytes)
    requires Sane(c) && |key| == 64 && Authentic(c, key, t, iv, ct, p)
    ensures Open(c, key, t) == Some(p)
  {
    hide Pad, Unpad;
    PadBlocks(p);
    UnpadPad(p);
    assert |ct| == |Pad(p)|;
    var split := |t| - TAG_LEN;
    assert t[..split] == iv + ct && t[split..] == c.mac(key[..32], iv + ct);
    assert t[..16] == iv && t[16..split] == ct;
  }

  lemma PadBlocks(p: Bytes)
    ensures |Pad(p)| % BLOCK == 0 && |Pad(p)| >= BLOCK
  {
  }
}
