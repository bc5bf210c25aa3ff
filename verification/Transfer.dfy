/** Resource transfer: a sealed payload in hash-addressed parts, requested window by window. */
module Transfer {
  import opened Base
  import opened Token
  import Window
  import Adv = Advertisement

  const SDU: nat := 464
  const MAX_PARTS: nat := 8
  const TRANSFER_MAX: nat := 3712
  const DATA_MAX: nat := 3659
  const RANDOM_LEN: nat := 4
  const MAPHASH_LEN := Adv.MAPHASH_LEN
  const PROOF_LEN: nat := 64

  datatype Failure =
    | TooLarge | InvalidAdvertisement | CompressedUnsupported | SplitUnsupported | MetadataUnsupported
    | RequestResponseUnsupported | EncryptionRequired | MapHashCollision | InvalidRequest | Incomplete
    | HashMismatch | Corrupt | InvalidState | OutputTooSmall | CryptoFailed

  datatype Result<+T> = Ok(value: T) | Err(error: Failure)

  // --- Parts ------------------------------------------------------------------------------------

  function PartCount(total: nat): nat {
    (total + SDU - 1) / SDU
  }

  /** Where part `i` ends. */
  function PartEnd(total: nat, i: nat): nat {
    Min((i + 1) * SDU, total)
  }

  lemma PartBounds(total: nat, i: nat)
    requires i < PartCount(total)
    ensures i * SDU < PartEnd(total, i) <= total
    ensures i + 1 < PartCount(total) ==> PartEnd(total, i) == (i + 1) * SDU
    ensures i + 1 == PartCount(total) ==> PartEnd(total, i) == total
  {
  }

  function PartOf(blob: Bytes, i: nat): Bytes
    requires i < PartCount(|blob|)
  {
    PartBounds(|blob|, i);
    blob[i * SDU..PartEnd(|blob|, i)]
  }

  /** `get_map_hash`. */
  function MapHash(c: Crypto, part: Bytes, random: Bytes): Bytes {
    var h := c.sha(part + random);
    h[..Min(|h|, MAPHASH_LEN)]
  }

  function MapHashes(c: Crypto, blob: Bytes, random: Bytes): (m: seq<Bytes>)
    ensures |m| == PartCount(|blob|) && forall i :: 0 <= i < |m| ==> m[i] == MapHash(c, PartOf(blob, i), random)
  {
    seq(PartCount(|blob|), i requires 0 <= i < PartCount(|blob|) => MapHash(c, PartOf(blob, i), random))
  }

  // --- The sender -------------------------------------------------------------------------------

  datatype Outbound = Outbound(blob: Bytes, dataSize: nat, hash: Bytes, proof: Bytes, random: Bytes, maps: seq<Bytes>)

  /** `build_into`. */
  function Build(c: Crypto, key: Bytes, data: Bytes, random: Bytes, iv: Bytes): Result<Outbound>
    requires |key| == 64 && |iv| == 16
  {
    if |data| > DATA_MAX then Err(TooLarge)
    else
      var hash := c.sha(data + random);
      var blob := Seal(c, key, iv, random + data);
      var maps := MapHashes(c, blob, random);
      if !Distinct(maps) then Err(MapHashCollision)
      else Ok(Outbound(blob, |data|, hash, c.sha(data + hash), random, maps))
  }

  /** `validate_proof`. */
  predicate AcceptsProof(o: Outbound, proof: Bytes) {
    |proof| == PROOF_LEN && proof[..32] == o.hash && proof[32..] == o.proof
  }

  /** One proof is accepted, and no other. */
  lemma OneProof(o: Outbound, proof: Bytes)
    requires |o.hash| == |o.proof| == 32
    ensures AcceptsProof(o, proof) <==> proof == o.hash + o.proof
  {
    if |proof| == PROOF_LEN {
      assert proof == proof[..32] + proof[32..];
    }
    assert (o.hash + o.proof)[..32] == o.hash && (o.hash + o.proof)[32..] == o.proof;
  }

  function Flat(m: seq<Bytes>): Bytes {
    if m == [] then [] else Flat(m[..|m| - 1]) + m[|m| - 1]
  }

  /** `advertisement`. */
  function Advertised(o: Outbound): Adv.Adv {
    Adv.Adv(|o.blob|, o.dataSize, |o.maps|, o.hash, o.random, o.hash, 1, 1, [],
      Adv.Flags(true, false, false, false, false, false), Flat(o.maps))
  }

  /** The advertisement as it travels, if its fields fit. */
  function Advertising(o: Outbound): Option<Bytes> {
    if Adv.Fits(Advertised(o)) then Some(Adv.Pack(Advertised(o))) else None
  }

  // --- The receiver -----------------------------------------------------------------------------

  datatype Phase = Transferring | Assembled | Spoiled

  datatype Inbound = Inbound(
    buf: Bytes, hash: Bytes, random: Bytes, proof: Bytes, transfer: nat, dataSize: nat, dataLen: nat,
    parts: nat, done: nat, received: seq<bool>, maps: seq<Bytes>, phase: Phase, window: Window.State)

  /** `validate_adv`; `response` is the request an answer is expected for. */
  function Fault(a: Adv.Adv, response: Option<Bytes>): Option<Failure> {
    if a.flags.compressed then Some(CompressedUnsupported)
    else if a.flags.hasMetadata then Some(MetadataUnsupported)
    else if a.flags.split || a.segments != 1 || a.segment != 1 then Some(SplitUnsupported)
    else if !(match response
              case None => !a.flags.isRequest && !a.flags.isResponse && a.request == []
              case Some(id) => !a.flags.isRequest && a.flags.isResponse && |a.request| == 16 && a.request == id)
                then Some(RequestResponseUnsupported)
    else if !a.flags.encrypted then Some(EncryptionRequired)
    else if a.transferSize > TRANSFER_MAX || a.dataSize > DATA_MAX then Some(TooLarge)
    else if a.transferSize < OVERHEAD + 16 || TokenLen(RANDOM_LEN + a.dataSize) != a.transferSize
      then Some(InvalidAdvertisement)
    else if a.parts != PartCount(a.transferSize) || |a.hashmap| != a.parts * MAPHASH_LEN then Some(InvalidAdvertisement)
    else None
  }

  /** The flags an advertisement must carry: those of an ordinary transfer, or of the answer to a request. */
  function Expected(response: Option<Bytes>): Adv.Flags {
    Adv.Flags(true, false, false, false, response.Some?, false)
  }

  /** The sizes of a payload of `n` bytes: its token, the parts of that, and the hashes of those. */
  predicate Sized(a: Adv.Adv, n: nat) {
    && a.dataSize == n && a.transferSize == TokenLen(RANDOM_LEN + n) && a.parts == PartCount(a.transferSize)
    && |a.hashmap| == a.parts * MAPHASH_LEN
  }

  /**
   An advertisement is accepted exactly if it is one unsplit segment under exactly the expected flags, answers
   exactly the request an answer is expected for, and is sized as some payload within the limit.
   */
  lemma AcceptedExactly(a: Adv.Adv, response: Option<Bytes>)
    requires response.Some? ==> |response.value| == 16
    ensures Accept(a, response).Ok? <==>
      && a.flags == Expected(response) && a.segment == a.segments == 1
      && a.request == (if response.Some? then response.value else [])
      && exists n :: 0 <= n <= DATA_MAX && Sized(a, n)
  {
    hide PartCount, Chunks;
    if a.dataSize <= DATA_MAX {
      TokenWithin(a.dataSize);
      assert Sized(a, a.dataSize) || !Sized(a, a.dataSize);
    }
  }

  lemma TokenWithin(n: nat)
    requires n <= DATA_MAX
    ensures OVERHEAD + 16 <= TokenLen(RANDOM_LEN + n) <= TRANSFER_MAX
  {
  }

  function Chunk(b: Bytes, i: nat): Bytes
    requires (i + 1) * MAPHASH_LEN <= |b|
  {
    b[i * MAPHASH_LEN..(i + 1) * MAPHASH_LEN]
  }

  function Chunks(b: Bytes): (m: seq<Bytes>)
    ensures |m| == |b| / MAPHASH_LEN && forall i :: 0 <= i < |m| ==> m[i] == Chunk(b, i)
  {
    seq(|b| / MAPHASH_LEN, i requires 0 <= i < |b| / MAPHASH_LEN => Chunk(b, i))
  }

  /** `accept_into`. */
  function Accept(a: Adv.Adv, response: Option<Bytes>): Result<Inbound> {
    match Fault(a, response)
    case Some(f) => Err(f)
    case None =>
      Ok(Inbound(seq(TRANSFER_MAX, _ => 0), a.hash, a.random, seq(32, _ => 0), a.transferSize, a.dataSize, 0,
                 a.parts, 0, seq(MAX_PARTS, _ => false), Chunks(a.hashmap), Transferring, Window.START))
  }

  /** A receiver that was set up by an advertisement, at any later point. */
  ghost predicate Shaped(r: Inbound) {
    && |r.buf| == TRANSFER_MAX && |r.received| == MAX_PARTS && r.transfer <= TRANSFER_MAX && |r.hash| == |r.proof| == 32
    && r.parts == PartCount(r.transfer) == |r.maps| && r.parts <= MAX_PARTS && r.done <= r.parts
    && r.dataLen + 20 <= TRANSFER_MAX
  }

  function WindowEnd(r: Inbound): nat {
    Min(r.done + r.window.window, r.parts)
  }

  /** Whether slot `i` takes this part. */
  predicate Takes(r: Inbound, c: Crypto, part: Bytes, i: nat)
    requires i < |r.received| && i < |r.maps| && i < PartCount(r.transfer)
  {
    PartBounds(r.transfer, i);
    !r.received[i] && r.maps[i] == MapHash(c, part, r.random) && |part| == PartEnd(r.transfer, i) - i * SDU
  }

  /** The first slot from `i` on that takes this part; the end of the window for none. */
  function SlotFor(r: Inbound, c: Crypto, part: Bytes, i: nat): (k: nat)
    requires Shaped(r) && i <= WindowEnd(r)
    ensures i <= k <= WindowEnd(r) && (k < WindowEnd(r) ==> Takes(r, c, part, k))
    ensures forall j :: i <= j < k ==> !Takes(r, c, part, j)
    decreases WindowEnd(r) - i
  {
    if i == WindowEnd(r) || Takes(r, c, part, i) then i else SlotFor(r, c, part, i + 1)
  }

  /** The length of the completed prefix. */
  function Prefix(received: seq<bool>, from_: nat, parts: nat): (d: nat)
    requires from_ <= parts <= |received|
    ensures from_ <= d <= parts && (forall i :: from_ <= i < d ==> received[i]) && (d < parts ==> !received[d])
    decreases parts - from_
  {
    if from_ < parts && received[from_] then Prefix(received, from_ + 1, parts) else from_
  }

  /** `receive_part`. */
  function Receive(r: Inbound, c: Crypto, part: Bytes): (Inbound, bool)
    requires Shaped(r)
  {
    if r.phase != Transferring || r.done > WindowEnd(r) then (r, false)
    else
      var i := SlotFor(r, c, part, r.done);
      if i == WindowEnd(r) then (r, false)
      else
        PartBounds(r.transfer, i);
        var received := r.received[i := true];
        (r.(buf := Overlaid(r.buf, i * SDU, part), received := received, done := Prefix(received, r.done, r.parts)),
          true)
  }

  lemma ReceiveShaped(r: Inbound, c: Crypto, part: Bytes)
    requires Shaped(r)
    ensures Shaped(Receive(r, c, part).0)
  {
    hide Takes;
  }

  // --- Honest parts -----------------------------------------------------------------------------

  /** The sender's side of a transfer: distinct map hashes of the parts of its blob. */
  ghost predicate Sound(c: Crypto, o: Outbound) {
    && |o.blob| <= TRANSFER_MAX && |o.hash| == 32
    && o.maps == MapHashes(c, o.blob, o.random) && Distinct(o.maps) && |o.maps| <= MAX_PARTS
  }

  /** The receiver was set up for this transfer, and whatever it has received is the sender's. */
  ghost predicate Faithful(o: Outbound, r: Inbound) {
    && Shaped(r) && r.phase == Transferring && Window.Bounded(r.window)
    && r.hash == o.hash && r.random == o.random && r.transfer == |o.blob| && r.maps == o.maps
    && (forall i :: 0 <= i < r.done ==> r.received[i]) && (r.done < r.parts ==> !r.received[r.done])
    && forall i :: 0 <= i < r.parts && r.received[i] ==> Stored(o, r.buf, i)
  }

  ghost predicate Stored(o: Outbound, buf: Bytes, i: nat) {
    i < PartCount(|o.blob|) && PartEnd(|o.blob|, i) <= |buf| && i * SDU <= PartEnd(|o.blob|, i)
      && buf[i * SDU..PartEnd(|o.blob|, i)] == PartOf(o.blob, i)
  }

  /** The slot an honest part belongs to is the only one whose hash it has. */
  lemma OwnSlot(c: Crypto, o: Outbound, r: Inbound, j: nat, i: nat)
    requires Sound(c, o) && Faithful(o, r) && j < r.parts && i < r.parts
    ensures Takes(r, c, PartOf(o.blob, j), i) <==> i == j && !r.received[j]
  {
    PartBounds(|o.blob|, i);
    assert o.maps[j] == MapHash(c, PartOf(o.blob, j), o.random);
  }

  lemma StoredStays(o: Outbound, buf: Bytes, i: nat, j: nat)
    requires Stored(o, buf, i) && i != j && j < PartCount(|o.blob|) && |o.blob| <= |buf|
    ensures PartEnd(|o.blob|, j) <= |buf| && Stored(o, Overlaid(buf, j * SDU, PartOf(o.blob, j)), i)
  {
    PartBounds(|o.blob|, i);
    PartBounds(|o.blob|, j);
    var b := Overlaid(buf, j * SDU, PartOf(o.blob, j));
    assert b[i * SDU..PartEnd(|o.blob|, i)] == buf[i * SDU..PartEnd(|o.blob|, i)];
  }

  lemma StoredNow(o: Outbound, buf: Bytes, j: nat)
    requires j < PartCount(|o.blob|) && |o.blob| <= |buf|
    ensures PartEnd(|o.blob|, j) <= |buf| && Stored(o, Overlaid(buf, j * SDU, PartOf(o.blob, j)), j)
  {
    PartBounds(|o.blob|, j);
  }

  /** An honest part is stored when its slot is open, and ignored otherwise; either way the receiver stays faithful. */
  lemma ReceiveHonest(c: Crypto, o: Outbound, r: Inbound, j: nat)
    requires Sound(c, o) && Faithful(o, r) && j < r.parts
    ensures var (s, ok) := Receive(r, c, PartOf(o.blob, j));
      && Faithful(o, s) && ok == (j < WindowEnd(r) && !r.received[j])
      && s.received == (if ok then r.received[j := true] else r.received) && r.done <= s.done && s.window == r.window
  {
    hide PartOf, Takes, Overlaid, Stored, PartEnd;
    var part := PartOf(o.blob, j);
    var k := SlotFor(r, c, part, r.done);
    forall i | 0 <= i < r.parts ensures Takes(r, c, part, i) <==> i == j && !r.received[j] {
      OwnSlot(c, o, r, j, i);
    }
    if k < WindowEnd(r) {
      assert k == j;
      PartBounds(|o.blob|, j);
      StoredNow(o, r.buf, j);
      forall i | 0 <= i < r.parts && r.received[i]
        ensures PartEnd(|o.blob|, j) <= |r.buf| && Stored(o, Overlaid(r.buf, j * SDU, part), i)
      {
        StoredStays(o, r.buf, i, j);
      }
    } else {
      assert r.done <= j < k ==> !Takes(r, c, part, j);
    }
  }

  // --- Any order of honest parts ----------------------------------------------------------------

  /** What can happen to a receiver: a part of this transfer arrives, or the host changes the window. */
  datatype Event = Arrives(part: nat) | Grows(rate: nat) | Shrinks

  function Applied(c: Crypto, o: Outbound, r: Inbound, e: Event): Inbound
    requires Shaped(r)
  {
    match e
    case Arrives(j) => if j < PartCount(|o.blob|) then Receive(r, c, PartOf(o.blob, j)).0 else r
    case Grows(rate) => r.(window := Window.Grow(r.window, rate))
    case Shrinks => r.(window := Window.Shrink(r.window))
  }

  lemma AppliedIsFaithful(c: Crypto, o: Outbound, r: Inbound, e: Event)
    requires Sound(c, o) && Faithful(o, r)
    ensures Faithful(o, Applied(c, o, r, e))
  {
    hide Receive, PartOf, Stored;
    match e {
      case Arrives(j) =>
        if j < PartCount(|o.blob|) {
          ReceiveHonest(c, o, r, j);
        }
      case Grows(rate) => Window.GrowBounded(r.window, rate);
      case Shrinks => Window.ShrinkBounded(r.window);
    }
  }

  /** The states of a receiver under these events: losses are events that do not happen, duplicates happen twice. */
  ghost predicate Run(c: Crypto, o: Outbound, states: seq<Inbound>, events: seq<Event>) {
    && |states| == |events| + 1 && Faithful(o, states[0])
    && forall i :: 0 <= i < |events| ==> Shaped(states[i]) && states[i + 1] == Applied(c, o, states[i], events[i])
  }

  lemma {:induction false} RunIsFaithful(c: Crypto, o: Outbound, states: seq<Inbound>, events: seq<Event>, i: nat)
    requires Sound(c, o) && Run(c, o, states, events) && i < |states|
    ensures Faithful(o, states[i])
  {
    hide Applied, Faithful, Sound;
    if i > 0 {
      RunIsFaithful(c, o, states, events, i - 1);
      AppliedIsFaithful(c, o, states[i - 1], events[i - 1]);
    }
  }

  /** A receiver that has every part has the sender's ciphertext. */
  lemma CompleteIsWhole(o: Outbound, r: Inbound)
    requires Faithful(o, r) && r.done == r.parts
    ensures r.buf[..r.transfer] == o.blob
  {
    forall x | 0 <= x < r.transfer ensures r.buf[x] == o.blob[x] {
      var i := x / SDU;
      PartIndex(r.transfer, x);
      assert Stored(o, r.buf, i);
      PartBounds(r.transfer, i);
      assert r.buf[i * SDU..PartEnd(r.transfer, i)][x - i * SDU] == r.buf[x];
      assert PartOf(o.blob, i)[x - i * SDU] == o.blob[x];
    }
  }

  lemma PartIndex(total: nat, x: nat)
    requires x < total
    ensures var i := x / SDU; i < PartCount(total) && i * SDU <= x < PartEnd(total, i)
  {
  }

  // --- Assembly ---------------------------------------------------------------------------------

  /** The token as `token_decrypt_in_place` leaves it: as it was, deciphered, or, with bad padding, blanked. */
  function Deciphered(c: Crypto, key: Bytes, t: Bytes): Bytes
    requires |key| == 64
  {
    if |t| < 64 then t
    else
      var split := |t| - TAG_LEN;
      if c.mac(key[..32], t[..split]) != t[split..] || (split - 16) % BLOCK != 0 then t
      else
        var p := c.decrypt(key[32..], t[..16], t[16..split]);
        t[..16] + (if Unpad(p).Some? then p else seq(split - 16, _ => 0)) + t[split..]
  }

  /** `assemble`. */
  function Assemble(r: Inbound, c: Crypto, key: Bytes): (Inbound, Result<nat>)
    requires Shaped(r) && |key| == 64
  {
    if r.phase != Transferring then (r, Err(InvalidState))
    else if r.done != r.parts then (r, Err(Incomplete))
    else
      var t := r.buf[..r.transfer];
      var s := r.(buf := Deciphered(c, key, t) + r.buf[r.transfer..]);
      match Open(c, key, t)
      case None => (s.(phase := Spoiled), Err(CryptoFailed))
      case Some(p) =>
        if |p| < RANDOM_LEN then (s.(phase := Spoiled), Err(Corrupt))
        else
          var data := p[RANDOM_LEN..];
          if c.sha(data + r.random) != r.hash then (s.(phase := Spoiled), Err(HashMismatch))
          else (s.(proof := c.sha(data + r.hash), dataLen := |data|, phase := Assembled), Ok(|data|))
  }

  /** `data`. */
  function Data(r: Inbound): Option<Bytes> {
    if r.phase == Assembled && 20 + r.dataLen <= |r.buf| then Some(r.buf[20..20 + r.dataLen]) else None
  }

  /** `build_proof`. */
  function Proof(r: Inbound): Result<Bytes> {
    if r.phase == Assembled then Ok(r.hash + r.proof) else Err(InvalidState)
  }

  lemma DecipheredSeal(c: Crypto, key: Bytes, iv: Bytes, p: Bytes)
    requires Sane(c) && |key| == 64 && |iv| == 16
    ensures var t := Seal(c, key, iv, p);
      |Deciphered(c, key, t)| == |t| && |t| >= 64 && 16 + |p| <= |t| && Deciphered(c, key, t)[16..16 + |p|] == p
  {
    hide Unpad;
    var t := Seal(c, key, iv, p);
    var padded := Pad(p);
    var ct := c.encrypt(key[32..], iv, padded);
    assert |ct| == |padded| && |t| == 16 + |padded| + TAG_LEN;
    var split := |t| - TAG_LEN;
    assert t[..split] == iv + ct && t[split..] == c.mac(key[..32], iv + ct) && t[..16] == iv && t[16..split] == ct;
    UnpadPad(p);
    PadBlocks(p);
    assert Deciphered(c, key, t)[16..16 + |p|] == padded[..|p|] == p;
  }

  /**
   Delivery: a faithful receiver that has every part recovers the payload under the sender's key, and
   its proof is one the sender accepts.
   */
  lemma Delivered(c: Crypto, key: Bytes, data: Bytes, random: Bytes, iv: Bytes, o: Outbound, r: Inbound)
    requires Sane(c) && |key| == 64 && |iv| == 16 && |random| == RANDOM_LEN
    requires Build(c, key, data, random, iv) == Ok(o) && Faithful(o, r) && r.done == r.parts
    ensures var (s, n) := Assemble(r, c, key);
      && n == Ok(|data|) && Data(s) == Some(data)
      && Proof(s).Ok? && AcceptsProof(o, Proof(s).value)
  {
    hide MapHashes, Distinct, Pad, Unpad, Stored, Seal, Open, Deciphered;
    CompleteIsWhole(o, r);
    var p := random + data;
    OpenSeal(c, key, iv, p);
    SealLength(c, key, iv, p);
    DecipheredSeal(c, key, iv, p);
    assert p[RANDOM_LEN..] == data;
    var d := Deciphered(c, key, o.blob);
    var s := Assemble(r, c, key).0;
    assert s.buf == d + r.buf[r.transfer..];
    assert s.buf[20..20 + |data|] == d[16..16 + |p|][RANDOM_LEN..] == data;
    var proof := o.hash + c.sha(data + o.hash);
    assert proof[..32] == o.hash && proof[32..] == c.sha(data + o.hash);
  }

  // --- Assembly of whatever arrived -------------------------------------------------------------

  /** The received blob is an authentic token of a prefix and this payload, which has the advertised hash. */
  ghost predicate Conveys(c: Crypto, key: Bytes, r: Inbound, data: Bytes)
    requires Shaped(r) && |key| == 64
  {
    && c.sha(data + r.random) == r.hash
    && exists iv, ct, prefix :: |prefix| == RANDOM_LEN && Authentic(c, key, r.buf[..r.transfer], iv, ct, prefix + data)
  }

  lemma DecipheredLength(c: Crypto, key: Bytes, t: Bytes)
    requires Sane(c) && |key| == 64
    ensures |Deciphered(c, key, t)| == |t|
    ensures Open(c, key, t).Some? ==> 16 + |Open(c, key, t).value| <= |t|
  {
  }

  /** A token that opens is deciphered in place, behind its initialization vector. */
  lemma DecipheredOpen(c: Crypto, key: Bytes, t: Bytes, p: Bytes)
    requires Sane(c) && |key| == 64 && Open(c, key, t) == Some(p)
    ensures |Deciphered(c, key, t)| == |t| && |t| >= 64 && 16 + |p| + TAG_LEN <= |t|
    ensures Deciphered(c, key, t)[16..16 + |p|] == p
  {
    var split := |t| - TAG_LEN;
    var plain := c.decrypt(key[32..], t[..16], t[16..split]);
    assert |plain| == split - 16;
    assert p == plain[..|p|];
    assert Deciphered(c, key, t)[16..16 + |p|] == plain[..|p|];
  }

  /** A token that does not open exposes no plaintext: it is left as it was, or blanked behind its vector. */
  lemma NothingExposed(c: Crypto, key: Bytes, t: Bytes)
    requires Sane(c) && |key| == 64 && Open(c, key, t) == None
    ensures Deciphered(c, key, t) == t
      || (|t| >= 64 && Deciphered(c, key, t) == t[..16] + seq(|t| - OVERHEAD, _ => 0) + t[|t| - TAG_LEN..])
    ensures |t| >= 64 && c.mac(key[..32], t[..|t| - TAG_LEN]) != t[|t| - TAG_LEN..] ==> Deciphered(c, key, t) == t
  {
    hide Unpad;
  }

  /** The payload a receiver conveys is the one its token opens to. */
  lemma ConveysExactly(c: Crypto, key: Bytes, r: Inbound, data: Bytes)
    requires Sane(c) && Shaped(r) && |key| == 64
    ensures Conveys(c, key, r, data) <==>
      var o := Open(c, key, r.buf[..r.transfer]);
      o.Some? && |o.value| >= RANDOM_LEN && o.value[RANDOM_LEN..] == data && c.sha(data + r.random) == r.hash
  {
    hide Open, Authentic;
    var t := r.buf[..r.transfer];
    var o := Open(c, key, t);
    if Conveys(c, key, r, data) {
      var iv, ct, prefix :| |prefix| == RANDOM_LEN && Authentic(c, key, t, iv, ct, prefix + data);
      OpenExactly(c, key, t, prefix + data);
      assert (prefix + data)[RANDOM_LEN..] == data;
    }
    if o.Some? && |o.value| >= RANDOM_LEN && o.value[RANDOM_LEN..] == data {
      OpenExactly(c, key, t, o.value);
      var iv, ct :| Authentic(c, key, t, iv, ct, o.value);
      assert o.value == o.value[..RANDOM_LEN] + data;
    }
  }

  /**
   Assembly of whatever has arrived, honest or not: it succeeds exactly if the receiver is complete, its tag
   verifies under the key and the payload has the advertised hash; then the payload is handed out, and proved.
   */
  lemma AssembledExactly(c: Crypto, key: Bytes, r: Inbound, data: Bytes)
    requires Sane(c) && Shaped(r) && |key| == 64
    ensures var (s, n) := Assemble(r, c, key);
      && Shaped(s)
      && (n.Ok? && Data(s) == Some(data) <==>
            r.phase == Transferring && r.done == r.parts && Conveys(c, key, r, data))
      && (n.Ok? ==> Data(s).Some? && n.value == |Data(s).value|)
      && (n.Ok? && Data(s) == Some(data) ==> Proof(s) == Ok(r.hash + c.sha(data + r.hash)))
  {
    hide Open, Deciphered, Authentic, Conveys;
    var t := r.buf[..r.transfer];
    ConveysExactly(c, key, r, data);
    DecipheredLength(c, key, t);
    var o := Open(c, key, t);
    if o.Some? && |o.value| >= RANDOM_LEN {
      DecipheredOpen(c, key, t, o.value);
      var p, d := o.value, Deciphered(c, key, t);
      var buf := d + r.buf[r.transfer..];
      var found := p[RANDOM_LEN..];
      assert buf[20..20 + |found|] == d[16..16 + |p|][RANDOM_LEN..] == found;
    }
  }

  /** A failure hands out nothing and proves nothing, and so does every further attempt, under any key. */
  lemma FailureIsFinal(c: Crypto, key: Bytes, r: Inbound, again: Bytes)
    requires Sane(c) && Shaped(r) && |key| == |again| == 64 && r.phase != Assembled
    requires Assemble(r, c, key).1.Err?
    ensures var s := Assemble(r, c, key).0;
      && Shaped(s) && Data(s) == None && Proof(s).Err? && Assemble(s, c, again).1.Err?
      && (r.phase == Transferring && r.done == r.parts ==>
            Assemble(s, c, again) == (s, Err(InvalidState)) && forall part :: Receive(s, c, part) == (s, false))
  {
    hide Open, Deciphered;
    DecipheredLength(c, key, r.buf[..r.transfer]);
  }

  /** What a sender builds is sound, and fits the transfer. */
  lemma BuiltIsSound(c: Crypto, key: Bytes, data: Bytes, random: Bytes, iv: Bytes, o: Outbound)
    requires Sane(c) && |key| == 64 && |iv| == 16 && |random| == RANDOM_LEN && Build(c, key, data, random, iv) == Ok(o)
    ensures Sound(c, o) && o.dataSize == |data| && o.random == random
    ensures |o.blob| == TokenLen(RANDOM_LEN + |data|) >= OVERHEAD + 16
  {
    hide Seal, Distinct;
    SealLength(c, key, iv, random + data);
  }

  /** Building fails only for what is too large, or for colliding map hashes. */
  lemma BuildFailsOnly(c: Crypto, key: Bytes, data: Bytes, random: Bytes, iv: Bytes)
    requires |key| == 64 && |iv| == 16
    ensures Build(c, key, data, random, iv).Ok? <==>
      |data| <= DATA_MAX && Distinct(MapHashes(c, Seal(c, key, iv, random + data), random))
  {
  }

  lemma {:induction false} FlatLength(m: seq<Bytes>)
    requires forall i :: 0 <= i < |m| ==> |m[i]| == MAPHASH_LEN
    ensures |Flat(m)| == |m| * MAPHASH_LEN
  {
    if m != [] {
      FlatLength(m[..|m| - 1]);
    }
  }

  /** A hashmap is cut back into the hashes it was made of. */
  lemma {:induction false} ChunkFlat(m: seq<Bytes>, i: nat)
    requires i < |m| && forall k :: 0 <= k < |m| ==> |m[k]| == MAPHASH_LEN
    ensures (i + 1) * MAPHASH_LEN <= |Flat(m)| && Chunk(Flat(m), i) == m[i]
  {
    var n := |m| - 1;
    FlatLength(m);
    FlatLength(m[..n]);
    if i < n {
      ChunkFlat(m[..n], i);
      assert Chunk(Flat(m), i) == Chunk(Flat(m[..n]), i);
    }
  }

  lemma ChunksFlat(m: seq<Bytes>)
    requires forall k :: 0 <= k < |m| ==> |m[k]| == MAPHASH_LEN
    ensures Chunks(Flat(m)) == m
  {
    hide Flat, Chunk;
    FlatLength(m);
    assert |m| * MAPHASH_LEN / MAPHASH_LEN == |m|;
    forall i | 0 <= i < |m| ensures Chunks(Flat(m))[i] == m[i] {
      ChunkFlat(m, i);
    }
  }

  lemma MapHashLength(c: Crypto, part: Bytes, random: Bytes)
    requires Sane(c)
    ensures |MapHash(c, part, random)| == MAPHASH_LEN
  {
  }

  lemma BuiltMaps(c: Crypto, o: Outbound)
    requires Sane(c) && Sound(c, o)
    ensures forall i :: 0 <= i < |o.maps| ==> |o.maps[i]| == MAPHASH_LEN
    ensures |Flat(o.maps)| == |o.maps| * MAPHASH_LEN && Chunks(Flat(o.maps)) == o.maps
  {
    hide Distinct, MapHash, Flat, Chunk;
    assert o.maps == MapHashes(c, o.blob, o.random);
    forall i | 0 <= i < |o.maps| ensures |o.maps[i]| == MAPHASH_LEN {
      MapHashLength(c, PartOf(o.blob, i), o.random);
    }
    FlatLength(o.maps);
    ChunksFlat(o.maps);
  }

  /** What is built can be advertised, and the advertisement is read as it was meant. */
  lemma AdvertisingParses(c: Crypto, key: Bytes, data: Bytes, random: Bytes, iv: Bytes, o: Outbound)
    requires Sane(c) && |key| == 64 && |iv| == 16 && |random| == RANDOM_LEN && Build(c, key, data, random, iv) == Ok(o)
    ensures Advertising(o).Some? && Adv.Parse(Advertising(o).value) == Adv.Ok(Advertised(o))
  {
    hide Seal, Distinct, MapHash, Flat, Chunk, Adv.Parse, Adv.Pack;
    BuiltIsSound(c, key, data, random, iv, o);
    assert |o.hash| == 32;
    assert |data| <= DATA_MAX;
    BuiltMaps(c, o);
    Adv.ParsePack(Advertised(o));
  }

  /** The receiver accepts what the sender advertises, and starts out faithful. */
  lemma AdvertisedIsAccepted(c: Crypto, key: Bytes, data: Bytes, random: Bytes, iv: Bytes, o: Outbound)
    requires Sane(c) && |key| == 64 && |iv| == 16 && |random| == RANDOM_LEN && Build(c, key, data, random, iv) == Ok(o)
    ensures Accept(Advertised(o), None).Ok? && Faithful(o, Accept(Advertised(o), None).value)
  {
    hide Seal, Distinct, MapHash, Flat, Chunk, Build;
    BuiltIsSound(c, key, data, random, iv, o);
    assert |data| <= DATA_MAX by { BuildFailsOnly(c, key, data, random, iv); }
    BuiltMaps(c, o);
    Window.StartBounded();
  }

  /** The receiver that the bytes of an advertisement set up. */
  predicate SetUp(wire: Option<Bytes>, r: Inbound) {
    wire.Some? && Adv.Parse(wire.value).Ok? && Accept(Adv.Parse(wire.value).value, None) == Ok(r)
  }

  /**
   Resource transfer correctness. For every payload the sender can build a transfer for, and every
   sequence of arrivals of its parts and changes of the window: a receiver that was set up by the bytes
   of the advertisement and has become complete recovers exactly the payload, and proves it to the sender.
   */
  lemma TransferIsCorrect(c: Crypto, key: Bytes, data: Bytes, random: Bytes, iv: Bytes, o: Outbound,
                          states: seq<Inbound>, events: seq<Event>, i: nat)
    requires Sane(c) && |key| == 64 && |iv| == 16 && |random| == RANDOM_LEN && Build(c, key, data, random, iv) == Ok(o)
    requires |states| == |events| + 1 && SetUp(Advertising(o), states[0])
    requires forall k :: 0 <= k < |events| ==> Shaped(states[k]) && states[k + 1] == Applied(c, o, states[k], events[k])
    requires i < |states| && states[i].done == states[i].parts
    ensures Shaped(states[i]) && states[i].buf[..states[i].transfer] == o.blob
    ensures var (s, n) := Assemble(states[i], c, key);
      n == Ok(|data|) && Data(s) == Some(data) && Proof(s).Ok? && AcceptsProof(o, Proof(s).value)
  {
    hide Build, Accept, Applied, Assemble, Sound, Faithful, Advertising, Advertised, Adv.Parse;
    AdvertisingParses(c, key, data, random, iv, o);
    AdvertisedIsAccepted(c, key, data, random, iv, o);
    BuiltIsSound(c, key, data, random, iv, o);
    RunIsFaithful(c, o, states, events, i);
    FaithfulIsShaped(o, states[i]);
    CompleteIsWhole(o, states[i]);
    Delivered(c, key, data, random, iv, o, states[i]);
  }

  lemma FaithfulIsShaped(o: Outbound, r: Inbound)
    requires Faithful(o, r)
    ensures Shaped(r) && r.parts == PartCount(|o.blob|)
  {
  }

  // --- Requests ---------------------------------------------------------------------------------

  /** The parts of the window from `i` on that are still missing, in order. */
  function Missing(r: Inbound, i: nat): (m: seq<nat>)
    requires Shaped(r) && i <= WindowEnd(r)
    ensures forall k :: 0 <= k < |m| ==> i <= m[k] < WindowEnd(r) && !r.received[m[k]]
    ensures forall j :: i <= j < WindowEnd(r) && !r.received[j] ==> j in m
    decreases WindowEnd(r) - i
  {
    if i == WindowEnd(r) then [] else (if r.received[i] then [] else [i]) + Missing(r, i + 1)
  }

  function HashesAt(maps: seq<Bytes>, idx: seq<nat>): (m: seq<Bytes>)
    requires forall k :: 0 <= k < |idx| ==> idx[k] < |maps|
    ensures |m| == |idx| && forall k :: 0 <= k < |idx| ==> m[k] == maps[idx[k]]
  {
    seq(|idx|, k requires 0 <= k < |idx| => maps[idx[k]])
  }

  /** `build_part_request`: what the receiver asks for. */
  function Request(r: Inbound): Result<Bytes>
    requires Shaped(r)
  {
    if r.phase != Transferring || r.done == r.parts then Err(InvalidState)
    else Ok([0x00] + r.hash + Flat(HashesAt(r.maps, Missing(r, r.done))))
  }

  datatype PartRequest = PartRequest(wantsMore: bool, last: Option<Bytes>, hash: Bytes, requested: Bytes)

  /** `PartRequestView::parse`. */
  function ParseRequest(b: Bytes): Result<PartRequest> {
    if b == [] then Err(InvalidRequest)
    else
      var more := b[0] == 0xFF;
      var offset := if more then 1 + MAPHASH_LEN else 1;
      if |b| < offset + 32 then Err(InvalidRequest)
      else Ok(PartRequest(more, if more then Some(b[1..offset]) else None, b[offset..offset + 32], b[offset + 32..]))
  }

  /** The parts from `i` on whose hash is asked for, each once and in order. */
  function Serving(maps: seq<Bytes>, wanted: seq<Bytes>, i: nat): (idx: seq<nat>)
    requires i <= |maps|
    ensures forall k :: 0 <= k < |idx| ==> i <= idx[k] < |maps| && maps[idx[k]] in wanted
    ensures forall j :: i <= j < |maps| && maps[j] in wanted ==> j in idx
    ensures forall j, k :: 0 <= j < k < |idx| ==> idx[j] < idx[k]
    decreases |maps| - i
  {
    if i == |maps| then [] else (if maps[i] in wanted then [i] else []) + Serving(maps, wanted, i + 1)
  }

  /** `requested_parts`. */
  function Requested(o: Outbound, q: PartRequest): seq<nat> {
    if q.hash != o.hash then [] else Serving(o.maps, Chunks(q.requested), 0)
  }

  /** Requests of either form are read: with the last hash known when the asker has run out of hashes, and without. */
  lemma RequestsAreRead(first: byte, last: Bytes, hash: Bytes, requested: Bytes)
    requires |last| == MAPHASH_LEN && |hash| == 32
    ensures ParseRequest([0xFF] + last + hash + requested) == Ok(PartRequest(true, Some(last), hash, requested))
    ensures first != 0xFF ==>
      ParseRequest([first] + hash + requested) == Ok(PartRequest(false, None, hash, requested))
  {
    var b, p := [0xFF] + last + hash + requested, [first] + hash + requested;
    assert b[1..5] == last && b[5..37] == hash && b[37..] == requested;
    assert p[1..33] == hash && p[33..] == requested;
  }

  /** A part is served exactly if the request is for this resource and names its hash. */
  lemma ServedExactly(o: Outbound, q: PartRequest, i: nat)
    ensures i in Requested(o, q) <==> q.hash == o.hash && i < |o.maps| && o.maps[i] in Chunks(q.requested)
  {
    hide Chunks, Serving;
  }

  /** A request survives its wire form. */
  lemma RequestBack(c: Crypto, o: Outbound, r: Inbound)
    requires Sane(c) && Sound(c, o) && Faithful(o, r) && r.done < r.parts
    ensures Request(r).Ok? && ParseRequest(Request(r).value).Ok?
    ensures ParseRequest(Request(r).value).value.hash == o.hash
    ensures Chunks(ParseRequest(Request(r).value).value.requested) == HashesAt(o.maps, Missing(r, r.done))
  {
    hide Flat, Missing, MapHash, Stored, Chunks;
    MissingBounds(r, r.done);
    var wanted := HashesAt(r.maps, Missing(r, r.done));
    forall i | 0 <= i < |wanted| ensures |wanted[i]| == MAPHASH_LEN {
      MapHashLength(c, PartOf(o.blob, Missing(r, r.done)[i]), o.random);
    }
    ChunksFlat(wanted);
    var b := Request(r).value;
    assert b[1..33] == r.hash && b[33..] == Flat(wanted);
  }

  lemma MissingBounds(r: Inbound, i: nat)
    requires Shaped(r) && i <= WindowEnd(r)
    ensures forall k ::
      0 <= k < |Missing(r, i)| ==> i <= Missing(r, i)[k] < WindowEnd(r) && !r.received[Missing(r, i)[k]]
    ensures forall j :: i <= j < WindowEnd(r) && !r.received[j] ==> j in Missing(r, i)
  {
  }

  /** The sender serves every part of the window that is missing, and nothing else. */
  lemma ServesMissing(c: Crypto, o: Outbound, r: Inbound)
    requires Sane(c) && Sound(c, o) && Faithful(o, r) && r.done < r.parts
    ensures Request(r).Ok? && ParseRequest(Request(r).value).Ok?
    ensures var idx := Requested(o, ParseRequest(Request(r).value).value);
      && (forall k :: 0 <= k < |idx| ==> idx[k] < r.parts)
      && (forall j, k :: 0 <= j < k < |idx| ==> idx[j] < idx[k])
      && forall j :: j in idx <==> r.done <= j < WindowEnd(r) && !r.received[j]
  {
    hide Request, ParseRequest, Chunks, MapHashes, Serving, Missing, Distinct, HashesAt, Stored;
    RequestBack(c, o, r);
    MissingBounds(r, r.done);
    ServingBounds(o.maps, HashesAt(o.maps, Missing(r, r.done)));
    forall j | 0 <= j < |o.maps|
      ensures o.maps[j] in HashesAt(o.maps, Missing(r, r.done)) <==> j in Missing(r, r.done)
    {
      WantedExactly(o.maps, Missing(r, r.done), j);
    }
  }

  /** Distinct hashes name their parts. */
  lemma WantedExactly(maps: seq<Bytes>, idx: seq<nat>, j: nat)
    requires Distinct(maps) && j < |maps| && forall k :: 0 <= k < |idx| ==> idx[k] < |maps|
    ensures maps[j] in HashesAt(maps, idx) <==> j in idx
  {
    var wanted := HashesAt(maps, idx);
    if j in idx {
      var k :| 0 <= k < |idx| && idx[k] == j;
      assert wanted[k] == maps[j];
    }
    if maps[j] in wanted {
      var k :| 0 <= k < |wanted| && wanted[k] == maps[j];
      assert maps[idx[k]] == maps[j];
    }
  }

  lemma ServingBounds(maps: seq<Bytes>, wanted: seq<Bytes>)
    ensures forall k :: 0 <= k < |Serving(maps, wanted, 0)| ==>
      Serving(maps, wanted, 0)[k] < |maps| && maps[Serving(maps, wanted, 0)[k]] in wanted
    ensures forall j :: 0 <= j < |maps| && maps[j] in wanted ==> j in Serving(maps, wanted, 0)
    ensures forall j, k :: 0 <= j < k < |Serving(maps, wanted, 0)| ==>
      Serving(maps, wanted, 0)[j] < Serving(maps, wanted, 0)[k]
  {
  }

  // --- Rounds -----------------------------------------------------------------------------------

  /** The receiver after these parts have arrived. */
  function Served(c: Crypto, o: Outbound, r: Inbound, idx: seq<nat>): (s: Inbound)
    requires Shaped(r)
    ensures Shaped(s)
  {
    if idx == [] then r
    else
      var s := Served(c, o, r, idx[..|idx| - 1]);
      AppliedShaped(c, o, s, Arrives(idx[|idx| - 1]));
      Applied(c, o, s, Arrives(idx[|idx| - 1]))
  }

  lemma AppliedShaped(c: Crypto, o: Outbound, r: Inbound, e: Event)
    requires Shaped(r)
    ensures Shaped(Applied(c, o, r, e))
  {
    hide Receive;
    if e.Arrives? && e.part < PartCount(|o.blob|) {
      ReceiveShaped(r, c, PartOf(o.blob, e.part));
    }
  }

  ghost predicate KeepsAll(r: Inbound, s: Inbound) {
    |s.received| == |r.received| && forall j :: 0 <= j < |r.received| && r.received[j] ==> s.received[j]
  }

  ghost predicate HasAll(s: Inbound, idx: seq<nat>) {
    forall k :: 0 <= k < |idx| ==> idx[k] < |s.received| && s.received[idx[k]]
  }

  /** Serving parts of the window: all of them are received, and nothing is lost. */
  lemma {:induction false} ServedAll(c: Crypto, o: Outbound, r: Inbound, idx: seq<nat>)
    requires Sound(c, o) && Faithful(o, r) && forall k :: 0 <= k < |idx| ==> idx[k] < WindowEnd(r)
    ensures var s := Served(c, o, r, idx);
      && Faithful(o, s) && r.done <= s.done && s.window == r.window && s.parts == r.parts
      && KeepsAll(r, s) && HasAll(s, idx)
    decreases |idx|
  {
    hide Receive, Stored, PartOf, Sound, Faithful, Served, WindowEnd;
    FaithfulIsShaped(o, r);
    if idx == [] {
      ServedNothing(c, o, r);
    } else {
      var n := |idx| - 1;
      ServedAll(c, o, r, idx[..n]);
      var s := Served(c, o, r, idx[..n]);
      FaithfulIsShaped(o, s);
      InWindow(o, r, s, idx[n]);
      ReceiveHonest(c, o, s, idx[n]);
      FaithfulIsShaped(o, Receive(s, c, PartOf(o.blob, idx[n])).0);
      ServedOne(c, o, r, s, idx);
    }
  }

  lemma ServedNothing(c: Crypto, o: Outbound, r: Inbound)
    requires Shaped(r)
    ensures Served(c, o, r, []) == r
  {
  }

  lemma InWindow(o: Outbound, r: Inbound, s: Inbound, j: nat)
    requires Faithful(o, r) && Faithful(o, s) && r.done <= s.done && s.window == r.window && s.parts == r.parts
    requires j < WindowEnd(r)
    ensures j < WindowEnd(s) && j < s.parts <= |s.received| && r.done <= r.parts
  {
  }

  lemma ServedOne(c: Crypto, o: Outbound, r: Inbound, s: Inbound, idx: seq<nat>)
    requires Shaped(r) && idx != [] && s == Served(c, o, r, idx[..|idx| - 1]) && Shaped(s)
    requires idx[|idx| - 1] < PartCount(|o.blob|)
    requires KeepsAll(r, s) && HasAll(s, idx[..|idx| - 1]) && idx[|idx| - 1] < |s.received|
    requires var t := Receive(s, c, PartOf(o.blob, idx[|idx| - 1])).0;
      t.received == s.received[idx[|idx| - 1] := true] || (t.received == s.received && s.received[idx[|idx| - 1]])
    ensures Served(c, o, r, idx) == Receive(s, c, PartOf(o.blob, idx[|idx| - 1])).0
    ensures KeepsAll(r, Served(c, o, r, idx)) && HasAll(Served(c, o, r, idx), idx)
  {
    hide Receive, PartOf;
    var n := |idx| - 1;
    var t := Served(c, o, r, idx);
    forall k | 0 <= k < |idx| ensures idx[k] < |t.received| && t.received[idx[k]] {
      if k < n {
        assert idx[..n][k] == idx[k];
      }
    }
  }

  /** A lossless round: the receiver asks, the sender serves, every part arrives. */
  function Round(c: Crypto, o: Outbound, r: Inbound): Inbound
    requires Shaped(r) && Request(r).Ok? && ParseRequest(Request(r).value).Ok?
  {
    Served(c, o, r, Requested(o, ParseRequest(Request(r).value).value))
  }

  /** A lossless round completes the window, or the transfer. */
  lemma RoundAdvances(c: Crypto, o: Outbound, r: Inbound)
    requires Sane(c) && Sound(c, o) && Faithful(o, r) && r.done < r.parts
    ensures Request(r).Ok? && ParseRequest(Request(r).value).Ok?
    ensures Faithful(o, Round(c, o, r)) && Round(c, o, r).parts == r.parts
    ensures Round(c, o, r).done >= Min(r.done + r.window.window, r.parts)
  {
    hide Request, ParseRequest, Served, Sound, Requested, Stored;
    ServesMissing(c, o, r);
    var idx := Requested(o, ParseRequest(Request(r).value).value);
    forall k | 0 <= k < |idx| ensures idx[k] < WindowEnd(r) {
      assert idx[k] in idx;
    }
    ServedAll(c, o, r, idx);
    var s := Served(c, o, r, idx);
    forall j | r.done <= j < WindowEnd(r) ensures s.received[j] {
      if !r.received[j] {
        assert j in idx;
      }
    }
  }

  /** Rounds one after the other, with whatever the host does to the window in between. */
  ghost predicate Rounds(c: Crypto, o: Outbound, states: seq<Inbound>, windows: seq<Window.State>) {
    && |states| == |windows| + 1
    && forall i :: 0 <= i < |windows| ==>
         && Shaped(states[i]) && states[i].done < states[i].parts && Request(states[i]).Ok?
         && ParseRequest(Request(states[i]).value).Ok?
         && Window.Bounded(windows[i]) && states[i + 1] == Round(c, o, states[i]).(window := windows[i])
  }

  lemma {:induction false} RoundsAdvance(c: Crypto, o: Outbound, states: seq<Inbound>, windows: seq<Window.State>,
                                         i: nat)
    requires Sane(c) && Sound(c, o) && Rounds(c, o, states, windows) && Faithful(o, states[0]) && i < |states|
    ensures Faithful(o, states[i]) && states[i].parts == states[0].parts
    ensures states[i].done >= Min(2 * i, states[i].parts)
  {
    hide Request, ParseRequest, Round, Sound, Stored;
    if i > 0 {
      RoundsAdvance(c, o, states, windows, i - 1);
      RoundAdvances(c, o, states[i - 1]);
    }
  }

  /** A transfer without losses is complete after half as many rounds as it has parts. */
  lemma FinishesInTime(c: Crypto, o: Outbound, states: seq<Inbound>, windows: seq<Window.State>)
    requires Sane(c) && Sound(c, o) && Rounds(c, o, states, windows) && Faithful(o, states[0])
    ensures |windows| <= (states[0].parts + 1) / 2
    ensures |windows| == (states[0].parts + 1) / 2 ==> states[|windows|].done == states[|windows|].parts
  {
    hide Request, ParseRequest, Round, Sound, Stored;
    RoundsAdvance(c, o, states, windows, |windows|);
    if |windows| > 0 {
      RoundsAdvance(c, o, states, windows, |windows| - 1);
    }
  }
}
