/** Sender and receiver of a resource in place, each around one transfer-sized buffer. */
module Resources {
  import opened Base
  import opened Token
  import opened Transfer
  import Window
  import Adv = Advertisement

  class InboundResource {
    const buf: array<byte>
    const received: array<bool>
    var hash: Bytes
    var random: Bytes
    var proof: Bytes
    var transfer: nat
    var dataSize: nat
    var dataLen: nat
    var parts: nat
    var done: nat
    var maps: seq<Bytes>
    var phase: Phase
    var window: Window.State

    ghost function Value(): Inbound
      reads this, buf, received
    {
      Inbound(buf[..], hash, random, proof, transfer, dataSize, dataLen, parts, done, received[..], maps, phase, window)
    }

    ghost predicate Valid()
      reads this, buf, received
    {
      buf.Length == TRANSFER_MAX && received.Length == MAX_PARTS && Shaped(Value())
    }

    constructor ()
      ensures Valid() && fresh(buf) && fresh(received) && phase == Spoiled && parts == 0
    {
      buf := new byte[TRANSFER_MAX](_ => 0);
      received := new bool[MAX_PARTS](_ => false);
      hash, random, proof, maps := seq(32, _ => 0), seq(4, _ => 0), seq(32, _ => 0), [];
      transfer, dataSize, dataLen, parts, done := 0, 0, 0, 0, 0;
      phase, window := Spoiled, Window.START;
    }

    /** `accept_into`: an advertisement that is refused leaves the receiver as it was. */
    method AcceptInto(a: Adv.Adv, response: Option<Bytes>) returns (r: Result<()>)
      requires Valid() && |a.hash| == 32
      modifies this, buf, received
      ensures Valid()
      ensures match Accept(a, response)
        case Ok(v) => r == Ok(()) && Value() == v
        case Err(f) => r == Err(f) && Value() == old(Value())
    {
      hide Chunks, Fault, Shaped;
      var f := Fault(a, response);
      if f.Some? { return Err(f.value); }
      AcceptedShape(a, response);
      Blank();
      Describe(a);
      r := Ok(());
    }

    method Describe(a: Adv.Adv)
      modifies this
      ensures hash == a.hash && random == a.random && proof == seq(32, _ => 0) && maps == Chunks(a.hashmap)
      ensures transfer == a.transferSize && dataSize == a.dataSize && dataLen == 0 && parts == a.parts && done == 0
      ensures phase == Transferring && window == Window.START
    {
      hide Chunks;
      hash, random, proof := a.hash, a.random, seq(32, _ => 0);
      transfer, dataSize, dataLen, parts, done := a.transferSize, a.dataSize, 0, a.parts, 0;
      maps, phase, window := Chunks(a.hashmap), Transferring, Window.START;
    }

    method Blank()
      requires buf.Length == TRANSFER_MAX && received.Length == MAX_PARTS
      modifies buf, received
      ensures buf[..] == seq(TRANSFER_MAX, _ => 0) && received[..] == seq(MAX_PARTS, _ => false)
    {
      for i := 0 to TRANSFER_MAX
        modifies buf
        invariant forall k :: 0 <= k < i ==> buf[k] == 0
      {
        buf[i] := 0;
      }
      for i := 0 to MAX_PARTS
        modifies received
        invariant forall k :: 0 <= k < i ==> !received[k]
      {
        received[i] := false;
      }
    }

    /** The first open slot of the window that takes this part. */
    method FindSlot(c: Crypto, part: Bytes) returns (i: nat)
      requires Valid() && done <= WindowEnd(Value())
      ensures i == SlotFor(Value(), c, part, done)
    {
      hide MapHash;
      ghost var v := Value();
      var h := MapHash(c, part, random);
      var end := Min(done + window.window, parts);
      i := done;
      while i < end
        invariant done <= i <= end && SlotFor(v, c, part, done) == SlotFor(v, c, part, i)
      {
        assert v.received[i] == received[i];
        Same(i);
        if !received[i] && maps[i] == h && |part| == ExpectedLen(i) { return; }
        i := i + 1;
      }
    }

    /** `receive_part`: the first open slot of the window whose hash and length the part has. */
    method ReceivePart(c: Crypto, part: Bytes) returns (ok: bool)
      requires Valid()
      modifies this`done, buf, received
      ensures Valid() && (Value(), ok) == Receive(old(Value()), c, part)
    {
      hide MapHash, Overlaid, SlotFor, Prefix, Shaped;
      ghost var v := Value();
      ReceiveShaped(v, c, part);
      Bounds();
      if phase != Transferring || done > Min(done + window.window, parts) { return false; }
      var i := FindSlot(c, part);
      SlotBounds(v, c, part);
      if i == Min(done + window.window, parts) { return false; }
      CopyInto(buf, i * SDU, part);
      received[i] := true;
      assert received[..] == v.received[i := true];
      Advance();
      ok := true;
    }

    lemma Bounds()
      requires Valid()
      ensures done <= parts <= MAX_PARTS
    {
    }

    /** `expected_part_len`. */
    function ExpectedLen(i: nat): int
      reads this
    {
      if i + 1 == parts then transfer - i * SDU else SDU
    }

    lemma Same(i: nat)
      requires Valid() && i < parts
      ensures ExpectedLen(i) == PartEnd(transfer, i) - i * SDU
    {
      PartBounds(transfer, i);
    }

    method Advance()
      requires buf.Length == TRANSFER_MAX && received.Length == MAX_PARTS && done <= parts <= MAX_PARTS
      modifies this`done
      ensures done == Prefix(received[..], old(done), parts)
    {
      while done < parts && received[done]
        invariant old(done) <= done <= parts
        invariant Prefix(received[..], old(done), parts) == Prefix(received[..], done, parts)
      {
        done := done + 1;
      }
    }

    /** `assemble`: decrypt in place, then verify. */
    method DoAssemble(c: Crypto, key: Bytes) returns (r: Result<nat>)
      requires Valid() && Sane(c) && |key| == 64
      modifies this`proof, this`dataLen, this`phase, buf
      ensures Valid() && (Value(), r) == Assemble(old(Value()), c, key)
    {
      hide Open, Deciphered, PartCount;
      if phase != Transferring { return Err(InvalidState); }
      if done != parts { return Err(Incomplete); }
      var t := buf[..transfer];
      DecipheredLength(c, key, t);
      CopyInto(buf, 0, Deciphered(c, key, t));
      assert buf[..] == Deciphered(c, key, t) + old(buf[..])[transfer..];
      var p := Open(c, key, t);
      phase := Spoiled;
      if p.None? { return Err(CryptoFailed); }
      if |p.value| < RANDOM_LEN { return Err(Corrupt); }
      var data := p.value[RANDOM_LEN..];
      if c.sha(data + random) != hash { return Err(HashMismatch); }
      proof, dataLen, phase := c.sha(data + hash), |data|, Assembled;
      r := Ok(|data|);
    }

    /** `build_proof`. */
    method BuildProof(out: array<byte>) returns (r: Result<nat>)
      requires Valid() && out != buf
      modifies out
      ensures r == if phase != Assembled then Err(InvalidState) else if out.Length < PROOF_LEN then Err(OutputTooSmall)
        else Ok(PROOF_LEN)
      ensures r.Ok? ==> Proof(Value()) == Ok(out[..PROOF_LEN])
    {
      if phase != Assembled { return Err(InvalidState); }
      if out.Length < PROOF_LEN { return Err(OutputTooSmall); }
      CopyInto(out, 0, hash + proof);
      assert out[..PROOF_LEN] == hash + proof;
      r := Ok(PROOF_LEN);
    }

    /** `build_part_request`: the hashes of the window's missing parts. */
    method BuildRequest(out: array<byte>) returns (r: Result<nat>)
      requires Valid() && out != buf
      modifies out
      ensures match Request(Value())
        case Err(f) => r == Err(f) && out[..] == old(out[..])
        case Ok(b) =>
          if out.Length < |b| then r == Err(OutputTooSmall) && out[..] == old(out[..])
            else r == Ok(|b|) && out[..|b|] == b
    {
      var wanted := WriteRequest();
      if wanted.Err? { return Err(wanted.error); }
      if out.Length < |wanted.value| { return Err(OutputTooSmall); }
      CopyInto(out, 0, wanted.value);
      assert out[..|wanted.value|] == wanted.value;
      r := Ok(|wanted.value|);
    }

    method WriteRequest() returns (r: Result<Bytes>)
      requires Valid()
      ensures r == Request(Value())
    {
      hide Flat, Missing;
      if phase != Transferring || done == parts { return Err(InvalidState); }
      ghost var v := Value();
      var end := Min(done + window.window, parts);
      var idx, i := [], done;
      while i < end
        invariant done <= i <= end && idx + Missing(v, i) == Missing(v, done)
      {
        MissingStep(v, i);
        if !received[i] {
          idx := idx + [i];
        }
        i := i + 1;
      }
      MissingStep(v, end);
      assert idx == Missing(v, done);
      MissingBounds(v, done);
      r := Ok([0x00] + hash + Flat(HashesAt(maps, idx)));
    }
  }

  lemma MissingStep(r: Inbound, i: nat)
    requires Shaped(r) && i <= WindowEnd(r)
    ensures Missing(r, i) == if i == WindowEnd(r) then [] else (if r.received[i] then [] else [i]) + Missing(r, i + 1)
  {
  }

  lemma SlotBounds(r: Inbound, c: Crypto, part: Bytes)
    requires Shaped(r) && r.done <= WindowEnd(r)
    ensures var k := SlotFor(r, c, part, r.done);
      && r.done <= k <= WindowEnd(r)
      && (k < WindowEnd(r) ==>
            k < r.parts && |part| == PartEnd(r.transfer, k) - k * SDU && k * SDU + |part| <= TRANSFER_MAX)
  {
    var k := SlotFor(r, c, part, r.done);
    if k < WindowEnd(r) {
      PartBounds(r.transfer, k);
      assert Takes(r, c, part, k);
    }
  }

  lemma AcceptedShape(a: Adv.Adv, response: Option<Bytes>)
    requires Fault(a, response) == None && |a.hash| == 32
    ensures Accept(a, response).Ok? && Shaped(Accept(a, response).value)
  {
    hide Chunk;
  }

  class OutboundResource {
    const buf: array<byte>
    var total: nat
    var dataSize: nat
    var parts: nat
    var hash: Bytes
    var proof: Bytes
    var random: Bytes
    var maps: seq<Bytes>

    ghost predicate Valid()
      reads this, buf
    {
      buf.Length == TRANSFER_MAX && total <= TRANSFER_MAX && |maps| == parts
    }

    /** The transfer in the buffer; meaningful once parts have been built. */
    ghost function Value(): Outbound
      requires Valid()
      reads this, buf
    {
      Outbound(buf[..total], dataSize, hash, proof, random, maps)
    }

    constructor ()
      ensures Valid() && parts == 0 && fresh(buf)
    {
      buf := new byte[TRANSFER_MAX](_ => 0);
      total, dataSize, parts := 0, 0, 0;
      hash, proof, random, maps := seq(32, _ => 0), seq(32, _ => 0), seq(4, _ => 0), [];
    }

    /** `has_map_hash_collision`: each hash against those before it. */
    static method Collides(m: seq<Bytes>) returns (collides: bool)
      ensures collides <==> !Distinct(m)
    {
      for i := 0 to |m|
        invariant Distinct(m[..i])
      {
        if m[i] in m[..i] {
          var j :| 0 <= j < i && m[..i][j] == m[i];
          assert m[j] == m[i];
          return true;
        }
      }
      assert m[..|m|] == m;
      return false;
    }

    /** The map hash of each part of the blob. */
    static method HashParts(c: Crypto, blob: Bytes, random: Bytes) returns (m: seq<Bytes>)
      ensures m == MapHashes(c, blob, random)
    {
      hide MapHash;
      m := [];
      for i := 0 to PartCount(|blob|)
        invariant |m| == i && forall k :: 0 <= k < i ==> m[k] == MapHash(c, PartOf(blob, k), random)
      {
        m := m + [MapHash(c, PartOf(blob, i), random)];
      }
    }

    /** `build_into`: what is too large changes nothing; a collision leaves no parts. */
    method BuildInto(c: Crypto, key: Bytes, data: Bytes, random: Bytes, iv: Bytes) returns (r: Result<()>)
      requires Valid() && Sane(c) && |key| == 64 && |iv| == 16 && |random| == RANDOM_LEN
      modifies this, buf
      ensures Valid()
      ensures match Build(c, key, data, random, iv)
        case Ok(o) => r == Ok(()) && Value() == o && parts == |o.maps|
        case Err(TooLarge) => r == Err(TooLarge) && Value() == old(Value()) && parts == old(parts)
        case Err(f) => r == Err(f) && parts == 0
    {
      hide Seal, MapHashes, Distinct;
      if |data| > DATA_MAX { return Err(TooLarge); }
      total, dataSize, parts, maps := 0, 0, 0, [];
      var h := c.sha(data + random);
      var blob := Seal(c, key, iv, random + data);
      SealLength(c, key, iv, random + data);
      CopyInto(buf, 0, blob);
      assert buf[..|blob|] == blob;
      var m := HashParts(c, blob, random);
      var collides := Collides(m);
      if collides { return Err(MapHashCollision); }
      total, dataSize, parts, maps := |blob|, |data|, |m|, m;
      hash, proof, this.random := h, c.sha(data + h), random;
      r := Ok(());
    }

    /** `requested_parts`: the parts a request asks for, each once and in order. */
    method RequestedParts(q: PartRequest) returns (idx: seq<nat>)
      requires Valid()
      ensures idx == Requested(Value(), q)
    {
      hide Chunks, Serving;
      idx := [];
      if q.hash != hash { return; }
      var wanted := Chunks(q.requested);
      var i := 0;
      while i < |maps|
        invariant i <= |maps| && idx + Serving(maps, wanted, i) == Serving(maps, wanted, 0)
      {
        ServingStep(maps, wanted, i, idx);
        if maps[i] in wanted {
          idx := idx + [i];
        }
        i := i + 1;
      }
      ServingEnd(maps, wanted);
    }
  }

  lemma ServingStep(maps: seq<Bytes>, wanted: seq<Bytes>, i: nat, idx: seq<nat>)
    requires i < |maps|
    ensures idx + Serving(maps, wanted, i) ==
      (if maps[i] in wanted then idx + [i] else idx) + Serving(maps, wanted, i + 1)
  {
    var rest := Serving(maps, wanted, i + 1);
    assert Serving(maps, wanted, i) == if maps[i] in wanted then [i] + rest else rest;
    hide Serving;
    Shifted(idx, i, rest);
  }

  lemma Shifted(a: seq<nat>, i: nat, b: seq<nat>)
    ensures (a + [i]) + b == a + ([i] + b)
  {
  }

  lemma ServingEnd(maps: seq<Bytes>, wanted: seq<Bytes>)
    ensures Serving(maps, wanted, |maps|) == []
  {
  }
}
