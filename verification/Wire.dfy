/**
 Packet headers on the wire, and the hashes that identify a packet along its whole route.

 SHA-256 is a parameter: every statement holds for whatever function takes its place.
 */
module Wire {
  import opened Base

  const MTU: nat := 500
  const HEADER_MINSIZE: nat := 19
  const HEADER_MAXSIZE: nat := 35
  const LINK_KEYS: nat := 64
  const LINK_TRAILER: nat := 3

  const CONTEXT_NONE: byte := 0x00
  const CONTEXT_PATH_RESPONSE: byte := 0x0B
  const CONTEXT_LRPROOF: byte := 0xFF

  datatype HeaderType = Header1 | Header2
  datatype TransportType = Broadcast | Transport
  datatype DestinationType = Single | Group | Plain | Link
  datatype PacketType = Data | Announce | LinkRequest | Proof

  datatype Flags = Flags(
    headerType: HeaderType,
    contextFlag: bool,
    transportType: TransportType,
    destinationType: DestinationType,
    packetType: PacketType)
  {
    /** Destination and packet type, the nibble that survives forwarding. */
    function LowNibble(): (b: byte)
      ensures b < 16
    {
      4 * (match destinationType case Single => 0 case Group => 1 case Plain => 2 case Link => 3)
      + (match packetType case Data => 0 case Announce => 1 case LinkRequest => 2 case Proof => 3)
    }

    function Pack(): (b: byte) {
      (if headerType.Header2? then 64 else 0)
      + (if contextFlag then 32 else 0)
      + (if transportType.Transport? then 16 else 0)
      + LowNibble()
    }
  }

  function Unpack(b: byte): Flags {
    Flags(
      if (b / 64) % 2 == 0 then Header1 else Header2,
      (b / 32) % 2 != 0,
      if (b / 16) % 2 == 0 then Broadcast else Transport,
      match (b / 4) % 4 case 0 => Single case 1 => Group case 2 => Plain case _ => Link,
      match b % 4 case 0 => Data case 1 => Announce case 2 => LinkRequest case _ => Proof)
  }

  lemma Digits(b: byte)
    ensures b % 128 == 64 * ((b / 64) % 2) + 32 * ((b / 32) % 2) + 16 * ((b / 16) % 2) + 4 * ((b / 4) % 4) + b % 4
    ensures b % 16 == 4 * ((b / 4) % 4) + b % 4
  {
    assert b / 4 == 4 * (b / 16) + (b / 4) % 4;
    assert b / 16 == 2 * (b / 32) + (b / 16) % 2;
    assert b / 32 == 2 * (b / 64) + (b / 32) % 2;
    assert b / 64 == 2 * (b / 128) + (b / 64) % 2;
  }

  /** Unpacking ignores only the top bit, the access-code flag. */
  lemma UnpackPack(b: byte)
    ensures Unpack(b).Pack() == b % 128
    ensures Unpack(b).LowNibble() == b % 16
  {
    Digits(b);
  }

  lemma PackUnpack(f: Flags)
    ensures Unpack(f.Pack()) == f
  {
    var x, y, z := if f.headerType.Header2? then 1 else 0, if f.contextFlag then 1
      else 0, if f.transportType.Transport? then 1 else 0;
    var d := match f.destinationType case Single => 0 case Group => 1 case Plain => 2 case Link => 3;
    var p := match f.packetType case Data => 0 case Announce => 1 case LinkRequest => 2 case Proof => 3;
    var b: int := f.Pack();
    assert b == 64 * x + 32 * y + 16 * z + 4 * d + p;
    DigitsOf(b, x, y, z, d, p);
  }

  lemma DigitsOf(b: int, x: int, y: int, z: int, d: int, p: int)
    requires b == 64 * x + 32 * y + 16 * z + 4 * d + p
    requires 0 <= x < 2 && 0 <= y < 2 && 0 <= z < 2 && 0 <= d < 4 && 0 <= p < 4
    ensures (b / 64) % 2 == x && (b / 32) % 2 == y && (b / 16) % 2 == z && (b / 4) % 4 == d && b % 4 == p
  {
    assert b / 64 == x && b / 32 == 2 * x + y && b / 16 == 4 * x + 2 * y + z && b / 4 == 16 * x + 8 * y + 4 * z + d;
  }

  datatype Header = Header(flags: Flags, hops: byte, transport: Option<Hash>, destination: Hash, context: byte)
  {
    function Size(): nat {
      match flags.headerType case Header1 => HEADER_MINSIZE case Header2 => HEADER_MAXSIZE
    }

    /** The transport identifier is present exactly in the long form, and hashes fit 16 bytes. */
    predicate WellFormed() {
      && (flags.headerType.Header2? <==> transport.Some?)
      && (transport.Some? ==> transport.value < Pow256(16))
      && destination < Pow256(16)
    }
  }

  /** A parsed packet. */
  datatype Packet = Packet(header: Header, payload: Bytes)
  {
    function Size(): nat {
      header.Size() + |payload|
    }
  }

  datatype Parsing = TooShort | ExceedsMtu | Parsed(header: Header, payload: Bytes)

  function Parse(raw: Bytes): Parsing {
    if |raw| < HEADER_MINSIZE then TooShort
    else if |raw| > MTU then ExceedsMtu
    else
      var flags := Unpack(raw[0]);
      match flags.headerType
      case Header1 => Parsed(Header(flags, raw[1], None, FromBe(raw[2..18]), raw[18]), raw[19..])
      case Header2 =>
        if |raw| < HEADER_MAXSIZE then TooShort
        else Parsed(Header(flags, raw[1], Some(FromBe(raw[2..18])), FromBe(raw[18..34]), raw[34]), raw[35..])
  }

  function HeaderBytes(h: Header): Bytes {
    [h.flags.Pack(), h.hops]
    + (if h.transport.Some? then ToBe(h.transport.value, 16) else [])
    + ToBe(h.destination, 16)
    + [h.context]
  }

  /** `build_packet`, with none for a packet that does not fit the buffer. */
  function Build(h: Header, payload: Bytes): Option<Bytes> {
    var raw := HeaderBytes(h) + payload;
    if |raw| <= MTU then Some(raw) else None
  }

  function RewriteWithHeader(raw: Bytes, old_: Header, new_: Header): Option<Bytes> {
    if |raw| < old_.Size() then None else Build(new_, raw[old_.Size()..])
  }

  function CopyWithHops(raw: Bytes, hops: byte): Bytes {
    if |raw| > 1 then raw[1 := hops] else raw
  }

  lemma ParseBuild(h: Header, payload: Bytes)
    requires h.WellFormed() && h.Size() + |payload| <= MTU
    ensures Build(h, payload).Some? && Parse(Build(h, payload).value) == Parsed(h, payload)
  {
    hide ToBe, FromBe, Pow256, Flags.Pack, Unpack;
    PackUnpack(h.flags);
    BeRoundTrip(h.destination, 16);
    var raw := HeaderBytes(h) + payload;
    if h.transport.Some? {
      BeRoundTrip(h.transport.value, 16);
      assert raw[2..18] == ToBe(h.transport.value, 16);
      assert raw[18..34] == ToBe(h.destination, 16);
      assert raw[35..] == payload;
    } else {
      assert raw[2..18] == ToBe(h.destination, 16);
      assert raw[19..] == payload;
    }
  }

  lemma BuildParse(raw: Bytes)
    requires Parse(raw).Parsed?
    ensures Parse(raw).header.WellFormed()
    ensures raw[Parse(raw).header.Size()..] == Parse(raw).payload
    ensures Build(Parse(raw).header, Parse(raw).payload) == Some(raw[0 := raw[0] % 128])
  {
    hide ToBe, FromBe, Pow256, Flags.Pack, Flags.LowNibble, Unpack;
    UnpackPack(raw[0]);
    BytesRoundTrip(raw[2..18]);
    if Parse(raw).header.flags.headerType.Header2? {
      BytesRoundTrip(raw[18..34]);
      assert raw[0 := raw[0] % 128] == [raw[0] % 128, raw[1]] + raw[2..18] + raw[18..34] + [raw[34]] + raw[35..];
    } else {
      assert HeaderBytes(Parse(raw).header) == [raw[0] % 128, raw[1]] + raw[2..18] + [raw[18]];
      assert raw[0 := raw[0] % 128] == [raw[0] % 128, raw[1]] + raw[2..18] + [raw[18]] + raw[19..];
    }
  }

  /** `packet_hash`, before SHA-256: the low nibble and everything after hops and transport id. */
  function PacketPreimage(raw: Bytes, headerType: HeaderType): Option<Bytes> {
    if raw == [] then None
    else
      var skip := match headerType case Header1 => 2 case Header2 => 18;
      Some([raw[0] % 16] + if |raw| > skip then raw[skip..] else [])
  }

  /** `link_id_from_raw`, before SHA-256: as the packet hash, with the payload cut to its key block. */
  function LinkPreimage(raw: Bytes, headerType: HeaderType): Option<Bytes> {
    if raw == [] then None
    else
      var (start, end) := match headerType case Header1 => (2, HEADER_MINSIZE) case Header2 => (18, HEADER_MAXSIZE);
      if |raw| > start then
        var headerEnd := Min(end, |raw|);
        var payload := raw[headerEnd..];
        Some([raw[0] % 16] + raw[start..headerEnd] + payload[..Min(|payload|, LINK_KEYS)])
      else
        Some([raw[0] % 16])
  }

  function PacketHash(sha: Bytes -> Bytes, raw: Bytes, headerType: HeaderType): Bytes {
    var p := PacketPreimage(raw, headerType);
    if p.None? then seq(32, _ => 0) else sha(p.value)
  }

  function LinkIdFromRaw(sha: Bytes -> Bytes, raw: Bytes, headerType: HeaderType): Bytes {
    var p := LinkPreimage(raw, headerType);
    var full := if p.None? then seq(32, _ => 0) else sha(p.value);
    full[..Min(|full|, 16)]
  }

  /** The endpoint's own link id, from the destination and the request it built. */
  function ComputeLinkId(sha: Bytes -> Bytes, destination: Bytes, request: Bytes): Bytes {
    var full := sha([0x02] + destination + [0x00] + request[..Min(|request|, LINK_KEYS)]);
    full[..Min(|full|, 16)]
  }

  /** What the hashes see of a parsed packet. */
  datatype Core = Core(nibble: byte, destination: Hash, context: byte, payload: Bytes)

  function CoreOf(h: Header, payload: Bytes): Core {
    Core(h.flags.LowNibble(), h.destination, h.context, payload)
  }

  function CoreBytes(c: Core): Bytes {
    [c.nibble] + ToBe(c.destination, 16) + [c.context] + c.payload
  }

  /** The header form a raw packet announces in its first byte. */
  function FormOf(raw: Bytes): HeaderType {
    if raw == [] then Header1 else Unpack(raw[0]).headerType
  }

  /** Both preimages of a valid packet depend on its core alone. */
  lemma Preimages(raw: Bytes)
    requires Parse(raw).Parsed?
    ensures var h := Parse(raw).header;
      var payload := Parse(raw).payload;
      && PacketPreimage(raw, FormOf(raw)) == Some(CoreBytes(CoreOf(h, payload)))
      && LinkPreimage(raw, FormOf(raw)) == Some(CoreBytes(CoreOf(h, payload[..Min(|payload|, LINK_KEYS)])))
  {
    hide ToBe, FromBe, Pow256, Flags.Pack, Flags.LowNibble, Unpack;
    UnpackPack(raw[0]);
    var h, payload := Parse(raw).header, Parse(raw).payload;
    var start := if FormOf(raw).Header2? then 18 else 2;
    BytesRoundTrip(raw[start..start + 16]);
    var fixed := raw[start..start + 17];
    assert fixed == ToBe(h.destination, 16) + [h.context];
    assert raw[start..] == fixed + payload;
    var nibble := [raw[0] % 16];
    assert nibble + (fixed + payload) == CoreBytes(CoreOf(h, payload));
    var keys := payload[..Min(|payload|, LINK_KEYS)];
    assert raw[start + 17..] == payload;
    assert nibble + fixed + keys == CoreBytes(CoreOf(h, keys));
  }

  /** Header of the next hop: long form towards a relay, short form for the last hop. */
  function NextHop(h: Header, hops: byte, pathHops: byte, nextHop: Option<Hash>): Option<Header>
    requires pathHops > 0
  {
    if pathHops > 1 then
      if nextHop.None? then None
      else Some(h.(flags := h.flags.(headerType := Header2, transportType := Transport), hops := hops,
        transport := nextHop))
    else
      Some(h.(flags := h.flags.(headerType := Header1, transportType := Broadcast), hops := hops, transport := None))
  }

  datatype Rewriting = NoRoute | Oversized | Rewritten(bytes: Bytes)

  /** `rewrite_forwarded_transport_packet` on a packet with this header, for a route found live. */
  function Rewrite(raw: Bytes, h: Header, hops: byte, pathHops: byte, nextHop: Option<Hash>): Rewriting {
    if pathHops == 0 then
      Rewritten(CopyWithHops(raw, hops))
    else
      match NextHop(h, hops, pathHops, nextHop)
      case None => NoRoute
      case Some(new_) => match RewriteWithHeader(raw, h, new_) case None => Oversized case Some(out) => Rewritten(out)
  }

  lemma RewriteLongOrShort(h: Header, hops: byte, payload: Bytes, pathHops: byte, nextHop: Option<Hash>)
    requires h.WellFormed() && pathHops > 0 && (nextHop.Some? ==> nextHop.value < Pow256(16))
    ensures var new_ := NextHop(h, hops, pathHops, nextHop);
      new_.Some? && Build(new_.value, payload).Some? ==>
        |Build(new_.value, payload).value| >= HEADER_MINSIZE &&
        Parse(Build(new_.value, payload).value) == Parsed(new_.value, payload)
  {
    hide ToBe, FromBe, Pow256;
    var new_ := NextHop(h, hops, pathHops, nextHop);
    if new_.Some? && Build(new_.value, payload).Some? {
      assert |HeaderBytes(new_.value)| == new_.value.Size();
      ParseBuild(new_.value, payload);
    }
  }

  lemma RewriteHops(raw: Bytes, hops: byte)
    requires Parse(raw).Parsed?
    ensures |CopyWithHops(raw, hops)| >= HEADER_MINSIZE
    ensures Parse(CopyWithHops(raw, hops)) == Parsed(Parse(raw).header.(hops := hops), Parse(raw).payload)
  {
    hide FromBe, Unpack;
    var out := CopyWithHops(raw, hops);
    assert out[0] == raw[0];
    assert out[2..18] == raw[2..18] && out[19..] == raw[19..];
    if |raw| >= 35 {
      assert out[18..34] == raw[18..34] && out[35..] == raw[35..];
    }
  }

  lemma HopsKeepCore(raw: Bytes, hops: byte)
    requires Parse(raw).Parsed?
    ensures var out := CopyWithHops(raw, hops);
      && |out| >= HEADER_MINSIZE && Parse(out).Parsed? && Parse(out).header.hops == hops
      && CoreOf(Parse(out).header, Parse(out).payload) == CoreOf(Parse(raw).header, Parse(raw).payload)
  {
    hide Parse, CopyWithHops;
    RewriteHops(raw, hops);
  }

  lemma HeaderKeepsCore(raw: Bytes, hops: byte, pathHops: byte, nextHop: Option<Hash>)
    requires Parse(raw).Parsed? && pathHops > 0 && (nextHop.Some? ==> nextHop.value < Pow256(16))
    ensures var h := Parse(raw).header;
      var new_ := NextHop(h, hops, pathHops, nextHop);
      new_.Some? && RewriteWithHeader(raw, h, new_.value).Some? ==>
        var out := RewriteWithHeader(raw, h, new_.value).value;
        && |out| >= HEADER_MINSIZE && Parse(out).Parsed? && Parse(out).header.hops == hops
        && CoreOf(Parse(out).header, Parse(out).payload) == CoreOf(h, Parse(raw).payload)
  {
    hide Parse, Build, HeaderBytes, Pow256, FromBe, ToBe, Unpack, Flags.Pack, Header.WellFormed;
    BuildParse(raw);
    RewriteLongOrShort(Parse(raw).header, hops, Parse(raw).payload, pathHops, nextHop);
  }

  /** The rewritten packet parses, and differs from the received one in nothing a hash can see. */
  lemma RewriteKeepsCore(raw: Bytes, hops: byte, pathHops: byte, nextHop: Option<Hash>)
    requires Parse(raw).Parsed?
    requires nextHop.Some? ==> nextHop.value < Pow256(16)
    ensures var r := Rewrite(raw, Parse(raw).header, hops, pathHops, nextHop);
      r.Rewritten? ==>
        && Parse(r.bytes).Parsed? && |r.bytes| >= HEADER_MINSIZE
        && Parse(r.bytes).header.hops == hops
        && CoreOf(Parse(r.bytes).header, Parse(r.bytes).payload) == CoreOf(Parse(raw).header, Parse(raw).payload)
  {
    hide Parse, Build, HeaderBytes, Pow256, FromBe, ToBe, Unpack, Flags.Pack, Header.WellFormed, CopyWithHops;
    hide CoreOf, NextHop;
    if pathHops == 0 {
      HopsKeepCore(raw, hops);
    } else {
      HeaderKeepsCore(raw, hops, pathHops, nextHop);
    }
  }

  lemma CutKeeps(raw: Bytes, n: nat, i: nat, j: nat)
    requires i <= j <= |raw| - n
    ensures raw[..|raw| - n][i..j] == raw[i..j]
  {
  }

  lemma CutTrailer(raw: Bytes)
    requires Parse(raw).Parsed? && |Parse(raw).payload| == LINK_KEYS + LINK_TRAILER
    ensures Parse(raw[..|raw| - LINK_TRAILER]) == Parsed(Parse(raw).header, Parse(raw).payload[..LINK_KEYS])
  {
    hide FromBe, Unpack;
    var cut := raw[..|raw| - LINK_TRAILER];
    CutKeeps(raw, LINK_TRAILER, 2, 18);
    CutKeeps(raw, LINK_TRAILER, 18, 34);
    if |Parse(raw).payload| == |raw| - 19 {
      CutKeeps(raw, LINK_TRAILER, 19, |raw| - LINK_TRAILER);
      assert raw[19..][..LINK_KEYS] == raw[19..|raw| - LINK_TRAILER];
    } else {
      CutKeeps(raw, LINK_TRAILER, 35, |raw| - LINK_TRAILER);
      assert raw[35..][..LINK_KEYS] == raw[35..|raw| - LINK_TRAILER];
    }
  }

  /**
   Forwarding preserves identity: whatever the header form, hop count and next hop, the rewritten
   packet has the packet hash and the link id of the received one, and cutting the signalling
   trailer of a link request leaves the link id as it was.
   */
  lemma ForwardingPreservesIdentity(sha: Bytes -> Bytes, raw: Bytes, hops: byte, pathHops: byte, nextHop: Option<Hash>)
    requires Parse(raw).Parsed?
    requires nextHop.Some? ==> nextHop.value < Pow256(16)
    ensures var r := Rewrite(raw, Parse(raw).header, hops, pathHops, nextHop);
      r.Rewritten? ==>
        && PacketHash(sha, r.bytes, FormOf(r.bytes)) == PacketHash(sha, raw, FormOf(raw))
        && LinkIdFromRaw(sha, r.bytes, FormOf(r.bytes)) == LinkIdFromRaw(sha, raw, FormOf(raw))
        && (|Parse(raw).payload| == LINK_KEYS + LINK_TRAILER ==>
              && |r.bytes| > LINK_TRAILER
              && LinkIdFromRaw(sha, r.bytes[..|r.bytes| - LINK_TRAILER], FormOf(r.bytes)) == LinkIdFromRaw(sha, raw,
                FormOf(raw)))
  {
    hide Parse, Rewrite, PacketPreimage, LinkPreimage, CoreBytes, Unpack, Pow256;
    var r := Rewrite(raw, Parse(raw).header, hops, pathHops, nextHop);
    RewriteKeepsCore(raw, hops, pathHops, nextHop);
    Preimages(raw);
    if r.Rewritten? {
      Preimages(r.bytes);
      if |Parse(raw).payload| == LINK_KEYS + LINK_TRAILER {
        var cut := r.bytes[..|r.bytes| - LINK_TRAILER];
        CutTrailer(r.bytes);
        Preimages(cut);
        assert cut[0] == r.bytes[0];
        assert Parse(cut).payload[..LINK_KEYS] == Parse(r.bytes).payload[..LINK_KEYS];
      }
    }
  }

  /** The link id a relay computes is the one the requesting endpoint computes for itself. */
  lemma RelayAndEndpointAgree(sha: Bytes -> Bytes, raw: Bytes)
    requires Parse(raw).Parsed?
    requires var h := Parse(raw).header;
      h.flags.packetType.LinkRequest? && h.flags.destinationType.Single? && h.context == CONTEXT_NONE
    ensures var p := Parse(raw);
      LinkIdFromRaw(sha, raw, FormOf(raw)) == ComputeLinkId(sha, ToBe(p.header.destination, 16), p.payload)
  {
    Preimages(raw);
    hide Parse, ToBe, Unpack;
  }
}
