/**
 Journeys over several relays. What each relay learns from an announce, makes of a packet and records for
 the way back fits together: packets reach the destination that was announced, and what belongs to a link
 passes every relay in both directions.
 */
module Journeys {
  import opened Base
  import opened Rows
  import opened Generations
  import opened RowTables
  import opened Wire
  import opened Signalling
  import opened Paths
  import opened Announces
  import opened Interfaces
  import opened Rebroadcast
  import opened NodeState
  import opened Outbound
  import opened Tables
  import opened NodeInvariants
  import opened NodeSteps
  import opened NodeEffects
  import opened Decisions

  // --- One hop ----------------------------------------------------------------------------------

  /** The header a packet goes on with along a route: to the next relay, for the last hop, or as it came. */
  predicate Directed(h: Header, was: Header, path: PathBody) {
    if path.hops > 1 then
      && path.nextHop.Some? && h.transport == path.nextHop
      && h.flags.headerType.Header2? && h.flags.transportType.Transport?
    else if path.hops == 1 then
      h.transport.None? && h.flags.headerType.Header1? && h.flags.transportType.Broadcast?
    else
      h.flags == was.flags && h.transport == was.transport
  }

  /** What a route makes of a packet, on parsed packets. */
  lemma GoesOnDirected(p: Packet, hops: byte, path: PathBody)
    requires p.header.WellFormed()
    ensures match ForwardAlong(p, hops, path)
      case Unroutable => path.hops > 1 && path.nextHop.None?
      case Oversize => path.hops > 0 && (if path.hops > 1 then HEADER_MAXSIZE else HEADER_MINSIZE) + |p.payload| > MTU
      case Onward(q) =>
        && Directed(q.header, p.header, path) && q.header.hops == hops
        && CoreOf(q.header, q.payload) == CoreOf(p.header, p.payload)
  {
  }

  /**
   What a route makes of the bytes of a packet: they parse to the same core, one hop on, directed along the
   route; none when a relay further on is not known, or the longer header no longer fits.
   */
  lemma BytesGoOnDirected(raw: Bytes, hops: byte, path: PathBody)
    requires Parse(raw).Parsed? && (path.nextHop.Some? ==> path.nextHop.value < Pow256(16))
    ensures var was, payload := Parse(raw).header, Parse(raw).payload;
      match Rewrite(raw, was, hops, path.hops, path.nextHop)
      case NoRoute => path.hops > 1 && path.nextHop.None?
      case Oversized => path.hops > 0 && (if path.hops > 1 then HEADER_MAXSIZE else HEADER_MINSIZE) + |payload| > MTU
      case Rewritten(out) =>
        && Parse(out).Parsed? && Directed(Parse(out).header, was, path) && Parse(out).header.hops == hops
        && CoreOf(Parse(out).header, Parse(out).payload) == CoreOf(was, payload)
  {
    hide Parse, Pow256, Rewrite, ForwardAlong, Directed, CoreOf, Header.WellFormed;
    BuildParse(raw);
    ForwardingMatchesWire(raw, hops, path);
    GoesOnDirected(Packet(Parse(raw).header, Parse(raw).payload), hops, path);
  }

  /** Packets that are routed: for a single destination, and not announces. */
  predicate Routes(p: Packet) {
    p.header.flags.destinationType.Single? && !p.header.flags.packetType.Announce?
  }

  /** A relay takes a packet in and finds itself addressed. */
  predicate Addressed(address: Hash, p: Packet) {
    Admissible(address, p) && p.header.transport == Some(address)
  }

  /**
   Of the bytes sent along a route: with relays still to come, the relay the route names as the next hop takes
   them in and finds itself addressed, and no other relay takes them in; on the last hop nobody is addressed.
   */
  lemma OneRelayTakesIt(raw: Bytes, hops: byte, path: PathBody, address: Hash)
    requires Parse(raw).Parsed? && (path.nextHop.Some? ==> path.nextHop.value < Pow256(16))
    requires Routes(Packet(Parse(raw).header, Parse(raw).payload)) && hops < PATHFINDER_M
    ensures var r := Rewrite(raw, Parse(raw).header, hops, path.hops, path.nextHop);
      r.Rewritten? ==>
        && Parse(r.bytes).Parsed?
        && var q := Packet(Parse(r.bytes).header, Parse(r.bytes).payload);
        && (path.hops > 1 ==> (Admissible(address, q) <==> path.nextHop == Some(address)))
        && (path.hops > 1 ==> (Addressed(address, q) <==> path.nextHop == Some(address)))
        && (path.hops == 1 ==> Admissible(address, q) && !Addressed(address, q))
  {
    hide Parse, Pow256, Rewrite;
    BytesGoOnDirected(raw, hops, path);
    var r := Rewrite(raw, Parse(raw).header, hops, path.hops, path.nextHop);
    if r.Rewritten? {
      SameKind(Parse(raw).header, Parse(r.bytes).header);
    }
  }

  lemma SameKind(a: Header, b: Header)
    requires a.flags.LowNibble() == b.flags.LowNibble()
    ensures a.flags.destinationType == b.flags.destinationType && a.flags.packetType == b.flags.packetType
  {
  }

  /** A data frame that was relayed is queued directed along its route. */
  lemma RelayedDirected(v: View, w: View, p: Packet, hops: byte, id: byte, g: u64, lt: Lifetime, capacity: nat,
                        now: u64)
    requires Inv(v) && RelaysData(v, w, p, hops, id, g, lt, capacity, now) && v.box.capacity > 0
    requires p.header.WellFormed()
    ensures w.box.queue != [] && g in v.tabs.paths && v.tabs.paths[g].key == p.header.destination
    ensures var q, path := w.box.queue[|w.box.queue| - 1], v.tabs.paths[g].body;
      q.interface == path.interface && Directed(q.packet.header, p.header, path) && q.packet.header.hops == hops
  {
    hide Inv, RelaysData, ForwardAlong, Directed, CoreOf, Header.WellFormed;
    RelayRecordsExactlyOne(v, w, p, hops, id, g, lt, capacity, now);
    RelayedAlong(v, w, p, hops, id, g, lt, capacity, now);
    GoesOnDirected(p, hops, v.tabs.paths[g].body);
  }

  lemma RelayedAlong(v: View, w: View, p: Packet, hops: byte, id: byte, g: u64, lt: Lifetime, capacity: nat, now: u64)
    requires RelaysData(v, w, p, hops, id, g, lt, capacity, now)
    ensures g in v.tabs.paths && v.tabs.paths[g].key == p.header.destination
  {
    hide Interfaces.WellFormed, ForwardAlong, Enqueues, Given, Touches, Inserts;
  }

  /** Its token lasts until its route, the way back recorded for it, or the time frames are kept is over. */
  lemma RelayedUntil(v: View, w: View, p: Packet, hops: byte, id: byte, g: u64, lt: Lifetime, capacity: nat, now: u64)
    requires Inv(v) && RelaysData(v, w, p, hops, id, g, lt, capacity, now) && v.clock == now
    requires p.header.flags.packetType.Data? && OnRouteOnly(p)
    ensures g in v.tabs.paths && w.tabs.lastReverse in w.tabs.reverse
    ensures lt == RouteToken(now, g, v.tabs.paths[g].expires, w.tabs.reverse[w.tabs.lastReverse].expires,
                             ReverseOf(w.tabs.lastReverse))
  {
    hide BoxOk, AllSealed, Evidenced, Thrifty, Paced, Numbered, Routed, CacheAgrees, WellScheduled, Enqueues, Touches,
      Inserts, Interfaces.WellFormed, LifetimeFor, Interfaces.Bitrate, ForwardAlong, Found;
    var sent := ForwardAlong(p, hops, v.tabs.paths[g].body).packet;
    SameKind(p.header, sent.header);
    var s :| Given(v, sent, TransportForward, lt.(state := s));
    var pg, path, lg, link :|
      && Found(v.tabs.paths, sent.header.destination, v.clock, pg, path)
      && Found(v.tabs.links, sent.header.destination, v.clock, lg, link)
      && lt.(state := s) == LifetimeFor(v.clock, sent, TransportForward,
           if path.Some? then v.ifs.Bitrate(path.value.body.interface) else 0, pg, path, lg, link);
    SameEntry(v.tabs.paths, v.tabs.lastPath, sent.header.destination, now, pg, path, g);
    LifetimeIs(now, sent, TransportForward, v.ifs.Bitrate(path.value.body.interface), pg, path, lg, link);
  }

  /** A link request that was passed on is queued directed along its route. */
  lemma RequestedDirected(v: View, w: View, p: Packet, hops: byte, id: byte, g: u64, sent: Packet, lt: Lifetime,
                          row: Row<LinkBody>, now: u64)
    requires Inv(v) && OpensLink(v, w, p, hops, id, g, sent, lt, row, now) && v.box.capacity > 0
    requires p.header.WellFormed()
    ensures w.box.queue != [] && g in v.tabs.paths && v.tabs.paths[g].key == p.header.destination
    ensures var q, path := w.box.queue[|w.box.queue| - 1], v.tabs.paths[g].body;
      q.interface == path.interface && Directed(q.packet.header, p.header, path) && q.packet.header.hops == hops
  {
    hide Inv, Enqueues, Touches, Interfaces.WellFormed, ForwardAlong, Directed, CoreOf, Header.WellFormed;
    RequestRecordsExactlyOne(v, w, p, hops, id, g, sent, lt, row, now);
    GoesOnDirected(p, hops, v.tabs.paths[g].body);
  }

  /** A frame goes back out where it came in only where that is allowed, and elsewhere only where forwarding is. */
  lemma GoesOutWhereAllowed(v: View, source: byte, target: byte, packet: Packet, reason: Reason)
    requires v.ifs.WellFormed() && v.ifs.Router? && Takes(v, source, target, packet, reason)
    ensures v.ifs.Config(target).Some?
    ensures var c := v.ifs.Config(target).value;
      && c.online && c.direction.outbound
      && (source == target ==> c.direction.repeat) && (source != target ==> c.direction.forward)
      && packet.Size() <= c.mtu && (c.role.LoRa? ==> packet.Size() + c.tag <= LORA_WIRE_MAX)
  {
    hide HasRoom, Interfaces.WellFormed;
  }

  /** Where nothing is known of an interface, what is queued for it fits a LoRa packet with the access code. */
  lemma UnknownIsLora(v: View, id: byte, packet: Packet, reason: Reason)
    requires v.ifs.WellFormed() && Accepts(v, id, packet, reason) && v.ifs.Slot(id) == SLOTS
    ensures packet.Size() <= MTU && (packet.Size() > 0 ==> packet.Size() + v.own.tag <= LORA_WIRE_MAX)
  {
    hide HasRoom, Interfaces.WellFormed, Interfaces.Online, Interfaces.Slot;
  }

  /** A plain packet for the sink a router's host has set up. */
  predicate ForSink(own: Own, ifs: Interfaces, h: Header) {
    && ifs.Router? && own.sink == Some(h.destination) && h.flags.packetType.Data? && h.flags.destinationType.Plain?
    && h.flags.transportType.Broadcast?
  }

  /** A frame that can be read: its interface lets it in, and it unwraps to a packet within the interface's budget. */
  ghost predicate Readable(env: Env, own: Own, ifs: Interfaces, frame: Bytes, id: byte, p: Packet)
    requires ifs.WellFormed()
  {
    && (ifs.Router? ==>
          && ifs.Config(id).Some? && ifs.Config(id).value.online && ifs.Config(id).value.direction.inbound
          && |frame| <= ifs.Config(id).value.ClearMtu() + ifs.Config(id).value.tag)
    && env.unwrap(id, frame).Some? && |env.unwrap(id, frame).value| <= Budget(ifs, own.tag, id)
    && Parse(env.unwrap(id, frame).value) == Parsed(p.header, p.payload)
    && (p.header.flags.packetType.LinkRequest? ==> Parses(p.payload, LINK_KEYS) && CarriesLinks(ifs, own.tag, id))
  }

  /**
   A frame is let in exactly if it can be read, is not for the sink, has not come 128 hops, is addressed to this
   relay or to none, and, as a plain or group packet, is no announce and from one relay away at most.
   */
  lemma LetInExactly(env: Env, own: Own, ifs: Interfaces, frame: Bytes, id: byte, p: Packet)
    requires ifs.WellFormed()
    ensures Screen(env, own, ifs, frame, id) == In(p) <==>
      var h := p.header;
      && Readable(env, own, ifs, frame, id, p) && !ForSink(own, ifs, h) && h.hops < 128
      && (h.flags.packetType.Announce? || h.transport in {None, Some(own.transport)})
      && (Repeats(h.context) || h.flags.destinationType in {Single, DestinationType.Link}
          || (!h.flags.packetType.Announce? && h.hops <= 1))
  {
    hide Interfaces.WellFormed, Interfaces.Config, Budget, CarriesLinks, Parse, Parses, Repeats;
  }

  /** The sink hears only what was sent directly. */
  lemma SinkIsDirect(env: Env, own: Own, ifs: Interfaces, frame: Bytes, id: byte, p: Packet)
    requires ifs.WellFormed() && Readable(env, own, ifs, frame, id, p) && ForSink(own, ifs, p.header)
    ensures Screen(env, own, ifs, frame, id) == Out(if p.header.hops == 0 then LocalPlain else Dropped)
  {
    hide Interfaces.WellFormed, Interfaces.Config, Budget, CarriesLinks, Parse, Parses;
  }

  /** What one end of a medium may send, the other, set up alike, takes in: access code and all. */
  lemma BothEndsAgree(v: View, id: byte, packet: Packet, reason: Reason, ifs: Interfaces, at: byte)
    requires v.ifs.WellFormed() && v.ifs.Router? && Accepts(v, id, packet, reason)
    requires ifs.WellFormed() && ifs.Router? && ifs.Config(at).Some? && v.ifs.Config(id).Some?
    requires var c, d := v.ifs.Config(id).value, ifs.Config(at).value;
      d.role == c.role && d.mtu == c.mtu && d.tag == c.tag && d.online && d.direction.inbound
    ensures Ingress(ifs, at, packet.Size() + ifs.Config(at).value.tag).None?
  {
    hide HasRoom, Interfaces.WellFormed;
  }

  /** A relay costs a hop, a local client none. */
  lemma HopCost(hops: byte)
    requires hops < 255
    ensures HopsHere(hops, true) == hops && (HopsHere(hops, false) as int) == hops as int + 1
  {
  }

  // --- A line of relays -------------------------------------------------------------------------

  /**
   A relay in a line that starts next to a destination: its address, its interfaces towards the destination and
   away from it, and how and when it heard the announce.
   */
  datatype Station = Station(address: Hash, towards: byte, away: byte, mode: Mode, heard: u64, bulk: bool)

  /** An announce as its destination sends it. */
  predicate Fresh(p: Packet) {
    && p.header.flags.packetType.Announce? && p.header.flags.destinationType.Single?
    && p.header.hops == 0 && p.header.transport.None? && p.header.context == CONTEXT_NONE
    && HEADER_MAXSIZE + |p.payload| <= MTU
  }

  /** The announce as it reaches a station, passed on by every station before. */
  function Reaching(env: Env, p: Packet, line: seq<Station>, i: nat): Option<Packet>
    requires i <= |line|
  {
    if i == 0 then Some(p)
    else
      var q, s := Reaching(env, p, line, i - 1), line[i - 1];
      if q.None? then None
      else
        var next := RebroadcastOf(env, s.address, q.value, HopsHere(q.value.header.hops, false), s.towards, s.heard);
        if next.None? then None else Some(next.value.body.packet)
  }

  /** It reaches every station, under the address of the one before, and one hop further each time. */
  lemma {:induction false} AnnounceReaches(env: Env, p: Packet, line: seq<Station>, i: nat)
    requires Fresh(p) && i <= |line| < PATHFINDER_M
    ensures var q := Reaching(env, p, line, i);
      && q.Some? && q.value.payload == p.payload && q.value.header.destination == p.header.destination
      && q.value.header.hops == i && q.value.header.context == CONTEXT_NONE
      && q.value.header.transport == (if i == 0 then None else Some(line[i - 1].address))
      && q.value.header.flags.packetType.Announce? && q.value.header.flags.destinationType.Single?
    ensures forall address :: Admissible(address, Reaching(env, p, line, i).value)
  {
    hide HashOf, Jitter;
    if i > 0 {
      AnnounceReaches(env, p, line, i - 1);
    }
  }

  /** The route a station learns. */
  function RouteAt(env: Env, p: Packet, line: seq<Station>, a: Announced, i: nat): PathRow
    requires Fresh(p) && i < |line| < PATHFINDER_M
  {
    AnnounceReaches(env, p, line, i);
    var q, s := Reaching(env, p, line, i).value, line[i];
    RouteFrom(env, q, HopsHere(q.header.hops, false), s.towards, s.mode, a, s.bulk, s.heard)
  }

  /** It leads to the station before, as many hops from the destination as there are stations up to here. */
  lemma RouteLeadsBack(env: Env, p: Packet, line: seq<Station>, a: Announced, i: nat)
    requires Fresh(p) && i < |line| < PATHFINDER_M
    ensures var r := RouteAt(env, p, line, a, i);
      && r.key == p.header.destination && r.expires == SatAdd(line[i].heard, PathLife(line[i].mode))
      && r.body.hops == i + 1 && r.body.nextHop == (if i == 0 then None else Some(line[i - 1].address))
      && r.body.interface == line[i].towards && r.body.publicKey == a.publicKey && r.body.random == a.random
      && r.body.lastSeen == line[i].heard
  {
    hide HashOf, Reaching, PathLife;
    AnnounceReaches(env, p, line, i);
  }

  /** A packet for the destination, after `k` stations from `n` on towards it; each must find itself addressed. */
  function Carried(env: Env, p: Packet, line: seq<Station>, a: Announced, q: Packet, n: nat, k: nat): Forwarding
    requires Fresh(p) && n < |line| < PATHFINDER_M && k <= n + 1
  {
    if k == 0 then Onward(q)
    else
      var i := n + 1 - k;
      match Carried(env, p, line, a, q, n, k - 1)
      case Onward(x) =>
        if Addressed(line[i].address, x)
        then ForwardAlong(x, HopsHere(x.header.hops, false), RouteAt(env, p, line, a, i).body)
        else Unroutable
      case f => f
  }

  /** A packet handed to a station: for the destination, in the long form, and small enough. */
  predicate Handed(p: Packet, q: Packet, address: Hash) {
    && Routes(q) && q.header.destination == p.header.destination && q.header.transport == Some(address)
    && q.header.flags.headerType.Header2? && q.Size() <= MTU
  }

  /**
   Data follows the announce back: a packet handed to any station passes all stations between it and the
   destination, each time addressed to the next one, and arrives in the short form, with its core unchanged and
   one more hop for each station.
   */
  lemma {:induction false} DataFollowsAnnounce(env: Env, p: Packet, line: seq<Station>, a: Announced, q: Packet, n: nat,
                                               k: nat)
    requires Fresh(p) && n < |line| < PATHFINDER_M && k <= n + 1
    requires Handed(p, q, line[n].address) && (q.header.hops as int) + n < PATHFINDER_M as int
    ensures Carried(env, p, line, a, q, n, k).Onward?
    ensures var x := Carried(env, p, line, a, q, n, k).packet;
      && CoreOf(x.header, x.payload) == CoreOf(q.header, q.payload)
      && (x.header.hops as int) == q.header.hops as int + k
      && Routes(x) && x.header.flags.contextFlag == q.header.flags.contextFlag
      && (if k <= n then x.header.transport == Some(line[n - k].address) && x.header.flags.headerType.Header2?
          else
            && x.header.transport.None? && x.header.flags.headerType.Header1?
            && x.header.flags.transportType.Broadcast?)
  {
    hide RouteAt;
    if k > 0 {
      DataFollowsAnnounce(env, p, line, a, q, n, k - 1);
      RouteLeadsBack(env, p, line, a, n + 1 - k);
    }
  }

  // --- Any relays, any routes -------------------------------------------------------------------

  /** A relay and the route it forwards along. */
  datatype Hop = Hop(address: Hash, path: PathBody)

  /** A packet after it has passed these relays, one after the other, whatever their routes. */
  function Passage(q: Packet, relays: seq<Hop>): Forwarding {
    if relays == [] then Onward(q)
    else
      var n := |relays| - 1;
      match Passage(q, relays[..n])
      case Onward(x) =>
        if Addressed(relays[n].address, x) then ForwardAlong(x, HopsHere(x.header.hops, false), relays[n].path)
        else Unroutable
      case f => f
  }

  /** Loops end: whatever the routes are, no packet passes more than 128 relays, and its core stays as it was. */
  lemma {:induction false} LoopsEnd(q: Packet, relays: seq<Hop>)
    requires Passage(q, relays).Onward?
    ensures relays != [] ==> (q.header.hops as int) + |relays| <= PATHFINDER_M as int
    ensures var x := Passage(q, relays).packet;
      && (x.header.hops as int) == q.header.hops as int + |relays|
      && CoreOf(x.header, x.payload) == CoreOf(q.header, q.payload)
  {
    hide CoreOf, NextHop;
    if relays != [] {
      LoopsEnd(q, relays[..|relays| - 1]);
    }
  }

  /** A plain broadcast after `k` relays that took it in. */
  function Bridged(q: Packet, addresses: seq<Hash>): Option<Packet> {
    if addresses == [] then Some(q)
    else
      var n := |addresses| - 1;
      var x := Bridged(q, addresses[..n]);
      if x.Some? && Admissible(addresses[n], x.value) then Some(Passed(x.value, HopsHere(x.value.header.hops, false)))
      else None
  }

  /** Plain and group packets of no repeating context pass two relays at most, and as announces none. */
  lemma {:induction false} PlainStaysNear(q: Packet, addresses: seq<Hash>)
    requires q.header.flags.destinationType.Plain? || q.header.flags.destinationType.Group?
    requires !Repeats(q.header.context) && Bridged(q, addresses).Some?
    ensures addresses != [] ==> (q.header.hops as int) + |addresses| <= 2 && !q.header.flags.packetType.Announce?
    ensures (Bridged(q, addresses).value.header.hops as int) == q.header.hops as int + |addresses|
    ensures Bridged(q, addresses).value.header.flags == q.header.flags
    ensures Bridged(q, addresses).value.header.context == q.header.context
  {
    hide Repeats;
    if addresses != [] {
      PlainStaysNear(q, addresses[..|addresses| - 1]);
    }
  }

  /** Frames with one core are one frame: once it has been looked up, any copy within two minutes is a duplicate. */
  lemma CopiesAreDuplicates(v: View, w: View, p: Packet, localLink: Option<Hash>, capacity: nat, first: bool, now: u64,
                            x: View, y: View, q: Packet, localLater: Option<Hash>, second: bool, later: u64)
    requires LooksUp(v, w, p, localLink, capacity, first, now) && !Exempt(v, p, localLink, now)
    requires HashOf(v.env, p) !in LiveRows(v.tabs.hashes, now) && capacity > 0
    requires x.env == w.env && x.tabs.hashes == w.tabs.hashes && now <= later < SatAdd(now, HASHLIST_LIFETIME_MS)
    requires LooksUp(x, y, q, localLater, capacity, second, later) && !Exempt(x, q, localLater, later)
    requires CoreOf(q.header, q.payload) == CoreOf(p.header, p.payload)
    requires !(q.header.flags.packetType.Announce? && q.header.flags.destinationType.Single?)
    ensures second
  {
    hide Exempt, Evicts;
    var isNew :| Remembers(v.tabs.hashes, capacity, Row(HashOf(v.env, p), SatAdd(now, HASHLIST_LIFETIME_MS), ()), now,
                           w.tabs.hashes, isNew);
    assert HashOf(v.env, p) in w.tabs.hashes && later < w.tabs.hashes[HashOf(v.env, p)].expires;
  }

  // --- Across one relay -------------------------------------------------------------------------

  /** Which side of a link traffic came from, by interface and hop count: the requester's, or the destination's. */
  predicate FromRequester(b: LinkBody, hops: byte, id: byte) {
    id == b.receiving && hops == b.takenHops
  }

  predicate FromDestination(b: LinkBody, hops: byte, id: byte) {
    id == b.outbound && hops == b.remainingHops
  }

  /**
   Traffic crosses a link: between two interfaces it goes on exactly if it came from one of the two sides, at the
   hop count recorded for that side, and then to the other interface; on one interface, if it came the distance
   of either side.
   */
  lemma TrafficCrosses(b: LinkBody, hops: byte, id: byte)
    ensures b.receiving != b.outbound ==>
      var way := LinkWay(b, hops, id);
      && (way.Toward? <==> FromRequester(b, hops, id) || FromDestination(b, hops, id))
      && (way.Toward? ==> way.target != id && {id, way.target} == {b.receiving, b.outbound})
      && (way.NotOurs? <==> id !in {b.receiving, b.outbound})
    ensures b.receiving == b.outbound ==>
      var way := LinkWay(b, hops, id);
      && (way.Toward? <==> hops in {b.takenHops, b.remainingHops}) && (way.Toward? ==> way.target == b.receiving)
      && !way.NotOurs?
  {
  }

  /** Traffic that was carried is queued to the other side of its link. */
  lemma CarriedAcross(v: View, w: View, p: Packet, hops: byte, id: byte, reason: Reason, lt: Lifetime, g: u64, now: u64)
    requires Inv(v) && CarriesOn(v, w, p, hops, id, reason, lt, g, now) && v.box.capacity > 0
    ensures w.box.queue != []
    ensures var q, b := w.box.queue[|w.box.queue| - 1], v.tabs.links[g].body;
      && q.packet == Passed(p, hops) && q.interface in {b.receiving, b.outbound}
      && (b.receiving != b.outbound ==>
            (FromRequester(b, hops, id) && q.interface == b.outbound)
            || (FromDestination(b, hops, id) && q.interface == b.receiving))
  {
    hide Inv, Enqueues, Interfaces.WellFormed;
    var b := v.tabs.links[g].body;
    TrafficCrosses(b, hops, id);
    LastAdmitted(v, w, LinkWay(b, hops, id).target, Passed(p, hops), reason, lt);
  }

  /** What is carried fits the link and both its interfaces. */
  lemma CarriedFits(v: View, p: Packet, hops: byte, id: byte, reason: Reason, g: u64, now: u64)
    requires v.ifs.WellFormed() && Carries(v, p, hops, id, reason, g, now)
    ensures var b := v.tabs.links[g].body;
      && p.Size() <= b.mtuCeiling
      && Budget(v.ifs, v.own.tag, b.receiving) >= MTU && Budget(v.ifs, v.own.tag, b.outbound) >= MTU
  {
    hide Takes, Interfaces.WellFormed, Budget, LinkWay, Repeats;
  }

  lemma LastAdmitted(v: View, w: View, id: byte, packet: Packet, reason: Reason, lt: Lifetime)
    requires Inv(v) && v.box.capacity > 0 && Enqueues(v.box, w.box, v.ifs, v.depth, id, packet, reason, lt, true)
    ensures w.box.queue != []
    ensures var q := w.box.queue[|w.box.queue| - 1]; q.packet == packet && q.interface == id && q.lifetime == lt
  {
    hide BoxOk, AllSealed, Evidenced, Thrifty, Paced, Numbered, TabsOk, Interfaces.WellFormed, Enqueues;
    AdmittedLast(v.box, w.box, v.ifs, v.depth, id, packet, reason, lt);
  }

  /**
   A link that was opened from one interface along a route over another: traffic from where the request came,
   at its hop count, goes over the route's interface, and traffic from there, at the route's hop count, goes back.
   */
  lemma OpenedCrosses(v: View, w: View, p: Packet, hops: byte, id: byte, g: u64, sent: Packet, lt: Lifetime,
                      row: Row<LinkBody>, now: u64)
    requires OpensLink(v, w, p, hops, id, g, sent, lt, row, now)
    ensures g in v.tabs.paths && w.tabs.lastLink in w.tabs.links
    ensures var b, path := w.tabs.links[w.tabs.lastLink].body, v.tabs.paths[g].body;
      && LinkWay(b, hops, id) == Toward(path.interface) && LinkWay(b, path.hops, path.interface) == Toward(id)
      && b.signingKey == SigningHalf(path.publicKey) && !b.validated
      && w.tabs.links[w.tabs.lastLink].key == v.env.linkId(LinkCore(p))
  {
    hide Enqueues, Touches, Interfaces.WellFormed, RequestAlong;
  }

  /** A delivery proof finds its way back: in where its packet went out, and out where the packet came from. */
  lemma ProofFindsWayBack(v: View, w: View, p: Packet, hops: byte, id: byte, g: u64, lt: Lifetime, capacity: nat,
                          now: u64, later: u64)
    requires Inv(w) && RelaysData(v, w, p, hops, id, g, lt, capacity, now) && later < SatAdd(now, REVERSE_TIMEOUT_MS)
    ensures g in v.tabs.paths
    ensures var key, out := v.env.proofHash(CoreOf(p.header, p.payload)), v.tabs.paths[g].body.interface;
      forall from_: byte, h :: WayBack(w, key, from_, h, later) <==> from_ == out && h == w.tabs.lastReverse
    ensures w.tabs.lastReverse in w.tabs.reverse && w.tabs.reverse[w.tabs.lastReverse].body.receiving == id
  {
    hide Interfaces.WellFormed, ForwardAlong, Enqueues, Given, Touches, Inserts, BoxOk, AllSealed, Evidenced, Thrifty,
      Paced, Numbered, Routed, CacheAgrees, WellScheduled;
  }

  // --- A link over the line ---------------------------------------------------------------------

  /** A hop count after `k` more relays. */
  function Counted(hops: byte, k: nat): byte {
    if k == 0 then hops else HopsHere(Counted(hops, k - 1), false)
  }

  lemma {:induction false} CountedIs(hops: byte, k: nat)
    requires (hops as int) + k <= 255
    ensures (Counted(hops, k) as int) == hops as int + k
  {
    if k > 0 {
      CountedIs(hops, k - 1);
    }
  }

  /** A request every relay can pass on. */
  predicate Requestable(q: Packet) {
    q.header.flags.packetType.LinkRequest? && Parses(q.payload, LINK_KEYS) && RequestOnward(q).Some?
  }

  /** A link request for the destination, after `k` stations from `n` on towards it. */
  function Requested(env: Env, p: Packet, line: seq<Station>, a: Announced, q: Packet, n: nat, k: nat): Option<Packet>
    requires Fresh(p) && n < |line| < PATHFINDER_M && k <= n + 1
  {
    if k == 0 then Some(q)
    else
      var i := n + 1 - k;
      var x := Requested(env, p, line, a, q, n, k - 1);
      if x.Some? && Addressed(line[i].address, x.value)
      then RequestAlong(x.value, HopsHere(x.value.header.hops, false), RouteAt(env, p, line, a, i).body)
      else None
  }

  /** One relay further: the same link, mode and kind, one hop on. */
  lemma RequestGoesOn(x: Packet, hops: byte, path: PathBody)
    requires Requestable(x) && Routes(x) && x.Size() <= MTU && x.header.flags.headerType.Header2?
    requires path.hops == 1 || (path.hops > 1 && path.nextHop.Some?)
    ensures var y := RequestAlong(x, hops, path);
      && y.Some? && LinkCore(y.value) == LinkCore(x) && Requestable(y.value) && Routes(y.value)
      && y.value.Size() <= MTU && y.value.header.hops == hops
      && SignalOf(y.value.payload, LINK_KEYS).mode == SignalOf(x.payload, LINK_KEYS).mode
      && (if path.hops == 1 then y.value.header.transport.None? && y.value.header.flags.headerType.Header1?
          else y.value.header.transport == path.nextHop && y.value.header.flags.headerType.Header2?)
  {
    hide UnpackSignal;
    var f := ForwardAlong(x, hops, path);
    assert f.Onward? && f.packet.payload == x.payload;
  }

  /** A link request follows the announce back as data does, and asks for the same link at every station. */
  lemma {:induction false} RequestFollowsAnnounce(env: Env, p: Packet, line: seq<Station>, a: Announced, q: Packet,
                                                  n: nat, k: nat)
    requires Fresh(p) && n < |line| < PATHFINDER_M && k <= n + 1
    requires Handed(p, q, line[n].address) && Requestable(q) && (q.header.hops as int) + n < PATHFINDER_M as int
    ensures Requested(env, p, line, a, q, n, k).Some?
    ensures var x := Requested(env, p, line, a, q, n, k).value;
      && LinkCore(x) == LinkCore(q) && Requestable(x) && Routes(x) && x.Size() <= MTU
      && x.header.hops == Counted(q.header.hops, k) && (x.header.hops as int) == q.header.hops as int + k
      && SignalOf(x.payload, LINK_KEYS).mode == SignalOf(q.payload, LINK_KEYS).mode
      && (if k <= n then x.header.transport == Some(line[n - k].address) && x.header.flags.headerType.Header2?
          else x.header.transport.None? && x.header.flags.headerType.Header1?)
  {
    hide RouteAt, Requestable, LinkCore, SignalOf, RequestAlong;
    if k > 0 {
      RequestFollowsAnnounce(env, p, line, a, q, n, k - 1);
      RouteLeadsBack(env, p, line, a, n + 1 - k);
      var x := Requested(env, p, line, a, q, n, k - 1).value;
      RequestGoesOn(x, HopsHere(x.header.hops, false), RouteAt(env, p, line, a, n + 1 - k).body);
    }
  }

  /** The link a station records for the request. */
  function LinkAt(env: Env, ifs: Interfaces, p: Packet, line: seq<Station>, a: Announced, q: Packet, n: nat, i: nat,
                  now: u64): Row<LinkBody>
    requires Fresh(p) && i <= n < |line| < PATHFINDER_M && ifs.WellFormed()
    requires Handed(p, q, line[n].address) && Requestable(q) && (q.header.hops as int) + n < PATHFINDER_M as int
  {
    RequestFollowsAnnounce(env, p, line, a, q, n, n - i);
    var x := Requested(env, p, line, a, q, n, n - i).value;
    PendingLink(ifs, x, HopsHere(x.header.hops, false), line[i].away, env.linkId(LinkCore(x)),
                RouteAt(env, p, line, a, i).body, now)
  }

  /**
   A link spans the line: every station records it under the same id and the key announced, and what either end
   sends, counted from the hop count it starts with, passes every station to the other side.
   */
  lemma LinkSpansLine(env: Env, ifs: Interfaces, p: Packet, line: seq<Station>, a: Announced, q: Packet, n: nat, i: nat,
                      now: u64)
    requires Fresh(p) && i <= n < |line| < PATHFINDER_M && ifs.WellFormed()
    requires Handed(p, q, line[n].address) && Requestable(q) && (q.header.hops as int) + n < PATHFINDER_M as int
    ensures var row := LinkAt(env, ifs, p, line, a, q, n, i, now);
      && row.key == env.linkId(LinkCore(q)) && row.body.signingKey == SigningHalf(a.publicKey) && !row.body.validated
      && row.body.mode == SignalOf(q.payload, LINK_KEYS).mode && row.body.mtuCeiling == MTU
      && row.body.outbound == line[i].towards && row.body.remainingHops == Counted(0, i + 1)
      && LinkWay(row.body, Counted(q.header.hops, n - i + 1), line[i].away) == Toward(line[i].towards)
      && LinkWay(row.body, Counted(0, i + 1), line[i].towards) == Toward(line[i].away)
  {
    hide RouteAt, Requested, LinkCore, SignalOf, SigningHalf, Requestable, Handed, Fresh, Interfaces.WellFormed,
      LinkWay, PendingLink, Routes;
    RequestFollowsAnnounce(env, p, line, a, q, n, n - i);
    RouteLeadsBack(env, p, line, a, i);
    CountedIs(0, i + 1);
    var x, path := Requested(env, p, line, a, q, n, n - i).value, RouteAt(env, p, line, a, i).body;
    PendingCrosses(ifs, x, HopsHere(x.header.hops, false), line[i].away, env.linkId(LinkCore(x)), path, now);
    hide HopsHere;
    assert Counted(q.header.hops, n - i + 1) == HopsHere(x.header.hops, false);
  }

  /** A pending link takes traffic from the requester's side over the route, and from the route back. */
  lemma PendingCrosses(ifs: Interfaces, p: Packet, hops: byte, id: byte, key: Hash, path: PathBody, now: u64)
    requires ifs.WellFormed()
    ensures var row := PendingLink(ifs, p, hops, id, key, path, now);
      && row.key == key && row.body.signingKey == SigningHalf(path.publicKey) && !row.body.validated
      && row.body.mode == SignalOf(p.payload, LINK_KEYS).mode && row.body.mtuCeiling == MTU
      && row.body.outbound == path.interface && row.body.remainingHops == path.hops
      && LinkWay(row.body, hops, id) == Toward(path.interface)
      && LinkWay(row.body, path.hops, path.interface) == Toward(id)
  {
    hide Interfaces.WellFormed, SignalOf, SigningHalf;
  }

  /** The destination's establishment proof attests the link at every station it comes by. */
  lemma ProofAttestsLine(env: Env, ifs: Interfaces, p: Packet, line: seq<Station>, a: Announced, q: Packet, n: nat,
                         i: nat, now: u64, proof: Packet, time: u64)
    requires Fresh(p) && i <= n < |line| < PATHFINDER_M && ifs.WellFormed()
    requires Handed(p, q, line[n].address) && Requestable(q) && (q.header.hops as int) + n < PATHFINDER_M as int
    requires proof.header.flags.packetType.Proof? && proof.header.context == CONTEXT_LRPROOF
    requires var link, key := env.linkId(LinkCore(q)), SigningHalf(a.publicKey);
      && proof.header.destination == link && Parses(proof.payload, PROOF_KEYS)
      && SignalOf(proof.payload, PROOF_KEYS).mode == SignalOf(q.payload, LINK_KEYS).mode
      && SignalOf(proof.payload, PROOF_KEYS).EffectiveMtu().value <= MTU
      && env.verify(key, Signed(link, key, proof.payload), proof.payload[..SIGNATURE])
    ensures Attests(env, Ingested(proof, line[i].towards, Counted(0, i + 1), time),
                    LinkAt(env, ifs, p, line, a, q, n, i, now))
  {
    hide LinkAt, LinkCore, SignalOf, Requestable, Handed, Fresh, Interfaces.WellFormed, Signed, LinkWay, Counted;
    LinkSpansLine(env, ifs, p, line, a, q, n, i, now);
  }
}
