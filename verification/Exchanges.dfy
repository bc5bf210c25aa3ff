/**
 Path requests and their answers, between the node that asks and the node that is asked: what one writes the
 other reads, who is asked and told, and where an answer leads.
 */
module Exchanges {
  import opened Base
  import opened Rows
  import opened Generations
  import opened RowTables
  import opened Wire
  import opened Paths
  import opened Announces
  import opened Interfaces
  import opened Discovery
  import opened Rebroadcast
  import opened NodeState
  import opened Outbound
  import opened Tables
  import opened NodeInvariants
  import opened NodeSteps
  import opened NodeEffects
  import opened Decisions

  // --- Requests ---------------------------------------------------------------------------------

  /** A tag as it travels. */
  function Padded(tag: Bytes): Bytes
    requires |tag| <= 16
  {
    tag + seq(16 - |tag|, _ => 0)
  }

  /** A path request is read as it was meant: the destination, who asks, and the tag. */
  lemma RequestIsRead(env: Env, requested: Hash, tag: Bytes, transport: Option<Hash>)
    requires requested < Pow256(16) && (transport.Some? ==> transport.value < Pow256(16)) && |tag| <= 16
    ensures var p := PathRequestPacket(env, requested, tag, transport);
      && p.header.destination == env.pathRequest && p.header.flags.packetType.Data?
      && p.header.flags.destinationType.Plain? && p.header.hops == 0
      && |p.payload| > 16 && p.payload[..16] == ToBe(requested, 16)
      && Wanted(p.payload) == requested && Requestor(p.payload) == transport && TagOf(p.payload) == Padded(tag)
  {
    hide ToBe, FromBe, Pow256;
    var b := PathRequestPacket(env, requested, tag, transport).payload;
    BeRoundTrip(requested, 16);
    assert b[..16] == ToBe(requested, 16);
    if transport.Some? {
      BeRoundTrip(transport.value, 16);
      assert b[16..32] == ToBe(transport.value, 16) && b[32..48] == Padded(tag);
    } else {
      assert b[16..32] == Padded(tag);
    }
  }

  lemma PaddedTwice(destination: Bytes, tag: Bytes)
    requires |tag| <= 16
    ensures RequestKey(destination, Padded(tag)) == RequestKey(destination, tag)
  {
    hide FromBe;
    var zeros: Bytes := seq(16 - |Padded(tag)|, _ => 0);
    assert zeros == [];
    assert destination + Padded(tag) + zeros == destination + tag + seq(16 - |tag|, _ => 0);
  }

  /** Requests are told apart by destination and tag, and by nothing less. */
  lemma RequestKeyDecides(a: Bytes, s: Bytes, b: Bytes, t: Bytes)
    requires |a| == |b| == 16 && |s| <= 16 && |t| <= 16 && RequestKey(a, s) == RequestKey(b, t)
    ensures a == b && Padded(s) == Padded(t)
  {
    hide FromBe, ToBe, Pow256;
    var x, y := a + s + seq(16 - |s|, _ => 0), b + t + seq(16 - |t|, _ => 0);
    BytesRoundTrip(x);
    BytesRoundTrip(y);
    assert x == y;
    assert x[..16] == a && y[..16] == b && x[16..] == Padded(s) && y[16..] == Padded(t);
  }

  /** A node knows its own request when it hears it back: the tag it has remembered is the one it reads. */
  lemma OwnRequestIsKnown(env: Env, requested: Hash, tag: Bytes, transport: Option<Hash>, tags: Table<()>,
                          tags': Table<()>, capacity: nat, isNew: bool, now: u64, later: u64)
    requires requested < Pow256(16) && (transport.Some? ==> transport.value < Pow256(16)) && |tag| <= 16
    requires capacity > 0 && now <= later < SatAdd(now, PATH_REQUEST_GATE_MS)
    requires var row := Row(RequestKey(ToBe(requested, 16), tag), SatAdd(now, PATH_REQUEST_GATE_MS), ());
      Remembers(tags, capacity, row, now, tags', isNew) && isNew
    ensures var b := PathRequestPacket(env, requested, tag, transport).payload;
      |b| > 16 && RequestKey(b[..16], TagOf(b)) in LiveRows(tags', later)
  {
    hide ToBe, FromBe, Pow256, PathRequestPacket, TagOf, RequestKey, Evicts;
    RequestIsRead(env, requested, tag, transport);
    PaddedTwice(ToBe(requested, 16), tag);
  }

  // --- Answers ----------------------------------------------------------------------------------

  /** The route a node learns from an answer or a rebroadcast made by `address` at distance `hops`. */
  ghost predicate LeadsTo(row: PathRow, destination: Hash, address: Hash, hops: byte, id: byte) {
    && row.key == destination && row.body.nextHop == Some(address) && row.body.interface == id
    && row.body.hops == HopsHere(hops, false)
  }

  /**
   An answer leads to the node that gave it, one hop further than its own route, is not passed on by who
   asked, and was not given to the next hop of that route.
   */
  lemma AnswerLeadsHere(v: View, w: View, wanted: Hash, requestor: Option<Hash>, id: byte, m: Mode, g: u64, now: u64,
                        env: Env, transport: Hash, at: byte, mode: Mode, a: Announced, bulk: bool, later: u64)
    requires Answers(v, w, wanted, id, g, now)
    requires forall h :: !Withheld(v, wanted, requestor, id, m, h, now)
    ensures g in v.tabs.paths && wanted in v.tabs.cache && Response(v, wanted).Some?
    ensures var p, path := Response(v, wanted).value, v.tabs.paths[g].body;
      && LeadsTo(RouteFrom(env, p, HopsHere(p.header.hops, false), at, mode, a, bulk, later), wanted, v.own.transport,
                 path.hops, at)
      && p.payload == v.tabs.cache[wanted].body.packet.payload
      && RebroadcastOf(env, transport, p, HopsHere(p.header.hops, false), at, later).None?
      && (requestor.Some? ==> path.nextHop != requestor) && (m.Roaming? ==> path.interface != id)
  {
    hide Offers, HashOf, Jitter;
    assert !Withheld(v, wanted, requestor, id, m, g, now);
  }

  /** What a finished discovery is answered with leads here as well. */
  lemma DiscoveryLeadsHere(v: View, p: Packet, hops: byte, env: Env, at: byte, mode: Mode, a: Announced, bulk: bool,
                           later: u64)
    ensures var r := Reframe(p, p.header.destination, hops, v.own.transport, CONTEXT_PATH_RESPONSE);
      r.Some? ==> LeadsTo(RouteFrom(env, r.value, HopsHere(hops, false), at, mode, a, bulk, later),
                          p.header.destination, v.own.transport, hops, at)
  {
    hide HashOf;
  }

  // --- Who is asked and told --------------------------------------------------------------------

  /** A row that came with a broadcast or an answer to these targets. */
  ghost predicate Aimed(q: Queued, targets: seq<Option<byte>>, packet: Packet, reason: Reason) {
    q.packet == packet && q.reason == reason && exists s :: 0 <= s < |targets| && targets[s] == Some(q.interface)
  }

  /** One frame offered: every row beside it was there. */
  lemma OnlyOneRow(b: Box, c: Box, ifs: Interfaces, depth: nat, id: byte, packet: Packet, reason: Reason, lt: Lifetime,
                   ok: bool, q: Queued)
    requires ifs.WellFormed() && Enqueues(b, c, ifs, depth, id, packet, reason, lt, ok) && q in c.queue
    ensures q in b.queue || (ok && q.packet == packet && q.reason == reason && q.interface == id)
  {
    hide Interfaces.WellFormed, Displaced, DeliveryFor;
  }

  lemma {:induction false} BroadcastRows(v: View, boxes: seq<Box>, source: byte, targets: seq<Option<byte>>,
                                         packet: Packet, reason: Reason, lt: Lifetime, q: Queued)
    requires v.ifs.WellFormed() && Broadcasts(v, boxes, source, targets, packet, reason, lt)
    requires q in boxes[|targets|].queue && q !in v.box.queue
    ensures Aimed(q, targets, packet, reason) && Passes(v.ifs, source, q.interface)
    decreases |targets|
  {
    hide Interfaces.WellFormed, Enqueues, Passes, Accepts;
    if targets != [] {
      var n := |targets| - 1;
      if q in boxes[n].queue {
        BroadcastRows(v, boxes[..n + 1], source, targets[..n], packet, reason, lt, q);
        var s :| 0 <= s < n && targets[..n][s] == Some(q.interface);
        assert targets[s] == Some(q.interface);
      } else if targets[n].Some? {
        OnlyOneRow(boxes[n], boxes[n + 1], v.ifs, v.depth, targets[n].value, packet, reason, lt,
                   Takes(v.(box := boxes[n]), source, targets[n].value, packet, reason), q);
      }
    }
  }

  /** A broadcast reaches only registered interfaces that may pass it on, and, if it is local, only local clients. */
  lemma BroadcastAudience(v: View, w: View, source: byte, localOnly: bool, packet: Packet, reason: Reason, q: Queued)
    requires Inv(v) && v.ifs.Router? && CallsOut(v, w.box, source, localOnly, packet, reason)
    requires q in w.box.queue && q !in v.box.queue
    ensures v.ifs.WellFormed() && v.ifs.Config(q.interface).Some? && q.packet == packet && q.reason == reason
    ensures var c := v.ifs.Config(q.interface).value;
      && (localOnly ==> c.role.LocalClient?)
      && (if q.interface == source then c.direction.repeat else c.direction.forward)
  {
    hide Inv, Broadcasts, Given;
    assert v.ifs.WellFormed() by { WellFormedHere(v); }
    var lt, boxes :|
      && Broadcasts(v, boxes, source, Listeners(v.ifs, localOnly), packet, reason, lt)
      && Gated(v, packet, reason, lt) && |boxes| == SLOTS + 1 && w.box == boxes[SLOTS];
    BroadcastRows(v, boxes, source, Listeners(v.ifs, localOnly), packet, reason, lt, q);
    var s :| 0 <= s < SLOTS && Listeners(v.ifs, localOnly)[s] == Some(q.interface);
    assert Listener(v.ifs, localOnly, s) == Some(q.interface);
  }

  lemma WellFormedHere(v: View)
    requires Inv(v)
    ensures v.ifs.WellFormed()
  {
    hide TabsOk, BoxOk, AllSealed, Evidenced, Thrifty, Paced, Numbered;
  }

  lemma {:induction false} AnsweredRows(v: View, boxes: seq<Box>, targets: seq<Option<byte>>, packet: Packet,
                                        reason: Reason, q: Queued)
    requires v.ifs.WellFormed() && Answered(v, boxes, targets, packet, reason)
    requires q in boxes[|targets|].queue && q !in v.box.queue
    ensures Aimed(q, targets, packet, reason)
    decreases |targets|
  {
    hide Interfaces.WellFormed, Enqueues, Accepts, Given;
    if targets != [] {
      var n := |targets| - 1;
      if q in boxes[n].queue {
        AnsweredRows(v, boxes[..n + 1], targets[..n], packet, reason, q);
        var s :| 0 <= s < n && targets[..n][s] == Some(q.interface);
        assert targets[s] == Some(q.interface);
      } else if targets[n].Some? {
        var ok := Accepts(v.(box := boxes[n]), targets[n].value, packet, reason);
        var lt :| Given(v, packet, reason, lt) &&
          Enqueues(boxes[n], boxes[n + 1], v.ifs, v.depth, targets[n].value, packet, reason, lt, ok);
        OnlyOneRow(boxes[n], boxes[n + 1], v.ifs, v.depth, targets[n].value, packet, reason, lt, ok, q);
      }
    }
  }

  /** An interface that can be told of an answer that came in on `id`. */
  predicate Waiting(ifs: Interfaces, s: nat, id: byte, target: byte)
    requires ifs.WellFormed()
  {
    && s < SLOTS && ifs.FactsAt(s).id == target && ifs.FactsAt(s).Outbound()
    && (target == id ==> !ifs.FactsAt(s).local && !ifs.FactsAt(s).mode.Roaming?)
  }

  /**
   The end of a discovery tells only those that asked: every row it queues goes to an interface whose slot
   waits, and back to where the answer came from only if that is no local client and does not roam.
   */
  lemma AnswerAudience(v: View, c: Box, owner: Row<Requesters>, boxes: seq<Box>, p: Packet, hops: byte, id: byte,
                       q: Queued)
    requires v.ifs.WellFormed() && Settles(v, c, Some(owner), boxes, p, hops, id)
    requires q in c.queue && q !in v.box.queue
    ensures exists s: nat :: s in owner.body && Waiting(v.ifs, s, id, q.interface)
    ensures q.reason == PathResponse && q.packet.header.context == CONTEXT_PATH_RESPONSE
  {
    hide Interfaces.WellFormed, Answered, Interfaces.FactsAt;
    var response := Reframe(p, p.header.destination, hops, v.own.transport, CONTEXT_PATH_RESPONSE);
    var targets := Askers(v.ifs, owner.body, id);
    if response.Some? {
      AnsweredRows(v, boxes, targets, response.value, PathResponse, q);
      var s :| 0 <= s < |targets| && targets[s] == Some(q.interface);
      assert Asker(v.ifs, owner.body, id, s) == Some(q.interface);
      assert Waiting(v.ifs, s, id, q.interface);
    }
  }

  /** A search lives for the request gate, which is within the time its discovery is given. */
  lemma SearchIsBrief(ifs: Interfaces, id: byte, identity: u64, now: u64)
    requires ifs.WellFormed()
    ensures var lt := SearchLifetime(ifs, id, identity, now);
      && lt.enqueued == now && lt.expires == SatAdd(now, 15_000) && lt.path == 0 && lt.state == DiscoveryOf(identity)
      && lt.expires <= SatAdd(now, DiscoveryTimeout(ifs.Slowest(id, 0)))
  {
    hide Interfaces.WellFormed, Interfaces.Slowest;
  }

  /** The modes of interfaces that unknown destinations are searched for on behalf of. */
  const SEEKING: set<Mode> := {AccessPoint, Gateway, Roaming, Internal}

  /** An interface that is there and can be sent to: by its registration, or by what the host has said. */
  predicate CanBeTold(ifs: Interfaces, id: byte)
    requires ifs.WellFormed()
  {
    match ifs
    case Router(_, _, _, _) =>
      ifs.Config(id).Some? && ifs.Config(id).value.online && ifs.Config(id).value.direction.outbound
    case Endpoint(facts) => ifs.Slot(id) < SLOTS && facts[ifs.Slot(id)].sendable && facts[ifs.Slot(id)].generation != 0
  }

  /** A discovery is begun or joined for those that can be answered, with transport enabled, and for no other. */
  lemma SearchesOnBehalf(v: View, w: View, wanted: Hash, request: Packet, id: byte, m: Mode, capacity: nat, now: u64)
    requires v.ifs.WellFormed() && Looks(v, w, wanted, request, id, m, capacity, now)
    requires !(v.ifs.Router? && v.ifs.IsLocalClient(id))
    ensures v.enabled && m in SEEKING && CanBeTold(v.ifs, id) ==>
      exists begun :: Begins(v.tabs.disc, v.tabs.lastDisc, capacity, wanted, v.ifs.Slot(id), now,
                             DiscoveryTimeout(v.ifs.Slowest(id, 0)), w.tabs.disc, w.tabs.lastDisc, begun)
    ensures !(v.enabled && m in SEEKING && CanBeTold(v.ifs, id)) ==>
      w.tabs.disc == v.tabs.disc && w.tabs.lastDisc == v.tabs.lastDisc
  {
    hide CallsOut, Begins, Seeks, DiscoveryTimeout, Interfaces.Slowest;
  }

  /**
   The time a discovery is given covers a round trip on every interface its search can go out on, and counts the
   interface it came in on only if that repeats.
   */
  lemma SearchTimeCovers(ifs: Interfaces, requester: byte, id: byte)
    requires ifs.WellFormed() && ifs.Router? && ifs.Online(id) && Passes(ifs, requester, id)
    requires ifs.Config(id).value.bitrate > 0
    ensures var rate := Min(ifs.Config(id).value.bitrate, U32_MAX);
      DiscoveryTimeout(ifs.Slowest(requester, 0)) >= 6_000 + RoundTripMs(rate)
  {
    hide RoundTripMs;
    var s := ifs.Slot(id);
    assert ifs.Searches(requester, s);
    Slower(ifs.Slowest(requester, 0), ifs.FactsAt(s).bitrate);
  }

  lemma Slower(a: nat, b: nat)
    requires 0 < a <= b
    ensures RoundTripMs(a) >= RoundTripMs(b)
  {
    var x, y := if a < 5 then 5 else a, if b < 5 then 5 else b;
    var p, q := RoundTripMs(a), RoundTripMs(b);
    if p < q {
      Scale(x, p, q - 1);
      Scale(q - 1, x, y);
    }
  }

  lemma OwnRateCountsOnlyRepeated(ifs: Interfaces, requester: byte, s: nat)
    requires ifs.WellFormed() && s < SLOTS && ifs.Searches(requester, s) && ifs.FactsAt(s).id == requester
    ensures ifs.Config(requester).Some? && ifs.Config(requester).value.direction.repeat
  {
  }

  // --- Seen before, and one's own ---------------------------------------------------------------

  /** Traffic of a relayed link, and what sets links up, is not looked up with the rest: it would be lost. */
  lemma LinksAreLookedUpElsewhere(v: View, w: View, p: Packet, localLink: Option<Hash>, capacity: nat, duplicate: bool,
                                  g: u64, now: u64)
    requires LooksUp(v, w, p, localLink, capacity, duplicate, now)
    requires OnLink(v, p, g, now) || p.header.flags.packetType.LinkRequest? || p.header.context == CONTEXT_LRPROOF
    ensures !duplicate && w == v
  {
    assert OnLink(v, p, g, now) ==> g in LiveAt(v.tabs.links, now);
  }

  /** Announces are heard again and again: it is the routes that decide what is new. */
  lemma AnnouncesAreHeardAgain(v: View, w: View, p: Packet, localLink: Option<Hash>, capacity: nat, duplicate: bool,
                               now: u64)
    requires LooksUp(v, w, p, localLink, capacity, duplicate, now)
    requires p.header.flags.packetType.Announce? && p.header.flags.destinationType.Single?
    ensures !duplicate
  {
    hide Exempt;
  }

  /** Traffic for the host's own destinations and links is the host's: nothing of it is passed on. */
  lemma OwnTrafficStays(met: View, seen: View, w: View, p: Packet, id: byte, m: Mode, localLink: Option<Hash>,
                        admitted: bool, stored: Option<Hash>, c: Capacities, r: Action, now: u64)
    requires met.ifs.WellFormed()
    requires Handles(met, seen, w, p, id, m, localLink, admitted, stored, c, r, now)
    requires var f, d := p.header.flags, p.header.destination;
      || (f.packetType in {Data, LinkRequest} && f.destinationType.Single? && Destination(d) in met.own.local)
      || (f.packetType.Data? && f.destinationType.Link? && LocalLink(d) in met.own.local)
    ensures r in {Duplicate, LocalEndpoint} && w.box == met.box && w == met.(tabs := met.tabs.(hashes := w.tabs.hashes))
  {
    hide Interfaces.WellFormed, Deals, Exempt, Notes;
  }
}
