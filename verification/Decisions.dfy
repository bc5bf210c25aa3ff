/**
 When a node does what it does: the exact conditions, on the state a frame meets, under which the frame
 goes on, and the frame and lifetime it goes on with.
 */
module Decisions {
  import opened Base
  import opened Rows
  import opened Generations
  import opened RowTables
  import opened Wire
  import opened Signalling
  import opened Paths
  import opened Announces
  import opened Interfaces
  import opened Discovery
  import opened Rebroadcast
  import opened NodeState
  import opened Outbound
  import opened Tables
  import opened NodeInvariants
  import opened NodeSteps
  import opened NodeEffects
  import opened NodeRegistry

  // --- Budgets and permissions ------------------------------------------------------------------

  /** What the fixed radio profile leaves a clear packet. */
  function ProfileMtu(tag: nat): nat {
    Min(MTU, if tag <= LORA_WIRE_MAX then LORA_WIRE_MAX - tag else 0)
  }

  /** `interface_clear_mtu`: the budget of a known interface, else the fixed radio profile's. */
  function Budget(ifs: Interfaces, tag: nat, id: byte): nat
    requires ifs.WellFormed()
  {
    ifs.ClearMtu(id, ProfileMtu(tag))
  }

  /** `require_link_capacity`. */
  predicate CarriesLinks(ifs: Interfaces, tag: nat, id: byte)
    requires ifs.WellFormed()
  {
    (ifs.Router? ==> ifs.Slot(id) < SLOTS) && Budget(ifs, tag, id) >= MTU
  }

  /** Whether a frame that came in on `source` may go out on `target`. */
  predicate Passes(ifs: Interfaces, source: byte, target: byte)
    requires ifs.WellFormed()
  {
    ifs.Router? ==>
      && ifs.Config(target).Some?
      && if source == target then ifs.Config(target).value.direction.repeat
        else ifs.Config(target).value.direction.forward
  }

  /** `validate_transit_lrproof`. */
  predicate Verified(env: Env, ifs: Interfaces, tag: nat, p: Packet, link: Row<LinkBody>)
    requires ifs.WellFormed()
  {
    && Parses(p.payload, PROOF_KEYS) && SignalOf(p.payload, PROOF_KEYS).mode == link.body.mode
    && SignalOf(p.payload, PROOF_KEYS).EffectiveMtu().value <= link.body.mtuCeiling
    && CarriesLinks(ifs, tag, link.body.receiving) && CarriesLinks(ifs, tag, link.body.outbound)
    && env.verify(link.body.signingKey, Signed(link.key, link.body.signingKey, p.payload), p.payload[..SIGNATURE])
  }

  lemma Attested(env: Env, ifs: Interfaces, tag: nat, p: Packet, hops: byte, id: byte, link: Row<LinkBody>, now: u64)
    requires ifs.WellFormed() && Verified(env, ifs, tag, p, link) && link.key == p.header.destination
    requires p.header.flags.packetType.Proof? && p.header.context == CONTEXT_LRPROOF
    requires link.body.outbound == id && link.body.remainingHops == hops && IsKey(link.body.signingKey)
    ensures Attests(env, Ingested(p, id, hops, now), link)
  {
  }

  /** Whether a frame is admitted to the queue for an interface. */
  ghost predicate Accepts(v: View, id: byte, packet: Packet, reason: Reason)
    requires v.ifs.WellFormed()
  {
    && v.ifs.Online(id)
    && packet.Size() <= Budget(v.ifs, v.own.tag, id) && v.env.wraps(id, packet)
    && HasRoom(v.box, v.ifs, v.depth, id, reason)
  }

  ghost predicate Takes(v: View, source: byte, target: byte, packet: Packet, reason: Reason)
    requires v.ifs.WellFormed()
  {
    Passes(v.ifs, source, target) && Accepts(v, target, packet, reason)
  }

  /** Admission depends on queue, interfaces and settings alone. */
  lemma SameTaking(v: View, w: View, source: byte, target: byte, packet: Packet, reason: Reason)
    requires v.ifs.WellFormed() && w.box == v.box && w.ifs == v.ifs && w.own == v.own && w.env == v.env
    requires w.depth == v.depth
    ensures Takes(w, source, target, packet, reason) == Takes(v, source, target, packet, reason)
  {
    hide HasRoom, Passes, Budget, Interfaces.WellFormed;
  }

  /** The lifetime `packet_lifetime` gives a frame, from the live route and link of its destination. */
  ghost predicate Given(v: View, packet: Packet, reason: Reason, lt: Lifetime)
    requires v.ifs.WellFormed()
  {
    exists pg, path, lg, link ::
      && Found(v.tabs.paths, packet.header.destination, v.clock, pg, path)
      && Found(v.tabs.links, packet.header.destination, v.clock, lg, link)
      && lt == LifetimeFor(v.clock, packet, reason, if path.Some? then v.ifs.Bitrate(path.value.body.interface)
        else 0, pg, path, lg, link)
  }

  // --- Data ---------------------------------------------------------------------------------------

  /** Data for this relay, with a live route to go along and an incarnation left for the way back. */
  ghost predicate Routable(v: View, p: Packet, hops: byte, g: u64, capacity: nat, now: u64) {
    && v.enabled && p.header.transport == Some(v.own.transport)
    && g in v.tabs.paths && v.tabs.paths[g].key == p.header.destination && now < v.tabs.paths[g].expires
    && ForwardAlong(p, hops, v.tabs.paths[g].body).Onward?
    && NextGeneration(capacity, v.tabs.lastReverse) != 0
  }

  ghost predicate Relays(v: View, p: Packet, hops: byte, id: byte, g: u64, capacity: nat, now: u64)
    requires v.ifs.WellFormed()
  {
    && Routable(v, p, hops, g, capacity, now)
    && Takes(v, id, v.tabs.paths[g].body.interface, ForwardAlong(p, hops, v.tabs.paths[g].body).packet,
      TransportForward)
  }

  /**
   A data frame went on: rewritten along the live route `g`, it is queued under the very incarnation of
   the one reverse entry recorded for it, and its route was used.
   */
  ghost predicate RelaysData(v: View, w: View, p: Packet, hops: byte, id: byte, g: u64, lt: Lifetime, capacity: nat,
                             now: u64) {
    && v.ifs.WellFormed() && Routable(v, p, hops, g, capacity, now)
    && (var path := v.tabs.paths[g].body;
        var sent := ForwardAlong(p, hops, path).packet;
        && Enqueues(v.box, w.box, v.ifs, v.depth, path.interface, sent, TransportForward, lt, true)
        && (exists s :: Given(v, sent, TransportForward, lt.(state := s)))
        && w.tabs == v.tabs.(paths := w.tabs.paths, reverse := w.tabs.reverse, lastReverse := w.tabs.lastReverse)
        && Touches(v.tabs.paths, p.header.destination, now, w.tabs.paths)
        && lt.state == ReverseOf(w.tabs.lastReverse) && v.tabs.lastReverse < w.tabs.lastReverse
        && w.tabs.lastReverse in w.tabs.reverse
        && (var row := Row(v.env.proofHash(CoreOf(p.header, p.payload)), SatAdd(now, REVERSE_TIMEOUT_MS),
          ReverseBody(id, path.interface));
            && w.tabs.reverse[w.tabs.lastReverse] == row
            && Inserts(v.tabs.reverse, v.tabs.lastReverse, capacity, row, now, w.tabs.reverse, w.tabs.lastReverse)))
  }

  lemma GenerationLeft(v: View, p: Packet, hops: byte, g: u64, capacity: nat, now: u64)
    requires Routable(v, p, hops, g, capacity, now)
    ensures NextGeneration(capacity, v.tabs.lastReverse) != 0
  {
    hide ForwardAlong;
  }

  lemma Unrouted(v: View, key: Hash, now: u64, path: Option<PathRow>)
    requires path.None? ==> !HasKey(LiveAt(v.tabs.paths, now), key)
    ensures path.None? ==>
      forall g :: g in v.tabs.paths && v.tabs.paths[g].key == key ==> now >= v.tabs.paths[g].expires
  {
    assert forall g :: g in v.tabs.paths && now < v.tabs.paths[g].expires ==> g in LiveAt(v.tabs.paths, now);
  }

  lemma OneRoute(v: View, key: Hash, now: u64, g: u64, path: Option<PathRow>)
    requires Minted(v.tabs.paths, v.tabs.lastPath) && Found(v.tabs.paths, key, now, g, path) && path.Some?
    ensures forall h :: h in v.tabs.paths && v.tabs.paths[h].key == key ==> h == g
  {
  }

  lemma NotQueued(v: View, w: View, id: byte, packet: Packet, reason: Reason, lt: Lifetime, now: u64)
    requires v.ifs.WellFormed() && w == v.(box := w.box)
    requires Enqueues(v.box, w.box, v.ifs, v.depth, id, packet, reason, lt, false)
    ensures LeavesNoTrace(v, w, now)
  {
    hide Interfaces.WellFormed, LeavesNoTrace;
    Same(v, w, now);
  }

  /**
   Send before record, for data: the frame at the back of the queue names the incarnation of exactly
   one new reverse entry, whose way it is.
   */
  lemma RelayRecordsExactlyOne(v: View, w: View, p: Packet, hops: byte, id: byte, g: u64, lt: Lifetime, capacity: nat,
                               now: u64)
    requires Inv(v) && RelaysData(v, w, p, hops, id, g, lt, capacity, now) && v.box.capacity > 0
    ensures w.box.queue != []
    ensures var q := w.box.queue[|w.box.queue| - 1];
      && Onward(q.packet) == ForwardAlong(p, hops, v.tabs.paths[g].body)
      && q.interface == v.tabs.paths[g].body.interface && q.lifetime.state.ReverseOf?
      && (forall h :: h in w.tabs.reverse && h > v.tabs.lastReverse <==> h == q.lifetime.state.generation)
      && q.lifetime.state.generation in w.tabs.reverse
      && w.tabs.reverse[q.lifetime.state.generation].body == ReverseBody(id, q.interface)
  {
    hide Enqueues, BoxOk, AllSealed, Evidenced, Thrifty, Paced, Numbered, Routed, CacheAgrees, WellScheduled, Touches,
      Interfaces.WellFormed, Inserts, Given, ForwardAlong;
    var path := v.tabs.paths[g].body;
    AdmittedLast(v.box, w.box, v.ifs, v.depth, path.interface, ForwardAlong(p, hops, path).packet, TransportForward,
      lt);
    var row := Row(v.env.proofHash(CoreOf(p.header, p.payload)), SatAdd(now, REVERSE_TIMEOUT_MS),
      ReverseBody(id, path.interface));
    EntriesAfterInsert(v.tabs.reverse, v.tabs.lastReverse, capacity, row, now, w.tabs.reverse, w.tabs.lastReverse);
  }

  lemma RelaysOnly(v: View, p: Packet, hops: byte, id: byte, g: u64, capacity: nat, now: u64)
    requires v.ifs.WellFormed() && Minted(v.tabs.paths, v.tabs.lastPath) && Routable(v, p, hops, g, capacity, now)
    ensures (exists h :: Relays(v, p, hops, id, h, capacity, now)) <==> Relays(v, p, hops, id, g, capacity, now)
  {
    hide Takes, Interfaces.WellFormed, ForwardAlong;
    forall h | Relays(v, p, hops, id, h, capacity, now) ensures h == g {
      assert v.tabs.paths[h].key == v.tabs.paths[g].key;
    }
  }

  // --- Links ------------------------------------------------------------------------------------

  /** A request for this relay and for a new link, with a slot and an incarnation left for it. */
  ghost predicate LinkFree(v: View, p: Packet, capacity: nat, now: u64) {
    && v.enabled && p.header.transport == Some(v.own.transport)
    && !HasKey(LiveAt(v.tabs.links, now), v.env.linkId(LinkCore(p)))
    && |LiveAt(v.tabs.links, now)| < capacity && NextGeneration(capacity, v.tabs.lastLink) != 0
  }

  /** A live route between interfaces that can carry links, along which the request can be rewritten. */
  ghost predicate LinkRoute(v: View, p: Packet, hops: byte, id: byte, g: u64, now: u64)
    requires v.ifs.WellFormed()
  {
    && g in v.tabs.paths && v.tabs.paths[g].key == p.header.destination && now < v.tabs.paths[g].expires
    && RequestAlong(p, hops, v.tabs.paths[g].body).Some?
    && CarriesLinks(v.ifs, v.own.tag, id) && CarriesLinks(v.ifs, v.own.tag, v.tabs.paths[g].body.interface)
  }

  ghost predicate Links(v: View, p: Packet, hops: byte, id: byte, g: u64, capacity: nat, now: u64)
    requires v.ifs.WellFormed()
  {
    && LinkFree(v, p, capacity, now) && LinkRoute(v, p, hops, id, g, now)
    && Takes(v, id, v.tabs.paths[g].body.interface, RequestAlong(p, hops, v.tabs.paths[g].body).value, TransportForward)
  }

  /** Expired links bear on neither the route nor admission. */
  lemma SameLinkRoute(v: View, w: View, p: Packet, hops: byte, id: byte, now: u64)
    requires v.ifs.WellFormed() && w == v.(tabs := v.tabs.(links := w.tabs.links))
    ensures forall h :: LinkRoute(w, p, hops, id, h, now) == LinkRoute(v, p, hops, id, h, now)
  {
    hide RequestAlong, CarriesLinks, Interfaces.WellFormed;
  }

  lemma SameOpening(v: View, w: View, p: Packet, hops: byte, id: byte, g: u64, sent: Packet, row: Row<LinkBody>,
                    capacity: nat, now: u64)
    requires v.ifs.WellFormed() && w == v.(tabs := v.tabs.(links := LiveAt(v.tabs.links, now)))
    requires Minted(v.tabs.paths, v.tabs.lastPath)
    requires LinkFree(v, p, capacity, now) && LinkRoute(w, p, hops, id, g, now)
    requires Opening(w, p, hops, id, g, sent, row, now)
    ensures Opening(v, p, hops, id, g, sent, row, now) && row.body.receiving == id && !row.body.validated
    ensures !HasKey(w.tabs.links, row.key) && |w.tabs.links| < capacity
    ensures NextGeneration(capacity, w.tabs.lastLink) != 0
    ensures (exists h :: Links(v, p, hops, id, h, capacity, now)) <==>
      Takes(w, row.body.receiving, row.body.outbound, sent, TransportForward)
  {
    hide RequestAlong, CarriesLinks, Interfaces.WellFormed, Takes, LinkCore;
    LinksOnly(v, p, hops, id, g, capacity, now);
    SameTaking(v, w, id, row.body.outbound, sent, TransportForward);
  }

  lemma LinksOnly(v: View, p: Packet, hops: byte, id: byte, g: u64, capacity: nat, now: u64)
    requires v.ifs.WellFormed() && Minted(v.tabs.paths, v.tabs.lastPath) && LinkRoute(v, p, hops, id, g, now)
    ensures (exists h :: Links(v, p, hops, id, h, capacity, now)) <==> Links(v, p, hops, id, g, capacity, now)
  {
    hide Takes, Interfaces.WellFormed, RequestAlong, LinkFree, CarriesLinks;
    forall h | Links(v, p, hops, id, h, capacity, now) ensures h == g {
      assert v.tabs.paths[h].key == v.tabs.paths[g].key;
    }
  }

  // --- Proofs and link traffic ------------------------------------------------------------------

  /** A frame as it goes on along a link or back along the way it came. */
  function Passed(p: Packet, hops: byte): Packet {
    p.(header := p.header.(hops := hops))
  }

  /** What a frame's token follows does not change with its hop count. */
  lemma PassedAlike(p: Packet, hops: byte, reason: Reason)
    ensures OnLinkOnly(Passed(p, hops), reason) == OnLinkOnly(p, reason)
  {
  }

  ghost predicate Unseen(v: View, p: Packet, now: u64) {
    v.env.packetHash(CoreOf(p.header, p.payload)) !in LiveRows(v.tabs.hashes, now)
  }

  /** The hash a duplicate of link traffic would be known by; contexts that repeat are not tracked. */
  function Tracked(env: Env, p: Packet): Option<Hash> {
    if Repeats(p.header.context) then None else Some(env.packetHash(CoreOf(p.header, p.payload)))
  }

  /** What becomes of the hash list: a frame that went on is in it, if there is room for one at all. */
  ghost predicate Notes(m: Table<()>, capacity: nat, hash: Option<Hash>, now: u64, m': Table<()>) {
    match hash
    case None => m' == m
    case Some(h) => exists isNew :: Remembers(m, capacity, Row(h, SatAdd(now, HASHLIST_LIFETIME_MS), ()), now, m',
      isNew)
  }

  lemma NotesLive(m: Table<()>, capacity: nat, hash: Option<Hash>, now: u64, m': Table<()>)
    requires Notes(LiveRows(m, now), capacity, hash, now, m') && hash.Some?
    ensures Notes(m, capacity, hash, now, m')
  {
    assert LiveRows(LiveRows(m, now), now) == LiveRows(m, now);
    var isNew :| Remembers(LiveRows(m, now), capacity, Row(hash.value, SatAdd(now, HASHLIST_LIFETIME_MS), ()), now, m',
      isNew);
    assert Remembers(m, capacity, Row(hash.value, SatAdd(now, HASHLIST_LIFETIME_MS), ()), now, m', isNew);
  }

  /** A proof for the live link `g`, from its far side and verified. */
  ghost predicate Proven(v: View, p: Packet, hops: byte, id: byte, g: u64, now: u64)
    requires v.ifs.WellFormed()
  {
    && g in v.tabs.links && v.tabs.links[g].key == p.header.destination && now < v.tabs.links[g].expires
    && v.tabs.links[g].body.outbound == id && v.tabs.links[g].body.remainingHops == hops
    && Verified(v.env, v.ifs, v.own.tag, p, v.tabs.links[g])
  }

  ghost predicate Validates(v: View, p: Packet, hops: byte, id: byte, g: u64, now: u64)
    requires v.ifs.WellFormed()
  {
    && Proven(v, p, hops, id, g, now) && Unseen(v, p, now)
    && Takes(v, v.tabs.links[g].body.outbound, v.tabs.links[g].body.receiving, Passed(p, hops), ProofReturn)
  }

  lemma Unlinked(v: View, key: Hash, now: u64, g: u64, link: Option<Row<LinkBody>>)
    requires Minted(v.tabs.links, v.tabs.lastLink) && Found(v.tabs.links, key, now, g, link)
    ensures forall h ::
      h in v.tabs.links && v.tabs.links[h].key == key && now < v.tabs.links[h].expires ==> link.Some? && h == g
  {
    assert forall h :: h in v.tabs.links && now < v.tabs.links[h].expires ==> h in LiveAt(v.tabs.links, now);
  }

  /** The link found for a proof decides. */
  lemma ProofDecided(v: View, p: Packet, hops: byte, id: byte, g: u64, link: Option<Row<LinkBody>>, now: u64)
    requires Inv(v) && Found(v.tabs.links, p.header.destination, now, g, link)
    ensures (exists h :: Validates(v, p, hops, id, h, now)) <==>
      && link.Some? && link.value.body.outbound == id && link.value.body.remainingHops == hops
      && Verified(v.env, v.ifs, v.own.tag, p, link.value) && Unseen(v, p, now)
      && Takes(v, id, link.value.body.receiving, Passed(p, hops), ProofReturn)
  {
    hide Verified, Takes, Unseen, Interfaces.WellFormed, BoxOk, AllSealed, Evidenced, Thrifty, Paced, Numbered, Routed,
      CacheAgrees, WellScheduled;
    Unlinked(v, p.header.destination, now, g, link);
    assert Validates(v, p, hops, id, g, now) || !Validates(v, p, hops, id, g, now);
  }

  /** What a verified proof comes to, once the frames seen have been looked through. */
  lemma ProofSettles(v: View, w: View, x: View, p: Packet, hops: byte, id: byte, hash: Hash, capacity: nat, sent: bool,
                     lt: Lifetime, g: u64, now: u64)
    requires Inv(v) && w == v.(tabs := v.tabs.(hashes := LiveRows(v.tabs.hashes, now))) && LeavesNoTrace(v, w, now)
    requires |v.history| > 0 && g in v.tabs.links && now < v.tabs.links[g].expires
    requires Attests(v.env, Ingested(p, id, hops, now), v.tabs.links[g])
    requires if sent then
               && Enqueues(w.box, x.box, w.ifs, w.depth, v.tabs.links[g].body.receiving, Passed(p, hops), ProofReturn,
                           lt, true)
               && lt == LinkToken(now, SatAdd(now, LINK_TIMEOUT_MS), g)
               && x.tabs == w.tabs.(links := x.tabs.links, hashes := x.tabs.hashes)
               && Notes(w.tabs.hashes, capacity, Some(hash), now, x.tabs.hashes)
               && Renews(w.tabs.links, v.tabs.links[g].key, SatAdd(now, LINK_TIMEOUT_MS), true, now, x.tabs.links)
               && x.evidence == w.evidence[g := |w.history| - 1]
             else x == w.(box := x.box) && x.box.queue == w.box.queue && x.box.identity == w.box.identity
    ensures sent ==> ValidatesLink(v, x, p, hops, id, lt, g, now)
    ensures sent ==> Notes(v.tabs.hashes, capacity, Some(hash), now, x.tabs.hashes)
    ensures !sent ==> LeavesNoTrace(v, x, now)
  {
    hide BoxOk, AllSealed, Evidenced, Thrifty, Paced, Numbered, Routed, CacheAgrees, WellScheduled, Attests, Enqueues,
      Renews, Notes, LeavesNoTrace, ValidatesLink, Interfaces.WellFormed;
    if sent {
      NotesLive(v.tabs.hashes, capacity, Some(hash), now, x.tabs.hashes);
      ValidatesAfter(v, w, x, p, hops, id, lt, g, now);
    } else {
      NoTraceAfter(v, w, x, now);
    }
  }

  /** The live reverse entry `g` leads back from the interface a proof came in on. */
  ghost predicate WayBack(v: View, key: Hash, id: byte, g: u64, now: u64) {
    && g in v.tabs.reverse && v.tabs.reverse[g].key == key && now < v.tabs.reverse[g].expires
    && v.tabs.reverse[g].body.outbound == id
  }

  ghost predicate Returns(v: View, p: Packet, hops: byte, id: byte, g: u64, now: u64)
    requires v.ifs.WellFormed()
  {
    && WayBack(v, p.header.destination, id, g, now)
    && Takes(v, id, v.tabs.reverse[g].body.receiving, Passed(p, hops), ProofReturn)
  }

  lemma WayParts(v: View, key: Hash, id: byte, g: u64, now: u64)
    requires Inv(v) && WayBack(v, key, id, g, now)
    ensures 1 <= g && g in LiveAt(v.tabs.reverse, now) && v.tabs.reverse[g].key == key
  {
    hide Interfaces.WellFormed, BoxOk, AllSealed, Evidenced, Thrifty, Paced, Numbered, Routed, CacheAgrees,
      WellScheduled;
  }

  /** The way back found for a proof decides. */
  lemma ReturnDecided(v: View, p: Packet, hops: byte, id: byte, g: u64, way: Option<Row<ReverseBody>>, now: u64)
    requires Inv(v)
    requires if way.None? then forall h :: !WayBack(v, p.header.destination, id, h, now)
             else WayBack(v, p.header.destination, id, g, now) && v.tabs.reverse[g] == way.value
    ensures (exists h :: Returns(v, p, hops, id, h, now)) <==>
      way.Some? && Takes(v, id, way.value.body.receiving, Passed(p, hops), ProofReturn)
  {
    hide Takes, Interfaces.WellFormed, BoxOk, AllSealed, Evidenced, Thrifty, Paced, Numbered, Routed, CacheAgrees,
      WellScheduled;
    if way.Some? && Returns(v, p, hops, id, g, now) {
      assert exists h :: Returns(v, p, hops, id, h, now);
    }
  }

  /** A delivery proof went back the way its packet came, for no longer than the entry it used up would have lived. */
  ghost predicate ReturnsProof(v: View, w: View, p: Packet, hops: byte, id: byte, lt: Lifetime, g: u64, now: u64) {
    && v.ifs.WellFormed() && WayBack(v, p.header.destination, id, g, now)
    && Enqueues(v.box, w.box, v.ifs, v.depth, v.tabs.reverse[g].body.receiving, Passed(p, hops), ProofReturn, lt, true)
    && lt.expires == Earlier(v.tabs.reverse[g].expires, SatAdd(now, OUTBOUND_MAX_AGE_MS))
    && (exists e: u64 :: Given(v, Passed(p, hops), ProofReturn, lt.(expires := e)))
    && w.tabs == v.tabs.(reverse := LiveAt(v.tabs.reverse, now) - {g})
  }

  lemma Returned(v: View, w: View, x: View, p: Packet, hops: byte, id: byte, lt: Lifetime, e: u64, g: u64,
                 way: Row<ReverseBody>, now: u64)
    requires v.ifs.WellFormed() && WayBack(v, p.header.destination, id, g, now) && v.tabs.reverse[g] == way
    requires w == v.(tabs := v.tabs.(reverse := LiveAt(v.tabs.reverse, now) - {g})) && x.tabs == w.tabs
    requires Enqueues(w.box, x.box, w.ifs, w.depth, way.body.receiving, Passed(p, hops), ProofReturn, lt, true)
    requires lt.expires == Earlier(way.expires, SatAdd(now, OUTBOUND_MAX_AGE_MS))
    requires Given(w, Passed(p, hops), ProofReturn, lt.(expires := e))
    ensures ReturnsProof(v, x, p, hops, id, lt, g, now)
  {
    hide Enqueues, Interfaces.WellFormed, Given;
    GivenSame(v, w, Passed(p, hops), ProofReturn, lt.(expires := e));
  }

  /** Lifetimes depend on clock, interfaces, routes and links. */
  lemma GivenSame(v: View, w: View, packet: Packet, reason: Reason, lt: Lifetime)
    requires v.ifs.WellFormed() && w.ifs == v.ifs && w.clock == v.clock
    requires w.tabs.paths == v.tabs.paths && w.tabs.links == v.tabs.links && Given(w, packet, reason, lt)
    ensures Given(v, packet, reason, lt)
  {
    hide Interfaces.WellFormed, LifetimeFor, Interfaces.Bitrate, Found;
    var pg, path, lg, link :|
      && Found(w.tabs.paths, packet.header.destination, w.clock, pg, path)
      && Found(w.tabs.links, packet.header.destination, w.clock, lg, link)
      && lt == LifetimeFor(w.clock, packet, reason, if path.Some? then w.ifs.Bitrate(path.value.body.interface)
        else 0, pg, path, lg, link);
    assert Found(v.tabs.paths, packet.header.destination, v.clock, pg, path);
  }

  lemma Unreturned(v: View, key: Hash, now: u64, g: u64, way: Option<Row<ReverseBody>>)
    requires Minted(v.tabs.reverse, v.tabs.lastReverse) && Found(v.tabs.reverse, key, now, g, way)
    ensures forall h ::
      h in v.tabs.reverse && v.tabs.reverse[h].key == key && now < v.tabs.reverse[h].expires ==> way.Some? && h == g
  {
    assert forall h :: h in v.tabs.reverse && now < v.tabs.reverse[h].expires ==> h in LiveAt(v.tabs.reverse, now);
  }

  /** Traffic of the kind a link carries, for the live link `g`. */
  ghost predicate OnLink(v: View, p: Packet, g: u64, now: u64) {
    && v.enabled && p.header.flags.destinationType.Link? && !p.header.flags.packetType.LinkRequest?
    && p.header.context != CONTEXT_LRPROOF
    && g in v.tabs.links && v.tabs.links[g].key == p.header.destination && now < v.tabs.links[g].expires
  }

  predicate FitsLink(ifs: Interfaces, tag: nat, p: Packet, link: LinkBody)
    requires ifs.WellFormed()
  {
    p.Size() <= link.mtuCeiling && CarriesLinks(ifs, tag, link.receiving) && CarriesLinks(ifs, tag, link.outbound)
  }

  /** Link traffic this relay deals with, whether or not it goes on. */
  ghost predicate Claims(v: View, p: Packet, hops: byte, id: byte, g: u64, now: u64)
    requires v.ifs.WellFormed()
  {
    && OnLink(v, p, g, now)
    && (FitsLink(v.ifs, v.own.tag, p, v.tabs.links[g].body) ==> !LinkWay(v.tabs.links[g].body, hops, id).NotOurs?)
  }

  ghost predicate Carries(v: View, p: Packet, hops: byte, id: byte, reason: Reason, g: u64, now: u64)
    requires v.ifs.WellFormed()
  {
    && OnLink(v, p, g, now) && FitsLink(v.ifs, v.own.tag, p, v.tabs.links[g].body)
    && LinkWay(v.tabs.links[g].body, hops, id).Toward? && (Repeats(p.header.context) || Unseen(v, p, now))
    && Takes(v, id, LinkWay(v.tabs.links[g].body, hops, id).target, Passed(p, hops), reason)
  }

  /** The link found for traffic decides. */
  lemma TrafficDecided(v: View, p: Packet, hops: byte, id: byte, reason: Reason, g: u64, link: Option<Row<LinkBody>>,
                       now: u64)
    requires Inv(v) && Found(v.tabs.links, p.header.destination, now, g, link)
    requires v.enabled && p.header.flags.destinationType.Link? && !p.header.flags.packetType.LinkRequest?
    requires p.header.context != CONTEXT_LRPROOF
    ensures (exists h :: Claims(v, p, hops, id, h, now)) <==>
      link.Some? && (FitsLink(v.ifs, v.own.tag, p, link.value.body) ==> !LinkWay(link.value.body, hops, id).NotOurs?)
    ensures (exists h :: Carries(v, p, hops, id, reason, h, now)) <==>
      && link.Some? && FitsLink(v.ifs, v.own.tag, p, link.value.body) && LinkWay(link.value.body, hops, id).Toward?
      && (Repeats(p.header.context) || Unseen(v, p, now))
      && Takes(v, id, LinkWay(link.value.body, hops, id).target, Passed(p, hops), reason)
  {
    hide FitsLink, Takes, Unseen, LinkWay, Repeats, Interfaces.WellFormed, BoxOk, AllSealed, Evidenced, Thrifty, Paced,
      Numbered, Routed, CacheAgrees, WellScheduled;
    Unlinked(v, p.header.destination, now, g, link);
    assert Claims(v, p, hops, id, g, now) || !Claims(v, p, hops, id, g, now);
    assert Carries(v, p, hops, id, reason, g, now) || !Carries(v, p, hops, id, reason, g, now);
  }

  /** Only link traffic is dealt with as such. */
  lemma NotTraffic(v: View, p: Packet, hops: byte, id: byte, reason: Reason, now: u64)
    requires v.ifs.WellFormed()
    requires !v.enabled || !p.header.flags.destinationType.Link? || p.header.flags.packetType.LinkRequest?
      || p.header.context == CONTEXT_LRPROOF
    ensures forall h :: !Claims(v, p, hops, id, h, now) && !Carries(v, p, hops, id, reason, h, now)
  {
    hide FitsLink, Takes, Unseen, LinkWay, Repeats, Interfaces.WellFormed;
  }

  // --- Announces --------------------------------------------------------------------------------

  /** Whether a neighbour's copy of a scheduled announce ends our own retry of it. */
  predicate Cancels(b: ScheduleBody, wireHops: byte, now: u64) {
    if wireHops == b.hops then b.local + 1 >= LOCAL_REBROADCASTS_MAX
    else (wireHops as int) == Min(b.hops + 1, 255) && now < b.due
  }

  /** The schedule once a copy of an announce has been heard: a retry is cancelled, or the copy counted. */
  ghost predicate Hears(m: Schedule, key: Hash, wireHops: byte, now: u64, m': Schedule) {
    if key !in m || m[key].body.retries == 0 then m' == m
    else
      var b := m[key].body;
      if Cancels(b, wireHops, now) then m' == m - {key}
      else m' == m[key := m[key].(body := b.(local := if wireHops == b.hops then b.local + 1 else b.local))]
  }

  lemma ScheduledByKey(v: View)
    requires Inv(v)
    ensures forall k :: k in v.tabs.schedule ==> v.tabs.schedule[k].key == k
  {
    hide Thrifty, Paced, BoxOk, AllSealed, Evidenced, Numbered, CacheAgrees, Routed, Minted, Interfaces.WellFormed;
  }

  lemma CountedStep(v: View, w: View, key: Hash, now: u64)
    requires Inv(v) && key in v.tabs.schedule
    requires w == v.(tabs := v.tabs.(schedule := RowsTransformed(v.tabs.schedule, Heard(key))))
    ensures Inv(w) && Follows(v, w, now)
    ensures var row := v.tabs.schedule[key];
      w.tabs.schedule == v.tabs.schedule[key := row.(body := row.body.(local := row.body.local + 1))]
  {
    hide Thrifty, Paced, Follows, BoxOk, AllSealed, Evidenced, Numbered, CacheAgrees, Routed, Minted,
      Interfaces.WellFormed;
    HeardStep(v, w, key, now);
  }

  lemma CancelledStep(v: View, w: View, key: Hash, now: u64)
    requires Inv(v)
    requires w == v.(tabs := v.tabs.(schedule := RowsWithout(v.tabs.schedule, (r: ScheduleRow) => r.key == key)))
    ensures Inv(w) && Follows(v, w, now) && w.tabs.schedule == v.tabs.schedule - {key}
  {
    hide Thrifty, Paced, Follows, BoxOk, AllSealed, Evidenced, Numbered, CacheAgrees, Routed, Minted,
      Interfaces.WellFormed;
    RescheduledStep(v, w, now);
  }

  /** The public key a route on record gives for a destination, expired or not. */
  ghost predicate KeyKnown(m: Entries<PathBody>, key: Hash, k: Option<Hash>) {
    match k
    case None => !HasKey(m, key)
    case Some(x) => exists g :: g in m && m[g].key == key && m[g].body.publicKey == x
  }

  /** What an announce tells, if it is not our own, admitted, authentic under the known key, and near enough. */
  function Heeded(env: Env, local: set<LocalSlot>, p: Packet, hops: byte, admitted: bool,
                  key: Option<Hash>): Option<Announced> {
    if Destination(p.header.destination) in local || !admitted || hops >= PATHFINDER_M then None
      else env.announce(p, key)
  }

  /** Whether a new route counts as bulk: learned unasked from a bulk interface. */
  ghost predicate BulkHere(v: View, destination: Hash, id: byte, now: u64)
    requires v.ifs.WellFormed()
  {
    v.ifs.Config(id).Some? && v.ifs.Config(id).value.bulk && !HasKey(LiveAt(v.tabs.disc, now), destination)
  }

  /** The route an announce leads to. */
  function RouteFrom(env: Env, p: Packet, hops: byte, id: byte, m: Mode, a: Announced, bulk: bool, now: u64): PathRow {
    Row(p.header.destination, SatAdd(now, PathLife(m)), PathBody(p.header.transport, hops, id, now, HashOf(env, p),
      a.random, a.publicKey, bulk))
  }

  lemma RouteParts(env: Env, p: Packet, hops: byte, id: byte, m: Mode, a: Announced, bulk: bool, now: u64)
    ensures RouteFrom(env, p, hops, id, m, a, bulk, now).body.interface == id
    ensures RouteFrom(env, p, hops, id, m, a, bulk, now).body.packetHash == HashOf(env, p)
  {
  }

  /** The rebroadcast of a learned announce; none for a path response, or for an announce that no longer fits. */
  function RebroadcastOf(env: Env, transport: Hash, p: Packet, hops: byte, id: byte, now: u64): Option<ScheduleRow> {
    var packet := Reframe(p, p.header.destination, hops, transport, CONTEXT_NONE);
    if p.header.context == CONTEXT_PATH_RESPONSE || packet.None? then None
    else
      var due := SatAdd(now, Jitter(env, HashOf(env, p), transport, 0));
      Some(Row(p.header.destination, SatAdd(now, QUEUED_ANNOUNCE_LIFE_MS),
        ScheduleBody(packet.value, id, due, false, hops, 0, 0, {})))
  }

  // --- Fan-out ----------------------------------------------------------------------------------

  /** A frame was offered to the queue of one interface, under its own lifetime. */
  ghost predicate Offers(v: View, b: Box, c: Box, id: byte, packet: Packet, reason: Reason)
    requires v.ifs.WellFormed()
  {
    exists lt :: Given(v, packet, reason, lt) && Enqueues(b, c, v.ifs, v.depth, id, packet, reason, lt,
      Accepts(v.(box := b), id, packet, reason))
  }

  /** The interface at each slot that an answer to these requesters goes to. */
  function Askers(ifs: Interfaces, requesters: Requesters, id: byte): seq<Option<byte>>
    requires ifs.WellFormed()
  {
    seq(SLOTS, s requires 0 <= s < SLOTS => Asker(ifs, requesters, id, s))
  }

  function Asker(ifs: Interfaces, requesters: Requesters, id: byte, s: nat): Option<byte>
    requires ifs.WellFormed() && s < SLOTS
  {
    var f := ifs.FactsAt(s);
    if s in requesters && f.Outbound() && (f.id != id || (!f.local && !f.mode.Roaming?)) then Some(f.id) else None
  }

  /** The queue, slot after slot, as a frame is offered to the interfaces named. */
  ghost predicate Answered(v: View, boxes: seq<Box>, targets: seq<Option<byte>>, packet: Packet, reason: Reason)
    requires v.ifs.WellFormed()
  {
    && |boxes| == |targets| + 1 && boxes[0] == v.box
    && forall i :: 0 <= i < |targets| ==>
         if targets[i].None? then boxes[i + 1] == boxes[i] else Offers(v, boxes[i], boxes[i + 1], targets[i].value,
           packet, reason)
  }

  /** The interface at each slot that a broadcast is tried on. */
  function Listeners(ifs: Interfaces, localOnly: bool): seq<Option<byte>>
    requires ifs.WellFormed() && ifs.Router?
  {
    seq(SLOTS, s requires 0 <= s < SLOTS => Listener(ifs, localOnly, s))
  }

  function Listener(ifs: Interfaces, localOnly: bool, s: nat): Option<byte>
    requires ifs.WellFormed() && ifs.Router? && s < SLOTS
  {
    var c := ifs.At(s);
    if c.Some? && (!localOnly || c.value.role.LocalClient?) then Some(c.value.id) else None
  }

  /** The queue, slot after slot, as a frame from `source` is passed on under one lifetime. */
  ghost predicate Broadcasts(v: View, boxes: seq<Box>, source: byte, targets: seq<Option<byte>>, packet: Packet,
                             reason: Reason, lt: Lifetime)
    requires v.ifs.WellFormed()
  {
    && |boxes| == |targets| + 1 && boxes[0] == v.box
    && forall i :: 0 <= i < |targets| ==>
         if targets[i].None? then boxes[i + 1] == boxes[i]
         else Enqueues(boxes[i], boxes[i + 1], v.ifs, v.depth, targets[i].value, packet, reason, lt,
           Takes(v.(box := boxes[i]), source, targets[i].value, packet, reason))
  }

  lemma NoBroadcast(v: View, source: byte, packet: Packet, reason: Reason, lt: Lifetime)
    requires v.ifs.WellFormed()
    ensures forall s: seq<Option<byte>> :: |s| == 0 ==> Broadcasts(v, [v.box], source, s, packet, reason, lt)
  {
  }

  lemma BroadcastNext(v: View, boxes: seq<Box>, source: byte, targets: seq<Option<byte>>, k: nat, packet: Packet,
                      reason: Reason, lt: Lifetime, c: Box)
    requires v.ifs.WellFormed() && k < |targets| && Broadcasts(v, boxes, source, targets[..k], packet, reason, lt)
    requires if targets[k].None? then c == boxes[k]
             else Enqueues(boxes[k], c, v.ifs, v.depth, targets[k].value, packet, reason, lt,
               Takes(v.(box := boxes[k]), source, targets[k].value, packet, reason))
    ensures Broadcasts(v, boxes + [c], source, targets[..k + 1], packet, reason, lt)
  {
    hide Interfaces.WellFormed, Enqueues, Takes;
  }

  lemma SameOffer(v: View, w: View, c: Box, id: byte, packet: Packet, reason: Reason)
    requires v.ifs.WellFormed() && w == v.(box := w.box) && Offers(w, w.box, c, id, packet, reason)
    ensures Offers(v, w.box, c, id, packet, reason)
  {
    hide Interfaces.WellFormed, Given, Enqueues, Accepts;
    var lt :| Given(w, packet, reason, lt) && Enqueues(w.box, c, w.ifs, w.depth, id, packet, reason, lt,
      Accepts(w.(box := w.box), id, packet, reason));
    GivenSame(v, w, packet, reason, lt);
    assert w.(box := w.box) == v.(box := w.box);
  }

  lemma SameAnswered(v: View, w: View, boxes: seq<Box>, targets: seq<Option<byte>>, packet: Packet, reason: Reason)
    requires v.ifs.WellFormed() && w == v.(tabs := v.tabs.(disc := w.tabs.disc))
    requires Answered(w, boxes, targets, packet, reason)
    ensures Answered(v, boxes, targets, packet, reason)
  {
    hide Interfaces.WellFormed, Offers;
    forall i | 0 <= i < |targets| && targets[i].Some?
      ensures Offers(v, boxes[i], boxes[i + 1], targets[i].value, packet, reason)
    {
      OfferElsewhere(v, w, boxes[i], boxes[i + 1], targets[i].value, packet, reason);
    }
  }

  lemma OfferElsewhere(v: View, w: View, b: Box, c: Box, id: byte, packet: Packet, reason: Reason)
    requires v.ifs.WellFormed() && w == v.(tabs := v.tabs.(disc := w.tabs.disc)) && Offers(w, b, c, id, packet, reason)
    ensures Offers(v, b, c, id, packet, reason)
  {
    hide Interfaces.WellFormed, Enqueues, Accepts, Given;
    var lt :| Given(w, packet, reason, lt) && Enqueues(b, c, w.ifs, w.depth, id, packet, reason, lt,
      Accepts(w.(box := b), id, packet, reason));
    GivenSame(v, w, packet, reason, lt);
    AcceptsElsewhere(v, w, b, id, packet, reason);
  }

  lemma AcceptsElsewhere(v: View, w: View, b: Box, id: byte, packet: Packet, reason: Reason)
    requires v.ifs.WellFormed() && w == v.(tabs := v.tabs.(disc := w.tabs.disc))
    ensures Accepts(v.(box := b), id, packet, reason) == Accepts(w.(box := b), id, packet, reason)
  {
    hide Interfaces.WellFormed, HasRoom, Budget, Interfaces.Online;
  }

  /** The books once an answer that cannot be made has been counted for each of the first eight requesters. */
  function Discarded(b: Box, requesters: Requesters): Box {
    b.(dropped := SatAdd(b.dropped, Sat(|requesters * OCTET|)), refused := b.refused + |requesters * OCTET|)
  }

  /**
   What the end of a discovery does to the queue: without one nothing; an answer that cannot be made
   is counted once for each requester; otherwise it is offered to each requester's interface.
   */
  ghost predicate Settles(v: View, c: Box, owner: Option<Row<Requesters>>, boxes: seq<Box>, p: Packet, hops: byte,
                          id: byte)
    requires v.ifs.WellFormed()
  {
    if owner.None? then c == v.box
    else
      var response := Reframe(p, p.header.destination, hops, v.own.transport, CONTEXT_PATH_RESPONSE);
      if response.None? then c == Discarded(v.box, owner.value.body)
      else
        |boxes| == SLOTS + 1 && c == boxes[SLOTS] && Answered(v, boxes, Askers(v.ifs, owner.value.body, id),
          response.value, PathResponse)
  }

  /** The lifetime of a broadcast: the frame's own, for a forwarded request no longer than its gate. */
  ghost predicate Gated(v: View, packet: Packet, reason: Reason, lt: Lifetime)
    requires v.ifs.WellFormed()
  {
    exists e: u64 :: (
      && Given(v, packet, reason, lt.(expires := e))
      && lt.expires == if reason.PathRequestForward? then Earlier(e, SatAdd(v.clock, REQUEST_GATE_MS)) else e)
  }

  /** Whether a search may begin on behalf of an interface: it is known and can be answered. */
  predicate Searchable(ifs: Interfaces, id: byte)
    requires ifs.WellFormed()
  {
    ifs.Slot(id) < SLOTS && ifs.FactsAt(ifs.Slot(id)).Outbound()
  }

  /** A search frame lives as long as its discovery, and no longer than the request gate. */
  function SearchLifetime(ifs: Interfaces, id: byte, identity: u64, now: u64): Lifetime
    requires ifs.WellFormed()
  {
    Lifetime(now, Earlier(SatAdd(now, REQUEST_GATE_MS), SatAdd(now, DiscoveryTimeout(ifs.Slowest(id, 0)))), 0,
      DiscoveryOf(identity))
  }

  /** A new search went out, bound to its discovery. */
  ghost predicate Seeks(v: View, c: Box, request: Packet, id: byte, identity: u64, now: u64)
    requires v.ifs.WellFormed()
  {
    var lt := SearchLifetime(v.ifs, id, identity, now);
    if v.ifs.Endpoint? then
      Enqueues(v.box, c, v.ifs, v.depth, id, request, PathRequestForward, lt,
               Accepts(v, id, request, PathRequestForward))
    else
      exists boxes ::
        && |boxes| == SLOTS + 1 && c == boxes[SLOTS]
        && Broadcasts(v, boxes, id, Listeners(v.ifs, false), request, PathRequestForward, lt)
  }

  lemma Sought(v: View, w: View, c: Box, boxes: seq<Box>, request: Packet, id: byte, identity: u64, now: u64)
    requires v.ifs.WellFormed() && w == v.(tabs := w.tabs)
    requires var lt := SearchLifetime(w.ifs, id, identity, now);
      if w.ifs.Endpoint? then Enqueues(w.box, c, w.ifs, w.depth, id, request, PathRequestForward, lt,
        Accepts(w, id, request, PathRequestForward))
      else Broadcasts(w, boxes, id, Listeners(w.ifs, false), request, PathRequestForward, lt) && c == boxes[SLOTS]
    ensures Seeks(v, c, request, id, identity, now)
  {
    hide Interfaces.WellFormed, Enqueues, HasRoom, SearchLifetime, Budget, Passes;
    if w.ifs.Router? {
      assert Broadcasts(v, boxes, id, Listeners(v.ifs, false), request, PathRequestForward,
        SearchLifetime(v.ifs, id, identity, now));
    }
  }

  /** A frame was broadcast from `source` under its own, gated lifetime. */
  ghost predicate CallsOut(v: View, c: Box, source: byte, localOnly: bool, packet: Packet, reason: Reason)
    requires v.ifs.WellFormed() && v.ifs.Router?
  {
    exists lt, boxes ::
      && Broadcasts(v, boxes, source, Listeners(v.ifs, localOnly), packet, reason, lt)
      && Gated(v, packet, reason, lt) && |boxes| == SLOTS + 1 && c == boxes[SLOTS]
  }

  // --- Path requests ----------------------------------------------------------------------------

  function Wanted(payload: Bytes): Hash {
    FromBe(payload[..Min(|payload|, 16)])
  }

  function Requestor(payload: Bytes): Option<Hash> {
    if |payload| > 32 then Some(FromBe(payload[16..32])) else None
  }

  function TagOf(payload: Bytes): (tag: Bytes)
    requires |payload| > 16
    ensures 1 <= |tag| <= 16
  {
    if |payload| > 32 then payload[32..Min(|payload|, 48)] else payload[16..Min(|payload|, 32)]
  }

  /** What a request is remembered by: the destination, and a tag of at most 16 bytes. */
  function RequestKey(destination: Bytes, tag: Bytes): Hash
    requires |tag| <= 16
  {
    FromBe(destination + tag + seq(16 - |tag|, _ => 0))
  }

  /** The live route `g` must not be told: the requester is its next hop, or roams on its interface. */
  ghost predicate Withheld(v: View, wanted: Hash, requestor: Option<Hash>, id: byte, m: Mode, g: u64, now: u64) {
    && g in v.tabs.paths && v.tabs.paths[g].key == wanted && now < v.tabs.paths[g].expires
    && ((requestor.Some? && v.tabs.paths[g].body.nextHop == requestor)
      || (m.Roaming? && v.tabs.paths[g].body.interface == id))
  }

  /** There is a live route to tell of, and its announce is at hand. */
  ghost predicate Answerable(v: View, wanted: Hash, g: u64, now: u64) {
    && g in v.tabs.paths && v.tabs.paths[g].key == wanted && now < v.tabs.paths[g].expires
    && wanted in v.tabs.cache && now < v.tabs.cache[wanted].expires
  }

  function Response(v: View, wanted: Hash): Option<Packet>
    requires wanted in v.tabs.cache
  {
    var c := v.tabs.cache[wanted].body;
    Reframe(c.packet, wanted, c.hops, v.own.transport, CONTEXT_PATH_RESPONSE)
  }

  /** The answer fits its frame and is admitted. */
  ghost predicate Replies(v: View, wanted: Hash, id: byte, g: u64, now: u64)
    requires v.ifs.WellFormed()
  {
    Answerable(v, wanted, g, now) && Response(v, wanted).Some?
      && Accepts(v, id, Response(v, wanted).value, PathResponse)
  }

  /** A path request was answered with the cached announce of the live route, at the route's distance. */
  ghost predicate Answers(v: View, w: View, wanted: Hash, id: byte, g: u64, now: u64) {
    && v.ifs.WellFormed() && Answerable(v, wanted, g, now)
    && HashOf(v.env, v.tabs.cache[wanted].body.packet) == v.tabs.paths[g].body.packetHash
    && v.tabs.cache[wanted].body.hops == v.tabs.paths[g].body.hops
    && Response(v, wanted).Some? && Offers(v, v.box, w.box, id, Response(v, wanted).value, PathResponse)
  }

  /** The request this node makes in place of the one it got. */
  function RequestFor(v: View, payload: Bytes): (p: Packet)
    requires |payload| > 16
    ensures p.header.flags.packetType.Data? && p.header.flags.destinationType.Plain?
  {
    PathRequestPacket(v.env, Wanted(payload), TagOf(payload), if v.enabled then Some(v.own.transport) else None)
  }

  /** How a request goes on that this node cannot answer. */
  ghost predicate Looks(v: View, w: View, wanted: Hash, request: Packet, id: byte, m: Mode, capacity: nat, now: u64)
    requires v.ifs.WellFormed()
  {
    if v.ifs.Router? && v.ifs.IsLocalClient(id) then
      w.tabs == v.tabs && CallsOut(v, w.box, id, false, request, PathRequestForward)
    else if v.enabled && Discovers(m) then
      if !Searchable(v.ifs, id) then w == v
      else
        exists begun ::
          && Begins(v.tabs.disc, v.tabs.lastDisc, capacity, wanted, v.ifs.Slot(id), now,
                    DiscoveryTimeout(v.ifs.Slowest(id, 0)), w.tabs.disc, w.tabs.lastDisc, begun)
          && (if begun.New? then Seeks(v, w.box, request, id, begun.identity, now) else w.box == v.box)
    else if v.ifs.Router? then w.tabs == v.tabs && CallsOut(v, w.box, id, true, request, PathRequestForward)
    else w == v
  }

  lemma NothingToTell(v: View, wanted: Hash, now: u64, known: bool)
    requires !known ==> !HasKey(LiveAt(v.tabs.paths, now), wanted)
    ensures !known ==> forall g :: !Answerable(v, wanted, g, now)
  {
    assert forall h :: h in v.tabs.paths && now < v.tabs.paths[h].expires ==> h in LiveAt(v.tabs.paths, now);
  }

  lemma NotTold(v: View, wanted: Hash, id: byte, now: u64)
    requires v.ifs.WellFormed() && forall g :: !Answerable(v, wanted, g, now)
    ensures forall g :: !Replies(v, wanted, id, g, now)
  {
    hide Answerable, Interfaces.WellFormed, Accepts;
  }

  lemma RouteDecides(v: View, wanted: Hash, now: u64, g: u64, path: Option<PathRow>)
    requires Inv(v) && Found(v.tabs.paths, wanted, now, g, path)
    ensures forall h ::
      h in v.tabs.paths && v.tabs.paths[h].key == wanted && now < v.tabs.paths[h].expires ==> path.Some? && h == g
  {
    hide Thrifty, Paced, BoxOk, AllSealed, Evidenced, Numbered, Routed, CacheAgrees, WellScheduled,
      Interfaces.WellFormed;
    assert forall h :: h in v.tabs.paths && now < v.tabs.paths[h].expires ==> h in LiveAt(v.tabs.paths, now);
  }

  /** A frame admitted takes one identity, and one refused none. */
  lemma IdentityTaken(b: Box, c: Box, ifs: Interfaces, depth: nat, id: byte, packet: Packet, reason: Reason,
                      lt: Lifetime, ok: bool)
    requires ifs.WellFormed() && Enqueues(b, c, ifs, depth, id, packet, reason, lt, ok)
    ensures c.identity == b.identity + (if ok then 1 else 0) && (!ok ==> c.queue == b.queue)
  {
    hide Interfaces.WellFormed, Displaced, DeliveryFor;
  }

  // --- Ingress ----------------------------------------------------------------------------------

  /** `router_ingress`: why a frame is not taken in, if it is not. */
  function Ingress(ifs: Interfaces, id: byte, size: nat): (r: Option<Action>)
    requires ifs.WellFormed()
    ensures r.None? ==> Up(ifs, id)
  {
    if ifs.Endpoint? then None
    else
      var c := ifs.Config(id);
      if c.None? || !c.value.online || !c.value.direction.inbound then Some(Failed)
      else if size > c.value.WireMtu() then Some(Dropped)
      else None
  }

  /** Frames addressed to another relay, and plain or group packets from beyond one hop, are not for us. */
  predicate Admissible(transport: Hash, p: Packet) {
    var h := p.header;
    && h.hops < PATHFINDER_M
    && (h.flags.packetType.Announce? || h.transport.None? || h.transport == Some(transport))
    && (Repeats(h.context) || h.flags.destinationType.Single? || h.flags.destinationType.Link?
      || !(h.flags.packetType.Announce? || h.hops > 1))
  }

  /** What becomes of a frame before any table is consulted. */
  datatype Screening = Out(action: Action) | In(packet: Packet)

  function Screen(env: Env, own: Own, ifs: Interfaces, frame: Bytes, id: byte): (s: Screening)
    requires ifs.WellFormed()
    ensures s.In? ==> Up(ifs, id) && Admissible(own.transport, s.packet)
    ensures s.In? && s.packet.header.flags.packetType.LinkRequest? ==>
      Parses(s.packet.payload, LINK_KEYS) && CarriesLinks(ifs, own.tag, id)
  {
    var refused := Ingress(ifs, id, |frame|);
    var raw := env.unwrap(id, frame);
    if refused.Some? then Out(refused.value)
    else if raw.None? || |raw.value| > Budget(ifs, own.tag, id) then Out(Dropped)
    else
      match Parse(raw.value)
      case Parsed(h, payload) =>
        if h.flags.packetType.LinkRequest? && !(Parses(payload, LINK_KEYS) && CarriesLinks(ifs, own.tag, id))
          then Out(Failed)
        else if ifs.Router? && own.sink == Some(h.destination) && h.flags.packetType.Data?
          && h.flags.destinationType.Plain? && h.flags.transportType.Broadcast? then
          Out(if h.hops == 0 then LocalPlain else Dropped)
        else if Admissible(own.transport, Packet(h, payload)) then In(Packet(h, payload))
        else Out(Dropped)
      case _ => Out(Failed)
  }

  /** Frames that are not looked up among those seen: links and their setup decide for themselves. */
  ghost predicate Exempt(v: View, p: Packet, localLink: Option<Hash>, now: u64) {
    var h := p.header;
    || Repeats(h.context) || HasKey(LiveAt(v.tabs.links, now), h.destination) || h.flags.packetType.LinkRequest?
      || h.context == CONTEXT_LRPROOF
    || (h.flags.destinationType.Link? && (localLink == Some(h.destination) || LocalLink(h.destination) in v.own.local))
  }

  /** Traffic for this node's own destinations and links. */
  predicate IsLocal(local: set<LocalSlot>, p: Packet) {
    var f, d := p.header.flags, p.header.destination;
    match f.packetType
    case LinkRequest => f.destinationType.Single? && Destination(d) in local
    case Data => (f.destinationType.Link? && LocalLink(d) in local)
      || (f.destinationType.Single? && Destination(d) in local)
    case _ => false
  }

  /** Whether a frame is a duplicate, and the hash list once it has been looked up. */
  ghost predicate LooksUp(v: View, w: View, p: Packet, localLink: Option<Hash>, capacity: nat, duplicate: bool,
                          now: u64) {
    && w == v.(tabs := v.tabs.(hashes := w.tabs.hashes))
    && if Exempt(v, p, localLink, now) then !duplicate && w.tabs.hashes == v.tabs.hashes
       else
         && Notes(v.tabs.hashes, capacity, Some(HashOf(v.env, p)), now, w.tabs.hashes)
         && (duplicate <==>
               && HashOf(v.env, p) in LiveRows(v.tabs.hashes, now)
               && !(p.header.flags.packetType.Announce? && p.header.flags.destinationType.Single?))
  }

  /** The node as a frame meets it: the clock has moved, and what it left behind is gone. */
  ghost predicate Prepares(v: View, w: View, id: byte, m: Mode, now: u64)
    requires v.ifs.WellFormed()
  {
    && w == v.(clock := now, ifs := v.ifs.Observe(id, m, ProfileMtu(v.own.tag)),
               tabs := v.tabs.(disc := if v.enabled then LiveAt(v.tabs.disc, now) else map[]), box := w.box)
    && w.box == Purged(v.box, LiveIn(w, now))
  }

  // --- Effects by kind of frame -----------------------------------------------------------------

  /** `handle_announce`. */
  ghost predicate Heeds(v: View, w: View, p: Packet, hops: byte, id: byte, m: Mode, admitted: bool,
                        stored: Option<Hash>, row: PathRow, known: Option<Hash>, heard: Schedule, c: Capacities,
                        r: Action, now: u64)
    requires v.ifs.WellFormed()
  {
    var a := Heeded(v.env, v.own.local, p, hops, admitted, if stored.Some? then stored else known);
    var next := RebroadcastOf(v.env, v.own.transport, p, hops, id, now);
    && KeyKnown(v.tabs.paths, p.header.destination, known)
    && (if a.Some? && v.enabled then Hears(v.tabs.schedule, p.header.destination, p.header.hops, now, heard)
      else heard == v.tabs.schedule)
    && if a.None? || r == AnnounceIgnored then
         && (a.None? ==> r in {Dropped, Failed}) && w.tabs.schedule == heard
         && w == v.(tabs := v.tabs.(paths := w.tabs.paths, schedule := heard))
         && IgnoresAnnounce(v, w, row, c.paths, r == AnnounceIgnored, now)
         && (a.Some? ==> row == RouteFrom(v.env, p, hops, id, m, a.value, BulkHere(v, p.header.destination, id, now),
           now))
       else
         && row == RouteFrom(v.env, p, hops, id, m, a.value, BulkHere(v, p.header.destination, id, now), now)
         && LearnsRoute(v, w, p, row, c.paths, c.announces, now)
         && w == v.(box := w.box, sends := w.sends, tabs := v.tabs.(
              paths := w.tabs.paths, lastPath := w.tabs.lastPath, cache := w.tabs.cache, disc := w.tabs.disc,
              schedule := w.tabs.schedule))
         && (exists owner, boxes ::
               Settles(v.(tabs := w.tabs.(disc := v.tabs.disc, schedule := heard)), w.box, owner, boxes, p, hops, id))
         && w.tabs.disc == (if v.enabled then Without(v.tabs.disc,
           (q: Row<Requesters>) => q.key == p.header.destination) else v.tabs.disc)
         && if v.enabled && next.Some? then r == ScheduledAnnounce
           && Schedules(heard, c.scheduled, next.value, now, w.tabs.schedule)
            else r == LearnedAnnounce && w.tabs.schedule == heard
  }

  /** `handle_link_request`. */
  ghost predicate Requests(v: View, w: View, p: Packet, hops: byte, id: byte, c: Capacities, r: Action, now: u64)
    requires v.ifs.WellFormed()
  {
    && (r == Forwarded <==> exists h :: Links(v, p, hops, id, h, c.links, now))
    && if r == Forwarded then exists g, sent, lt, row :: OpensLink(v, w, p, hops, id, g, sent, lt, row, now)
      else LeavesNoTrace(v, w, now)
  }

  /** `route_link_packet` on traffic it claims. */
  ghost predicate CarriesTraffic(v: View, w: View, p: Packet, hops: byte, id: byte, reason: Reason, c: Capacities,
                                 now: u64)
    requires v.ifs.WellFormed()
  {
    if exists h :: Carries(v, p, hops, id, reason, h, now) then
      (exists lt, g :: CarriesOn(v, w, p, hops, id, reason, lt, g, now))
        && Notes(v.tabs.hashes, c.hashes, Tracked(v.env, p), now, w.tabs.hashes)
    else LeavesNoTrace(v, w, now)
  }

  /** A data packet: link traffic, a path request, a plain broadcast, or a frame to forward. */
  ghost predicate Conveys(v: View, w: View, p: Packet, hops: byte, id: byte, m: Mode, c: Capacities, r: Action,
                          now: u64)
    requires v.ifs.WellFormed()
  {
    if exists h :: Claims(v, p, hops, id, h, now) then r == Forwarded
      && CarriesTraffic(v, w, p, hops, id, TransportForward, c, now)
    else if p.header.destination == v.env.pathRequest then
      && w == v.(box := w.box, tabs := v.tabs.(disc := w.tabs.disc, lastDisc := w.tabs.lastDisc))
      && (r == AnsweredPathRequest ==> exists g :: Answers(v, w, Wanted(p.payload), id, g, now))
      && (r == AnsweredPathRequest ==> forall h :: !Withheld(v, Wanted(p.payload), Requestor(p.payload), id, m, h, now))
      && (r == ForwardedPathRequest ==> |p.payload| > 16 && Looks(v, w, Wanted(p.payload),
            RequestFor(v, p.payload), id, m, c.links, now))
      && (r !in {AnsweredPathRequest, ForwardedPathRequest} ==> w.box.queue == v.box.queue)
    else if p.header.flags.destinationType.Plain? && p.header.flags.transportType.Broadcast? then
      && (if v.ifs.Router? then CallsOut(v, w.box, id, !v.ifs.IsLocalClient(id), Passed(p, hops), TransportForward)
        else w == v)
      && w == v.(box := w.box) && (r == Forwarded <==> w.box.identity > v.box.identity)
    else
      && (r == Forwarded <==> exists h :: Relays(v, p, hops, id, h, c.reverse, now))
      && if r == Forwarded then exists lt, g :: RelaysData(v, w, p, hops, id, g, lt, c.reverse, now)
        else LeavesNoTrace(v, w, now)
  }

  /** `handle_proof`. */
  ghost predicate Proves(v: View, w: View, p: Packet, hops: byte, id: byte, c: Capacities, r: Action, now: u64)
    requires v.ifs.WellFormed()
  {
    if p.header.context == CONTEXT_LRPROOF then
      && (r == ForwardedProof <==> exists h :: Validates(v, p, hops, id, h, now))
      && if r == ForwardedProof then exists lt, g :: ValidatesLink(v, w, p, hops, id, lt, g, now)
        else LeavesNoTrace(v, w, now) && w.evidence == v.evidence
    else if exists h :: Claims(v, p, hops, id, h, now) then r == ForwardedProof
      && CarriesTraffic(v, w, p, hops, id, ProofReturn, c, now)
    else
      && (r == ForwardedProof <==> exists h :: Returns(v, p, hops, id, h, now))
      && if r == ForwardedProof then exists lt, g :: ReturnsProof(v, w, p, hops, id, lt, g, now)
        else LeavesNoTrace(v, w, now)
  }

  /** What a frame does to the node it meets. */
  ghost predicate Deals(v: View, w: View, p: Packet, hops: byte, id: byte, m: Mode, admitted: bool,
                        stored: Option<Hash>, c: Capacities, r: Action, now: u64)
    requires v.ifs.WellFormed()
  {
    match p.header.flags.packetType
    case Announce => exists row, known, heard :: Heeds(v, w, p, hops, id, m, admitted, stored, row, known, heard, c, r,
      now)
    case LinkRequest => Requests(v, w, p, hops, id, c, r, now)
    case Data => Conveys(v, w, p, hops, id, m, c, r, now)
    case Proof => Proves(v, w, p, hops, id, c, r, now)
  }

  /**
   A frame that was let in: a duplicate goes, traffic of the host's own is left to it, and any other
   frame is recorded and dealt with at the hop count it has here.
   */
  ghost predicate Handles(met: View, seen: View, w: View, p: Packet, id: byte, m: Mode, localLink: Option<Hash>,
                          admitted: bool, stored: Option<Hash>, c: Capacities, r: Action, now: u64)
    requires met.ifs.WellFormed()
  {
    exists duplicate :: (
      && LooksUp(met, seen, p, localLink, c.hashes, duplicate, now)
      && if duplicate then r == Duplicate && w == seen
         else if IsLocal(met.own.local, p) then r == LocalEndpoint && w == seen
         else
           var hops := HopsHere(p.header.hops, met.ifs.IsLocalClient(id));
           var y := seen.(history := seen.history + [Ingested(p, id, hops, now)]);
           && y.ifs.WellFormed() && w.history == y.history && w.aired == y.aired
           && Deals(y, w, p, hops, id, if met.ifs.Config(id).Some? then met.ifs.Config(id).value.mode else m,
                    admitted, stored, c, r, now))
  }

  /**
   A frame taken in: the node is prepared for it, and as `met` screens it; what is let in is looked up
   among the frames seen, and then dealt with.
   */
  ghost predicate Ingests(v: View, w: View, frame: Bytes, id: byte, m: Mode, localLink: Option<Hash>, admitted: bool,
                          stored: Option<Hash>, c: Capacities, r: Action, met: View, seen: View, now: u64) {
    && v.ifs.WellFormed() && met.ifs.WellFormed() && Prepares(v, met, id, m, now)
    && match Screen(met.env, met.own, met.ifs, frame, id)
       case Out(action) => r == action && w == met
       case In(p) => Handles(met, seen, w, p, id, m, localLink, admitted, stored, c, r, now)
  }

  // --- Routes a frame leaves alone --------------------------------------------------------------

  lemma StillCalm(v: View, w: View)
    requires w.tabs.paths == v.tabs.paths
    ensures Calm(v.tabs.paths, w.tabs.paths)
  {
  }

  lemma TrafficIsCalm(v: View, w: View, p: Packet, hops: byte, id: byte, reason: Reason, lt: Lifetime, g: u64,
                      sent: bool, now: u64)
    requires if sent then CarriesOn(v, w, p, hops, id, reason, lt, g, now) else LeavesNoTrace(v, w, now)
    ensures Calm(v.tabs.paths, w.tabs.paths)
  {
    hide Enqueues, LinkWay;
  }

  lemma RelayIsCalm(v: View, w: View, p: Packet, hops: byte, id: byte, g: u64, lt: Lifetime, ok: bool, capacity: nat,
                    now: u64)
    requires if ok then RelaysData(v, w, p, hops, id, g, lt, capacity, now) else LeavesNoTrace(v, w, now)
    ensures Calm(v.tabs.paths, w.tabs.paths)
  {
    hide Enqueues, Touches, Inserts, Given, ForwardAlong, Calm;
    if ok {
      TouchingIsCalm(v.tabs.paths, p.header.destination, now, w.tabs.paths);
    } else {
      StillCalm(v, w);
    }
  }

  lemma RequestIsCalm(v: View, w: View, p: Packet, hops: byte, id: byte, g: u64, sent: Packet, lt: Lifetime,
                      row: Row<LinkBody>, ok: bool, now: u64)
    requires if ok then OpensLink(v, w, p, hops, id, g, sent, lt, row, now) else LeavesNoTrace(v, w, now)
    ensures Calm(v.tabs.paths, w.tabs.paths)
  {
    hide Enqueues, Touches, Opening, Calm;
    if ok {
      TouchingIsCalm(v.tabs.paths, p.header.destination, now, w.tabs.paths);
    } else {
      StillCalm(v, w);
    }
  }

  lemma ProofIsCalm(v: View, w: View, p: Packet, hops: byte, id: byte, lt: Lifetime, g: u64, ok: bool, now: u64)
    requires if ok then ValidatesLink(v, w, p, hops, id, lt, g, now) else LeavesNoTrace(v, w, now)
    ensures Calm(v.tabs.paths, w.tabs.paths)
  {
    hide Enqueues, Attests;
  }

  lemma ReturnIsCalm(v: View, w: View, p: Packet, hops: byte, id: byte, lt: Lifetime, g: u64, ok: bool, now: u64)
    requires if ok then ReturnsProof(v, w, p, hops, id, lt, g, now) else LeavesNoTrace(v, w, now)
    ensures Calm(v.tabs.paths, w.tabs.paths)
  {
    hide Enqueues;
  }

  /** An announce replaces a live route only if it was emitted later. */
  lemma HeededFresher(v: View, w: View, p: Packet, hops: byte, id: byte, m: Mode, admitted: bool, stored: Option<Hash>,
                      row: PathRow, known: Option<Hash>, heard: Schedule, c: Capacities, r: Action, now: u64)
    requires Inv(v) && Inv(w) && Heeds(v, w, p, hops, id, m, admitted, stored, row, known, heard, c, r, now)
    ensures Fresher(v.tabs.paths, w.tabs.paths, now)
  {
    hide Inv, Fresher, Hears, Heeded, RouteFrom, BulkHere, RebroadcastOf, KeyKnown, LearnsRoute, IgnoresAnnounce,
      Schedules, Interfaces.WellFormed;
    if Heeded(v.env, v.own.local, p, hops, admitted, if stored.Some? then stored else known).None?
      || r == AnnounceIgnored {
      IgnoredFresher(v, w, row, c.paths, r == AnnounceIgnored, now);
    } else {
      LearnedFresher(v, w, p, row, c.paths, c.announces, now);
    }
  }

  lemma PreparedParts(v: View, w: View, id: byte, m: Mode, now: u64)
    requires Inv(v) && Inv(w) && Prepares(v, w, id, m, now)
    ensures w.env == v.env && w.own == v.own && w.clock == now && w.history == v.history && w.enabled == v.enabled
    ensures w.ifs.WellFormed()
    ensures w.tabs.lastPath == v.tabs.lastPath && w.tabs.paths == v.tabs.paths
    ensures Fresher(v.tabs.paths, w.tabs.paths, now)
  {
    hide Inv, Purged, LiveIn, Fresher, Interfaces.Observe;
    StillFresher(v, w, now);
    assert w.ifs.WellFormed() by { WellFormedIn(w); }
  }

  lemma WellFormedIn(v: View)
    requires Inv(v)
    ensures v.ifs.WellFormed()
  {
    hide TabsOk, BoxOk, AllSealed, Evidenced, Thrifty, Paced, Numbered, Interfaces.WellFormed;
  }

  lemma ScreenedUp(env: Env, own: Own, ifs: Interfaces, frame: Bytes, id: byte)
    requires ifs.WellFormed() && Screen(env, own, ifs, frame, id).In?
    ensures Up(ifs, id)
  {
  }

  lemma ScreenedWellFormed(env: Env, own: Own, ifs: Interfaces, frame: Bytes, id: byte)
    requires ifs.WellFormed()
    ensures var s := Screen(env, own, ifs, frame, id); s.In? ==> s.packet.header.WellFormed()
  {
    hide Interfaces.WellFormed, Ingress, Budget, Parses, CarriesLinks, Parse;
    var raw := env.unwrap(id, frame);
    if raw.Some? && Parse(raw.value).Parsed? {
      BuildParse(raw.value);
    }
  }

  lemma LookedUp(v: View, w: View, p: Packet, localLink: Option<Hash>, capacity: nat, duplicate: bool, now: u64)
    requires LooksUp(v, w, p, localLink, capacity, duplicate, now)
    ensures w == v.(tabs := v.tabs.(hashes := w.tabs.hashes))
  {
    hide Exempt, Notes, HashOf, LiveRows;
  }

  /** Which rows are live does not depend on which rows there are. */
  lemma LiveElsewhere(v: View, w: View, now: u64)
    requires w == v.(box := Purged(v.box, LiveIn(v, now)))
    ensures w.box == Purged(v.box, LiveIn(w, now))
  {
    hide FrameIsLive;
    SameLiveness(v, w, now);
    SameFilter(v.box.queue, LiveIn(v, now), LiveIn(w, now));
  }

  lemma {:induction false} SameFilter(queue: seq<Queued>, p: Queued -> bool, q: Queued -> bool)
    requires forall x :: p(x) == q(x)
    ensures Filter(queue, p) == Filter(queue, q)
  {
    if queue != [] {
      SameFilter(queue[..|queue| - 1], p, q);
    }
  }

  // --- From the parts of a step to its effect ---------------------------------------------------

  lemma HeedsNothing(v: View, p: Packet, hops: byte, id: byte, m: Mode, admitted: bool, stored: Option<Hash>,
                     row: PathRow, known: Option<Hash>, c: Capacities, r: Action, now: u64)
    requires v.ifs.WellFormed() && KeyKnown(v.tabs.paths, p.header.destination, known) && r in {Dropped, Failed}
    requires Heeded(v.env, v.own.local, p, hops, admitted, if stored.Some? then stored else known).None?
    ensures Heeds(v, v, p, hops, id, m, admitted, stored, row, known, v.tabs.schedule, c, r, now)
  {
    hide Hears, Heeded, RouteFrom, BulkHere, RebroadcastOf, KeyKnown, LearnsRoute, Schedules, Interfaces.WellFormed;
    Untouched(v, row, c.paths, now);
  }

  /** The route an announce leads to, and what its retries have heard, once it is heeded. */
  ghost predicate Leads(v: View, w: View, p: Packet, hops: byte, id: byte, m: Mode, admitted: bool,
                        stored: Option<Hash>, row: PathRow, known: Option<Hash>, now: u64)
    requires v.ifs.WellFormed()
  {
    var a := Heeded(v.env, v.own.local, p, hops, admitted, if stored.Some? then stored else known);
    && KeyKnown(v.tabs.paths, p.header.destination, known) && a.Some?
    && row == RouteFrom(v.env, p, hops, id, m, a.value, BulkHere(v, p.header.destination, id, now), now)
    && w == v.(tabs := v.tabs.(schedule := w.tabs.schedule))
    && if v.enabled then Hears(v.tabs.schedule, p.header.destination, p.header.hops, now, w.tabs.schedule)
      else w.tabs.schedule == v.tabs.schedule
  }

  lemma LeadParts(v: View, w: View, p: Packet, hops: byte, id: byte, m: Mode, admitted: bool, stored: Option<Hash>,
                  row: PathRow, known: Option<Hash>, now: u64)
    requires v.ifs.WellFormed() && Leads(v, w, p, hops, id, m, admitted, stored, row, known, now)
    ensures w == v.(tabs := v.tabs.(schedule := w.tabs.schedule))
  {
    hide Hears, Heeded, RouteFrom, BulkHere, KeyKnown, Interfaces.WellFormed;
  }

  lemma HeedsReplay(v: View, w: View, x: View, p: Packet, hops: byte, id: byte, m: Mode, admitted: bool,
                    stored: Option<Hash>, row: PathRow, known: Option<Hash>, c: Capacities, now: u64)
    requires v.ifs.WellFormed() && Leads(v, w, p, hops, id, m, admitted, stored, row, known, now)
    requires x == w.(tabs := w.tabs.(paths := x.tabs.paths, lastPath := x.tabs.lastPath))
    requires Updates(w.tabs.paths, w.tabs.lastPath, c.paths, row, now, x.tabs.paths, x.tabs.lastPath, false)
    ensures Heeds(v, x, p, hops, id, m, admitted, stored, row, known, w.tabs.schedule, c, AnnounceIgnored, now)
  {
    hide Hears, Heeded, RouteFrom, BulkHere, RebroadcastOf, KeyKnown, LearnsRoute, Schedules, Updates,
      Interfaces.WellFormed;
    IgnoredAfter(v, w, x, row, c.paths, now);
  }

  lemma HeedsRoute(v: View, w: View, x: View, y: View, p: Packet, hops: byte, id: byte, m: Mode, admitted: bool,
                   stored: Option<Hash>, row: PathRow, known: Option<Hash>, c: Capacities, scheduled: bool,
                   owner: Option<Row<Requesters>>, boxes: seq<Box>, now: u64)
    requires x.ifs.WellFormed() && Settles(x, y.box, owner, boxes, p, hops, id)
    requires v.ifs.WellFormed() && Leads(v, w, p, hops, id, m, admitted, stored, row, known, now)
    requires x == w.(tabs := w.tabs.(paths := x.tabs.paths, lastPath := x.tabs.lastPath, cache := x.tabs.cache))
    requires y == x.(box := y.box, sends := y.sends, tabs := x.tabs.(disc := y.tabs.disc, schedule := y.tabs.schedule))
    requires Updates(w.tabs.paths, w.tabs.lastPath, c.paths, row, now, x.tabs.paths, x.tabs.lastPath, true)
    requires Caches(Retained(w.tabs.cache, x.tabs.paths, now), c.announces, Cached(row, p), now, x.tabs.cache)
    requires y.tabs.disc == if v.enabled then Without(x.tabs.disc,
      (q: Row<Requesters>) => q.key == p.header.destination) else x.tabs.disc
    requires var next := RebroadcastOf(v.env, v.own.transport, p, hops, id, now);
      && (scheduled <==> v.enabled && next.Some?)
      && (if scheduled then Schedules(x.tabs.schedule, c.scheduled, next.value, now, y.tabs.schedule)
        else y.tabs.schedule == x.tabs.schedule)
    ensures Heeds(v, y, p, hops, id, m, admitted, stored, row, known, w.tabs.schedule, c, if scheduled
      then ScheduledAnnounce else LearnedAnnounce, now)
  {
    hide Hears, Heeded, RouteFrom, BulkHere, RebroadcastOf, KeyKnown, LearnsRoute, IgnoresAnnounce, Schedules, Updates,
      Caches, Interfaces.WellFormed, Settles;
    LearnedAfter(v, w, x, y, p, row, c.paths, c.announces, now);
    assert x == v.(tabs := y.tabs.(disc := v.tabs.disc, schedule := w.tabs.schedule));
  }

  lemma ConveysTraffic(v: View, w: View, p: Packet, hops: byte, id: byte, m: Mode, reason: Reason, lt: Lifetime, g: u64,
                       sent: bool, c: Capacities, r: Action, now: u64)
    requires v.ifs.WellFormed() && (exists h :: Claims(v, p, hops, id, h, now))
    requires (sent <==> exists h :: Carries(v, p, hops, id, reason, h, now))
    requires if sent
             then CarriesOn(v, w, p, hops, id, reason, lt, g, now)
               && Notes(v.tabs.hashes, c.hashes, Tracked(v.env, p), now, w.tabs.hashes)
             else LeavesNoTrace(v, w, now)
    ensures CarriesTraffic(v, w, p, hops, id, reason, c, now)
    ensures reason == TransportForward && r == Forwarded ==> Conveys(v, w, p, hops, id, m, c, r, now)
    ensures reason == ProofReturn && r == ForwardedProof && p.header.context != CONTEXT_LRPROOF ==>
      Proves(v, w, p, hops, id, c, r, now)
  {
    hide Claims, Carries, CarriesOn, LeavesNoTrace, Notes, Tracked, Interfaces.WellFormed, Looks, Answers, CallsOut,
      RelaysData, Relays, Returns, ReturnsProof;
  }

  lemma ConveysRequest(v: View, w: View, p: Packet, hops: byte, id: byte, m: Mode, g: u64, searched: bool,
                       c: Capacities, r: Action, now: u64)
    requires v.ifs.WellFormed() && !(exists h :: Claims(v, p, hops, id, h, now))
    requires p.header.destination == v.env.pathRequest
    requires w == v.(box := w.box, tabs := v.tabs.(disc := w.tabs.disc, lastDisc := w.tabs.lastDisc))
    requires r == AnsweredPathRequest ==> Answers(v, w, Wanted(p.payload), id, g, now)
    requires r == AnsweredPathRequest ==>
      forall h :: !Withheld(v, Wanted(p.payload), Requestor(p.payload), id, m, h, now)
    requires (r == ForwardedPathRequest ==> searched) && (searched ==> |p.payload| > 16)
    requires searched ==>
      Looks(v, w, Wanted(p.payload), RequestFor(v, p.payload), id, m, c.links, now)
    requires r !in {AnsweredPathRequest, ForwardedPathRequest} ==> w.box.queue == v.box.queue
    ensures Conveys(v, w, p, hops, id, m, c, r, now)
  {
    hide Claims, Interfaces.WellFormed, Looks, Answers, CallsOut, RelaysData, Relays, Withheld, Wanted, Requestor,
      CarriesTraffic;
  }

  lemma ConveysPlain(v: View, w: View, p: Packet, hops: byte, id: byte, m: Mode, c: Capacities, r: Action, now: u64)
    requires v.ifs.WellFormed() && !(exists h :: Claims(v, p, hops, id, h, now))
    requires p.header.destination != v.env.pathRequest
    requires p.header.flags.destinationType.Plain? && p.header.flags.transportType.Broadcast?
    requires if v.ifs.Router?
             then CallsOut(v, w.box, id, !v.ifs.IsLocalClient(id), Passed(p, hops), TransportForward)
             else w == v
    requires w == v.(box := w.box) && (r == Forwarded <==> w.box.identity > v.box.identity)
    ensures Conveys(v, w, p, hops, id, m, c, r, now)
  {
    hide Claims, Interfaces.WellFormed, Looks, Answers, CallsOut, RelaysData, Relays, Withheld, Wanted, Requestor,
      CarriesTraffic, Passed;
  }

  lemma ConveysData(v: View, w: View, p: Packet, hops: byte, id: byte, m: Mode, g: u64, lt: Lifetime, c: Capacities,
                    r: Action, now: u64)
    requires v.ifs.WellFormed() && !(exists h :: Claims(v, p, hops, id, h, now))
    requires p.header.destination != v.env.pathRequest
    requires !(p.header.flags.destinationType.Plain? && p.header.flags.transportType.Broadcast?)
    requires r == Forwarded <==> exists h :: Relays(v, p, hops, id, h, c.reverse, now)
    requires if r == Forwarded then RelaysData(v, w, p, hops, id, g, lt, c.reverse, now) else LeavesNoTrace(v, w, now)
    ensures Conveys(v, w, p, hops, id, m, c, r, now) && Calm(v.tabs.paths, w.tabs.paths)
  {
    hide Claims, Interfaces.WellFormed, Looks, Answers, CallsOut, RelaysData, Relays, Withheld, Wanted, Requestor,
      CarriesTraffic, LeavesNoTrace, Calm;
    RelayIsCalm(v, w, p, hops, id, g, lt, r == Forwarded, c.reverse, now);
  }

  lemma RequestsLink(v: View, w: View, p: Packet, hops: byte, id: byte, g: u64, sent: Packet, lt: Lifetime,
                     row: Row<LinkBody>, c: Capacities, r: Action, now: u64)
    requires v.ifs.WellFormed() && (r == Forwarded <==> exists h :: Links(v, p, hops, id, h, c.links, now))
    requires if r == Forwarded then OpensLink(v, w, p, hops, id, g, sent, lt, row, now) else LeavesNoTrace(v, w, now)
    ensures Requests(v, w, p, hops, id, c, r, now) && Calm(v.tabs.paths, w.tabs.paths)
  {
    hide Links, OpensLink, LeavesNoTrace, Interfaces.WellFormed, Calm;
    RequestIsCalm(v, w, p, hops, id, g, sent, lt, row, r == Forwarded, now);
  }

  lemma HandlesFrame(met: View, seen: View, w: View, p: Packet, id: byte, m: Mode, localLink: Option<Hash>,
                     admitted: bool, stored: Option<Hash>, c: Capacities, duplicate: bool, hops: byte, r: Action,
                     now: u64)
    requires met.ifs.WellFormed() && seen.ifs == met.ifs && LooksUp(met, seen, p, localLink, c.hashes, duplicate, now)
    requires duplicate || IsLocal(met.own.local, p) ==>
      r == (if duplicate then Duplicate else LocalEndpoint) && w == seen
    requires !duplicate && !IsLocal(met.own.local, p) ==>
      && hops == HopsHere(p.header.hops, met.ifs.IsLocalClient(id))
      && w.history == seen.history + [Ingested(p, id, hops, now)] && w.aired == seen.aired
      && Deals(seen.(history := seen.history + [Ingested(p, id, hops, now)]), w, p, hops, id,
        if met.ifs.Config(id).Some? then met.ifs.Config(id).value.mode else m, admitted, stored, c, r, now)
    ensures Handles(met, seen, w, p, id, m, localLink, admitted, stored, c, r, now)
  {
    hide LooksUp, Deals, IsLocal, Interfaces.WellFormed, Interfaces.IsLocalClient, Interfaces.Config;
  }

  // --- Facts a host reports ---------------------------------------------------------------------

  /** What new facts about an interface retire. */
  ghost predicate Retires(v: View, w: View, id: byte, generation: nat, m: Mode, outbound: bool)
    requires v.ifs.WellFormed() && v.ifs.Endpoint? && v.ifs.SlotFor(id) < SLOTS
  {
    var slot, f := v.ifs.SlotFor(id), v.ifs.FactsAt(v.ifs.SlotFor(id));
    && w.own == v.own && w.ifs.WellFormed() && w.ifs.Endpoint?
    && w.ifs.FactsAt(slot).occupied == (f.occupied && f.mode == m)
    && (f.occupied && f.mode == m ==> w.ifs.FactsAt(slot).clearMtu == f.clearMtu)
    && (if f.occupied && f.mode != m then Avoids(w.tabs, id) else w.tabs == v.tabs)
    && (id < 7 && f.occupied && (f.mode != m || f.generation != generation || !outbound) ==>
          forall q :: q in w.box.queue && q.delivery.Fanout? ==> (id as nat) !in q.delivery.pending)
  }

  /** `update_interface`: the facts are the new ones, but for a packet budget that is kept with the mode. */
  ghost predicate Refits(v: View, w: View, id: byte, generation: nat, m: Mode, bitrate: nat, outbound: bool,
                         client: bool)
    requires v.ifs.WellFormed() && v.ifs.Endpoint? && v.ifs.SlotFor(id) < SLOTS
  {
    var slot, f := v.ifs.SlotFor(id), v.ifs.FactsAt(v.ifs.SlotFor(id));
    && w.ifs.WellFormed() && w.ifs.Endpoint?
    && w.ifs.FactsAt(slot) == Facts(true, outbound && generation != 0, true, client, id, generation, m, bitrate,
         if f.occupied && f.mode == m then f.clearMtu else ProfileMtu(v.own.tag))
    && (if f.occupied && f.mode != m then Avoids(w.tabs, id) else w.tabs == v.tabs)
    && (id < 7 && f.occupied && (f.mode != m || f.generation != generation || !outbound) ==>
          forall q :: q in w.box.queue && q.delivery.Fanout? ==> (id as nat) !in q.delivery.pending)
  }

  lemma Refitted(v: View, w: View, x: View, id: byte, generation: nat, m: Mode, bitrate: nat, outbound: bool,
                 client: bool)
    requires v.ifs.WellFormed() && v.ifs.Endpoint? && v.ifs.SlotFor(id) < SLOTS
    requires Retires(v, w, id, generation, m, outbound)
    requires var f := w.ifs.FactsAt(v.ifs.SlotFor(id));
      x == w.(ifs := w.ifs.WithFacts(v.ifs.SlotFor(id), Facts(true, outbound
        && generation != 0, true, client, id, generation, m,
                bitrate, if f.occupied then f.clearMtu else ProfileMtu(v.own.tag))))
    ensures Refits(v, x, id, generation, m, bitrate, outbound, client)
  {
    hide Avoids;
  }

  /** The node's own parts, and what its host serves, may change freely. */
  lemma OwnStep(v: View, w: View, time: u64)
    requires Inv(v) && w == v.(own := w.own) && w.own.modem == v.own.modem
    ensures Inv(w) && Step(v, w, time)
  {
    hide TabsOk, Evidenced, Thrifty, Paced, Numbered, BoxOk, Interfaces.WellFormed, Follows, Paired, Witnessed, Logs;
    FollowsReflexive(v, time);
    FollowsTabs(v, v, time);
    OwnFollows(v, w, time);
    SameBox(v, w);
    assert AllSealed(w) by { StaysSealed(v, w); }
    QuietStep(v, w, time);
  }

  lemma OwnFollows(v: View, w: View, time: u64)
    requires w == v.(own := w.own) && Follows(v, v, time)
    ensures Follows(v, w, time)
  {
    hide PathsFollow, ReverseFollows, LinksFollow, DiscoveriesFollow, QueueFollows, Reregisters;
  }
}
