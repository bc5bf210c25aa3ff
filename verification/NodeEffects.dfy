/**
 What the steps of a node do: lifetimes given to frames, effects of each kind of forwarding, and why
 each keeps the invariant.
 */
module NodeEffects {
  import opened Base
  import opened Rows
  import opened Generations
  import opened RowTables
  import opened Wire
  import opened Signalling
  import opened Paths
  import opened Announces
  import opened Interfaces
  import opened Discovery
  import opened Rebroadcast
  import opened AnnounceCap
  import opened NodeState
  import opened Outbound
  import opened Tables
  import opened NodeInvariants
  import opened NodeSteps

  const LINK_TIMEOUT_MS: u64 := 900_000
  const REVERSE_TIMEOUT_MS: u64 := 480_000
  const HASHLIST_LIFETIME_MS: u64 := 120_000

  function Earlier(a: u64, b: u64): u64 {
    if a <= b then a else b
  }

  /** Whether a frame's lifetime follows the route to its destination. */
  predicate PathDependent(packet: Packet, reason: Reason) {
    packet.header.flags.packetType.Announce? || (packet.header.flags.destinationType.Single?
      && reason.TransportForward?)
  }

  predicate LinkDependent(packet: Packet) {
    packet.header.flags.destinationType.Link? || packet.header.context == CONTEXT_LRPROOF
  }

  /** The lifetime of a frame that follows a live route. */
  function AlongPath(base: Lifetime, packetType: PacketType, g: u64, row: PathRow, bitrate: nat): Lifetime {
    var expires := Earlier(base.expires, row.expires);
    match packetType
    case LinkRequest => Lifetime(base.enqueued, Earlier(expires, LinkDeadline(base.enqueued, row.body.hops, bitrate)),
      g, LinkOf(0))
    case Data => Lifetime(base.enqueued, Earlier(expires, SatAdd(base.enqueued, REVERSE_TIMEOUT_MS)), g, ReverseOf(0))
    case _ => Lifetime(base.enqueued, expires, g, Independent)
  }

  /** The lifetime of a frame that belongs to a link: the deadline the link has once the frame is sent. */
  function AlongLink(base: Lifetime, proof: bool, g: u64, row: Option<Row<LinkBody>>): Lifetime {
    match row
    case None => base.(state := LinkOf(0))
    case Some(r) =>
      var deadline := if r.body.validated || proof then SatAdd(base.enqueued, LINK_TIMEOUT_MS) else r.expires;
      base.(state := LinkOf(g), expires := Earlier(base.expires, deadline))
  }

  function Unbound(now: u64): Lifetime {
    Lifetime(now, SatAdd(now, OUTBOUND_MAX_AGE_MS), 0, Independent)
  }

  /** The token of a frame on a link: for as long as frames are kept, or until the link dies if that is sooner. */
  function LinkToken(now: u64, deadline: u64, g: u64): Lifetime {
    Lifetime(now, Earlier(SatAdd(now, OUTBOUND_MAX_AGE_MS), deadline), 0, LinkOf(g))
  }

  /** The token of a frame along a route, for which an entry was made: until the first of route and entry dies. */
  function RouteToken(now: u64, path: u64, expires: u64, deadline: u64, entry: Dependency): Lifetime {
    Lifetime(now, Earlier(Earlier(SatAdd(now, OUTBOUND_MAX_AGE_MS), expires), deadline), path, entry)
  }

  /** Frames whose tokens follow their link alone, and those whose tokens follow their route alone. */
  predicate OnLinkOnly(packet: Packet, reason: Reason) {
    LinkDependent(packet) && !PathDependent(packet, reason)
  }

  predicate OnRouteOnly(packet: Packet) {
    packet.header.flags.destinationType.Single? && packet.header.context != CONTEXT_LRPROOF
  }

  /** What the lifetime given to a frame amounts to. */
  lemma LifetimeIs(now: u64, packet: Packet, reason: Reason, bitrate: nat, pg: u64, path: Option<PathRow>, lg: u64,
                   link: Option<Row<LinkBody>>)
    ensures var lt := LifetimeFor(now, packet, reason, bitrate, pg, path, lg, link);
      && (OnLinkOnly(packet, reason) && link.Some? ==>
            var b := link.value.body;
            lt == LinkToken(now, if b.validated || packet.header.context == CONTEXT_LRPROOF
                                 then SatAdd(now, LINK_TIMEOUT_MS) else link.value.expires, lg))
      && (OnRouteOnly(packet) && reason.TransportForward? && path.Some? ==>
            match packet.header.flags.packetType
            case LinkRequest =>
              lt == RouteToken(now, pg, path.value.expires, LinkDeadline(now, path.value.body.hops, bitrate), LinkOf(0))
            case Data => lt == RouteToken(now, pg, path.value.expires, SatAdd(now, REVERSE_TIMEOUT_MS), ReverseOf(0))
            case _ => true)
      && (OnRouteOnly(packet) && packet.header.flags.packetType.Announce? && path.Some? ==>
            lt == RouteToken(now, pg, path.value.expires, U64_MAX, Independent))
  {
    hide LinkDeadline;
  }

  /** `packet_lifetime`, from the route and the link found for the frame's destination. */
  function LifetimeFor(now: u64, packet: Packet, reason: Reason, bitrate: nat, pg: u64, path: Option<PathRow>, lg: u64,
                       link: Option<Row<LinkBody>>): (lt: Lifetime)
    ensures lt.enqueued == now
  {
    var a := if PathDependent(packet, reason) && path.Some?
      then AlongPath(Unbound(now), packet.header.flags.packetType, pg, path.value, bitrate)
             else Unbound(now);
    if LinkDependent(packet) then AlongLink(a, packet.header.context == CONTEXT_LRPROOF, lg, link) else a
  }

  /** How a frame was dealt with. */
  datatype Action =
    | Dropped | Duplicate | Accepted | Failed
    | AnnounceIgnored | LearnedAnnounce | ScheduledAnnounce
    | AnsweredPathRequest | ForwardedPathRequest
    | Forwarded | ForwardedProof
    | LocalEndpoint | LocalPlain

  /** `rewrite_forwarded_transport_packet` on a parsed packet. */
  datatype Forwarding = Unroutable | Oversize | Onward(packet: Packet)

  function ForwardAlong(p: Packet, hops: byte, path: PathBody): (f: Forwarding)
    ensures f.Onward? ==>
      CoreOf(f.packet.header, f.packet.payload) == CoreOf(p.header, p.payload) && f.packet.header.hops == hops
    ensures f.Onward? ==> f.packet.header.flags.packetType == p.header.flags.packetType
  {
    if path.hops == 0 then Onward(p.(header := p.header.(hops := hops)))
    else
      match NextHop(p.header, hops, path.hops, path.nextHop)
      case None => Unroutable
      case Some(h) => if h.Size() + |p.payload| <= MTU then Onward(Packet(h, p.payload)) else Oversize
  }

  /** Queue, counters given out and live entries are as they were: nothing but dead entries went. */
  ghost predicate LeavesNoTrace(v: View, w: View, now: u64) {
    && w.box.queue == v.box.queue && w.box.identity == v.box.identity && w.ifs == v.ifs
    && w.tabs.lastPath == v.tabs.lastPath && w.tabs.lastReverse == v.tabs.lastReverse
    && w.tabs.lastLink == v.tabs.lastLink && w.tabs.lastDisc == v.tabs.lastDisc
    && w.tabs.paths == v.tabs.paths
    && LiveAt(w.tabs.reverse, now) == LiveAt(v.tabs.reverse, now)
    && LiveAt(w.tabs.links, now) == LiveAt(v.tabs.links, now)
    && Submap(v.tabs.reverse, w.tabs.reverse) && Submap(v.tabs.links, w.tabs.links)
    && w.tabs.cache == v.tabs.cache && w.tabs.schedule == v.tabs.schedule
    && LiveRows(w.tabs.hashes, now) == LiveRows(v.tabs.hashes, now)
  }

  lemma Same(v: View, w: View, now: u64)
    requires w.tabs == v.tabs && w.ifs == v.ifs && w.box.queue == v.box.queue && w.box.identity == v.box.identity
    ensures LeavesNoTrace(v, w, now)
  {
  }

  lemma InsertedGeneration<B>(m: Entries<B>, last: u64, capacity: nat, row: Row<B>, now: u64, m': Entries<B>,
                              last': u64)
    requires Inserts(m, last, capacity, row, now, m', last') && NextGeneration(capacity, last) != 0
    ensures last' == NextGeneration(capacity, last) == last + 1 && last' in m' && m'[last'] == row
  {
  }

  lemma EmptyInv(v: View)
    requires v.ifs.WellFormed() && Numbered(v.ifs)
    requires v.box == Box([], v.box.capacity, 0, 0, 0, 0, 0, 0)
    requires v.tabs.paths == map[] && v.tabs.reverse == map[] && v.tabs.links == map[] && v.tabs.disc == map[]
    requires v.tabs.cache == map[] && v.tabs.schedule == map[] && v.sends == map[]
    requires v.aired == seq(SLOTS, _ => [])
    ensures Inv(v)
  {
    hide Interfaces.WellFormed, Numbered;
  }

  /** Liveness does not depend on the queue. */
  lemma SameLiveness(v: View, w: View, now: u64)
    requires w == v.(box := w.box)
    ensures forall q :: LiveIn(w, now)(q) == LiveIn(v, now)(q)
  {
  }

  /** Queueing alone, under a lifetime already sealed. */
  lemma QueuedOnly(v: View, w: View, id: byte, packet: Packet, reason: Reason, lt: Lifetime, ok: bool, time: u64)
    requires Inv(v) && w == v.(box := w.box)
    requires Enqueues(v.box, w.box, v.ifs, v.depth, id, packet, reason, lt, ok)
    requires lt.enqueued <= v.clock && SealedBy(v.tabs, lt)
    requires v.ifs.Router? && reason.Gated() ==> Count(v.box.queue, GatedTo(id)) == 0
    ensures Inv(w) && Follows(v, w, time)
  {
    hide Thrifty, Paced, AllSealed, Evidenced, TabsOk, BoxOk, Numbered, Interfaces.WellFormed, Enqueues, Follows, Count;
    TabsFollowReflexive(v.tabs, time);
    QueueThenRecord(v, w, id, packet, reason, lt, ok, time);
  }

  /** Dropping expired links is a step that leaves no trace. */
  lemma LinksExpired(v: View, w: View, now: u64)
    requires Inv(v) && w == v.(tabs := v.tabs.(links := LiveAt(v.tabs.links, now)))
    ensures Inv(w) && Follows(v, w, now) && LeavesNoTrace(v, w, now)
  {
    hide Thrifty, Paced, Routed, CacheAgrees, Minted, Follows, BoxOk, AllSealed, Numbered, Interfaces.WellFormed,
      QueueFollows, Evidenced, TabsFollow;
    ShrunkStep(v, w, now);
  }

  /** A step on which entries only go. */
  lemma ShrunkStep(v: View, w: View, now: u64)
    requires Inv(v) && w == v.(tabs := w.tabs) && Shrinks(v.tabs, w.tabs)
    requires Awaited(w.tabs.disc) && WellScheduled(w.tabs.schedule) && Spends(v.tabs.schedule, w.tabs.schedule)
    ensures Inv(w) && Follows(v, w, now)
  {
    hide Thrifty, Paced, Follows, BoxOk, AllSealed, Numbered, Interfaces.WellFormed, QueueFollows, Evidenced,
      TabsFollow, WellScheduled, Routed, Tabular, CacheAgrees;
    ShrinkingTabs(v.env, v.ifs, v.tabs, w.tabs, now);
    SpendingKeeps(v.sends, v.tabs.schedule, w.tabs.schedule);
    QueueFollowsReflexive(v.box);
    assert AllSealed(w) by { StaysSealed(v, w); }
    assert w.history == v.history + [];
    EvidenceKept(v.env, v.tabs.links, w.tabs.links, v.history, [], v.evidence);
    SameBox(v, w);
    StepKeeps(v, w, now);
  }

  lemma SameBox(v: View, w: View)
    requires v.ifs.WellFormed() && BoxOk(v) && w.box == v.box && w.ifs == v.ifs && w.depth == v.depth
    requires v.clock <= w.clock
    ensures BoxOk(w)
  {
    hide Isolated, Conserved;
  }

  /** The tables after a pending link was recorded: its route was used, and the link inserted. */
  ghost predicate Records(t: Tabs, t': Tabs, destination: Hash, row: Row<LinkBody>, capacity: nat, now: u64) {
    && t' == t.(paths := t'.paths, links := t'.links, lastLink := t'.lastLink)
    && Touches(t.paths, destination, now, t'.paths)
    && Inserts(t.links, t.lastLink, capacity, row, now, t'.links, t'.lastLink)
  }

  lemma LinkRecorded(v: View, w: View, row: Row<LinkBody>, capacity: nat, now: u64)
    requires Tabular(v.tabs) && Evidenced(v.env, v.tabs.links, v.history, v.evidence) && !row.body.validated
    requires IsKey(row.body.signingKey)
    requires Inserts(v.tabs.links, v.tabs.lastLink, capacity, row, now, w.tabs.links, w.tabs.lastLink)
    requires w.env == v.env && w.history == v.history && w.evidence == v.evidence
    ensures Evidenced(w.env, w.tabs.links, w.history, w.evidence)
  {
    hide Inserts, Minted, Attests, Evidenced;
    EntriesAfterInsert(v.tabs.links, v.tabs.lastLink, capacity, row, now, w.tabs.links, w.tabs.lastLink);
    EvidenceKept(v.env, v.tabs.links, w.tabs.links, v.history, [], v.evidence);
    assert v.history + [] == v.history;
  }

  /** The frame a link request goes on as: without a default-mode trailer; none for a transform a relay cannot make. */
  function RequestOnward(f: Packet): (r: Option<Packet>)
    requires Parses(f.payload, LINK_KEYS)
    ensures r.Some? ==> LinkCore(r.value) == LinkCore(f) && r.value.header == f.header
  {
    var signal := SignalOf(f.payload, LINK_KEYS);
    if signal.mode == DEFAULT_MODE then Some(f.(payload := f.payload[..LINK_KEYS]))
    else if signal.mtu != MTU then None
    else Some(f)
  }

  /** A link request rewritten for the next hop of a route. */
  function RequestAlong(p: Packet, hops: byte, path: PathBody): (r: Option<Packet>)
    ensures r.Some? ==> LinkCore(r.value) == LinkCore(p) && Parses(p.payload, LINK_KEYS)
    ensures r.Some? ==> r.value.header.flags.packetType == p.header.flags.packetType
  {
    var f := ForwardAlong(p, hops, path);
    if f.Onward? && Parses(f.packet.payload, LINK_KEYS) then RequestOnward(f.packet) else None
  }

  /** No request passes a relay with a packet size other than the one every relay can carry. */
  lemma RequestsKeepTheMtu(p: Packet, hops: byte, path: PathBody)
    ensures var r := RequestAlong(p, hops, path);
      r.Some? ==>
        && Parses(r.value.payload, LINK_KEYS) && SignalOf(r.value.payload, LINK_KEYS).EffectiveMtu() == Some(MTU)
        && SignalOf(r.value.payload, LINK_KEYS).mode == SignalOf(p.payload, LINK_KEYS).mode
  {
    hide UnpackSignal;
    var f := ForwardAlong(p, hops, path);
    if f.Onward? {
      assert f.packet.payload == p.payload;
    }
  }

  /** The pending link of a request: key, direction and distance are those of its route. */
  function PendingLink(ifs: Interfaces, p: Packet, hops: byte, id: byte, key: Hash, path: PathBody,
                       now: u64): Row<LinkBody>
    requires ifs.WellFormed()
  {
    Row(key, LinkDeadline(now, path.hops, ifs.Bitrate(path.interface)),
        LinkBody(SigningHalf(path.publicKey), id, path.interface, path.hops, hops, SignalOf(p.payload, LINK_KEYS).mode,
          MTU, false))
  }

  /** The frame and the pending link a request leads to along the live route `g`. */
  ghost predicate Opening(v: View, p: Packet, hops: byte, id: byte, g: u64, sent: Packet, row: Row<LinkBody>, now: u64)
    requires v.ifs.WellFormed()
  {
    && g in v.tabs.paths && v.tabs.paths[g].key == p.header.destination && now < v.tabs.paths[g].expires
    && RequestAlong(p, hops, v.tabs.paths[g].body) == Some(sent)
    && row == PendingLink(v.ifs, p, hops, id, v.env.linkId(LinkCore(p)), v.tabs.paths[g].body, now)
  }

  /** The token of a request: until its route or its link dies. */
  ghost predicate Requesting(sent: Packet, lt: Lifetime, g: u64, paths: Entries<PathBody>, row: Row<LinkBody>,
                             now: u64) {
    sent.header.flags.packetType.LinkRequest? && OnRouteOnly(sent) && g in paths ==>
      lt == RouteToken(now, g, paths[g].expires, row.expires, lt.state)
  }

  /** The live route a request goes along, and a link that waits as long as the route takes. */
  ghost predicate Awaits(ifs: Interfaces, paths: Entries<PathBody>, g: u64, sent: Packet, row: Row<LinkBody>, now: u64)
    requires ifs.WellFormed()
  {
    && g in paths && paths[g].key == sent.header.destination && now < paths[g].expires
    && row.expires == LinkDeadline(now, paths[g].body.hops, ifs.Bitrate(paths[g].body.interface))
  }

  lemma OpeningAwaits(v: View, p: Packet, hops: byte, id: byte, g: u64, sent: Packet, row: Row<LinkBody>, now: u64)
    requires v.ifs.WellFormed() && Opening(v, p, hops, id, g, sent, row, now)
    ensures Awaits(v.ifs, v.tabs.paths, g, sent, row, now)
  {
    hide Interfaces.WellFormed, LinkDeadline, Interfaces.Bitrate, SignalOf, SigningHalf, RequestOnward, ForwardAlong;
    assert LinkCore(sent) == LinkCore(p);
  }

  lemma RequestsUntil(v: View, g: u64, packet: Packet, row: Row<LinkBody>, pg: u64, path: Option<PathRow>, lg: u64,
                      link: Option<Row<LinkBody>>, base: Lifetime, lt: Lifetime, now: u64)
    requires Inv(v) && Awaits(v.ifs, v.tabs.paths, g, packet, row, now) && lt == base.(state := lt.state)
    requires Found(v.tabs.paths, packet.header.destination, now, pg, path)
    requires base == LifetimeFor(now, packet, TransportForward,
                                 if path.Some? then v.ifs.Bitrate(path.value.body.interface) else 0, pg, path, lg, link)
    ensures Requesting(packet, lt, g, v.tabs.paths, row, now)
  {
    hide Interfaces.WellFormed, LinkDeadline, Interfaces.Bitrate, LifetimeFor, BoxOk, AllSealed, Evidenced, Thrifty,
      Paced, Numbered, Routed, CacheAgrees, WellScheduled;
    SameEntry(v.tabs.paths, v.tabs.lastPath, packet.header.destination, now, pg, path, g);
    LifetimeIs(now, packet, TransportForward, v.ifs.Bitrate(path.value.body.interface), pg, path, lg, link);
  }

  /**
   A link request went on: the frame is queued under the very incarnation of the pending link
   recorded for it, under the key announced for its destination, and every live link is still there.
   */
  ghost predicate OpensLink(v: View, w: View, p: Packet, hops: byte, id: byte, g: u64, sent: Packet, lt: Lifetime,
                            row: Row<LinkBody>, now: u64) {
    && v.ifs.WellFormed() && Opening(v, p, hops, id, g, sent, row, now)
    && Enqueues(v.box, w.box, v.ifs, v.depth, row.body.outbound, sent, TransportForward, lt, true)
    && w.tabs == v.tabs.(paths := w.tabs.paths, links := w.tabs.links, lastLink := w.tabs.lastLink)
    && Touches(v.tabs.paths, p.header.destination, now, w.tabs.paths)
    && w.tabs.lastLink == v.tabs.lastLink + 1 && w.tabs.links == LiveAt(v.tabs.links, now)[w.tabs.lastLink := row]
    && lt.state == LinkOf(w.tabs.lastLink) && Requesting(sent, lt, g, v.tabs.paths, row, now)
  }

  lemma UpBehind(v: View, row: Row<LinkBody>, g: u64, id: byte, p: Packet, hops: byte, sent: Packet, now: u64)
    requires Inv(v) && Opening(v, p, hops, id, g, sent, row, now) && Up(v.ifs, id)
    ensures Up(v.ifs, row.body.outbound) && Up(v.ifs, row.body.receiving) && !row.body.validated
    ensures IsKey(row.body.signingKey)
  {
    hide Thrifty, Paced, Up, BoxOk, AllSealed, Evidenced, Interfaces.WellFormed, SignalOf, SigningHalf, RequestAlong,
      LinkDeadline;
  }

  lemma LinkOpened(v: View, w: View, x: View, p: Packet, hops: byte, id: byte, g: u64, sent: Packet, lt: Lifetime,
                   row: Row<LinkBody>, capacity: nat, ok: bool, now: u64)
    requires v.ifs.WellFormed() && w == v.(tabs := v.tabs.(links := LiveAt(v.tabs.links, now)))
    requires !HasKey(w.tabs.links, row.key) && |w.tabs.links| < capacity && w.tabs.lastLink < U64_MAX
    requires x.ifs == v.ifs && Enqueues(w.box, x.box, w.ifs, w.depth, row.body.outbound, sent, TransportForward, lt, ok)
    requires if ok then Records(w.tabs, x.tabs, p.header.destination, row, capacity, now) else x.tabs == w.tabs
    requires lt.state == LinkOf(w.tabs.lastLink + 1) && Opening(v, p, hops, id, g, sent, row, now)
    requires Requesting(sent, lt, g, v.tabs.paths, row, now)
    ensures if ok then OpensLink(v, x, p, hops, id, g, sent, lt, row, now) else LeavesNoTrace(v, x, now)
  {
    hide Thrifty, Paced, Touches, Displaced, Admits, Interfaces.WellFormed, Opening, Requesting;
    var live := w.tabs.links;
    assert LiveAt(live, now) == live;
    if ok {
      var gone :| Displaces(live, capacity, row.key, gone) && x.tabs.links == (live - gone)[x.tabs.lastLink := row];
      assert live - gone == live;
    }
  }

  /** A live entry found under a key is the only one. */
  lemma SameEntry<B>(m: Entries<B>, last: u64, key: Hash, now: u64, g: u64, row: Option<Row<B>>, h: u64)
    requires Minted(m, last) && Found(m, key, now, g, row) && h in m && m[h].key == key && now < m[h].expires
    ensures g == h && row == Some(m[h])
  {
    assert h in LiveAt(m, now);
  }

  /** Only the list of seen hashes changes. */
  lemma HashTabs(env: Env, ifs: Interfaces, t: Tabs, t': Tabs, time: u64)
    requires ifs.WellFormed() && TabsOk(env, ifs, t) && t' == t.(hashes := t'.hashes)
    ensures TabsOk(env, ifs, t') && TabsFollow(t, t', time)
  {
    hide Thrifty, Paced, Interfaces.WellFormed, Up, HashOf, Minted, TabsFollow;
    assert Shrinks(t, t');
    ShrinkingFollows(t, t', time);
  }

  lemma HashesExpired(v: View, w: View, now: u64)
    requires Inv(v) && w == v.(tabs := v.tabs.(hashes := LiveRows(v.tabs.hashes, now)))
    ensures Inv(w) && Follows(v, w, now) && LeavesNoTrace(v, w, now)
  {
    hide Thrifty, Paced, Routed, CacheAgrees, Minted, Follows, BoxOk, AllSealed, Numbered, Interfaces.WellFormed,
      QueueFollows, Evidenced, TabsFollow;
    ShrunkStep(v, w, now);
  }

  /** Validation brings its own evidence. */
  lemma EvidenceAdded(env: Env, m: Entries<LinkBody>, last: u64, m': Entries<LinkBody>, key: Hash, expires: u64, g: u64,
                      now: u64, history: seq<Ingested>, evidence: map<u64, nat>)
    requires Minted(m, last) && Evidenced(env, m, history, evidence) && Renews(m, key, expires, true, now, m')
    requires |history| > 0 && g in m && m[g].key == key && Attests(env, history[|history| - 1], m[g])
    ensures Evidenced(env, m', history, evidence[g := |history| - 1])
  {
    hide Attests, Renews;
    RenewedLinks(m, last, key, expires, true, now, m');
    forall h | h in m' && m'[h].body.validated
      ensures var e := evidence[g := |history| - 1]; h in e && e[h] < |history| && Attests(env, history[e[h]], m'[h])
    {
      var i := if h == g then |history| - 1 else evidence[h];
      SameAttestation(env, history[i], m[h], m'[h]);
    }
  }

  /**
   An establishment proof went on: it attests the link, the link it was queued under is now
   validated with that proof as its evidence, and nothing else about the link but its deadline changed.
   */
  ghost predicate ValidatesLink(v: View, w: View, p: Packet, hops: byte, id: byte, lt: Lifetime, g: u64, now: u64) {
    && v.ifs.WellFormed() && g in v.tabs.links && g in w.tabs.links
    && Attests(v.env, Ingested(p, id, hops, now), v.tabs.links[g]) && now < v.tabs.links[g].expires
    && Enqueues(v.box, w.box, v.ifs, v.depth, v.tabs.links[g].body.receiving, p.(header := p.header.(hops := hops)),
      ProofReturn, lt, true)
    && lt == LinkToken(now, w.tabs.links[g].expires, g)
    && w.tabs.links[g] == v.tabs.links[g].(expires := SatAdd(now, LINK_TIMEOUT_MS),
      body := v.tabs.links[g].body.(validated := true))
    && w.tabs.links - {g} == LiveAt(v.tabs.links, now) - {g}
    && w.tabs == v.tabs.(links := w.tabs.links, hashes := w.tabs.hashes)
    && |v.history| > 0 && w.evidence == v.evidence[g := |v.history| - 1]
  }

  lemma ValidatesAfter(v: View, w: View, x: View, p: Packet, hops: byte, id: byte, lt: Lifetime, g: u64, now: u64)
    requires v.ifs.WellFormed() && Tabular(v.tabs) && w == v.(tabs := v.tabs.(hashes := w.tabs.hashes))
    requires |v.history| > 0
    requires g in v.tabs.links && Attests(v.env, Ingested(p, id, hops, now), v.tabs.links[g])
    requires now < v.tabs.links[g].expires
    requires Enqueues(w.box, x.box, w.ifs, w.depth, v.tabs.links[g].body.receiving,
      p.(header := p.header.(hops := hops)), ProofReturn, lt, true)
    requires lt == LinkToken(now, SatAdd(now, LINK_TIMEOUT_MS), g)
    requires x.tabs == w.tabs.(links := x.tabs.links, hashes := x.tabs.hashes)
    requires Renews(w.tabs.links, v.tabs.links[g].key, SatAdd(now, LINK_TIMEOUT_MS), true, now, x.tabs.links)
    requires x.evidence == w.evidence[g := |w.history| - 1]
    ensures ValidatesLink(v, x, p, hops, id, lt, g, now)
  {
    hide Thrifty, Paced, Attests, Interfaces.WellFormed, Enqueues;
    var live, key := LiveAt(v.tabs.links, now), v.tabs.links[g].key;
    assert g in live;
    var h :| h in live && live[h].key == key && x.tabs.links == live[h := Row(key, SatAdd(now, LINK_TIMEOUT_MS),
      live[h].body.(validated := true))];
    assert h == g;
  }

  lemma NoTraceAfter(v: View, w: View, x: View, now: u64)
    requires LeavesNoTrace(v, w, now) && x == w.(box := x.box) && x.box.queue == w.box.queue
    requires x.box.identity == w.box.identity
    ensures LeavesNoTrace(v, x, now)
  {
  }

  lemma OnlyEntry(v: View, key: Hash, known: Row<ReverseBody>, g: u64, taken: Option<Row<ReverseBody>>, now: u64)
    requires Minted(v.tabs.reverse, v.tabs.lastReverse) && known in v.tabs.reverse.Values && known.key == key
    requires now < known.expires
    requires var live := LiveAt(v.tabs.reverse, now);
      match taken case None => !HasKey(live, key) case Some(r) => g in live && live[g] == r && r.key == key
    ensures taken == Some(known)
  {
    var h :| h in v.tabs.reverse && v.tabs.reverse[h] == known;
    assert h in LiveAt(v.tabs.reverse, now);
  }

  lemma ReverseTaken(v: View, w: View, g: u64, now: u64)
    requires Inv(v) && w == v.(tabs := v.tabs.(reverse := LiveAt(v.tabs.reverse, now) - {g}))
    ensures Inv(w) && Follows(v, w, now)
  {
    hide Thrifty, Paced, Routed, CacheAgrees, Minted, Follows, BoxOk, AllSealed, Numbered, Interfaces.WellFormed,
      QueueFollows, Evidenced, TabsFollow;
    ShrunkStep(v, w, now);
  }

  /** Taking an entry and putting it back leaves no trace, with a refused send in between. */
  lemma Undone(v: View, w: View, x: View, y: View, g: u64, now: u64)
    requires Inv(v) && g in LiveAt(v.tabs.reverse, now) && Follows(v, w, now) && Inv(x) && Follows(w, x, now)
    requires w == v.(tabs := v.tabs.(reverse := LiveAt(v.tabs.reverse, now) - {g}))
    requires x == w.(box := x.box) && x.box.queue == w.box.queue && x.box.identity == w.box.identity
    requires y == x.(tabs := x.tabs.(reverse := x.tabs.reverse[g := v.tabs.reverse[g]]))
    ensures Inv(y) && Follows(v, y, now) && LeavesNoTrace(v, y, now)
  {
    hide Thrifty, Paced, Routed, CacheAgrees, Minted, Follows, BoxOk, Numbered, Interfaces.WellFormed, Evidenced,
      TabsFollow, QueueFollows;
    var live := LiveAt(v.tabs.reverse, now);
    assert y.tabs.reverse == live;
    assert LiveAt(live, now) == live;
    ghost var u := v.(tabs := y.tabs);
    ShrunkStep(v, u, now);
    assert AllSealed(y) by { StaysSealed(x, y); }
    SameBox(x, y);
    assert QueueFollows(v.box, y.box) by { Unchanged(v.box, y.box); }
    assert TabsFollow(v.tabs, y.tabs, now) by { ShrinkingFollows(v.tabs, y.tabs, now); }
    StepKeeps(v, y, now);
  }

  /** Contexts whose packets repeat, and so are not checked for duplicates. */
  predicate Repeats(context: byte) {
    context in {0x01, 0x03, 0x05, 0x08, 0x0E, 0xFA}
  }

  /** Where link traffic goes: to the other side, if it has come the distance recorded for its side. */
  datatype Way = NotOurs | Blocked | Toward(target: byte)

  function LinkWay(b: LinkBody, hops: byte, id: byte): (w: Way)
    ensures w.Toward? ==> w.target == b.outbound || w.target == b.receiving
  {
    if b.outbound == b.receiving then
      if hops == b.remainingHops || hops == b.takenHops then Toward(b.outbound) else Blocked
    else if id == b.receiving then
      if hops == b.takenHops then Toward(b.outbound) else Blocked
    else if id == b.outbound then
      if hops == b.remainingHops then Toward(b.receiving) else Blocked
    else NotOurs
  }

  /** What queued traffic does to the tables: a hash, and a fresh deadline for a validated link. */
  ghost predicate Refreshes(t: Tabs, t': Tabs, link: Row<LinkBody>, now: u64) {
    && t' == t.(links := t'.links, hashes := t'.hashes)
    && if link.body.validated then Renews(t.links, link.key, SatAdd(now, LINK_TIMEOUT_MS), false, now, t'.links)
      else t'.links == t.links
  }

  lemma Refreshed(v: View, w: View, link: Row<LinkBody>, g: u64, now: u64)
    requires Minted(v.tabs.links, v.tabs.lastLink) && Evidenced(v.env, v.tabs.links, v.history, v.evidence)
    requires g in v.tabs.links && v.tabs.links[g] == link && now < link.expires && Refreshes(v.tabs, w.tabs, link, now)
    ensures Evidenced(v.env, w.tabs.links, v.history, v.evidence)
  {
    hide Renews, Evidenced;
    if link.body.validated {
      RenewedLinks(v.tabs.links, v.tabs.lastLink, link.key, SatAdd(now, LINK_TIMEOUT_MS), false, now, w.tabs.links);
      EvidenceKept(v.env, v.tabs.links, w.tabs.links, v.history, [], v.evidence);
      assert v.history + [] == v.history;
    }
  }

  /**
   Traffic went on along a link: queued under the link's incarnation, towards the other side, at the
   distance recorded; of the links, at most this one's deadline changed, and only if it was validated.
   */
  ghost predicate CarriesOn(v: View, w: View, p: Packet, hops: byte, id: byte, reason: Reason, lt: Lifetime, g: u64,
                            now: u64) {
    && v.ifs.WellFormed() && g in v.tabs.links && v.tabs.links[g].key == p.header.destination
    && now < v.tabs.links[g].expires
    && LinkWay(v.tabs.links[g].body, hops, id).Toward?
    && Enqueues(v.box, w.box, v.ifs, v.depth, LinkWay(v.tabs.links[g].body, hops, id).target,
      p.(header := p.header.(hops := hops)), reason, lt, true)
    && lt.state == LinkOf(g)
    && w.tabs == v.tabs.(links := w.tabs.links, hashes := w.tabs.hashes)
    && w.tabs.links == (if v.tabs.links[g].body.validated
                        then LiveAt(v.tabs.links, now)[g := v.tabs.links[g].(expires := SatAdd(now, LINK_TIMEOUT_MS))]
                        else v.tabs.links)
    && (OnLinkOnly(p, reason) ==> lt == LinkToken(now, w.tabs.links[g].expires, g))
  }

  /** The deadline of a link once traffic has gone over it. */
  function DeadlineAfter(link: Row<LinkBody>, now: u64): u64 {
    if link.body.validated then SatAdd(now, LINK_TIMEOUT_MS) else link.expires
  }

  /** The token traffic on a live link is given. */
  lemma TrafficUntil(v: View, q: Packet, reason: Reason, link: Row<LinkBody>, g: u64, pg: u64, path: Option<PathRow>,
                     lg: u64, l: Option<Row<LinkBody>>, lt: Lifetime, now: u64)
    requires Inv(v) && g in v.tabs.links && v.tabs.links[g] == link && now < link.expires
    requires LinkDependent(q) && q.header.destination == link.key && Found(v.tabs.links, link.key, now, lg, l)
    requires lt == LifetimeFor(now, q, reason, if path.Some? then v.ifs.Bitrate(path.value.body.interface) else 0, pg,
                               path, lg, l)
    ensures lt.state == LinkOf(g)
    ensures OnLinkOnly(q, reason) ==>
      lt == LinkToken(now, if q.header.context == CONTEXT_LRPROOF then SatAdd(now, LINK_TIMEOUT_MS)
                           else DeadlineAfter(link, now), g)
  {
    hide Interfaces.WellFormed, Interfaces.Bitrate, BoxOk, AllSealed, Evidenced, Thrifty, Paced, Numbered, Routed,
      CacheAgrees, WellScheduled, AlongPath;
    SameEntry(v.tabs.links, v.tabs.lastLink, link.key, now, lg, l, g);
    LifetimeIs(now, q, reason, if path.Some? then v.ifs.Bitrate(path.value.body.interface) else 0, pg, path, lg, l);
  }

  lemma CarriesAfter(v: View, w: View, x: View, p: Packet, hops: byte, id: byte, reason: Reason, lt: Lifetime, g: u64,
                     target: byte, now: u64)
    requires v.ifs.WellFormed() && Tabular(v.tabs) && w == v.(tabs := v.tabs.(hashes := w.tabs.hashes))
    requires g in v.tabs.links && v.tabs.links[g].key == p.header.destination && now < v.tabs.links[g].expires
    requires LinkWay(v.tabs.links[g].body, hops, id) == Toward(target)
    requires Enqueues(w.box, x.box, w.ifs, w.depth, target, p.(header := p.header.(hops := hops)), reason, lt, true)
    requires lt.state == LinkOf(g) && Refreshes(w.tabs, x.tabs, v.tabs.links[g], now)
    requires OnLinkOnly(p, reason) ==> lt == LinkToken(now, DeadlineAfter(v.tabs.links[g], now), g)
    ensures CarriesOn(v, x, p, hops, id, reason, lt, g, now)
  {
    hide Thrifty, Paced, Interfaces.WellFormed, Enqueues;
    var live, key := LiveAt(v.tabs.links, now), v.tabs.links[g].key;
    assert g in live;
    if v.tabs.links[g].body.validated {
      var h :| h in live && live[h].key == key && x.tabs.links == live[h := Row(key, SatAdd(now, LINK_TIMEOUT_MS),
        live[h].body)];
      assert h == g;
    }
  }

  // --- Announces --------------------------------------------------------------------------------

  const PATHFINDER_M: byte := 128
  const PATHFINDER_R: nat := 1
  const PATHFINDER_G_MS: u64 := 5_000
  const LOCAL_REBROADCASTS_MAX: nat := 2
  const QUEUED_ANNOUNCE_LIFE_MS: u64 := 86_400_000
  const PATH_REQUEST_GATE_MS: u64 := 120_000
  const OCTET: set<nat> := {0, 1, 2, 3, 4, 5, 6, 7}

  function PathLife(mode: Mode): u64 {
    match mode
    case AccessPoint => 86_400_000
    case Roaming => 21_600_000
    case _ => 604_800_000
  }

  /** `transport_announce_from_raw`: the announce as this node passes it on; none when it no longer fits. */
  function Reframe(p: Packet, destination: Hash, hops: byte, transport: Hash, context: byte): (r: Option<Packet>)
    ensures r.Some? ==>
      r.value.payload == p.payload && r.value.header.destination == destination && r.value.header.hops == hops
    ensures r.Some? ==> r.value.header.flags.packetType.Announce? && r.value.header.context == context
    ensures r.Some? ==> r.value.header.flags.destinationType.Single?
  {
    var h := Header(Flags(Header2, p.header.flags.contextFlag, Transport, Single, PacketType.Announce), hops,
      Some(transport), destination, context);
    if h.Size() + |p.payload| <= MTU then Some(Packet(h, p.payload)) else None
  }

  /** Announces go, or are heard passed on; none comes, and none is owed or sent more. */
  ghost predicate Dwindles(m: Schedule, m': Schedule) {
    forall k :: k in m' ==> k in m && m'[k] == m[k].(body := m[k].body.(local := m'[k].body.local))
  }

  lemma RescheduledStep(v: View, w: View, now: u64)
    requires Inv(v) && w == v.(tabs := v.tabs.(schedule := w.tabs.schedule)) && WellScheduled(w.tabs.schedule)
    requires Spends(v.tabs.schedule, w.tabs.schedule)
    ensures Inv(w) && Follows(v, w, now)
  {
    hide Thrifty, Paced, Routed, CacheAgrees, Minted, Follows, BoxOk, AllSealed, Numbered, Interfaces.WellFormed,
      QueueFollows, Evidenced, TabsFollow;
    ShrunkStep(v, w, now);
  }

  lemma HeardStep(v: View, w: View, key: Hash, now: u64)
    requires Inv(v) && w == v.(tabs := v.tabs.(schedule := RowsTransformed(v.tabs.schedule, Heard(key))))
    ensures Inv(w) && Follows(v, w, now) && Dwindles(v.tabs.schedule, w.tabs.schedule)
  {
    hide Thrifty, Paced, Routed, CacheAgrees, Minted, Follows, BoxOk, AllSealed, Numbered, Interfaces.WellFormed,
      QueueFollows, Evidenced;
    RescheduledStep(v, w, now);
  }

  /** Discoveries go, or lose requesters while some remain. */
  lemma ClosedStep(v: View, w: View, now: u64)
    requires Inv(v) && w == v.(tabs := v.tabs.(disc := w.tabs.disc)) && Awaited(w.tabs.disc)
    requires forall g :: g in w.tabs.disc ==>
      && g in v.tabs.disc && w.tabs.disc[g].key == v.tabs.disc[g].key
      && w.tabs.disc[g].expires == v.tabs.disc[g].expires
    ensures Inv(w) && Follows(v, w, now)
  {
    hide Thrifty, Paced, Routed, CacheAgrees, Minted, Follows, BoxOk, AllSealed, Numbered, Interfaces.WellFormed,
      QueueFollows, Evidenced, TabsFollow;
    ShrunkStep(v, w, now);
  }

  /** Packets that were never made are counted beside the rows lost. */
  lemma RefusedStep(v: View, w: View, now: u64)
    requires Inv(v) && w == v.(box := v.box.(dropped := w.box.dropped, refused := w.box.refused))
    requires w.box.refused >= v.box.refused
    requires w.box.refused - v.box.refused <= U64_MAX
    requires w.box.dropped == SatAdd(v.box.dropped, w.box.refused - v.box.refused)
    ensures Inv(w) && Follows(v, w, now)
  {
    hide Thrifty, Paced, Routed, CacheAgrees, Minted, Follows, AllSealed, Numbered, Interfaces.WellFormed, Evidenced,
      TabsFollow, WellScheduled;
    assert AllSealed(w) by { StaysSealed(v, w); }
    assert QueueFollows(v.box, w.box) by { Unchanged(v.box, w.box); }
    TabsFollowReflexive(v.tabs, now);
    StepKeeps(v, w, now);
  }

  /** The cache entry that goes with a learned route. */
  function Cached(row: PathRow, p: Packet): CacheRow {
    Row(row.key, row.expires, CacheBody(p, row.body.hops, row.body.bulk))
  }

  lemma LearnedStep(v: View, w: View, row: PathRow, p: Packet, capacity: nat, learned: bool, now: u64)
    requires Inv(v)
    requires w == v.(tabs := v.tabs.(paths := w.tabs.paths, lastPath := w.tabs.lastPath, cache := w.tabs.cache))
    requires Updates(v.tabs.paths, v.tabs.lastPath, capacity, row, now, w.tabs.paths, w.tabs.lastPath, learned)
    requires if learned then Recaches(v.tabs.cache, Cached(row, p), w.tabs.cache) else w.tabs.cache == v.tabs.cache
    requires Up(v.ifs, row.body.interface) && row.body.packetHash == HashOf(v.env, p)
    ensures Inv(w) && Follows(v, w, now)
  {
    hide Thrifty, Paced, Follows, AllSealed, BoxOk, Numbered, Interfaces.WellFormed, Evidenced, TabsOk, Updates,
      Recaches, Up, HashOf;
    LearningTabs(v.env, v.ifs, v.tabs, w.tabs, row, Cached(row, p), capacity, learned, now);
    assert AllSealed(w) by { StaysSealed(v, w); }
    QueueFollowsReflexive(v.box);
    SameBox(v, w);
    StepKeeps(v, w, now);
  }

  /** `announce_jitter_ms`, below the half second the source bounds it by. */
  function Jitter(env: Env, hash: Hash, transport: Hash, round: nat): (j: u64)
    ensures j < 500
  {
    env.jitter(hash, transport, Min(round, PATHFINDER_R)) % 500
  }

  /** A newly scheduled announce has not been sent. */
  lemma ScheduledStep(v: View, w: View, row: ScheduleRow, capacity: nat, now: u64)
    requires Inv(v) && w == v.(tabs := v.tabs.(schedule := w.tabs.schedule), sends := Renewed(v.sends, row.key))
    requires Schedules(v.tabs.schedule, capacity, row, now, w.tabs.schedule)
    requires Announcing(row) && row.body.pending == {} && row.body.retries == 0
    ensures Inv(w) && Follows(v, w, now)
  {
    hide Thrifty, Paced, Follows, AllSealed, BoxOk, Numbered, Interfaces.WellFormed, Evidenced, Routed, CacheAgrees,
      Minted;
    SchedulingKeeps(v.sends, v.tabs.schedule, capacity, row, now, w.tabs.schedule);
    SchedulingTabs(v.env, v.ifs, v.tabs, w.tabs, now);
    assert AllSealed(w) by { StaysSealed(v, w); }
    QueueFollowsReflexive(v.box);
    SameBox(v, w);
    StepKeeps(v, w, now);
  }

  /** The route was learned under its incarnation rules, and its announce cached under the class rules. */
  ghost predicate LearnsRoute(v: View, w: View, p: Packet, row: PathRow, capacity: nat, cached: nat, now: u64) {
    && Updates(v.tabs.paths, v.tabs.lastPath, capacity, row, now, w.tabs.paths, w.tabs.lastPath, true)
    && Caches(Retained(v.tabs.cache, w.tabs.paths, now), cached, Cached(row, p), now, w.tabs.cache)
  }

  /**
   Neither a live route nor the cache changed, and nothing was queued; a replay was refused by the
   incarnation rules.
   */
  ghost predicate IgnoresAnnounce(v: View, w: View, row: PathRow, capacity: nat, replay: bool, now: u64) {
    && LiveAt(w.tabs.paths, now) == LiveAt(v.tabs.paths, now) && w.tabs.lastPath == v.tabs.lastPath
    && w.tabs.cache == v.tabs.cache
    && w.box == v.box && w.tabs.disc == v.tabs.disc && w.tabs.reverse == v.tabs.reverse && w.tabs.links == v.tabs.links
    && (replay ==> Updates(v.tabs.paths, v.tabs.lastPath, capacity, row, now, w.tabs.paths, w.tabs.lastPath, false))
  }

  lemma Untouched(v: View, row: PathRow, capacity: nat, now: u64)
    ensures IgnoresAnnounce(v, v, row, capacity, false, now)
  {
  }

  lemma IgnoredAfter(v: View, w: View, x: View, row: PathRow, capacity: nat, now: u64)
    requires w == v.(tabs := v.tabs.(schedule := w.tabs.schedule))
    requires x == w.(tabs := w.tabs.(paths := x.tabs.paths, lastPath := x.tabs.lastPath))
    requires Updates(w.tabs.paths, w.tabs.lastPath, capacity, row, now, x.tabs.paths, x.tabs.lastPath, false)
    ensures IgnoresAnnounce(v, x, row, capacity, true, now)
  {
    hide Updates;
    RefusedUpdate(w.tabs.paths, w.tabs.lastPath, capacity, row, now, x.tabs.paths, x.tabs.lastPath);
  }

  lemma LearnedAfter(v: View, w: View, x: View, y: View, p: Packet, row: PathRow, capacity: nat, cached: nat, now: u64)
    requires w == v.(tabs := v.tabs.(schedule := w.tabs.schedule))
    requires x == w.(tabs := w.tabs.(paths := x.tabs.paths, lastPath := x.tabs.lastPath, cache := x.tabs.cache))
    requires y == x.(box := y.box, sends := y.sends, tabs := x.tabs.(disc := y.tabs.disc, schedule := y.tabs.schedule))
    requires Updates(w.tabs.paths, w.tabs.lastPath, capacity, row, now, x.tabs.paths, x.tabs.lastPath, true)
    requires Caches(Retained(w.tabs.cache, x.tabs.paths, now), cached, Cached(row, p), now, x.tabs.cache)
    ensures LearnsRoute(v, y, p, row, capacity, cached, now)
  {
    hide Updates, Caches;
  }

  // --- Path requests ----------------------------------------------------------------------------

  lemma DiscoveredStep(v: View, w: View, capacity: nat, destination: Hash, slot: nat, now: u64, timeout: u64, r: Begun)
    requires Inv(v) && v.enabled && w == v.(tabs := v.tabs.(disc := w.tabs.disc, lastDisc := w.tabs.lastDisc))
    requires Awaited(w.tabs.disc)
    requires Begins(v.tabs.disc, v.tabs.lastDisc, capacity, destination, slot, now, timeout, w.tabs.disc,
                    w.tabs.lastDisc, r)
    ensures Inv(w) && Follows(v, w, now) && (r.New? ==> r.identity == w.tabs.lastDisc)
  {
    hide Thrifty, Paced, Follows, AllSealed, BoxOk, Numbered, Interfaces.WellFormed, Evidenced, TabsOk, Awaited;
    DiscoveringTabs(v.env, v.ifs, v.tabs, w.tabs, capacity, destination, slot, now, timeout, r);
    assert AllSealed(w) by { StaysSealed(v, w); }
    QueueFollowsReflexive(v.box);
    SameBox(v, w);
    StepKeeps(v, w, now);
  }

  /** `build_path_request`. */
  function PathRequestPacket(env: Env, requested: Hash, tag: Bytes, transport: Option<Hash>): (p: Packet)
    requires |tag| <= 16
    ensures |p.payload| <= 48
  {
    var h := Header(Flags(Header1, false, TransportType.Broadcast, Plain, Data), 0, None, env.pathRequest,
      CONTEXT_NONE);
    Packet(h, ToBe(requested, 16) + (if transport.Some? then ToBe(transport.value, 16)
      else []) + tag + seq(16 - |tag|, _ => 0))
  }

  /** `mode_discovers_unknown_paths`. */
  predicate Discovers(m: Mode) {
    m.AccessPoint? || m.Gateway? || m.Roaming? || m.Internal?
  }

  // --- Freshness of routes ----------------------------------------------------------------------

  /** No route is learned: those there are were there, from the same announces. */
  ghost predicate Calm(m: Entries<PathBody>, m': Entries<PathBody>) {
    forall h :: h in m' ==> h in m && m'[h].key == m[h].key && m'[h].body.random == m[h].body.random
  }

  /** A destination with a live route keeps the announce it was learned from, or gets one emitted later. */
  ghost predicate Fresher(m: Entries<PathBody>, m': Entries<PathBody>, t: u64) {
    forall g, h :: g in m && h in m' && m'[h].key == m[g].key && t < m[g].expires ==> NoOlder(m[g], m'[h])
  }

  // --- Frames and the entries made for them -----------------------------------------------------

  /** A frame whose token names no entry that would be made for it. */
  predicate Untied(q: Queued) {
    && !q.lifetime.state.ReverseOf?
    && (q.lifetime.state.LinkOf? ==> !q.packet.header.flags.packetType.LinkRequest?)
  }

  /** Every row queued since `b` is untied. */
  ghost predicate Loose(b: Box, c: Box) {
    forall q :: q in c.queue && q.identity > b.identity ==> Untied(q)
  }

  /** A data frame that names the one reverse entry recorded in its step, whose way it is. */
  ghost predicate TiedReverse(v: View, w: View, q: Queued) {
    && q.identity > v.box.identity && q.reason.TransportForward?
    && w.tabs.lastReverse == v.tabs.lastReverse + 1 && q.lifetime.state == ReverseOf(w.tabs.lastReverse)
    && w.tabs.lastReverse in w.tabs.reverse && w.tabs.reverse[w.tabs.lastReverse].body.outbound == q.interface
  }

  /** A link request that names the one link recorded in its step, which is pending, and whose way it is. */
  ghost predicate TiedLink(v: View, w: View, q: Queued) {
    && q.identity > v.box.identity && q.reason.TransportForward? && q.packet.header.flags.packetType.LinkRequest?
    && w.tabs.lastLink == v.tabs.lastLink + 1 && q.lifetime.state == LinkOf(w.tabs.lastLink)
    && w.tabs.lastLink in w.tabs.links && !w.tabs.links[w.tabs.lastLink].body.validated
    && w.tabs.links[w.tabs.lastLink].body.outbound == q.interface
  }

  /**
   The frames and entries of a step belong together: a frame it queued is untied, or names the entry
   recorded in the same step; and an entry is recorded only with a frame that names it.
   */
  ghost predicate Paired(v: View, w: View) {
    && (forall q :: q in w.box.queue && q.identity > v.box.identity ==>
      Untied(q) || TiedReverse(v, w, q) || TiedLink(v, w, q))
    && (w.tabs.lastReverse != v.tabs.lastReverse && v.box.capacity > 0 ==>
      exists q :: q in w.box.queue && TiedReverse(v, w, q))
    && (w.tabs.lastLink != v.tabs.lastLink && v.box.capacity > 0 ==> exists q :: q in w.box.queue && TiedLink(v, w, q))
  }

  lemma LoosePaired(v: View, w: View)
    requires Loose(v.box, w.box) && w.tabs.lastReverse == v.tabs.lastReverse && w.tabs.lastLink == v.tabs.lastLink
    ensures Paired(v, w)
  {
  }

  /** A link that is validated, and before the step was not. */
  predicate Validated(v: View, w: View, g: u64) {
    g in w.tabs.links && w.tabs.links[g].body.validated && !(g in v.tabs.links && v.tabs.links[g].body.validated)
  }

  /** At most one frame is logged, at the time of the step, and it attests every link the step validated. */
  ghost predicate Witnessed(v: View, w: View, t: u64) {
    && (w.history == v.history ||
        (&& |w.history| == |v.history| + 1 && v.history <= w.history && w.history[|v.history|].time == t
         && w.history[|v.history|].packet.header.WellFormed()))
    && forall g :: Validated(v, w, g) ==>
         |w.history| == |v.history| + 1 && Attests(v.env, w.history[|v.history|], w.tabs.links[g])
  }

  lemma SteadyWitnessed(v: View, w: View, t: u64)
    requires w.history == v.history && Submap(v.tabs.links, w.tabs.links)
    ensures Witnessed(v, w, t)
  {
    hide Attests;
  }

  /** A step that queues nothing records nothing. */
  lemma QuietPaired(v: View, w: View)
    requires Inv(w) && w.box.identity == v.box.identity
    requires w.tabs.lastReverse == v.tabs.lastReverse && w.tabs.lastLink == v.tabs.lastLink
    ensures Paired(v, w)
  {
    hide TabsOk, Evidenced, Thrifty, Paced, AllSealed, Numbered, Conserved, Isolated, FanoutShape, Paired, Untied;
    LoosePaired(v, w);
  }

  // --- The log of releases ----------------------------------------------------------------------

  /** A rebroadcast to this interface that was queued since `v`. */
  ghost predicate NewGated(v: View, w: View, id: byte, q: Queued) {
    q in w.box.queue && q.identity > v.box.identity && GatedTo(id)(q)
  }

  /** What letting this row through to the interface of a slot is logged as. */
  function LoggedAs(v: View, c: InterfaceConfig, q: Queued, now: u64): Release {
    Release(now, PaceOf(v.own.modem, c).Work(q.packet.Size() + c.tag))
  }

  /** The log of a slot grows by the rebroadcast that was queued to its interface, and only by that. */
  ghost predicate AirsSlot(v: View, w: View, s: nat, now: u64) {
    && v.ifs.Router? && s < |v.ifs.registry| && s < |v.aired| && s < |w.aired|
    && if v.ifs.registry[s].None? then w.aired[s] == v.aired[s]
       else
         var c := v.ifs.registry[s].value;
         if exists q :: NewGated(v, w, c.id, q)
         then exists q :: NewGated(v, w, c.id, q) && w.aired[s] == v.aired[s] + [LoggedAs(v, c, q, now)]
         else w.aired[s] == v.aired[s]
  }

  /** No row queued since `b` is a rebroadcast. */
  ghost predicate Gateless(b: Box, c: Box) {
    forall q :: q in c.queue && q.identity > b.identity ==> !q.reason.Gated()
  }

  /** A router queued no rebroadcast since `v`. */
  ghost predicate Ungated(v: View, w: View) {
    v.ifs.Router? ==> Gateless(v.box, w.box)
  }

  /** A slot holds the same registered interface before and after, under the same generation. */
  predicate StaysRegistered(v: View, w: View, s: nat) {
    && v.ifs.Router? && w.ifs.Router? && s < |v.ifs.registry| && s < |v.ifs.generations|
    && v.ifs.registry[s].Some? && v.ifs.generations[s] != 0
    && s < |w.ifs.registry| && s < |w.ifs.generations|
    && w.ifs.registry[s] == v.ifs.registry[s] && w.ifs.generations[s] == v.ifs.generations[s]
  }

  /** While an interface stays registered, what a step queues to it as a rebroadcast is what it logs for it. */
  ghost predicate Logs(v: View, w: View, t: u64) {
    forall s: nat :: StaysRegistered(v, w, s) ==> AirsSlot(v, w, s, t)
  }

  /** The log of an interface that stays registered is as it was. */
  ghost predicate LogsStay(v: View, w: View) {
    forall s: nat :: StaysRegistered(v, w, s) ==> s < |v.aired| && s < |w.aired| && w.aired[s] == v.aired[s]
  }

  lemma SameLogsStay(v: View, w: View)
    requires Inv(v) && w.aired == v.aired
    ensures LogsStay(v, w)
  {
    hide TabsOk, Evidenced, Thrifty, AllSealed, Numbered, BoxOk, InStep;
  }

  lemma UngatedLogs(v: View, w: View, t: u64)
    requires Ungated(v, w) && LogsStay(v, w)
    ensures Logs(v, w, t)
  {
  }

  lemma UngatedStill(v: View, w: View)
    requires Inv(w) && w.box.identity == v.box.identity
    ensures Ungated(v, w)
  {
    hide TabsOk, Evidenced, Thrifty, Paced, AllSealed, Numbered, Conserved, Isolated, FanoutShape,
      Interfaces.WellFormed;
  }

  /** A step on which nothing is queued, released or taken in, and links only go. */
  lemma QuietStep(v: View, w: View, t: u64)
    requires Inv(v) && w.aired == v.aired
    requires Inv(w) && w.box.identity == v.box.identity && w.history == v.history
    requires w.tabs.lastReverse == v.tabs.lastReverse && w.tabs.lastLink == v.tabs.lastLink
    requires Submap(v.tabs.links, w.tabs.links)
    ensures Paired(v, w) && Witnessed(v, w, t) && Logs(v, w, t)
  {
    hide Inv, Paired, Witnessed, LogsStay, Logs;
    SameLogsStay(v, w);
    RegistryQuiet(v, w, t);
  }

  /** The same, but a log may start anew with a new registration. */
  lemma RegistryQuiet(v: View, w: View, t: u64)
    requires Inv(w) && w.box.identity == v.box.identity && w.history == v.history && LogsStay(v, w)
    requires w.tabs.lastReverse == v.tabs.lastReverse && w.tabs.lastLink == v.tabs.lastLink
    requires Submap(v.tabs.links, w.tabs.links)
    ensures Paired(v, w) && Witnessed(v, w, t) && Logs(v, w, t)
  {
    hide Inv, Paired, Witnessed, LogsStay, Ungated, Logs;
    QuietPaired(v, w);
    SteadyWitnessed(v, w, t);
    UngatedStill(v, w);
    UngatedLogs(v, w, t);
  }

  lemma Still(v: View, t: u64)
    requires Inv(v)
    ensures Follows(v, v, t) && Paired(v, v) && Witnessed(v, v, t) && Logs(v, v, t)
  {
    hide TabsOk, BoxOk, Evidenced, Thrifty, Paced, AllSealed, Numbered, Follows, Paired, Interfaces.WellFormed,
      Witnessed, Logs;
    FollowsReflexive(v, t);
    QuietStep(v, v, t);
  }

  lemma LooseTransitive(b: Box, c: Box, d: Box)
    requires Loose(b, c) && Loose(c, d) && QueueFollows(c, d)
    ensures Loose(b, d)
  {
    forall q | q in d.queue && q.identity > b.identity ensures Untied(q) {
      if q.identity <= c.identity {
        var k :| 0 <= k < |d.queue| && d.queue[k] == q;
        assert Inherited(c.queue, d.queue[k]);
        var n :| 0 <= n < |c.queue| && Shrunk(c.queue[n], q);
        assert c.queue[n] in c.queue;
      }
    }
  }

  /** Queueing an untied frame, or none. */
  lemma LooseEnqueue(b: Box, c: Box, clock: u64, ifs: Interfaces, depth: nat, id: byte, packet: Packet, reason: Reason,
                     lt: Lifetime, ok: bool)
    requires Ordered(b, clock) && ifs.WellFormed() && Enqueues(b, c, ifs, depth, id, packet, reason, lt, ok)
    requires !lt.state.ReverseOf? && (lt.state.LinkOf? ==> !packet.header.flags.packetType.LinkRequest?)
    ensures Loose(b, c)
  {
    hide Interfaces.WellFormed, Displaced, DeliveryFor, FanoutShape;
  }

  /** Queueing, once the parts are put together: an untied frame makes a loose step. */
  lemma LooseOffer(v: View, w: View, id: byte, packet: Packet, reason: Reason, lt: Lifetime, ok: bool)
    requires Inv(v) && Enqueues(v.box, w.box, v.ifs, v.depth, id, packet, reason, lt, ok)
    requires !lt.state.ReverseOf? && (lt.state.LinkOf? ==> !packet.header.flags.packetType.LinkRequest?)
    ensures Loose(v.box, w.box)
  {
    hide TabsOk, Evidenced, Thrifty, Paced, AllSealed, Numbered, Conserved, Isolated, Ordered, Enqueues, Loose,
      Interfaces.WellFormed;
    LooseEnqueue(v.box, w.box, v.clock, v.ifs, v.depth, id, packet, reason, lt, ok);
  }

  lemma PairedElsewhere(v: View, w: View, x: View, t: u64)
    requires Paired(v, w) && Witnessed(v, w, t) && x == w.(ifs := x.ifs) && v.ifs.Endpoint?
    ensures Paired(v, x) && Witnessed(v, x, t) && Logs(v, x, t)
  {
    hide Untied, Attests;
    assert forall g :: Validated(v, x, g) ==> Validated(v, w, g);
    forall q | q in x.box.queue && q.identity > v.box.identity
      ensures Untied(q) || TiedReverse(v, x, q) || TiedLink(v, x, q)
    {
      assert Untied(q) || TiedReverse(v, w, q) || TiedLink(v, w, q);
    }
    if w.tabs.lastReverse != v.tabs.lastReverse && v.box.capacity > 0 {
      var q :| q in w.box.queue && TiedReverse(v, w, q);
      assert TiedReverse(v, x, q);
    }
    if w.tabs.lastLink != v.tabs.lastLink && v.box.capacity > 0 {
      var q :| q in w.box.queue && TiedLink(v, w, q);
      assert TiedLink(v, x, q);
    }
  }

  /**
   One step of a node, taken at time `t`: what `Follows` allows, no live route replaced by an announce
   emitted earlier, frames and entries recorded together, links validated only by the frame taken in, and
   rebroadcasts logged.
   */
  ghost predicate Step(v: View, w: View, t: u64) {
    && Follows(v, w, t) && Witnessed(v, w, t) && Paired(v, w) && Logs(v, w, t)
    && (w.tabs.lastPath == v.tabs.lastPath || Fresher(v.tabs.paths, w.tabs.paths, t))
  }

  lemma TouchingIsCalm(m: Entries<PathBody>, key: Hash, now: u64, m': Entries<PathBody>)
    requires Touches(m, key, now, m')
    ensures Calm(m, m')
  {
  }

  lemma CalmIsFresher(m: Entries<PathBody>, last: u64, m': Entries<PathBody>, t: u64)
    requires Minted(m, last) && Calm(m, m')
    ensures Fresher(m, m', t)
  {
    hide Emitted;
  }

  lemma LearningIsFresher(m: Entries<PathBody>, last: u64, capacity: nat, row: PathRow, now: u64, m': Entries<PathBody>,
                          last': u64)
    requires Minted(m, last) && Updates(m, last, capacity, row, now, m', last', true)
    ensures Fresher(m, m', now)
  {
    hide Emitted, SameRoute, MakesRoom;
    var live := LiveAt(m, now);
    var g := UpdateLands(m, last, capacity, row, now, m', last');
    if HasKey(live, row.key) {
      var h :| h in live && live[h].key == row.key;
      assert Emitted(row.body.random) > Emitted(m[h].body.random);
    } else {
      forall h | h in m && now < m[h].expires ensures m[h].key != row.key {
        assert h in live;
      }
    }
  }

  // --- Ingress ----------------------------------------------------------------------------------

  /** Hop count after the increment, which a local client does not pay. */
  function HopsHere(hops: byte, client: bool): byte {
    if client || hops == 255 then (if client && hops == 255 then 254 else hops) else hops + 1
  }

  /** The clock moves on, and an endpoint may have learned of an interface. */
  lemma ObservedStep(v: View, w: View, now: u64)
    requires Inv(v) && v.clock <= w.clock && w == v.(clock := w.clock, ifs := w.ifs)
    requires w.ifs == v.ifs || (v.ifs.Endpoint? && w.ifs.Endpoint? && w.ifs.WellFormed())
    ensures Inv(w) && Follows(v, w, now)
  {
    hide QueueFollows, TabsOk, Evidenced, Thrifty, BoxOk, TabsFollow, AllSealed, Follows;
    QueueFollowsReflexive(v.box);
    TabsFollowReflexive(v.tabs, now);
    ObservedBox(v, w);
    if w.ifs != v.ifs {
      EndpointRoutes(w.ifs, w.tabs);
      TabsOkElsewhere(v.env, v.ifs, w.ifs, w.tabs);
    }
    RegistryStep(v, w, now);
  }

  lemma EndpointRoutes(ifs: Interfaces, t: Tabs)
    requires ifs.WellFormed() && ifs.Endpoint?
    ensures Routed(ifs, t)
  {
  }

  lemma ObservedBox(v: View, w: View)
    requires v.ifs.WellFormed() && w.ifs.WellFormed() && BoxOk(v) && AllSealed(v) && v.clock <= w.clock
    requires w == v.(clock := w.clock, ifs := w.ifs)
    requires w.ifs == v.ifs || (v.ifs.Endpoint? && w.ifs.Endpoint?)
    ensures BoxOk(w) && AllSealed(w)
  {
    hide Conserved, AllCurrent, Shared, Interfaces.WellFormed, FanoutShape;
  }

  lemma HashesStep(v: View, w: View, now: u64)
    requires Inv(v) && w == v.(tabs := v.tabs.(hashes := w.tabs.hashes))
    ensures Inv(w) && Follows(v, w, now)
  {
    hide Thrifty, Paced, Routed, CacheAgrees, Minted, Follows, BoxOk, AllSealed, Numbered, Interfaces.WellFormed,
      QueueFollows, Evidenced, TabsFollow;
    ShrunkStep(v, w, now);
  }

  /** A frame enters the history. */
  lemma RecordedStep(v: View, w: View, now: u64)
    requires Inv(v) && w == v.(history := w.history) && v.history <= w.history
    ensures Inv(w) && Follows(v, w, now)
  {
    hide Thrifty, Paced, TabsOk, Follows, BoxOk, Numbered, Interfaces.WellFormed, QueueFollows, Evidenced, TabsFollow,
      AllSealed;
    assert w.history == v.history + w.history[|v.history|..];
    EvidenceKept(v.env, v.tabs.links, w.tabs.links, v.history, w.history[|v.history|..], v.evidence);
    assert AllSealed(w) by { StaysSealed(v, w); }
    QueueFollowsReflexive(v.box);
    TabsFollowReflexive(v.tabs, now);
    SameBox(v, w);
    StepKeeps(v, w, now);
  }

  lemma CalmFresher(v: View, w: View, now: u64)
    requires Inv(v) && Calm(v.tabs.paths, w.tabs.paths)
    ensures Fresher(v.tabs.paths, w.tabs.paths, now)
  {
    hide Calm, Fresher, Minted, BoxOk, AllSealed, Evidenced, Routed, CacheAgrees;
    CalmIsFresher(v.tabs.paths, v.tabs.lastPath, w.tabs.paths, now);
  }

  lemma StillFresher(v: View, w: View, now: u64)
    requires Inv(v) && w.tabs.paths == v.tabs.paths
    ensures Fresher(v.tabs.paths, w.tabs.paths, now)
  {
    hide Fresher, Inv;
    CalmFresher(v, w, now);
  }

  lemma LearnedFresher(v: View, w: View, p: Packet, row: PathRow, capacity: nat, cached: nat, now: u64)
    requires Inv(v) && LearnsRoute(v, w, p, row, capacity, cached, now)
    ensures Fresher(v.tabs.paths, w.tabs.paths, now)
  {
    hide Fresher, Updates, Recaches, Minted, BoxOk, AllSealed, Evidenced, Routed, CacheAgrees;
    LearningIsFresher(v.tabs.paths, v.tabs.lastPath, capacity, row, now, w.tabs.paths, w.tabs.lastPath);
  }

  lemma IgnoredFresher(v: View, w: View, row: PathRow, capacity: nat, replay: bool, now: u64)
    requires Inv(v) && Inv(w) && IgnoresAnnounce(v, w, row, capacity, replay, now)
    ensures Fresher(v.tabs.paths, w.tabs.paths, now)
  {
    hide Updates, BoxOk, AllSealed, Evidenced, Routed, CacheAgrees, Emitted;
    var a, b := v.tabs.paths, w.tabs.paths;
    forall g, h | g in a && h in b && b[h].key == a[g].key && now < a[g].expires
      ensures b[h].body.random == a[g].body.random
    {
      assert g in LiveAt(a, now);
      assert g in LiveAt(b, now);
    }
  }

  // --- Announce rebroadcast ---------------------------------------------------------------------

  /**
   A due announce for its next round: a round less to go, more owed, and fresh for as long as anything new
   is owed.
   */
  function NextRound(row: ScheduleRow, owes: bool, targets: set<nat>, due: u64, now: u64): ScheduleRow {
    var expires := if owes && row.body.pending * targets == {} then SatAdd(now, QUEUED_ANNOUNCE_LIFE_MS)
      else row.expires;
    Row(row.key, expires, row.body.(retries := row.body.retries + 1, pending := row.body.pending + targets, due := due))
  }

  lemma HasCredit(t: Tally, row: ScheduleRow, target: nat)
    requires !row.body.PendingOnly() && row.body.retries <= 1 && Backed(t, row)
    ensures Sent(t, row.key, target) < SENDS
  {
    assert Sent(t, row.key, target) + RowCredit(row, target) <= SENDS;
  }

  /** Another round, or a send, is within the credit the round before had. */
  lemma RoundKeeps(t: Tally, t': Tally, row: ScheduleRow, next: ScheduleRow, owes: bool, targets: set<nat>, due: u64,
                   now: u64)
    requires !row.body.PendingOnly() && row.body.retries <= 1 && next == NextRound(row, owes, targets, due, now)
    requires t' == t || (t' == Bump(t, row.key, 0) && targets == {})
    requires Backed(t, row)
    ensures Backed(t', next)
  {
    forall target ensures Sent(t', row.key, target) + RowCredit(next, target) <= SENDS {
      assert Sent(t, row.key, target) + RowCredit(row, target) <= SENDS;
    }
  }

  /** A send is counted against credit that was taken out of the schedule. */
  lemma BumpKeeps(t: Tally, m: Schedule, key: Hash, target: nat)
    requires Thrifty(t, m) && key !in m && Sent(t, key, target) < SENDS
    ensures Thrifty(Bump(t, key, target), m)
  {
    forall k, s ensures Sent(Bump(t, key, target), k, s) + Credit(m, k, s) <= SENDS {
      assert Sent(t, k, s) + Credit(m, k, s) <= SENDS;
    }
  }

  lemma BumpedStep(v: View, w: View, key: Hash, target: nat, now: u64)
    requires Inv(v) && w == v.(sends := Bump(v.sends, key, target)) && key !in v.tabs.schedule
    requires Sent(v.sends, key, target) < SENDS
    ensures Inv(w) && Follows(v, w, now)
  {
    hide Thrifty, Paced, Follows, AllSealed, BoxOk, Numbered, Interfaces.WellFormed, Evidenced, TabsOk, Bump;
    BumpKeeps(v.sends, v.tabs.schedule, key, target);
    assert AllSealed(w) by { StaysSealed(v, w); }
    QueueFollowsReflexive(v.box);
    TabsFollowReflexive(v.tabs, now);
    SameBox(v, w);
    StepKeeps(v, w, now);
  }

  lemma ScheduleBound(m: Schedule, capacity: nat, row: ScheduleRow, now: u64, m': Schedule)
    requires WellScheduled(m) && Schedules(m, capacity, row, now, m') && Announcing(row)
    requires row.body.PendingOnly() || row.body.retries <= 1
    ensures WellScheduled(m')
  {
  }

  /** An announce scheduled for later makes nothing due. */
  lemma NothingDue(m: Schedule, capacity: nat, row: ScheduleRow, now: u64, m': Schedule)
    requires Schedules(m, capacity, row, now, m') && now < row.body.due
    ensures Due(LiveRows(m', now), now) <= Due(LiveRows(m, now), now)
  {
  }

  lemma PutBackStep(v: View, w: View, x: View, row: ScheduleRow, next: ScheduleRow, owes: bool, targets: set<nat>,
                    due: u64, capacity: nat, now: u64)
    requires Inv(w) && w.tabs == v.tabs && w.sends == (if owes then v.sends else Bump(v.sends, row.key, 0))
    requires x == w.(tabs := w.tabs.(schedule := x.tabs.schedule))
    requires Schedules(w.tabs.schedule, capacity, next, now, x.tabs.schedule)
    requires row.body.due <= now < due && row.body.retries <= 1 && (due == U64_MAX || row.body.retries == 0)
    requires next == NextRound(row, owes, targets, due, now) && (owes || targets == {})
    requires Backed(v.sends, row) && Announcing(row)
    ensures Inv(x) && Follows(w, x, now)
    ensures Due(LiveRows(x.tabs.schedule, now), now) <= Due(LiveRows(v.tabs.schedule, now), now)
  {
    hide Thrifty, Paced, Follows, AllSealed, BoxOk, Numbered, Interfaces.WellFormed, Evidenced, Routed, CacheAgrees,
      Minted, RowCredit, Bump, Sent, Schedules, Due, LiveRows, WellScheduled;
    assert WellScheduled(x.tabs.schedule) by { ScheduleBound(w.tabs.schedule, capacity, next, now, x.tabs.schedule); }
    NothingDue(w.tabs.schedule, capacity, next, now, x.tabs.schedule);
    RoundKeeps(v.sends, w.sends, row, next, owes, targets, due, now);
    PutBackKeeps(w.sends, w.tabs.schedule, capacity, next, now, x.tabs.schedule);
    SchedulingTabs(w.env, w.ifs, w.tabs, x.tabs, now);
    assert AllSealed(x) by { StaysSealed(w, x); }
    QueueFollowsReflexive(w.box);
    SameBox(w, x);
    StepKeeps(w, x, now);
  }

  /** Taking out what is due leaves one due announce fewer, and its credit with whoever took it. */
  lemma PoppedStep(v: View, w: View, row: Option<ScheduleRow>, now: u64)
    requires Inv(v) && w == v.(tabs := v.tabs.(schedule := w.tabs.schedule))
    requires Pops(v.tabs.schedule, now, row, w.tabs.schedule)
    ensures Inv(w) && Follows(v, w, now)
    ensures row.None? ==> Due(LiveRows(w.tabs.schedule, now), now) == {}
    ensures row.Some? ==>
      && row.value.key !in w.tabs.schedule && row.value.body.due <= now < U64_MAX && row.value.body.retries <= 1
      && Backed(w.sends, row.value) && Announcing(row.value)
      && Due(LiveRows(w.tabs.schedule, now), now) < Due(LiveRows(v.tabs.schedule, now), now)
  {
    hide Paced, Follows, AllSealed, BoxOk, Numbered, Interfaces.WellFormed, Evidenced, Routed, CacheAgrees, Minted,
      RowCredit, Sent;
    KeptSpends(v.tabs.schedule, w.tabs.schedule);
    RescheduledStep(v, w, now);
    if row.Some? {
      PopKeeps(v.sends, v.tabs.schedule, now, row.value, w.tabs.schedule);
      assert row.value.key in Due(LiveRows(v.tabs.schedule, now), now);
      assert Due(LiveRows(w.tabs.schedule, now), now) <= Due(LiveRows(v.tabs.schedule, now), now);
    } else {
      assert LiveRows(w.tabs.schedule, now) == w.tabs.schedule;
    }
  }

  lemma Fewer(a: set<Hash>, b: set<Hash>, c: set<Hash>)
    requires a <= b < c
    ensures |a| < |c|
  {
    SubsetSize(a, b);
    SubsetSize(b, c);
  }

  /** The announces still owed to a slot. */
  ghost function Owing(m: Schedule, slot: nat): set<Hash> {
    set k | k in m && slot in m[k].body.pending
  }

  /** A release is a send, counted against the credit it comes from. */
  lemma ReleasedStep(v: View, w: View, slot: nat, row: Option<ScheduleRow>, now: u64)
    requires Inv(v) && Releases(v.tabs.schedule, slot, now, row, w.tabs.schedule)
    requires w == v.(tabs := v.tabs.(schedule := w.tabs.schedule), sends := if row.Some?
      then Bump(v.sends, row.value.key, slot) else v.sends)
    ensures Inv(w) && Follows(v, w, now)
    ensures row.Some? ==>
      now < U64_MAX && Announcing(row.value) && Owing(w.tabs.schedule, slot) < Owing(v.tabs.schedule, slot)
  {
    hide Thrifty, Paced, Follows, AllSealed, BoxOk, Numbered, Interfaces.WellFormed, Evidenced, Routed, CacheAgrees,
      Minted, Bump;
    if row.Some? {
      ReleaseKeeps(v.sends, v.tabs.schedule, slot, now, row.value, w.tabs.schedule);
      assert row.value.key in Owing(v.tabs.schedule, slot) && row.value.key !in Owing(w.tabs.schedule, slot);
    } else {
      KeptSpends(v.tabs.schedule, w.tabs.schedule);
      SpendingKeeps(v.sends, v.tabs.schedule, w.tabs.schedule);
    }
    SchedulingTabs(v.env, v.ifs, v.tabs, w.tabs, now);
    assert AllSealed(w) by { StaysSealed(v, w); }
    QueueFollowsReflexive(v.box);
    SameBox(v, w);
    StepKeeps(v, w, now);
  }

  lemma StruckStep(v: View, w: View, x: View, slot: nat, key: Hash, now: u64)
    requires Inv(w) && Owing(w.tabs.schedule, slot) < Owing(v.tabs.schedule, slot)
    requires x == w.(tabs := w.tabs.(schedule := RowsWithout(w.tabs.schedule, (r: ScheduleRow) => r.key == key)))
    ensures Inv(x) && Follows(w, x, now)
    ensures |Owing(x.tabs.schedule, slot)| < |Owing(v.tabs.schedule, slot)|
  {
    hide Thrifty, Paced, Follows, AllSealed, BoxOk, Numbered, Interfaces.WellFormed, Evidenced, Routed, CacheAgrees,
      Minted;
    KeptSpends(w.tabs.schedule, x.tabs.schedule);
    RescheduledStep(w, x, now);
    Fewer(Owing(x.tabs.schedule, slot), Owing(w.tabs.schedule, slot), Owing(v.tabs.schedule, slot));
  }

  /** Registrations do not depend on gates. */
  lemma SameRegistry(a: Interfaces, b: Interfaces)
    requires a.WellFormed() && a.Router? && b.Router? && |b.gates| == SLOTS && b == a.(gates := b.gates)
    ensures b.WellFormed()
    ensures forall id: byte :: b.Config(id) == a.Config(id) && b.Generation(id) == a.Generation(id)
    ensures Reregisters(a, b)
  {
  }

  /** An announce let through an open gate pays for its airtime before the next. */
  lemma ChargedStep(v: View, w: View, slot: nat, size: nat, spacing: u64, now: u64)
    requires Inv(v) && v.ifs.Router? && slot < SLOTS && v.ifs.registry[slot].Some? && v.ifs.gates[slot] <= now < U64_MAX
    requires spacing == PaceOf(v.own.modem, v.ifs.registry[slot].value).Spacing(size,
      v.ifs.registry[slot].value.capPermille)
    requires w.ifs == v.ifs.(gates := v.ifs.gates[slot := SatAdd(now, spacing)])
    requires |v.aired| == SLOTS
    requires w.aired == v.aired[slot := v.aired[slot] + [Release(now,
      PaceOf(v.own.modem, v.ifs.registry[slot].value).Work(size))]]
    requires w == v.(ifs := w.ifs, aired := w.aired)
    ensures Inv(w) && Follows(v, w, now)
  {
    hide Thrifty, Follows, Evidenced, Interfaces.Config, Interfaces.Generation, InStep, Paced, Reregisters, BoxOk,
      TabsOk, AllSealed, Numbered;
    SameRegistry(v.ifs, w.ifs);
    PacedCharge(v, w, slot, size, spacing, now);
    RegatedParts(v, w, now);
  }

  lemma PacedCharge(v: View, w: View, slot: nat, size: nat, spacing: u64, now: u64)
    requires v.ifs.WellFormed() && w.ifs.WellFormed() && Paced(v.own.modem, v.ifs, v.aired)
    requires v.ifs.Router? && slot < SLOTS && v.ifs.registry[slot].Some? && v.ifs.gates[slot] <= now < U64_MAX
    requires spacing == PaceOf(v.own.modem, v.ifs.registry[slot].value).Spacing(size,
      v.ifs.registry[slot].value.capPermille)
    requires w.ifs == v.ifs.(gates := v.ifs.gates[slot := SatAdd(now, spacing)]) && w.own == v.own
    requires w.aired == v.aired[slot := v.aired[slot] + [Release(now,
      PaceOf(v.own.modem, v.ifs.registry[slot].value).Work(size))]]
    ensures Paced(w.own.modem, w.ifs, w.aired)
  {
    hide InStep, Interfaces.Slot;
    var c := v.ifs.registry[slot].value;
    var pace := PaceOf(v.own.modem, c);
    if pace.Unit() > 0 {
      ReleaseInStep(v.aired[slot], v.ifs.gates[slot], RateOf(v.own.modem, c), Release(now, pace.Work(size)), spacing);
    }
  }

  /** What the gates do not touch. */
  lemma RegatedParts(v: View, w: View, now: u64)
    requires Inv(v) && w == v.(ifs := w.ifs, aired := w.aired) && w.ifs.WellFormed() && v.ifs.Router? && w.ifs.Router?
    requires w.ifs.last == v.ifs.last
    requires forall id: byte :: w.ifs.Config(id) == v.ifs.Config(id) && w.ifs.Generation(id) == v.ifs.Generation(id)
    requires Reregisters(v.ifs, w.ifs) && Paced(w.own.modem, w.ifs, w.aired)
    ensures Inv(w) && Follows(v, w, now)
  {
    hide Thrifty, Paced, Evidenced, Interfaces.WellFormed, Interfaces.Config, Interfaces.Generation, Reregisters,
      CacheAgrees, Minted, WellScheduled, Count, QueueFollows, Conserved, Ordered, FanoutShape, HashOf;
    QueueFollowsReflexive(v.box);
    SameTabs(v.tabs, w.tabs, now);
  }

  /** Expiry of every table at once. */
  lemma ExpiredStep(v: View, w: View, now: u64)
    requires Inv(v) && w == v.(tabs := w.tabs)
    requires w.tabs == v.tabs.(
      disc := if v.enabled then LiveAt(v.tabs.disc, now) else map[], paths := LiveAt(v.tabs.paths, now),
      reverse := LiveAt(v.tabs.reverse, now), links := LiveAt(v.tabs.links, now), schedule := LiveRows(v.tabs.schedule,
        now),
      hashes := LiveRows(v.tabs.hashes, now), cache := Retained(LiveRows(v.tabs.cache, now), LiveAt(v.tabs.paths, now),
        now))
    ensures Inv(w) && Follows(v, w, now) && Calm(v.tabs.paths, w.tabs.paths)
  {
    hide Thrifty, Paced, Routed, CacheAgrees, Minted, Follows, BoxOk, AllSealed, Numbered, Interfaces.WellFormed,
      QueueFollows, Evidenced, TabsFollow;
    KeptSpends(v.tabs.schedule, w.tabs.schedule);
    ShrunkStep(v, w, now);
  }

  // --- Host requests ----------------------------------------------------------------------------

  lemma DroppedStep(v: View, w: View, p: PathRow -> bool, now: u64)
    requires Inv(v) && w == v.(tabs := v.tabs.(paths := Without(v.tabs.paths, p)))
    ensures Inv(w) && Follows(v, w, now)
  {
    hide Thrifty, Paced, Routed, CacheAgrees, Minted, Follows, BoxOk, AllSealed, Numbered, Interfaces.WellFormed,
      QueueFollows, Evidenced, TabsFollow;
    ShrunkStep(v, w, now);
  }

  /** A row handed over leaves the queue. */
  lemma HandedStep(v: View, w: View, k: nat, now: u64)
    requires Inv(v) && w == v.(box := w.box) && Leaves(v.box, w.box, k, false)
    ensures Inv(w) && Follows(v, w, now)
    ensures forall q :: q in w.box.queue ==> q in v.box.queue
  {
    hide Thrifty, Paced, TabsOk, Follows, Ordered, Conserved, Isolated, AllSealed, Numbered, Interfaces.WellFormed,
      QueueFollows, Evidenced, TabsFollow, Leaves;
    LeavingKeeps(v.box, w.box, v.ifs, v.depth, k, false, v.clock);
    assert AllSealed(w) by { StaysSealed(v, w); }
    TabsFollowReflexive(v.tabs, now);
    StepKeeps(v, w, now);
  }

  // --- The forwarding effects, in terms of frames and entries ------------------------------------

  /** Forwarding a parsed packet is what the wire-level rewrite does to its bytes. */
  lemma ForwardingMatchesWire(raw: Bytes, hops: byte, path: PathBody)
    requires Parse(raw).Parsed? && (path.nextHop.Some? ==> path.nextHop.value < Pow256(16))
    ensures var p := Packet(Parse(raw).header, Parse(raw).payload);
      match ForwardAlong(p, hops, path)
      case Unroutable => Rewrite(raw, p.header, hops, path.hops, path.nextHop) == NoRoute
      case Oversize => Rewrite(raw, p.header, hops, path.hops, path.nextHop) == Oversized
      case Onward(q) =>
        && Rewrite(raw, p.header, hops, path.hops, path.nextHop).Rewritten?
        && Parse(Rewrite(raw, p.header, hops, path.hops, path.nextHop).bytes) == Parsed(q.header, q.payload)
  {
    hide Parse, Pow256, FromBe, ToBe, Unpack, Flags.Pack, CopyWithHops;
    var h, payload := Parse(raw).header, Parse(raw).payload;
    BuildParse(raw);
    RewriteHops(raw, hops);
    if path.hops > 0 {
      RewriteLongOrShort(h, hops, payload, path.hops, path.nextHop);
      BytesLength(h, hops, path.hops, path.nextHop);
      WholeHeader(raw);
    }
  }

  lemma BytesLength(h: Header, hops: byte, pathHops: byte, nextHop: Option<Hash>)
    requires pathHops > 0
    ensures var n := NextHop(h, hops, pathHops, nextHop); n.Some? ==> |HeaderBytes(n.value)| == n.value.Size()
  {
  }

  lemma WholeHeader(raw: Bytes)
    requires Parse(raw).Parsed?
    ensures |raw| >= Parse(raw).header.Size()
  {
  }

  /** An admitted frame stands last in the queue. */
  lemma AdmittedLast(b: Box, c: Box, ifs: Interfaces, depth: nat, id: byte, packet: Packet, reason: Reason,
                     lt: Lifetime)
    requires ifs.WellFormed() && Enqueues(b, c, ifs, depth, id, packet, reason, lt, true) && b.capacity > 0
    ensures c.queue != [] && c.identity == b.identity + 1
    ensures c.queue[|c.queue| - 1] == Queued(c.identity, id, packet, reason, lt, DeliveryFor(ifs, id))
  {
    hide Displaced, DeliveryFor, Interfaces.WellFormed;
    var k: nat :| Displaced(b, ifs, depth, id, reason, k)
      && Admits(b, c, Queued(c.identity, id, packet, reason, lt, DeliveryFor(ifs, id)), k);
  }

  /** Send before record, for links: the same, and every live link is kept. */
  lemma RequestRecordsExactlyOne(v: View, w: View, p: Packet, hops: byte, id: byte, g: u64, sent: Packet, lt: Lifetime,
                                 row: Row<LinkBody>, now: u64)
    requires Inv(v) && OpensLink(v, w, p, hops, id, g, sent, lt, row, now) && v.box.capacity > 0
    ensures w.box.queue != []
    ensures var q := w.box.queue[|w.box.queue| - 1];
      && q.packet == sent && q.interface == row.body.outbound && q.lifetime.state.LinkOf?
      && (forall g :: g in w.tabs.links && g > v.tabs.lastLink <==> g == q.lifetime.state.generation)
      && q.lifetime.state.generation in w.tabs.links && w.tabs.links[q.lifetime.state.generation] == row
    ensures forall g ::
      g in v.tabs.links && now < v.tabs.links[g].expires ==> g in w.tabs.links && w.tabs.links[g] == v.tabs.links[g]
  {
    hide Enqueues, BoxOk, AllSealed, Evidenced, Thrifty, Paced, Numbered, Routed, CacheAgrees, WellScheduled, Touches,
      Interfaces.WellFormed, Opening;
    AdmittedLast(v.box, w.box, v.ifs, v.depth, row.body.outbound, sent, TransportForward, lt);
  }
}
