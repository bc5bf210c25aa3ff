/**
 The abstract state of a transport node, the liveness of frame tokens in it, and what every step of
 the node keeps.
 */
module NodeState {
  import opened Base
  import opened Rows
  import opened Generations
  import opened RowTables
  import opened Wire
  import opened Paths
  import opened Announces
  import opened Interfaces
  import opened Discovery
  import opened Rebroadcast
  import opened AnnounceCap

  const OUTBOUND_MAX_AGE_MS: u64 := 120_000
  const FANOUT: nat := 7

  /** The table incarnation, beside a path, that a frame depends on. */
  datatype Dependency = Independent | ReverseOf(generation: u64) | LinkOf(generation: u64) | DiscoveryOf(identity: u64)

  datatype Lifetime = Lifetime(enqueued: u64, expires: u64, path: u64, state: Dependency)

  datatype Reason =
    | AnnounceRebroadcast | PathResponse | PathRequestForward | PathRequest | TransportForward | ProofReturn | Local
  {
    predicate Gated() {
      AnnounceRebroadcast?
    }
  }

  /** An endpoint row owes copies to a set of host interfaces; a router row is bound to a registration. */
  datatype Delivery = Fanout(generations: seq<nat>, pending: set<nat>, initialized: bool) | Bound(generation: u64)

  datatype Queued = Queued(identity: u64, interface: byte, packet: Packet, reason: Reason, lifetime: Lifetime,
    delivery: Delivery)

  datatype ReverseBody = ReverseBody(receiving: byte, outbound: byte)

  datatype LinkBody = LinkBody(
    signingKey: Hash, receiving: byte, outbound: byte, remainingHops: byte, takenHops: byte,
    mode: nat, mtuCeiling: nat, validated: bool)

  /** A frame that came in, with the hop count after the node's increment. */
  datatype Ingested = Ingested(packet: Packet, interface: byte, hops: byte, time: u64)

  datatype LocalSlot = Destination(hash: Hash) | LocalLink(hash: Hash)

  /** What a verified announce carries. */
  datatype Announced = Announced(random: RandomHash, publicKey: Hash)

  /**
   Hashes, signatures and the access-code wrapper. Announces are parsed and authenticated, against the
   key known for their destination if there is one, and wrapping may fail, in ways the node does not
   look into.
   */
  datatype Env = Env(
    packetHash: Core -> Hash,
    proofHash: Core -> Hash,
    linkId: Core -> Hash,
    verify: (Hash, Bytes, Bytes) -> bool,
    announce: (Packet, Option<Hash>) -> Option<Announced>,
    wraps: (byte, Packet) -> bool,
    unwrap: (byte, Bytes) -> Option<Bytes>,
    jitter: (Hash, Hash, nat) -> nat,
    pathRequest: Hash)

  /**
   The outbound queue with its books: rows admitted and rows dropped, as the node counts them, and
   beside them the true numbers of rows handed over, rows lost and packets refused.
   */
  datatype Box = Box(
    queue: seq<Queued>, capacity: nat, identity: u64,
    queued: u64, dropped: u64,
    handed: nat, lost: nat, refused: nat)

  /** The tables, each by its abstract value; the list of request tags only steers branches and is left out. */
  datatype Tabs = Tabs(
    paths: Entries<PathBody>, lastPath: u64,
    reverse: Entries<ReverseBody>, lastReverse: u64,
    links: Entries<LinkBody>, lastLink: u64,
    disc: Ledger, lastDisc: u64,
    cache: Table<CacheBody>,
    schedule: Schedule,
    hashes: Table<()>)

  /**
   What a node itself is: its transport address, access-code length and mode, what its host serves, and
   the airtime of its LoRa modem by frame size, if it has one.
   */
  datatype Own = Own(
    transport: Hash, tag: nat, mode: Mode, local: set<LocalSlot>, sink: Option<Hash>, modem: Option<nat -> u32>)

  datatype View = View(
    env: Env,
    own: Own,
    clock: u64,
    enabled: bool,
    depth: nat,
    ifs: Interfaces,
    tabs: Tabs,
    box: Box,
    history: seq<Ingested>,
    evidence: map<u64, nat>,
    sends: Tally,
    aired: seq<seq<Release>>)

  // --- Frame tokens ---------------------------------------------------------------------------

  ghost predicate PathIsLive(v: View, g: u64, now: u64)
    requires v.ifs.WellFormed()
  {
    g in v.tabs.paths && now < v.tabs.paths[g].expires && v.ifs.Online(v.tabs.paths[g].body.interface)
  }

  ghost predicate DependencyIsLive(v: View, id: byte, d: Dependency, now: u64)
    requires v.ifs.WellFormed()
  {
    match d
    case Independent => true
    case DiscoveryOf(i) => v.enabled && i in v.tabs.disc && v.tabs.disc[i].body != {} && now < v.tabs.disc[i].expires
    case ReverseOf(g) =>
      g in v.tabs.reverse && now < v.tabs.reverse[g].expires &&
      v.tabs.reverse[g].body.outbound == id && v.ifs.Online(v.tabs.reverse[g].body.receiving)
    case LinkOf(g) =>
      g in v.tabs.links && now < v.tabs.links[g].expires &&
      (v.tabs.links[g].body.outbound == id || v.tabs.links[g].body.receiving == id) &&
      v.ifs.Online(v.tabs.links[g].body.outbound) && v.ifs.Online(v.tabs.links[g].body.receiving)
  }

  /** `outbound_lifetime_is_live`. */
  ghost predicate LifetimeIsLive(v: View, id: byte, lt: Lifetime, now: u64)
    requires v.ifs.WellFormed()
  {
    && lt.enqueued <= now < lt.expires
    && v.ifs.Online(id)
    && (lt.path != 0 ==> PathIsLive(v, lt.path, now))
    && DependencyIsLive(v, id, lt.state, now)
  }

  predicate DeliveryCurrent(ifs: Interfaces, id: byte, d: Delivery)
    requires ifs.WellFormed()
  {
    d.Bound? ==> ifs.DeliveryIsCurrent(id, d.generation)
  }

  /** `router_outbound_is_live`; for an endpoint, the lifetime alone. */
  ghost predicate FrameIsLive(v: View, id: byte, lt: Lifetime, d: Delivery, now: u64)
    requires v.ifs.WellFormed()
  {
    DeliveryCurrent(v.ifs, id, d) && LifetimeIsLive(v, id, lt, now)
  }

  /** Every incarnation the token names has been given out. */
  predicate Sealed(v: View, lt: Lifetime, d: Delivery) {
    && lt.path <= v.tabs.lastPath
    && (match lt.state
        case Independent => true
        case DiscoveryOf(i) => i <= v.tabs.lastDisc
        case ReverseOf(g) => g <= v.tabs.lastReverse
        case LinkOf(g) => g <= v.tabs.lastLink)
    && (v.ifs.Router? <==> d.Bound?)
    && (v.ifs.Router? ==> d.generation <= v.ifs.last)
  }

  // --- What a step may do to the tables ---------------------------------------------------------

  /** Old incarnations keep their route and get no older; a deadline moves out only while the route is live at `t`. */
  ghost predicate PathsFollow(m: Entries<PathBody>, last: u64, m': Entries<PathBody>, last': u64, t: u64) {
    && last <= last'
    && forall g :: g in m' && g <= last ==>
         g in m && SameRoute(m[g], m'[g]) && NoOlder(m[g], m'[g]) && (m'[g].expires <= m[g].expires || t < m[g].expires)
  }

  /** Old incarnations of reverse entries never change. */
  ghost predicate ReverseFollows(m: Entries<ReverseBody>, last: u64, m': Entries<ReverseBody>, last': u64) {
    last <= last' && forall g :: g in m' && g <= last ==> g in m && m'[g] == m[g]
  }

  /**
   Old incarnations of links keep everything but validation and deadline; validation is never
   undone, a pending link keeps its deadline, and a deadline moves out only while live at `t`.
   */
  ghost predicate LinksFollow(m: Entries<LinkBody>, last: u64, m': Entries<LinkBody>, last': u64, t: u64) {
    && last <= last'
    && forall g :: g in m' && g <= last ==>
         && g in m && m'[g].key == m[g].key
         && m'[g].body == m[g].body.(validated := m'[g].body.validated)
         && (m[g].body.validated ==> m'[g].body.validated)
         && (!m'[g].body.validated ==> m'[g].expires == m[g].expires)
         && (m'[g].expires <= m[g].expires || t < m[g].expires)
  }

  /** Old discoveries keep destination and deadline. */
  ghost predicate DiscoveriesFollow(m: Ledger, last: u64, m': Ledger, last': u64) {
    last <= last' && forall g :: g in m' && g <= last ==>
      g in m && m'[g].key == m[g].key && m'[g].expires == m[g].expires
  }

  /** Interfaces that surviving entries go through are registered as they were. */
  ghost predicate RoutesKeepInterfaces(v: View, w: View)
    requires v.ifs.WellFormed() && w.ifs.WellFormed()
  {
    && (forall g :: g in w.tabs.paths && g <= v.tabs.lastPath ==>
      SameRegistration(v.ifs, w.ifs, w.tabs.paths[g].body.interface))
    && (forall g :: g in w.tabs.reverse && g <= v.tabs.lastReverse ==>
      SameRegistration(v.ifs, w.ifs, w.tabs.reverse[g].body.receiving))
    && (forall g :: g in w.tabs.links && g <= v.tabs.lastLink ==>
          SameRegistration(v.ifs, w.ifs, w.tabs.links[g].body.receiving)
            && SameRegistration(v.ifs, w.ifs, w.tabs.links[g].body.outbound))
  }

  predicate SameRegistration(v: Interfaces, w: Interfaces, id: byte)
    requires v.WellFormed() && w.WellFormed()
  {
    v.Router? && w.Router? ==> v.Config(id) == w.Config(id)
  }

  /** The row an old row may have become: same frame, fewer targets, bindings fixed once made. */
  predicate Shrunk(p: Queued, q: Queued) {
    && q == p.(delivery := q.delivery)
    && match (p.delivery, q.delivery)
       case (Bound(g), Bound(h)) => g == h
       case (Fanout(gs, ps, i), Fanout(hs, qs, j)) => qs <= ps && (i ==> j && gs == hs)
       case _ => false
  }

  ghost predicate Inherited(queue: seq<Queued>, q: Queued) {
    exists k :: 0 <= k < |queue| && Shrunk(queue[k], q)
  }

  /** Rows in the queue are old rows, possibly shrunk, or have identities never used before. */
  ghost predicate QueueFollows(b: Box, c: Box) {
    && b.identity <= c.identity
    && forall k :: 0 <= k < |c.queue| && c.queue[k].identity <= b.identity ==> Inherited(b.queue, c.queue[k])
  }

  /** What one step of the node, taken at time `t`, may do. */
  ghost predicate Follows(v: View, w: View, t: u64) {
    && w.env == v.env
    && Reregisters(v.ifs, w.ifs)
    && PathsFollow(v.tabs.paths, v.tabs.lastPath, w.tabs.paths, w.tabs.lastPath, t)
    && ReverseFollows(v.tabs.reverse, v.tabs.lastReverse, w.tabs.reverse, w.tabs.lastReverse)
    && LinksFollow(v.tabs.links, v.tabs.lastLink, w.tabs.links, w.tabs.lastLink, t)
    && DiscoveriesFollow(v.tabs.disc, v.tabs.lastDisc, w.tabs.disc, w.tabs.lastDisc)
    && RoutesKeepInterfaces(v, w)
    && QueueFollows(v.box, w.box)
  }

  lemma QueueFollowsReflexive(b: Box)
    ensures QueueFollows(b, b)
  {
    forall k | 0 <= k < |b.queue| ensures Inherited(b.queue, b.queue[k]) {
      assert Shrunk(b.queue[k], b.queue[k]);
    }
  }

  lemma FollowsReflexive(v: View, t: u64)
    requires v.ifs.WellFormed()
    ensures Follows(v, v, t)
  {
    QueueFollowsReflexive(v.box);
  }

  lemma QueueFollowsTransitive(b: Box, c: Box, d: Box)
    requires QueueFollows(b, c) && QueueFollows(c, d)
    ensures QueueFollows(b, d)
  {
    forall k | 0 <= k < |d.queue| && d.queue[k].identity <= b.identity ensures Inherited(b.queue, d.queue[k]) {
      var j :| 0 <= j < |c.queue| && Shrunk(c.queue[j], d.queue[k]);
      var i :| 0 <= i < |b.queue| && Shrunk(b.queue[i], c.queue[j]);
      assert Shrunk(b.queue[i], d.queue[k]);
    }
  }

  /** Parts of one step, all taken at the same time, make a step. */
  lemma FollowsTransitive(u: View, v: View, w: View, t: u64)
    requires Follows(u, v, t) && Follows(v, w, t)
    ensures Follows(u, w, t)
  {
    hide Reregisters, QueueFollows, PathsFollow, ReverseFollows, LinksFollow, DiscoveriesFollow, RoutesKeepInterfaces,
      Interfaces.WellFormed;
    ReregistersTransitive(u.ifs, v.ifs, w.ifs);
    QueueFollowsTransitive(u.box, v.box, w.box);
    TablesFollowTransitive(u, v, w, t);
    RoutesTransitive(u, v, w, t);
  }

  lemma TablesFollowTransitive(u: View, v: View, w: View, t: u64)
    requires PathsFollow(u.tabs.paths, u.tabs.lastPath, v.tabs.paths, v.tabs.lastPath, t)
    requires PathsFollow(v.tabs.paths, v.tabs.lastPath, w.tabs.paths, w.tabs.lastPath, t)
    requires ReverseFollows(u.tabs.reverse, u.tabs.lastReverse, v.tabs.reverse, v.tabs.lastReverse)
    requires ReverseFollows(v.tabs.reverse, v.tabs.lastReverse, w.tabs.reverse, w.tabs.lastReverse)
    requires LinksFollow(u.tabs.links, u.tabs.lastLink, v.tabs.links, v.tabs.lastLink, t)
    requires LinksFollow(v.tabs.links, v.tabs.lastLink, w.tabs.links, w.tabs.lastLink, t)
    requires DiscoveriesFollow(u.tabs.disc, u.tabs.lastDisc, v.tabs.disc, v.tabs.lastDisc)
    requires DiscoveriesFollow(v.tabs.disc, v.tabs.lastDisc, w.tabs.disc, w.tabs.lastDisc)
    ensures PathsFollow(u.tabs.paths, u.tabs.lastPath, w.tabs.paths, w.tabs.lastPath, t)
    ensures ReverseFollows(u.tabs.reverse, u.tabs.lastReverse, w.tabs.reverse, w.tabs.lastReverse)
    ensures LinksFollow(u.tabs.links, u.tabs.lastLink, w.tabs.links, w.tabs.lastLink, t)
    ensures DiscoveriesFollow(u.tabs.disc, u.tabs.lastDisc, w.tabs.disc, w.tabs.lastDisc)
  {
  }

  lemma RoutesTransitive(u: View, v: View, w: View, t: u64)
    requires Reregisters(u.ifs, v.ifs) && Reregisters(v.ifs, w.ifs)
    requires PathsFollow(u.tabs.paths, u.tabs.lastPath, v.tabs.paths, v.tabs.lastPath, t)
    requires ReverseFollows(u.tabs.reverse, u.tabs.lastReverse, v.tabs.reverse, v.tabs.lastReverse)
    requires LinksFollow(u.tabs.links, u.tabs.lastLink, v.tabs.links, v.tabs.lastLink, t)
    requires PathsFollow(v.tabs.paths, v.tabs.lastPath, w.tabs.paths, w.tabs.lastPath, t)
    requires ReverseFollows(v.tabs.reverse, v.tabs.lastReverse, w.tabs.reverse, w.tabs.lastReverse)
    requires LinksFollow(v.tabs.links, v.tabs.lastLink, w.tabs.links, w.tabs.lastLink, t)
    requires RoutesKeepInterfaces(u, v) && RoutesKeepInterfaces(v, w)
    ensures RoutesKeepInterfaces(u, w)
  {
    hide Interfaces.WellFormed, Interfaces.Config;
  }

  /** A token that is live after a step was live before it. */
  lemma LiveBefore(v: View, w: View, t: u64, id: byte, lt: Lifetime, d: Delivery, before: u64, after: u64)
    requires Follows(v, w, t) && Sealed(v, lt, d) && Awaited(v.tabs.disc) && (!v.enabled ==> v.tabs.disc == map[])
    requires lt.enqueued <= before <= t <= after
    requires FrameIsLive(w, id, lt, d, after)
    ensures FrameIsLive(v, id, lt, d, before)
  {
    hide QueueFollows;
    if v.ifs.Router? {
      assert w.ifs.Generation(id) == d.generation <= v.ifs.last;
    }
  }
}
