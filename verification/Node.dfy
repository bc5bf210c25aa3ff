/**
 The transport node in place: its tables, its outbound queue, and the steps a host drives.

 Every step keeps the invariant `Inv` and is related to the state before it by `Follows`.
 */
module Node {
  import opened Base
  import opened Rows
  import opened Generations
  import opened RowTables
  import opened Wire
  import opened Signalling
  import opened Paths
  import opened Announces
  import opened Interfaces
  import opened Discovery
  import opened Rebroadcast
  import opened AnnounceCap
  import opened NodeState
  import opened Outbound
  import opened Outboxes
  import opened Tables
  import opened NodeInvariants
  import opened NodeSteps
  import opened NodeEffects
  import opened NodeRegistry
  import opened Decisions
  import opened Ticking
  import opened Pairing

  class LiteNode {
    const env: Env
    const tables: TableSet
    const outbox: Outbox
    var clock: u64
    var enabled: bool
    var depth: nat
    var mode: Mode
    var tag: nat
    var transportId: Hash
    var local: set<LocalSlot>
    var ifs: Interfaces
    var retained: bool
    var plainSink: Option<Hash>
    var modem: Option<nat -> u32>
    /** Every frame that came in, and the frame behind each validated link. */
    ghost var history: seq<Ingested>
    ghost var evidence: map<u64, nat>
    /** Sends of each scheduled announce, and the announces released on each interface since its registration. */
    ghost var sends: Tally
    ghost var aired: seq<seq<Release>>

    /** The node, its queue and its tables share no object. */
    ghost predicate Apart() {
      this !in tables.repr && outbox !in tables.repr && outbox.ring !in tables.repr && outbox.ring.slots !in tables.repr
    }

    ghost predicate Valid()
      reads this, tables.repr, outbox, outbox.ring, outbox.ring.slots
    {
      Apart() && tables.Valid() && outbox.Valid() && ifs.WellFormed()
    }

    ghost function State(): View
      requires Valid()
      reads this, tables.repr, outbox, outbox.ring, outbox.ring.slots
    {
      View(env, Own(transportId, tag, mode, local, plainSink, modem), clock, enabled, depth, ifs, tables.Value(),
        outbox.Value(), history, evidence, sends, aired)
    }

    /** The capacities of the tables and the queue. */
    ghost function Sizes(): Capacities {
      Capacities(tables.paths.rows.Length, tables.hashes.rows.Length, tables.cache.rows.Length,
                 tables.reverse.rows.Length, tables.links.rows.Length, tables.tags.rows.Length,
                 outbox.ring.slots.Length, tables.schedule.rows.Length)
    }

    /** `new_const`: an empty node. */
    constructor (env: Env, c: Capacities, enabled: bool, depth: nat, mode: Mode, tag: nat, transportId: Hash,
                 ifs: Interfaces, modem: Option<nat -> u32>)
      requires ifs.WellFormed() && Numbered(ifs)
      ensures Valid() && Inv(State()) && clock == 0 && this.ifs == ifs && this.enabled == enabled
      ensures State().box == Box([], c.outbound, 0, 0, 0, 0, 0, 0) && history == [] && evidence == map[]
      ensures Sizes() == c && State().own == Own(transportId, tag, mode, {}, None, modem) && State().depth == depth
    {
      hide Inv, TableSet.Valid, TableSet.Value, Interfaces.WellFormed, Numbered;
      this.env := env;
      var empty := EmptyTables(c);
      tables := empty;
      outbox := new Outbox(c.outbound);
      clock, local, retained, plainSink, history, evidence := 0, {}, false, None, [], map[];
      this.enabled, this.depth, this.mode, this.tag := enabled, depth, mode, tag;
      this.transportId, this.ifs, this.modem := transportId, ifs, modem;
      sends, aired := map[], seq(SLOTS, _ => []);
      new;
      EmptyInv(State());
    }

    /** The host's own destinations and links, and the destination whose plain packets it takes. */
    method SetLocal(local: set<LocalSlot>, plainSink: Option<Hash>, ghost time: u64)
      requires Valid() && Inv(State())
      modifies this`local, this`plainSink
      ensures Valid() && Inv(State()) && Step(old(State()), State(), time)
      ensures State() == old(State()).(own := old(State()).own.(local := local, sink := plainSink))
    {
      hide TableSet.Valid, TableSet.Value, Outbox.Valid, Outbox.Value, Interfaces.WellFormed, Follows, Inv, Fresher;
      ghost var v := State();
      this.local, this.plainSink := local, plainSink;
      OwnStep(v, State(), time);
    }

    // --- Liveness and expiry --------------------------------------------------------------------

    /** `outbound_lifetime_is_live`. */
    method LifetimeLive(id: byte, lt: Lifetime, now: u64) returns (live: bool)
      requires Valid()
      ensures live == LifetimeIsLive(State(), id, lt, now)
    {
      hide Thrifty, Paced, TableSet.Valid, TableSet.Value, Outbox.Valid, Outbox.Value, Interfaces.WellFormed,
        Interfaces.Config;
      if now < lt.enqueued || now >= lt.expires || !ifs.Online(id) {
        return false;
      }
      var p, r, l, d := tables.Incarnations(lt.path, lt.state, now);
      if lt.path != 0 && (p.None? || !ifs.Online(p.value.body.interface)) {
        return false;
      }
      match lt.state {
        case Independent => live := true;
        case DiscoveryOf(_) => live := enabled && d.Some? && d.value.body != {};
        case ReverseOf(_) => live := r.Some? && r.value.body.outbound == id && ifs.Online(r.value.body.receiving);
        case LinkOf(_) =>
          live := l.Some? && (l.value.body.outbound == id || l.value.body.receiving == id) &&
            ifs.Online(l.value.body.outbound) && ifs.Online(l.value.body.receiving);
      }
    }

    /** `router_outbound_is_live`; an endpoint's deliveries are always current. */
    method FrameLive(id: byte, lt: Lifetime, delivery: Delivery, now: u64) returns (live: bool)
      requires Valid()
      ensures live == FrameIsLive(State(), id, lt, delivery, now)
    {
      hide Thrifty, Paced, TableSet.Valid, TableSet.Value, LifetimeIsLive, Interfaces.WellFormed;
      live := LifetimeLive(id, lt, now);
      live := live && DeliveryCurrent(ifs, id, delivery);
    }

    method FindStale(now: u64) returns (k: nat)
      requires Valid()
      ensures k <= |State().box.queue|
      ensures k < |State().box.queue| ==> !LiveIn(State(), now)(State().box.queue[k])
      ensures k == |State().box.queue| ==> forall i :: 0 <= i < k ==> LiveIn(State(), now)(State().box.queue[i])
    {
      hide Thrifty, Paced, FrameIsLive, TableSet.Valid, TableSet.Value;
      k := 0;
      while k < outbox.ring.len
        invariant k <= |State().box.queue|
        invariant forall i :: 0 <= i < k ==> LiveIn(State(), now)(State().box.queue[i])
      {
        var row := outbox.ring.Get(k);
        var live := FrameLive(row.value.interface, row.value.lifetime, row.value.delivery, now);
        if !live { return; }
        k := k + 1;
      }
    }

    /** `expire_outbound`: every row whose token is dead leaves, and is counted once. */
    method ExpireOutbound(now: u64)
      requires Valid()
      modifies outbox, outbox.ring, outbox.ring.slots
      ensures Valid() && State() == old(State()).(box := Purged(old(State()).box, LiveIn(old(State()), now)))
      ensures State().box.identity == old(State()).box.identity
    {
      hide Thrifty, Paced, TableSet.Valid, TableSet.Value, Purged, Interfaces.WellFormed;
      ghost var v := State();
      while true
        invariant Valid() && State() == v.(box := State().box)
        invariant Purged(State().box, LiveIn(v, now)) == Purged(v.box, LiveIn(v, now))
        invariant State().box.identity == v.box.identity
        decreases |State().box.queue|
      {
        var k := FindStale(now);
        ghost var w := State();
        SameLiveness(v, w, now);
        if k == outbox.ring.len { break; }
        var row := outbox.Remove(k, true);
        PurgeStep(w.box, State().box, k, LiveIn(v, now));
      }
      PurgeDone(State().box, LiveIn(v, now));
    }

    // --- Queueing -------------------------------------------------------------------------------

    /** `packet_lifetime`. */
    method PacketLifetime(packet: Packet, reason: Reason)
        returns (lt: Lifetime, ghost pg: u64, ghost path: Option<PathRow>, ghost lg: u64,
                 ghost link: Option<Row<LinkBody>>)
      requires Valid() && Inv(State())
      ensures Found(State().tabs.paths, packet.header.destination, clock, pg, path)
      ensures Found(State().tabs.links, packet.header.destination, clock, lg, link)
      ensures lt == LifetimeFor(clock, packet, reason, if path.Some? then ifs.Bitrate(path.value.body.interface)
        else 0, pg, path, lg, link)
      ensures SealedBy(State().tabs, lt) && Given(State(), packet, reason, lt)
    {
      hide Thrifty, Paced, TableSet.Valid, TableSet.Value, Interfaces.WellFormed, Interfaces.Bitrate, Routed,
        CacheAgrees, WellScheduled, BoxOk, AllSealed, Evidenced, LinkDeadline;
      var g, p := tables.FindPath(packet.header.destination, clock);
      var h, l := tables.FindLink(packet.header.destination, clock);
      pg, path, lg, link := g, p, h, l;
      lt := LifetimeFor(clock, packet, reason, if p.Some? then ifs.Bitrate(p.value.body.interface) else 0, g, p, h, l);
    }

    /** `enqueue_with_lifetime`. */
    method EnqueueWithLifetime(id: byte, packet: Packet, reason: Reason, lt: Lifetime) returns (ok: bool)
      requires Valid()
      modifies outbox, outbox.ring, outbox.ring.slots
      ensures Valid() && State() == old(State()).(box := State().box)
      ensures Enqueues(old(State()).box, State().box, ifs, depth, id, packet, reason, lt, ok)
      ensures ok <==> Accepts(old(State()), id, packet, reason)
      ensures !ok ==>
        State().box == if ifs.Online(id) then old(State()).box.(dropped := SatAdd(old(State()).box.dropped, 1),
          refused := old(State()).box.refused + 1) else old(State()).box
    {
      hide Thrifty, Paced, TableSet.Valid, TableSet.Value, Interfaces.WellFormed, Interfaces.Config, Displaced,
        Interfaces.ClearMtu, Count, HasRoom, Admits, DeliveryFor;
      if !ifs.Online(id) {
        return false;
      }
      if packet.Size() > Budget(ifs, tag, id) || !env.wraps(id, packet) {
        outbox.Refuse();
        return false;
      }
      ok := outbox.Admit(ifs, depth, id, packet, reason, lt);
    }

    /** `enqueue_forwarded_with_lifetime`. */
    method EnqueueForwarded(source: byte, target: byte, packet: Packet, reason: Reason, lt: Lifetime) returns (ok: bool)
      requires Valid()
      modifies outbox, outbox.ring, outbox.ring.slots
      ensures Valid() && State() == old(State()).(box := State().box)
      ensures Enqueues(old(State()).box, State().box, ifs, depth, target, packet, reason, lt, ok)
      ensures ok <==> Takes(old(State()), source, target, packet, reason)
    {
      hide Thrifty, Paced, TableSet.Valid, TableSet.Value, Interfaces.WellFormed, Interfaces.Config, Displaced, Admits,
        DeliveryFor, Accepts, Passes;
      if !Passes(ifs, source, target) {
        return false;
      }
      ok := EnqueueWithLifetime(target, packet, reason, lt);
    }

    /** `enqueue`: queue a frame under the lifetime its own header gives it. */
    method Enqueue(id: byte, packet: Packet, reason: Reason, ghost time: u64) returns (ok: bool)
      requires Valid() && Inv(State()) && (ifs.Router? ==> !reason.Gated())
      modifies outbox, outbox.ring, outbox.ring.slots
      ensures Valid() && State() == old(State()).(box := State().box)
      ensures Inv(State()) && Follows(old(State()), State(), time)
      ensures ok <==> Accepts(old(State()), id, packet, reason)
      ensures Offers(old(State()), old(State()).box, State().box, id, packet, reason)
      ensures !ok ==> State().box.queue == old(State()).box.queue && State().box.identity == old(State()).box.identity
    {
      hide Thrifty, Paced, TableSet.Valid, TableSet.Value, Interfaces.WellFormed, Inv, Follows, Enqueues, LifetimeFor,
        Found, SealedBy, Accepts, Given;
      ghost var v := State();
      var lt, _, _, _, _ := PacketLifetime(packet, reason);
      ok := EnqueueWithLifetime(id, packet, reason, lt);
      assert v.(box := v.box) == v;
      IdentityTaken(v.box, State().box, ifs, depth, id, packet, reason, lt, ok);
      QueuedOnly(v, State(), id, packet, reason, lt, ok, time);
    }

    // --- Forwarding -----------------------------------------------------------------------------

    /** Where a data frame goes next, and as what: none when it is not for this relay, or there is no way on. */
    method PlanForward(p: Packet, hops: byte, now: u64)
        returns (failed: bool, plan: Option<(Packet, byte)>, ghost g: u64)
      requires Valid() && Inv(State())
      ensures plan.Some? ==> Routable(State(), p, hops, g, tables.reverse.rows.Length, now)
      ensures plan.Some? ==>
        && ForwardAlong(p, hops, State().tabs.paths[g].body) == Onward(plan.value.0)
        && State().tabs.paths[g].body.interface == plan.value.1
      ensures plan.Some? ==> Up(ifs, plan.value.1)
      ensures plan.None? ==> forall h :: !Routable(State(), p, hops, h, tables.reverse.rows.Length, now)
    {
      hide TableSet.Valid, TableSet.Value, Interfaces.WellFormed, Up, BoxOk, AllSealed, Evidenced, Numbered,
        CacheAgrees, WellScheduled, Thrifty, Paced, ForwardAlong;
      g, failed, plan := 0, false, None;
      if !enabled || p.header.transport != Some(transportId) { return; }
      var h, path := tables.FindPath(p.header.destination, now);
      var generation := tables.NextReverse();
      g := h;
      if path.None? || generation == 0 {
        Unrouted(State(), p.header.destination, now, path);
        return;
      }
      OneRoute(State(), p.header.destination, now, g, path);
      match ForwardAlong(p, hops, path.value.body) {
        case Unroutable =>
        case Oversize => failed := true;
        case Onward(packet) => plan := Some((packet, path.value.body.interface));
      }
    }

    /** Use a route and record the way back. */
    method RecordWayBack(destination: Hash, row: Row<ReverseBody>, now: u64)
      requires Valid() && TabsOk(env, ifs, State().tabs) && Up(ifs, row.body.receiving) && Up(ifs, row.body.outbound)
      modifies tables.repr
      ensures Valid() && State() == old(State()).(tabs := State().tabs)
      ensures TabsOk(env, ifs, State().tabs) && TabsFollow(old(State()).tabs, State().tabs, now)
      ensures State().tabs == old(State()).tabs.(paths := State().tabs.paths, reverse := State().tabs.reverse,
        lastReverse := State().tabs.lastReverse)
      ensures Touches(old(State()).tabs.paths, destination, now, State().tabs.paths)
      ensures Inserts(old(State()).tabs.reverse, old(State()).tabs.lastReverse, tables.reverse.rows.Length, row, now,
        State().tabs.reverse, State().tabs.lastReverse)
    {
      hide TableSet.Valid, TableSet.Value, Outbox.Valid, Outbox.Value, Interfaces.WellFormed, Touches, Inserts, TabsOk,
        TabsFollow, Up;
      ghost var t0 := State().tabs;
      tables.UsePath(destination, now);
      ghost var t1 := State().tabs;
      TouchingTabs(env, ifs, t0, t1, destination, now);
      tables.RecordReverse(row, now);
      ReversingTabs(env, ifs, t1, State().tabs, row, tables.reverse.rows.Length, now);
      TabsFollowTransitive(t0, t1, State().tabs, now);
    }

    /** `handle_transport_forward`: queue the frame, then record the way back under the incarnation it names. */
    method HandleForward(p: Packet, hops: byte, id: byte, now: u64)
        returns (r: Action, ghost lt: Lifetime, ghost g: u64)
      requires Valid() && Inv(State()) && clock == now && Up(ifs, id)
      modifies tables.repr, outbox, outbox.ring, outbox.ring.slots
      ensures Valid() && Inv(State()) && Follows(old(State()), State(), now)
      ensures r == Forwarded <==> exists h :: Relays(old(State()), p, hops, id, h, tables.reverse.rows.Length, now)
      ensures r == Forwarded ==> RelaysData(old(State()), State(), p, hops, id, g, lt, tables.reverse.rows.Length, now)
      ensures r != Forwarded ==> LeavesNoTrace(old(State()), State(), now)
    {
      hide TableSet.Valid, TableSet.Value, Interfaces.WellFormed, Enqueues, Touches, Inserts, LifetimeFor, Follows,
        Numbered, TabsFollow, BoxOk, AllSealed, Evidenced, Up, Thrifty, Paced, Routed, CacheAgrees, Minted, Found,
        LeavesNoTrace, Routable, Takes, Given, ForwardAlong;
      ghost var v := State();
      lt := Unbound(now);
      FollowsReflexive(v, now);
      Same(v, v, now);
      var failed, plan, h := PlanForward(p, hops, now);
      g := h;
      if plan.None? { return if failed then Failed else Dropped, lt, g; }
      var packet, target := plan.value.0, plan.value.1;
      RelaysOnly(v, p, hops, id, g, tables.reverse.rows.Length, now);
      var generation := tables.NextReverse();
      assert generation != 0 by { GenerationLeft(v, p, hops, g, tables.reverse.rows.Length, now); }
      var base, _, _, _, _ := PacketLifetime(packet, TransportForward);
      lt := base.(state := ReverseOf(generation));
      var ok := EnqueueForwarded(id, target, packet, TransportForward, base.(state := ReverseOf(generation)));
      if !ok {
        TabsFollowReflexive(v.tabs, now);
        QueueThenRecord(v, State(), target, packet, TransportForward, lt, ok, now);
        NotQueued(v, State(), target, packet, TransportForward, lt, now);
        return Dropped, lt, g;
      }
      var row := Row(env.proofHash(CoreOf(p.header, p.payload)), SatAdd(now, REVERSE_TIMEOUT_MS),
        ReverseBody(id, target));
      RecordWayBack(p.header.destination, row, now);
      InsertedGeneration(v.tabs.reverse, v.tabs.lastReverse, tables.reverse.rows.Length, row, now, State().tabs.reverse,
        State().tabs.lastReverse);
      QueueThenRecord(v, State(), target, packet, TransportForward, lt, ok, now);
      assert Given(v, packet, TransportForward, lt.(state := base.state));
      r := Forwarded;
    }

    // --- Links ----------------------------------------------------------------------------------

    /** Whether a link request is for this relay and finds room; expired links make some. */
    method RoomForLink(p: Packet, now: u64) returns (ok: bool)
      requires Valid() && Inv(State())
      modifies tables.repr
      ensures Valid() && Inv(State()) && Follows(old(State()), State(), now)
      ensures LeavesNoTrace(old(State()), State(), now)
      ensures State() == old(State()).(tabs := State().tabs)
      ensures (ok ==> State().tabs == old(State()).tabs.(links := LiveAt(old(State()).tabs.links, now)))
      ensures ok <==> LinkFree(old(State()), p, tables.links.rows.Length, now)
    {
      hide Thrifty, Paced, TableSet.Valid, TableSet.Value, Interfaces.WellFormed, Follows, Inv, LinkCore, LeavesNoTrace;
      ghost var v := State();
      ok := false;
      assert Follows(v, v, now) by { FollowsReflexive(v, now); }
      Same(v, v, now);
      if !enabled || p.header.transport != Some(transportId) { return; }
      var h, known := tables.FindLink(env.linkId(LinkCore(p)), now);
      if known.Some? {
        assert h in LiveAt(v.tabs.links, now);
        return;
      }
      var free := tables.LinkSlotFree(now);
      LinksExpired(v, State(), now);
      var generation := tables.NextLink();
      ok := free && generation != 0;
    }

    /** The frame and the pending link that a request leads to: none without a way on, or when it fails. */
    method PlanLink(p: Packet, hops: byte, id: byte, now: u64)
        returns (failed: bool, plan: Option<(Packet, Row<LinkBody>)>, ghost g: u64)
      requires Valid() && Inv(State())
      ensures plan.Some? ==>
        LinkRoute(State(), p, hops, id, g, now) && Opening(State(), p, hops, id, g, plan.value.0, plan.value.1, now)
      ensures plan.None? ==> forall h :: !LinkRoute(State(), p, hops, id, h, now)
    {
      hide TableSet.Valid, TableSet.Value, Interfaces.WellFormed, Up, BoxOk, AllSealed, Evidenced, Numbered,
        CacheAgrees, WellScheduled, Thrifty, Paced, ForwardAlong, RequestOnward, Parses, LinkCore, PendingLink, Routed,
        CarriesLinks;
      failed, plan := false, None;
      var h, path := tables.FindPath(p.header.destination, now);
      g := h;
      Unrouted(State(), p.header.destination, now, path);
      if path.None? { return; }
      OneRoute(State(), p.header.destination, now, g, path);
      var target := path.value.body.interface;
      var onward := RequestAlong(p, hops, path.value.body);
      if onward.None? || !CarriesLinks(ifs, tag, id) || !CarriesLinks(ifs, tag, target) {
        failed := !ForwardAlong(p, hops, path.value.body).Unroutable?;
        return;
      }
      plan := Some((onward.value, PendingLink(ifs, p, hops, id, env.linkId(LinkCore(p)), path.value.body, now)));
    }

    /** `handle_link_request`: as for data, with a pending link that displaces no live one. */
    method HandleLinkRequest(p: Packet, hops: byte, id: byte, now: u64)
        returns (r: Action, ghost lt: Lifetime, ghost sent: Packet, ghost row: Row<LinkBody>, ghost g: u64)
      requires Valid() && Inv(State()) && clock == now && Up(ifs, id)
      modifies tables.repr, outbox, outbox.ring, outbox.ring.slots
      ensures Valid() && Inv(State()) && Follows(old(State()), State(), now)
      ensures r == Forwarded <==> exists h :: Links(old(State()), p, hops, id, h, tables.links.rows.Length, now)
      ensures r == Forwarded ==> OpensLink(old(State()), State(), p, hops, id, g, sent, lt, row, now)
      ensures r != Forwarded ==> LeavesNoTrace(old(State()), State(), now)
    {
      hide Thrifty, Paced, TableSet.Valid, TableSet.Value, Interfaces.WellFormed, Enqueues, Touches, Inserts, Follows,
        Numbered, BoxOk, AllSealed, Evidenced, Up, Opening, LeavesNoTrace, OpensLink, Minted, CacheAgrees,
        WellScheduled, LinkFree, LinkRoute, Takes, LinkCore, Awaits, Requesting, IsKey, Records, Routed, Given;
      ghost var v := State();
      ghost var capacity := tables.links.rows.Length;
      lt, sent, row, g := Unbound(now), p, Row(0, 0, LinkBody(0, id, id, 0, 0, 0, 0, false)), 0;
      var free := RoomForLink(p, now);
      if !free { return Dropped, lt, sent, row, g; }
      ghost var w := State();
      var failed, plan, h := PlanLink(p, hops, id, now);
      g := h;
      SameLinkRoute(v, w, p, hops, id, now);
      if plan.None? { return if failed then Failed else Dropped, lt, sent, row, g; }
      sent, row := plan.value.0, plan.value.1;
      SameOpening(v, w, p, hops, id, g, sent, row, capacity, now);
      UpBehind(v, row, g, id, p, hops, sent, now);
      var generation := tables.NextLink();
      var ok: bool;
      assert Awaits(ifs, w.tabs.paths, g, sent, row, now) by { OpeningAwaits(w, p, hops, id, g, sent, row, now); }
      ok, lt := OpenLink(p.header.destination, plan.value.0, plan.value.1, generation, g, now);
      FollowsTransitive(v, w, State(), now);
      LinkOpened(v, w, State(), p, hops, id, g, sent, lt, row, capacity, ok, now);
      r := if ok then Forwarded else Dropped;
    }

    /** Queue a link request, then use its route and record the pending link. */
    method OpenLink(destination: Hash, packet: Packet, row: Row<LinkBody>, generation: u64, ghost g: u64, now: u64)
        returns (ok: bool, ghost lt: Lifetime)
      requires Valid() && Inv(State()) && clock == now && Up(ifs, row.body.receiving) && Up(ifs, row.body.outbound)
      requires Awaits(ifs, State().tabs.paths, g, packet, row, now)
      requires generation != 0 && generation == NextGeneration(tables.links.rows.Length, State().tabs.lastLink)
      requires !row.body.validated && IsKey(row.body.signingKey)
      modifies tables.repr, outbox, outbox.ring, outbox.ring.slots
      ensures Valid() && Inv(State()) && Follows(old(State()), State(), now)
      ensures Enqueues(old(State()).box, State().box, ifs, depth, row.body.outbound, packet, TransportForward, lt, ok)
      ensures ok <==> Takes(old(State()), row.body.receiving, row.body.outbound, packet, TransportForward)
      ensures lt.state == LinkOf(generation) && exists s :: Given(old(State()), packet, TransportForward,
        lt.(state := s))
      ensures Requesting(packet, lt, g, old(State()).tabs.paths, row, now)
      ensures if !ok then State().tabs == old(State()).tabs
              else Records(old(State()).tabs, State().tabs, destination, row, tables.links.rows.Length, now)
    {
      hide Thrifty, Paced, TableSet.Valid, TableSet.Value, Interfaces.WellFormed, Displaced, Admits, Touches, Inserts,
        LifetimeFor, Follows, Numbered, TabsFollow, BoxOk, AllSealed, Up, DeliveryFor, Attests, Routed, CacheAgrees,
        Minted, IsKey, Given, Takes, Found, WellScheduled, Evidenced, Requesting, Awaits;
      ghost var v := State();
      var base, pg, path, lg, l := PacketLifetime(packet, TransportForward);
      lt := base.(state := LinkOf(generation));
      RequestsUntil(v, g, packet, row, pg, path, lg, l, base, lt, now);
      ok := EnqueueForwarded(row.body.receiving, row.body.outbound, packet, TransportForward,
        base.(state := LinkOf(generation)));
      if !ok {
        TabsFollowReflexive(v.tabs, now);
        QueueThenRecord(v, State(), row.body.outbound, packet, TransportForward, lt, ok, now);
        return;
      }
      tables.UsePath(destination, now);
      ghost var t1 := State().tabs;
      TouchingTabs(env, ifs, v.tabs, t1, destination, now);
      tables.RecordLink(row, now);
      LinkingTabs(env, ifs, t1, State().tabs, row, tables.links.rows.Length, now);
      TabsFollowTransitive(v.tabs, t1, State().tabs, now);
      InsertedGeneration(t1.links, t1.lastLink, tables.links.rows.Length, row, now, State().tabs.links,
        State().tabs.lastLink);
      LinkRecorded(v, State(), row, tables.links.rows.Length, now);
      QueueThenRecord(v, State(), row.body.outbound, packet, TransportForward, lt, ok, now);
    }

    // --- Proofs and link traffic ----------------------------------------------------------------

    /** The establishment-proof half of `handle_proof`: only a queued proof validates the link. */
    method HandleLinkProof(p: Packet, hops: byte, id: byte, now: u64)
        returns (r: Action, ghost lt: Lifetime, ghost g: u64)
      requires Valid() && Inv(State()) && clock == now && p.header.flags.packetType.Proof?
      requires p.header.context == CONTEXT_LRPROOF
      requires |history| > 0 && history[|history| - 1] == Ingested(p, id, hops, now)
      modifies this`evidence, tables.repr, outbox, outbox.ring, outbox.ring.slots
      ensures Valid() && Inv(State()) && Follows(old(State()), State(), now)
      ensures r == ForwardedProof <==> exists h :: Validates(old(State()), p, hops, id, h, now)
      ensures r == ForwardedProof ==> ValidatesLink(old(State()), State(), p, hops, id, lt, g, now)
      ensures r == ForwardedProof ==>
        Notes(old(State()).tabs.hashes, tables.hashes.rows.Length, Some(env.packetHash(CoreOf(p.header, p.payload))),
          now, State().tabs.hashes)
      ensures r != ForwardedProof ==> LeavesNoTrace(old(State()), State(), now) && evidence == old(evidence)
    {
      hide Thrifty, Paced, TableSet.Valid, TableSet.Value, Interfaces.WellFormed, Enqueues, Renews, Follows, Numbered,
        BoxOk, AllSealed, Evidenced, Attests, LeavesNoTrace, ValidatesLink, CacheAgrees, Routed, Takes, Verified,
        WellScheduled, Validates, Given, Notes;
      ghost var v := State();
      lt, g := Unbound(now), 0;
      FollowsReflexive(v, now);
      Same(v, v, now);
      var h, link := tables.FindLink(p.header.destination, now);
      ProofDecided(v, p, hops, id, h, link, now);
      if link.None? || link.value.body.outbound != id || link.value.body.remainingHops != hops
        || !Verified(env, ifs, tag, p, link.value) {
        return Dropped, lt, g;
      }
      g := h;
      assert Attests(env, Ingested(p, id, hops, now), link.value) by {
        LinkKeyed(v, h);
        Attested(env, ifs, tag, p, hops, id, link.value, now);
      }
      r, lt := TakeProof(p, hops, id, link.value, g, now);
    }

    /** A verified proof of a link, unless it was seen before, is passed on and validates the link. */
    method TakeProof(p: Packet, hops: byte, id: byte, link: Row<LinkBody>, ghost g: u64, now: u64)
        returns (r: Action, ghost lt: Lifetime)
      requires Valid() && Inv(State()) && clock == now && p.header.flags.packetType.Proof?
      requires p.header.context == CONTEXT_LRPROOF && link.key == p.header.destination && link.body.outbound == id
      requires |history| > 0 && history[|history| - 1] == Ingested(p, id, hops, now)
      requires g in State().tabs.links && State().tabs.links[g] == link && now < link.expires
      requires Attests(env, Ingested(p, id, hops, now), link)
      modifies this`evidence, tables.repr, outbox, outbox.ring, outbox.ring.slots
      ensures Valid() && Inv(State()) && Follows(old(State()), State(), now)
      ensures r == ForwardedProof <==>
        Unseen(old(State()), p, now) && Takes(old(State()), id, link.body.receiving, Passed(p, hops), ProofReturn)
      ensures r == ForwardedProof ==> ValidatesLink(old(State()), State(), p, hops, id, lt, g, now)
      ensures r == ForwardedProof ==>
        Notes(old(State()).tabs.hashes, tables.hashes.rows.Length, Some(env.packetHash(CoreOf(p.header, p.payload))),
          now, State().tabs.hashes)
      ensures r != ForwardedProof ==> LeavesNoTrace(old(State()), State(), now) && evidence == old(evidence)
    {
      hide Thrifty, Paced, TableSet.Valid, TableSet.Value, Interfaces.WellFormed, Enqueues, Renews, Follows, Inv,
        Attests, LeavesNoTrace, ValidatesLink, Takes, Given, Notes;
      ghost var v := State();
      lt := Unbound(now);
      var hash := env.packetHash(CoreOf(p.header, p.payload));
      var seen := tables.SeenHash(hash, now);
      ghost var w := State();
      HashesExpired(v, w, now);
      if seen { return Duplicate, lt; }
      r, lt := PassProof(Passed(p, hops), link, hash, g, now);
      SameTaking(v, w, id, link.body.receiving, Passed(p, hops), ProofReturn);
      FollowsTransitive(v, w, State(), now);
      ProofSettles(v, w, State(), p, hops, id, hash, tables.hashes.rows.Length, r == ForwardedProof, lt, g, now);
    }

    /** Remember the hash of a proof and validate its link. */
    method RecordProof(key: Hash, hash: Hash, ghost g: u64, now: u64)
      requires Valid() && TabsOk(env, ifs, State().tabs) && |history| > 0
      modifies this`evidence, tables.repr
      ensures Valid() && State() == old(State()).(tabs := State().tabs, evidence := old(evidence)[g := |history| - 1])
      ensures State().tabs == old(State()).tabs.(links := State().tabs.links, hashes := State().tabs.hashes)
      ensures Notes(old(State()).tabs.hashes, tables.hashes.rows.Length, Some(hash), now, State().tabs.hashes)
      ensures Renews(old(State()).tabs.links, key, SatAdd(now, LINK_TIMEOUT_MS), true, now, State().tabs.links)
      ensures TabsOk(env, ifs, State().tabs) && TabsFollow(old(State()).tabs, State().tabs, now)
    {
      hide Thrifty, Paced, TableSet.Valid, TableSet.Value, Outbox.Value, Outbox.Valid, Interfaces.WellFormed, Renews,
        TabsOk, TabsFollow, Remembers;
      ghost var t0 := State().tabs;
      var isNew := tables.NewHash(hash, SatAdd(now, HASHLIST_LIFETIME_MS), now);
      ghost var t1 := State().tabs;
      HashTabs(env, ifs, t0, t1, now);
      tables.Renew(key, SatAdd(now, LINK_TIMEOUT_MS), true, now);
      RenewingTabs(env, ifs, t1, State().tabs, key, SatAdd(now, LINK_TIMEOUT_MS), true, now);
      TabsFollowTransitive(t0, t1, State().tabs, now);
      evidence := evidence[g := |history| - 1];
    }

    /** Queue a verified proof, then remember its hash and validate the link. */
    method PassProof(q: Packet, link: Row<LinkBody>, hash: Hash, ghost g: u64, now: u64)
        returns (r: Action, ghost lt: Lifetime)
      requires Valid() && Inv(State()) && clock == now && OnLinkOnly(q, ProofReturn) && q.header.destination == link.key
      requires q.header.context == CONTEXT_LRPROOF
      requires |history| > 0 && Attests(env, history[|history| - 1], link)
      requires g in State().tabs.links && State().tabs.links[g] == link && now < link.expires
      modifies this`evidence, tables.repr, outbox, outbox.ring, outbox.ring.slots
      ensures Valid() && Inv(State()) && Follows(old(State()), State(), now)
      ensures Enqueues(old(State()).box, State().box, ifs, depth, link.body.receiving, q, ProofReturn, lt,
        r == ForwardedProof)
      ensures r == ForwardedProof <==> Takes(old(State()), link.body.outbound, link.body.receiving, q, ProofReturn)
      ensures Given(old(State()), q, ProofReturn, lt)
      ensures r == ForwardedProof ==>
        && lt == LinkToken(now, SatAdd(now, LINK_TIMEOUT_MS), g)
        && State().tabs == old(State()).tabs.(links := State().tabs.links, hashes := State().tabs.hashes)
        && Notes(old(State()).tabs.hashes, tables.hashes.rows.Length, Some(hash), now, State().tabs.hashes)
        && Renews(old(State()).tabs.links, link.key, SatAdd(now, LINK_TIMEOUT_MS), true, now, State().tabs.links)
        && evidence == old(evidence)[g := |history| - 1]
      ensures r != ForwardedProof ==>
        && State() == old(State()).(box := State().box) && State().box.queue == old(State()).box.queue
        && State().box.identity == old(State()).box.identity
    {
      hide Thrifty, Paced, TableSet.Valid, TableSet.Value, Interfaces.WellFormed, Displaced, Admits, Renews, Follows,
        Numbered, TabsFollow, BoxOk, AllSealed, Evidenced, Attests, DeliveryFor, CacheAgrees, Routed, Remembers,
        WellScheduled, Given, Takes, Notes, LifetimeFor, OnLinkOnly, LinkToken, Found;
      ghost var v := State();
      var life, pg, path, lg, l := PacketLifetime(q, ProofReturn);
      lt := life;
      TrafficUntil(v, q, ProofReturn, link, g, pg, path, lg, l, lt, now);
      var ok := EnqueueForwarded(link.body.outbound, link.body.receiving, q, ProofReturn, life);
      if !ok {
        QueuedOnly(v, State(), link.body.receiving, q, ProofReturn, lt, ok, now);
        return Dropped, lt;
      }
      RecordProof(link.key, hash, g, now);
      EvidenceAdded(env, v.tabs.links, v.tabs.lastLink, State().tabs.links, link.key, SatAdd(now, LINK_TIMEOUT_MS), g,
        now, history, v.evidence);
      QueueThenRecord(v, State(), link.body.receiving, q, ProofReturn, lt, ok, now);
      r := ForwardedProof;
    }

    /** Queue a delivery proof, for no longer than the entry it uses up would have lived. */
    method ReturnProof(q: Packet, id: byte, target: byte, deadline: u64, now: u64)
        returns (ok: bool, ghost lt: Lifetime, ghost own: u64)
      requires Valid() && Inv(State()) && clock == now
      modifies outbox, outbox.ring, outbox.ring.slots
      ensures Valid() && Inv(State()) && Follows(old(State()), State(), now)
      ensures State() == old(State()).(box := State().box)
      ensures lt.expires == Earlier(deadline, SatAdd(now, OUTBOUND_MAX_AGE_MS))
      ensures Enqueues(old(State()).box, State().box, ifs, depth, target, q, ProofReturn, lt, ok)
      ensures ok <==> Takes(old(State()), id, target, q, ProofReturn)
      ensures Given(old(State()), q, ProofReturn, lt.(expires := own))
    {
      hide Thrifty, Paced, TableSet.Valid, TableSet.Value, Interfaces.WellFormed, Displaced, Admits, LifetimeFor,
        Follows, Inv, DeliveryFor, Found, Given, Takes;
      ghost var v := State();
      var life, _, _, _, _ := PacketLifetime(q, ProofReturn);
      var expires := Earlier(deadline, SatAdd(now, OUTBOUND_MAX_AGE_MS));
      lt, own := life.(expires := expires), life.expires;
      assert lt.(expires := own) == life;
      ok := EnqueueForwarded(id, target, q, ProofReturn, life.(expires := expires));
      QueuedOnly(v, State(), target, q, ProofReturn, lt, ok, now);
    }

    /** The way back for a proof that came in on `id`, taken out of the table. */
    method ConsumeWay(key: Hash, id: byte, now: u64) returns (g: u64, way: Option<Row<ReverseBody>>)
      requires Valid() && Inv(State())
      modifies tables.repr
      ensures Valid() && Inv(State()) && Follows(old(State()), State(), now)
      ensures way.None? ==> State() == old(State()) && forall h :: !WayBack(old(State()), key, id, h, now)
      ensures way.Some? ==>
        && WayBack(old(State()), key, id, g, now) && old(State()).tabs.reverse[g] == way.value
        && g <= State().tabs.lastReverse
        && State() == old(State()).(tabs := old(State()).tabs.(reverse := LiveAt(old(State()).tabs.reverse, now) - {g}))
        && |State().tabs.reverse| < tables.reverse.rows.Length && !HasKey(State().tabs.reverse, key)
    {
      hide Thrifty, Paced, TableSet.Valid, TableSet.Value, Interfaces.WellFormed, Follows, Numbered, BoxOk, AllSealed,
        Evidenced, CacheAgrees, Routed, WellScheduled;
      ghost var v := State();
      FollowsReflexive(v, now);
      var k, known := tables.FindReverse(key, now);
      Unreturned(v, key, now, k, known);
      if known.None? || known.value.body.outbound != id { return 0, None; }
      g, way := tables.Take(key, now);
      OnlyEntry(v, key, known.value, g, way, now);
      ReverseTaken(v, State(), g, now);
    }

    /**
     The delivery-proof half of `handle_proof`: the way back is consumed, or restored when the proof
     cannot be queued.
     */
    method HandleReverseProof(p: Packet, hops: byte, id: byte, now: u64)
        returns (r: Action, ghost lt: Lifetime, ghost g: u64)
      requires Valid() && Inv(State()) && clock == now
      modifies tables.repr, outbox, outbox.ring, outbox.ring.slots
      ensures Valid() && Inv(State()) && Follows(old(State()), State(), now)
      ensures r == ForwardedProof <==> exists h :: Returns(old(State()), p, hops, id, h, now)
      ensures r == ForwardedProof ==> ReturnsProof(old(State()), State(), p, hops, id, lt, g, now)
      ensures r != ForwardedProof ==> LeavesNoTrace(old(State()), State(), now)
    {
      hide Thrifty, Paced, TableSet.Valid, TableSet.Value, Interfaces.WellFormed, Enqueues, Follows, Inv, LeavesNoTrace,
        Takes, Returns, ReturnsProof, WayBack, Given;
      ghost var v := State();
      lt := Unbound(now);
      Same(v, v, now);
      var h, way := ConsumeWay(p.header.destination, id, now);
      g := h;
      ReturnDecided(v, p, hops, id, g, way, now);
      if way.None? { return Dropped, lt, g; }
      ghost var w := State();
      SameTaking(v, w, id, way.value.body.receiving, Passed(p, hops), ProofReturn);
      var ok: bool;
      ghost var own: u64;
      ok, lt, own := ReturnProof(Passed(p, hops), id, way.value.body.receiving, way.value.expires, now);
      ghost var x := State();
      if ok {
        FollowsTransitive(v, w, x, now);
        Returned(v, w, x, p, hops, id, lt, own, g, way.value, now);
        return ForwardedProof, lt, g;
      }
      IdentityTaken(w.box, x.box, ifs, depth, way.value.body.receiving, Passed(p, hops), ProofReturn, lt, ok);
      WayParts(v, p.header.destination, id, g, now);
      tables.Restore(way.value, h);
      Undone(v, w, x, State(), g, now);
      r := Dropped;
    }

    /** `route_link_packet`: only a queued frame consumes its hash, and only a validated link is refreshed by it. */
    method RouteLinkPacket(p: Packet, hops: byte, id: byte, reason: Reason, now: u64)
        returns (handled: bool, sent: bool, ghost lt: Lifetime, ghost g: u64)
      requires Valid() && Inv(State()) && clock == now && !reason.Gated()
      modifies tables.repr, outbox, outbox.ring, outbox.ring.slots
      ensures Valid() && Inv(State()) && Follows(old(State()), State(), now)
      ensures handled <==> exists h :: Claims(old(State()), p, hops, id, h, now)
      ensures sent <==> exists h :: Carries(old(State()), p, hops, id, reason, h, now)
      ensures sent ==> handled && CarriesOn(old(State()), State(), p, hops, id, reason, lt, g, now)
      ensures sent ==>
        Notes(old(State()).tabs.hashes, tables.hashes.rows.Length, Tracked(env, p), now, State().tabs.hashes)
      ensures !sent ==> LeavesNoTrace(old(State()), State(), now)
      ensures !handled ==> State() == old(State())
    {
      hide Thrifty, Paced, TableSet.Valid, TableSet.Value, Interfaces.WellFormed, Follows, Numbered, BoxOk, AllSealed,
        Evidenced, LeavesNoTrace, CacheAgrees, Routed, WellScheduled, Enqueues, CarriesOn, FitsLink, Takes, LinkWay,
        Repeats, Claims, Carries, Given, Refreshes, Notes, OnLinkOnly, LinkToken, DeadlineAfter, Minted;
      ghost var v := State();
      lt, g, handled, sent := Unbound(now), 0, false, false;
      FollowsReflexive(v, now);
      Same(v, v, now);
      if !enabled || !p.header.flags.destinationType.Link? || p.header.flags.packetType.LinkRequest?
        || p.header.context == CONTEXT_LRPROOF {
        NotTraffic(v, p, hops, id, reason, now);
        return;
      }
      var h, link := tables.FindLink(p.header.destination, now);
      g := h;
      TrafficDecided(v, p, hops, id, reason, h, link, now);
      if link.None? { return; }
      handled := true;
      if !FitsLink(ifs, tag, p, link.value.body) { return; }
      var way := LinkWay(link.value.body, hops, id);
      handled := !way.NotOurs?;
      if !way.Toward? { return; }
      var hash := Tracked(env, p);
      if hash.Some? {
        var seen := tables.SeenHash(hash.value, now);
        HashesExpired(v, State(), now);
        if seen { return; }
      }
      ghost var w := State();
      SameTaking(v, w, id, way.target, Passed(p, hops), reason);
      sent, lt := PassOn(Passed(p, hops), id, way.target, reason, link.value, g, hash, now);
      FollowsTransitive(v, w, State(), now);
      if sent {
        if hash.Some? {
          NotesLive(v.tabs.hashes, tables.hashes.rows.Length, hash, now, State().tabs.hashes);
        }
        PassedAlike(p, hops, reason);
        CarriesAfter(v, w, State(), p, hops, id, reason, lt, g, way.target, now);
      } else {
        NoTraceAfter(v, w, State(), now);
      }
    }

    /** Queue link traffic, then remember its hash and refresh a validated link. */
    method PassOn(q: Packet, id: byte, target: byte, reason: Reason, link: Row<LinkBody>, ghost g: u64,
                  hash: Option<Hash>, now: u64)
        returns (ok: bool, ghost lt: Lifetime)
      requires Valid() && Inv(State()) && clock == now && !reason.Gated() && LinkDependent(q)
      requires q.header.context != CONTEXT_LRPROOF
      requires q.header.destination == link.key
      requires g in State().tabs.links && State().tabs.links[g] == link && now < link.expires
      modifies tables.repr, outbox, outbox.ring, outbox.ring.slots
      ensures Valid() && Inv(State()) && Follows(old(State()), State(), now) && evidence == old(evidence)
      ensures Enqueues(old(State()).box, State().box, ifs, depth, target, q, reason, lt, ok)
      ensures (ok <==> Takes(old(State()), id, target, q, reason)) && Given(old(State()), q, reason, lt)
      ensures !ok ==> State().box.queue == old(State()).box.queue && State().box.identity == old(State()).box.identity
      ensures if !ok then State() == old(State()).(box := State().box)
              else lt.state == LinkOf(g) && Refreshes(old(State()).tabs, State().tabs, link, now)
      ensures OnLinkOnly(q, reason) ==> lt == LinkToken(now, DeadlineAfter(link, now), g)
      ensures ok ==> Notes(old(State()).tabs.hashes, tables.hashes.rows.Length, hash, now, State().tabs.hashes)
    {
      hide Thrifty, Paced, TableSet.Valid, TableSet.Value, Interfaces.WellFormed, Displaced, Admits, Renews, Follows,
        Numbered, TabsFollow, BoxOk, AllSealed, Evidenced, DeliveryFor, CacheAgrees, Routed, WellScheduled, Notes,
        Given, Takes, LifetimeFor, OnLinkOnly, LinkToken, Found;
      ghost var v := State();
      var life, pg, path, lg, l := PacketLifetime(q, reason);
      lt := life;
      TrafficUntil(v, q, reason, link, g, pg, path, lg, l, lt, now);
      ok := EnqueueForwarded(id, target, q, reason, life);
      if !ok {
        QueuedOnly(v, State(), target, q, reason, lt, ok, now);
        return;
      }
      RecordTraffic(link, hash, g, now);
      assert Evidenced(env, State().tabs.links, history, evidence) by { Refreshed(v, State(), link, g, now); }
      QueueThenRecord(v, State(), target, q, reason, lt, ok, now);
    }

    method RecordTraffic(link: Row<LinkBody>, hash: Option<Hash>, ghost g: u64, now: u64)
      requires Valid() && TabsOk(env, ifs, State().tabs)
      requires g in State().tabs.links && State().tabs.links[g] == link && now < link.expires
      modifies tables.repr
      ensures Valid() && State() == old(State()).(tabs := State().tabs)
      ensures Refreshes(old(State()).tabs, State().tabs, link, now)
      ensures Notes(old(State()).tabs.hashes, tables.hashes.rows.Length, hash, now, State().tabs.hashes)
      ensures TabsOk(env, ifs, State().tabs) && TabsFollow(old(State()).tabs, State().tabs, now)
    {
      hide Thrifty, Paced, TableSet.Valid, TableSet.Value, Outbox.Value, Outbox.Valid, Interfaces.WellFormed, Renews,
        TabsFollow, Remembers, CacheAgrees, Routed, WellScheduled;
      ghost var t0 := State().tabs;
      if hash.Some? {
        var isNew := tables.NewHash(hash.value, SatAdd(now, HASHLIST_LIFETIME_MS), now);
      }
      ghost var t1 := State().tabs;
      HashTabs(env, ifs, t0, t1, now);
      if link.body.validated {
        tables.Renew(link.key, SatAdd(now, LINK_TIMEOUT_MS), false, now);
        RenewingTabs(env, ifs, t1, State().tabs, link.key, SatAdd(now, LINK_TIMEOUT_MS), false, now);
        TabsFollowTransitive(t0, t1, State().tabs, now);
      }
    }

    // --- Announces ------------------------------------------------------------------------------

    /** A neighbour passing our queued rebroadcast on cancels its retry. */
    method HearRebroadcast(destination: Hash, wireHops: byte, now: u64)
      requires Valid() && Inv(State())
      modifies tables.repr
      ensures Valid() && Inv(State()) && Follows(old(State()), State(), now)
      ensures State() == old(State()).(tabs := old(State()).tabs.(schedule := State().tabs.schedule))
      ensures Hears(old(State()).tabs.schedule, destination, wireHops, now, State().tabs.schedule)
    {
      hide TableSet.Valid, TableSet.Value, Outbox.Value, Outbox.Valid, Interfaces.WellFormed, Follows, Inv;
      ghost var v := State();
      assert Follows(v, v, now) by { FollowsReflexive(v, now); }
      var entry := tables.Scheduled(destination);
      if entry.None? || entry.value.body.retries == 0 { return; }
      if Cancels(entry.value.body, wireHops, now) {
        tables.Unschedule((r: ScheduleRow) => r.key == destination);
        CancelledStep(v, State(), destination, now);
      } else if wireHops == entry.value.body.hops {
        ScheduledByKey(v);
        tables.UpdateSchedule(Heard(destination));
        CountedStep(v, State(), destination, now);
      }
    }

    /** `finish_discovery`: answer everyone who waits for this destination. */
    method FinishDiscovery(p: Packet, hops: byte, id: byte, now: u64)
        returns (ghost owner: Option<Row<Requesters>>, ghost boxes: seq<Box>)
      requires Valid() && Inv(State()) && clock == now
      modifies tables.repr, outbox, outbox.ring, outbox.ring.slots
      ensures Valid() && Inv(State()) && Follows(old(State()), State(), now)
      ensures State() == old(State()).(box := State().box, tabs := old(State()).tabs.(disc := State().tabs.disc))
      ensures State().tabs.disc == if enabled then Without(old(State()).tabs.disc,
        (r: Row<Requesters>) => r.key == p.header.destination) else old(State()).tabs.disc
      ensures if enabled
              then exists g :: Found(old(State()).tabs.disc, p.header.destination, now, g, owner)
              else owner.None?
      ensures Settles(old(State()), State().box, owner, boxes, p, hops, id)
    {
      hide Thrifty, Paced, TableSet.Valid, TableSet.Value, Interfaces.WellFormed, Follows, BoxOk, AllSealed, Evidenced,
        Numbered, CacheAgrees, Routed, Minted, Reframe, Answered, Askers;
      ghost var v := State();
      owner, boxes := None, [];
      FollowsReflexive(v, now);
      if !enabled { return; }
      var waiting := tables.CloseDiscovery(p.header.destination, now);
      owner := waiting;
      ghost var w := State();
      ClosedStep(v, w, now);
      if waiting.None? {
        assert Found(v.tabs.disc, p.header.destination, now, 0, owner);
        return;
      }
      var response := Reframe(p, p.header.destination, hops, transportId, CONTEXT_PATH_RESPONSE);
      if response.None? {
        Discard(waiting.value.body, now);
      } else {
        boxes := AnswerAll(response.value, waiting.value.body, id, now);
        SameAnswered(v, w, boxes, Askers(ifs, waiting.value.body, id), response.value, PathResponse);
      }
      FollowsTransitive(v, w, State(), now);
    }

    /** Count an answer that could not be made, once for each requester. */
    method Discard(requesters: Requesters, ghost now: u64)
      requires Valid() && Inv(State())
      modifies outbox
      ensures Valid() && Inv(State()) && Follows(old(State()), State(), now)
      ensures State() == old(State()).(box := State().box)
      ensures State().box == Discarded(old(State()).box, requesters)
    {
      hide Thrifty, Paced, TableSet.Valid, TableSet.Value, Interfaces.WellFormed, Follows, AllSealed, Evidenced,
        Numbered, CacheAgrees, Routed, Minted, TabsOk, BoxOk;
      ghost var v := State();
      assert |requesters * OCTET| <= 8 by { SubsetSize(requesters * OCTET, OCTET); }
      outbox.RefuseMany(|requesters * OCTET|);
      RefusedStep(v, State(), now);
    }

    method AnswerAll(response: Packet, requesters: Requesters, id: byte, now: u64) returns (ghost boxes: seq<Box>)
      requires Valid() && Inv(State()) && clock == now
      modifies outbox, outbox.ring, outbox.ring.slots
      ensures Valid() && Inv(State()) && Follows(old(State()), State(), now)
      ensures State() == old(State()).(box := State().box)
      ensures Answered(old(State()), boxes, Askers(ifs, requesters, id), response, PathResponse) && |boxes| == SLOTS + 1
      ensures State().box == boxes[SLOTS]
    {
      hide Thrifty, Paced, TableSet.Valid, TableSet.Value, Interfaces.WellFormed, Follows, Inv, Interfaces.FactsAt,
        Offers, Accepts, Asker;
      ghost var v := State();
      ghost var targets := Askers(ifs, requesters, id);
      boxes := [v.box];
      assert Follows(v, v, now) by { FollowsReflexive(v, now); }
      for slot := 0 to SLOTS
        invariant Valid() && Inv(State()) && Follows(v, State(), now) && State() == v.(box := State().box)
        invariant |boxes| == slot + 1 && State().box == boxes[slot]
        invariant Answered(v, boxes, targets[..slot], response, PathResponse)
      {
        var target := Asker(ifs, requesters, id, slot);
        ghost var w := State();
        if target.Some? {
          var ok := Enqueue(target.value, response, PathResponse, now);
          FollowsTransitive(v, w, State(), now);
          SameOffer(v, w, State().box, target.value, response, PathResponse);
        }
        boxes := boxes + [State().box];
      }
      assert targets[..SLOTS] == targets;
    }

    /** Whether a new route counts as bulk: learned unasked from a bulk interface. */
    method IsBulkHere(destination: Hash, id: byte, now: u64) returns (bulk: bool)
      requires Valid()
      ensures bulk <==> BulkHere(State(), destination, id, now)
    {
      hide TableSet.Valid, TableSet.Value, Interfaces.WellFormed, Interfaces.Config;
      var g, awaited := tables.FindDiscovery(destination, now);
      assert awaited.Some? ==> g in LiveAt(State().tabs.disc, now);
      bulk := ifs.Config(id).Some? && ifs.Config(id).value.bulk && awaited.None?;
    }

    /** Learn an announced route, with the announce it came from. */
    method LearnRoute(row: PathRow, p: Packet, now: u64) returns (learned: bool)
      requires Valid() && Inv(State()) && Up(ifs, row.body.interface) && row.body.packetHash == HashOf(env, p)
      modifies tables.repr
      ensures Valid() && Inv(State()) && Follows(old(State()), State(), now)
      ensures State() == old(State()).(tabs := old(State()).tabs.(paths := State().tabs.paths,
        lastPath := State().tabs.lastPath, cache := State().tabs.cache))
      ensures Updates(old(State()).tabs.paths, old(State()).tabs.lastPath, tables.paths.rows.Length, row, now,
        State().tabs.paths, State().tabs.lastPath, learned)
      ensures if learned
              then Caches(Retained(old(State()).tabs.cache, State().tabs.paths, now), tables.cache.rows.Length,
                Cached(row, p), now, State().tabs.cache)
              else State().tabs.cache == old(State()).tabs.cache
    {
      hide Thrifty, Paced, TableSet.Valid, TableSet.Value, Interfaces.WellFormed, Follows, BoxOk, AllSealed, Evidenced,
        Numbered, Updates, Recaches, Up, HashOf, TabsOk, Caches;
      ghost var v := State();
      learned := tables.Learn(row, Cached(row, p), now);
      if learned {
        Recached(v.tabs.cache, State().tabs.paths, tables.cache.rows.Length, Cached(row, p), now, State().tabs.cache);
      }
      LearnedStep(v, State(), row, p, tables.paths.rows.Length, learned, now);
    }

    /** Answer the discoveries a learned announce settles, and schedule its rebroadcast. */
    method Spread(p: Packet, hops: byte, id: byte, now: u64)
        returns (scheduled: bool, ghost owner: Option<Row<Requesters>>, ghost boxes: seq<Box>)
      requires Valid() && Inv(State()) && clock == now
      modifies this`sends, tables.repr, outbox, outbox.ring, outbox.ring.slots
      ensures Valid() && Inv(State()) && Follows(old(State()), State(), now)
      ensures State() == old(State()).(box := State().box, sends := sends,
        tabs := old(State()).tabs.(disc := State().tabs.disc, schedule := State().tabs.schedule))
      ensures State().tabs.disc == if enabled then Without(old(State()).tabs.disc,
        (r: Row<Requesters>) => r.key == p.header.destination) else old(State()).tabs.disc
      ensures if enabled
              then exists g :: Found(old(State()).tabs.disc, p.header.destination, now, g, owner)
              else owner.None?
      ensures Settles(old(State()), State().box, owner, boxes, p, hops, id)
      ensures scheduled <==> enabled && RebroadcastOf(env, transportId, p, hops, id, now).Some?
      ensures if scheduled then Schedules(old(State()).tabs.schedule, tables.schedule.rows.Length,
        RebroadcastOf(env, transportId, p, hops, id, now).value, now, State().tabs.schedule)
              else State().tabs.schedule == old(State()).tabs.schedule
    {
      hide Thrifty, Paced, TableSet.Valid, TableSet.Value, Interfaces.WellFormed, Follows, Inv, Reframe, Schedules,
        HashOf, Jitter, Settles, Found;
      ghost var v := State();
      owner, boxes := FinishDiscovery(p, hops, id, now);
      ghost var w := State();
      var row := RebroadcastOf(env, transportId, p, hops, id, now);
      if !enabled || row.None? { return false, owner, boxes; }
      tables.Reschedule(row.value, now);
      sends := Renewed(sends, row.value.key);
      ScheduledStep(w, State(), row.value, tables.schedule.rows.Length, now);
      FollowsTransitive(v, w, State(), now);
      scheduled := true;
    }

    /** Whether an announce is authentic and near enough to be learned from. */
    method AdmitAnnounce(p: Packet, hops: byte, admitted: bool, stored: Option<Hash>)
        returns (announced: Option<Announced>, failed: bool, ghost known: Option<Hash>)
      requires Valid()
      ensures KeyKnown(State().tabs.paths, p.header.destination, known)
      ensures announced == Heeded(env, local, p, hops, admitted, if stored.Some? then stored else known)
    {
      hide TableSet.Valid, TableSet.Value, Interfaces.WellFormed;
      var key := tables.KnownKey(p.header.destination);
      known := key;
      if Destination(p.header.destination) in local || !admitted { return None, false, known; }
      announced := env.announce(p, if stored.Some? then stored else key);
      failed := announced.None?;
      if hops >= PATHFINDER_M {
        announced := None;
      }
    }

    /** The route an announce leads to, if it is heeded; a copy of our own rebroadcast counts against its retry. */
    method HeedAnnounce(p: Packet, hops: byte, id: byte, m: Mode, admitted: bool, stored: Option<Hash>, now: u64)
        returns (entry: Option<PathRow>, failed: bool, ghost known: Option<Hash>)
      requires Valid() && Inv(State())
      modifies tables.repr
      ensures Valid() && Inv(State()) && Follows(old(State()), State(), now)
      ensures KeyKnown(old(State()).tabs.paths, p.header.destination, known)
      ensures entry.None? ==>
        State() == old(State()) && Heeded(env, local, p, hops, admitted, if stored.Some? then stored else known).None?
      ensures entry.Some? ==> Leads(old(State()), State(), p, hops, id, m, admitted, stored, entry.value, known, now)
      ensures entry.Some? ==> entry.value.body.interface == id && entry.value.body.packetHash == HashOf(env, p)
    {
      hide Thrifty, Paced, TableSet.Valid, TableSet.Value, Interfaces.WellFormed, Follows, Inv, Hears, Heeded,
        RouteFrom, BulkHere, KeyKnown, HashOf;
      ghost var v := State();
      entry := None;
      assert Follows(v, v, now) by { FollowsReflexive(v, now); }
      var announced, f, key := AdmitAnnounce(p, hops, admitted, stored);
      failed, known := f, key;
      if announced.None? { return; }
      var bulk := IsBulkHere(p.header.destination, id, now);
      if enabled {
        HearRebroadcast(p.header.destination, p.header.hops, now);
      }
      entry := Some(RouteFrom(env, p, hops, id, m, announced.value, bulk, now));
      RouteParts(env, p, hops, id, m, announced.value, bulk, now);
    }

    /**
     `handle_announce`: learn the route; only then cache the announce, answer discoveries and schedule a
     rebroadcast.
     */
    method HandleAnnounce(p: Packet, hops: byte, id: byte, m: Mode, admitted: bool, stored: Option<Hash>, now: u64)
        returns (r: Action, ghost row: PathRow, ghost known: Option<Hash>, ghost heard: Schedule)
      requires Valid() && Inv(State()) && clock == now && Up(ifs, id)
      modifies this`sends, tables.repr, outbox, outbox.ring, outbox.ring.slots
      ensures Valid() && Inv(State()) && Follows(old(State()), State(), now)
      ensures Heeds(old(State()), State(), p, hops, id, m, admitted, stored, row, known, heard, Sizes(), r, now)
    {
      hide Thrifty, Paced, TableSet.Valid, TableSet.Value, Interfaces.WellFormed, Follows, Inv, Heeded, RebroadcastOf,
        KeyKnown, Updates, Caches, Up, Schedules, Heeds, Settles, Found, HashOf, Leads;
      ghost var v := State();
      row := Row(0, 0, PathBody(None, 0, 0, 0, 0, seq(10, _ => 0), 0, false));
      var entry, failed, key := HeedAnnounce(p, hops, id, m, admitted, stored, now);
      ghost var w := State();
      known, heard := key, w.tabs.schedule;
      if entry.None? {
        r := if failed then Failed else Dropped;
        HeedsNothing(v, p, hops, id, m, admitted, stored, row, known, Sizes(), r, now);
        return;
      }
      row := entry.value;
      LeadParts(v, w, p, hops, id, m, admitted, stored, row, known, now);
      var learned := LearnRoute(entry.value, p, now);
      ghost var x := State();
      FollowsTransitive(v, w, x, now);
      if !learned {
        HeedsReplay(v, w, x, p, hops, id, m, admitted, stored, row, known, Sizes(), now);
        return AnnounceIgnored, row, known, heard;
      }
      var scheduled, owner, boxes := Spread(p, hops, id, now);
      FollowsTransitive(v, x, State(), now);
      HeedsRoute(v, w, x, State(), p, hops, id, m, admitted, stored, row, known, Sizes(), scheduled, owner, boxes, now);
      r := if scheduled then ScheduledAnnounce else LearnedAnnounce;
    }

    // --- Path requests --------------------------------------------------------------------------

    /** `enqueue_packet_broadcast_with_lifetime`: to every interface that may pass it on; an endpoint's host has one. */
    method Broadcast(source: byte, packet: Packet, reason: Reason, localOnly: bool, lt: Lifetime, ghost time: u64)
        returns (n: nat, ghost boxes: seq<Box>)
      requires Valid() && Inv(State()) && !reason.Gated() && lt.enqueued <= clock && SealedBy(State().tabs, lt)
      modifies outbox, outbox.ring, outbox.ring.slots
      ensures Valid() && Inv(State()) && Follows(old(State()), State(), time)
      ensures State() == old(State()).(box := State().box)
      ensures State().box.identity == old(State()).box.identity + n
      ensures n == 0 ==> State().box.queue == old(State()).box.queue
      ensures ifs.Endpoint? ==>
        Enqueues(old(State()).box, State().box, ifs, depth, source, packet, reason, lt,
                 Accepts(old(State()), source, packet, reason))
      ensures ifs.Router? ==>
        && Broadcasts(old(State()), boxes, source, Listeners(ifs, localOnly), packet, reason, lt)
        && |boxes| == SLOTS + 1 && State().box == boxes[SLOTS]
    {
      hide Thrifty, Paced, TableSet.Valid, TableSet.Value, Interfaces.WellFormed, Follows, Inv, Enqueues, SealedBy,
        Takes, Accepts, Listeners, Broadcasts;
      ghost var v := State();
      if ifs.Router? {
        n, boxes := BroadcastAll(source, packet, reason, localOnly, lt, time);
        return;
      }
      boxes := [];
      var ok := EnqueueWithLifetime(source, packet, reason, lt);
      IdentityTaken(v.box, State().box, ifs, depth, source, packet, reason, lt, ok);
      QueuedOnly(v, State(), source, packet, reason, lt, ok, time);
      n := if ok then 1 else 0;
    }

    method BroadcastAll(source: byte, packet: Packet, reason: Reason, localOnly: bool, lt: Lifetime, ghost time: u64)
        returns (n: nat, ghost boxes: seq<Box>)
      requires Valid() && Inv(State()) && ifs.Router? && !reason.Gated() && lt.enqueued <= clock
      requires SealedBy(State().tabs, lt)
      modifies outbox, outbox.ring, outbox.ring.slots
      ensures Valid() && Inv(State()) && Follows(old(State()), State(), time)
      ensures State() == old(State()).(box := State().box)
      ensures State().box.identity == old(State()).box.identity + n
      ensures (n == 0 ==> State().box.queue == old(State()).box.queue)
      ensures Broadcasts(old(State()), boxes, source, Listeners(ifs, localOnly), packet, reason, lt)
      ensures |boxes| == SLOTS + 1 && State().box == boxes[SLOTS]
    {
      hide Thrifty, Paced, TableSet.Valid, TableSet.Value, Interfaces.WellFormed, Follows, Inv, Enqueues, SealedBy,
        Takes, Accepts, Listener, Broadcasts;
      ghost var v := State();
      ghost var targets := Listeners(ifs, localOnly);
      n, boxes := 0, [v.box];
      assert Follows(v, v, time) by { FollowsReflexive(v, time); }
      assert Broadcasts(v, boxes, source, targets[..0], packet, reason, lt) by {
        NoBroadcast(v, source, packet, reason, lt);
      }
      for slot := 0 to SLOTS
        invariant Valid() && Inv(State()) && Follows(v, State(), time) && State() == v.(box := State().box)
        invariant State().box.identity == v.box.identity + n && (n == 0 ==> State().box.queue == v.box.queue)
        invariant |boxes| == slot + 1 && State().box == boxes[slot]
        invariant Broadcasts(v, boxes, source, targets[..slot], packet, reason, lt)
      {
        var target := Listener(ifs, localOnly, slot);
        ghost var w := State();
        if target.Some? {
          var ok := EnqueueForwarded(source, target.value, packet, reason, lt);
          IdentityTaken(w.box, State().box, ifs, depth, target.value, packet, reason, lt, ok);
          QueuedOnly(w, State(), target.value, packet, reason, lt, ok, time);
          FollowsTransitive(v, w, State(), time);
          n := if ok then n + 1 else n;
        }
        BroadcastNext(v, boxes, source, targets, slot, packet, reason, lt, State().box);
        boxes := boxes + [State().box];
      }
      assert targets[..SLOTS] == targets;
    }

    /** Broadcast under the frame's own lifetime, a forwarded request for no longer than its gate. */
    method BroadcastNow(source: byte, packet: Packet, reason: Reason, localOnly: bool, ghost time: u64)
        returns (n: nat, ghost lt: Lifetime, ghost boxes: seq<Box>)
      requires Valid() && Inv(State()) && !reason.Gated() && ifs.Router?
      modifies outbox, outbox.ring, outbox.ring.slots
      ensures Valid() && Inv(State()) && Follows(old(State()), State(), time)
      ensures State() == old(State()).(box := State().box)
      ensures State().box.identity == old(State()).box.identity + n
      ensures (n == 0 ==> State().box.queue == old(State()).box.queue)
      ensures Broadcasts(old(State()), boxes, source, Listeners(ifs, localOnly), packet, reason, lt)
      ensures |boxes| == SLOTS + 1 && State().box == boxes[SLOTS]
      ensures Gated(old(State()), packet, reason, lt)
    {
      hide Thrifty, Paced, TableSet.Valid, TableSet.Value, Interfaces.WellFormed, Follows, Inv, Found, LifetimeFor,
        Given, Broadcasts, Listeners;
      var life, _, _, _, _ := PacketLifetime(packet, reason);
      var until := if reason.PathRequestForward? then Earlier(life.expires, SatAdd(clock, REQUEST_GATE_MS))
        else life.expires;
      lt := life.(expires := until);
      assert lt.(expires := life.expires) == life;
      n, boxes := Broadcast(source, packet, reason, localOnly, life.(expires := until), time);
    }

    /** Start or join the search for a destination; only a new search is sent on. */
    method Discover(requested: Hash, request: Packet, id: byte, now: u64) returns (r: Action, ghost begun: Begun)
      requires Valid() && Inv(State()) && clock == now && enabled
      modifies tables.repr, outbox, outbox.ring, outbox.ring.slots
      ensures Valid() && Inv(State()) && Follows(old(State()), State(), now)
      ensures State() == old(State()).(box := State().box,
        tabs := old(State()).tabs.(disc := State().tabs.disc, lastDisc := State().tabs.lastDisc))
      ensures r in {Dropped, Accepted, ForwardedPathRequest}
      ensures (r == ForwardedPathRequest <==> State().box.identity > old(State()).box.identity)
      ensures if Searchable(ifs, id)
              then Begins(old(State()).tabs.disc, old(State()).tabs.lastDisc, tables.links.rows.Length, requested,
                          ifs.Slot(id), now, DiscoveryTimeout(ifs.Slowest(id, 0)), State().tabs.disc,
                          State().tabs.lastDisc, begun)
              else State() == old(State())
      ensures r == Accepted <==> Searchable(ifs, id) && begun.Joined?
      ensures !(Searchable(ifs, id) && begun.New?) ==> State().box == old(State()).box
      ensures r != ForwardedPathRequest ==> State().box.queue == old(State()).box.queue
      ensures Searchable(ifs, id) && begun.New? ==> Seeks(old(State()), State().box, request, id, begun.identity, now)
    {
      hide Thrifty, Paced, TableSet.Valid, TableSet.Value, Interfaces.WellFormed, Follows, BoxOk, AllSealed, Evidenced,
        Numbered, CacheAgrees, Routed, Minted, WellScheduled, Begins, DiscoveryTimeout, Seeks, Enqueues, Broadcasts;
      ghost var v := State();
      begun := Refused;
      FollowsReflexive(v, now);
      if !Searchable(ifs, id) { return Dropped, begun; }
      var timeout := DiscoveryTimeout(ifs.Slowest(id, 0));
      var b := tables.BeginDiscovery(requested, ifs.Slot(id), now, timeout);
      begun := b;
      ghost var w := State();
      DiscoveredStep(v, w, tables.links.rows.Length, requested, ifs.Slot(id), now, timeout, b);
      if !b.New? { return if b.Joined? then Accepted else Dropped, begun; }
      var n, boxes := Broadcast(id, request, PathRequestForward, false, SearchLifetime(ifs, id, b.identity, now), now);
      Sought(v, w, State().box, boxes, request, id, b.identity, now);
      FollowsTransitive(v, w, State(), now);
      r := if n == 0 then Dropped else ForwardedPathRequest;
    }

    /** Answer a path request from the cache; none when there is nothing to answer from. */
    method Answer(requested: Hash, id: byte, now: u64) returns (r: Option<Action>, ghost g: u64)
      requires Valid() && Inv(State()) && clock == now
      modifies outbox, outbox.ring, outbox.ring.slots
      ensures Valid() && Inv(State()) && Follows(old(State()), State(), now)
      ensures State() == old(State()).(box := State().box)
      ensures r.Some? <==> exists h :: Answerable(old(State()), requested, h, now)
      ensures r in {None, Some(Failed), Some(Dropped), Some(AnsweredPathRequest)}
      ensures r == Some(AnsweredPathRequest) <==> exists h :: Replies(old(State()), requested, id, h, now)
      ensures r == Some(AnsweredPathRequest) ==> Answers(old(State()), State(), requested, id, g, now)
      ensures r != Some(AnsweredPathRequest) ==>
        State().box.queue == old(State()).box.queue && State().box.identity == old(State()).box.identity
      ensures r.None? ==> State() == old(State())
    {
      hide Thrifty, Paced, TableSet.Valid, TableSet.Value, Interfaces.WellFormed, Follows, BoxOk, AllSealed, Evidenced,
        Numbered, Routed, Minted, WellScheduled, Reframe, HashOf, Offers, Accepts;
      ghost var v := State();
      FollowsReflexive(v, now);
      r, g := None, 0;
      var h, path := tables.FindPath(requested, now);
      var cached := tables.CachedAnnounce(requested, now);
      RouteDecides(v, requested, now, h, path);
      if path.None? || cached.None? { return; }
      g := h;
      assert Answerable(v, requested, g, now);
      var response := Reframe(cached.value.body.packet, requested, cached.value.body.hops, transportId,
        CONTEXT_PATH_RESPONSE);
      assert response == Response(v, requested);
      if response.None? { return Some(Failed), g; }
      var ok := Enqueue(id, response.value, PathResponse, now);
      r := Some(if ok then AnsweredPathRequest else Dropped);
      assert ok <==> Replies(v, requested, id, g, now);
    }

    /** `handle_path_request`. */
    method HandlePathRequest(payload: Bytes, id: byte, m: Mode, now: u64)
        returns (r: Action, ghost g: u64, ghost isNew: bool, ghost searched: bool)
      requires Valid() && Inv(State()) && clock == now
      modifies tables.repr, outbox, outbox.ring, outbox.ring.slots
      ensures Valid() && Inv(State()) && Follows(old(State()), State(), now)
      ensures State() == old(State()).(box := State().box,
        tabs := old(State()).tabs.(disc := State().tabs.disc, lastDisc := State().tabs.lastDisc))
      ensures |payload| > 16 ==>
        (isNew <==> RequestKey(payload[..16], TagOf(payload)) !in LiveRows(old(tables.tags.entries), now))
      ensures r == Duplicate <==> |payload| > 16 && !isNew
      ensures r == LocalEndpoint <==> |payload| > 16 && isNew && Destination(Wanted(payload)) in local
      ensures r == AnsweredPathRequest <==>
        && |payload| > 16 && isNew && Destination(Wanted(payload)) !in local && enabled
        && (forall h :: !Withheld(old(State()), Wanted(payload), Requestor(payload), id, m, h, now))
        && (exists h :: Replies(old(State()), Wanted(payload), id, h, now))
      ensures r == AnsweredPathRequest ==> Answers(old(State()), State(), Wanted(payload), id, g, now)
      ensures searched <==>
        && |payload| > 16 && isNew && Destination(Wanted(payload)) !in local
        && (forall h :: !Withheld(old(State()), Wanted(payload), Requestor(payload), id, m, h, now))
        && !(enabled && exists h :: Answerable(old(State()), Wanted(payload), h, now))
      ensures searched ==> Looks(old(State()), State(), Wanted(payload), RequestFor(old(State()), payload),
        id, m, tables.links.rows.Length, now)
      ensures r == ForwardedPathRequest <==> searched && State().box.identity > old(State()).box.identity
      ensures r !in {AnsweredPathRequest, ForwardedPathRequest} ==> State().box.queue == old(State()).box.queue
    {
      hide Thrifty, Paced, TableSet.Valid, TableSet.Value, Interfaces.WellFormed, Follows, Inv, Answers, Found,
        Answerable, Replies, Looks, Withheld, Wanted, Requestor, RequestKey, TagOf, LiveRows, Evicts;
      ghost var v := State();
      g, isNew, searched := 0, false, false;
      assert Follows(v, v, now) by { FollowsReflexive(v, now); }
      if |payload| <= 16 { return Dropped, g, isNew, searched; }
      var wanted := Wanted(payload);
      var tag := TagOf(payload);
      var fresh_ := tables.NewTag(RequestKey(payload[..16], tag), SatAdd(now, PATH_REQUEST_GATE_MS), now);
      isNew := fresh_;
      if !fresh_ { return Duplicate, g, isNew, searched; }
      if Destination(wanted) in local { return LocalEndpoint, g, isNew, searched; }
      var withheld, known, h := IsWithheld(wanted, Requestor(payload), id, m, now);
      if withheld { return Dropped, g, isNew, searched; }
      if known && enabled {
        var answer: Option<Action>;
        answer, g := Answer(wanted, id, now);
        if answer.Some? { return answer.value, g, isNew, searched; }
      }
      assert !(enabled && exists k :: Answerable(v, wanted, k, now)) by { NothingToTell(v, wanted, now, known); }
      if enabled {
        NotTold(v, wanted, id, now);
      }
      searched := true;
      var request := PathRequestPacket(env, wanted, tag, if enabled then Some(transportId) else None);
      r := Search(wanted, request, id, m, now);
    }

    /** Whether the requester must not be told the route, and whether there is one. */
    method IsWithheld(wanted: Hash, requestor: Option<Hash>, id: byte, m: Mode, now: u64)
        returns (withheld: bool, known: bool, ghost g: u64)
      requires Valid() && Inv(State())
      ensures withheld <==> exists h :: Withheld(State(), wanted, requestor, id, m, h, now)
      ensures !known ==> !HasKey(LiveAt(State().tabs.paths, now), wanted)
    {
      hide TableSet.Valid, TableSet.Value, Interfaces.WellFormed, Inv;
      var h, path := tables.FindPath(wanted, now);
      g := h;
      RouteDecides(State(), wanted, now, h, path);
      known := path.Some?;
      withheld := path.Some? && ((requestor.Some? && path.value.body.nextHop == requestor)
        || (m.Roaming? && path.value.body.interface == id));
      assert withheld ==> Withheld(State(), wanted, requestor, id, m, g, now);
    }

    /** Look for a destination this node cannot answer for. */
    method Search(wanted: Hash, request: Packet, id: byte, m: Mode, now: u64) returns (r: Action)
      requires Valid() && Inv(State()) && clock == now
      modifies tables.repr, outbox, outbox.ring, outbox.ring.slots
      ensures Valid() && Inv(State()) && Follows(old(State()), State(), now)
      ensures State() == old(State()).(box := State().box,
        tabs := old(State()).tabs.(disc := State().tabs.disc, lastDisc := State().tabs.lastDisc))
      ensures Looks(old(State()), State(), wanted, request, id, m, tables.links.rows.Length, now)
      ensures r in {Dropped, Accepted, ForwardedPathRequest}
      ensures (r == ForwardedPathRequest <==> State().box.identity > old(State()).box.identity)
      ensures r != ForwardedPathRequest ==> State().box.queue == old(State()).box.queue
    {
      hide Thrifty, Paced, TableSet.Valid, TableSet.Value, Interfaces.WellFormed, Follows, Inv, Begins,
        DiscoveryTimeout, Seeks, Broadcasts, Listeners, Gated, Searchable;
      ghost var v := State();
      assert Follows(v, v, now) by { FollowsReflexive(v, now); }
      var n := 0;
      ghost var lt, boxes, begun;
      if ifs.Router? && ifs.IsLocalClient(id) {
        n, lt, boxes := BroadcastNow(id, request, PathRequestForward, false, now);
      } else if enabled && Discovers(m) {
        r, begun := Discover(wanted, request, id, now);
        return;
      } else if ifs.Router? {
        n, lt, boxes := BroadcastNow(id, request, PathRequestForward, true, now);
      }
      r := if n > 0 then ForwardedPathRequest else Dropped;
    }

    // --- Ingress --------------------------------------------------------------------------------

    /** `bridge_plain_broadcast`. */
    method Bridge(q: Packet, source: byte, now: u64) returns (r: Action)
      requires Valid() && Inv(State())
      modifies outbox, outbox.ring, outbox.ring.slots
      ensures Valid() && Inv(State()) && Follows(old(State()), State(), now)
      ensures State() == old(State()).(box := State().box)
      ensures if ifs.Router?
              then CallsOut(old(State()), State().box, source, !ifs.IsLocalClient(source), q, TransportForward)
              else State() == old(State())
      ensures r in {Dropped, Forwarded} && (r == Forwarded <==> State().box.identity > old(State()).box.identity)
    {
      hide Thrifty, Paced, TableSet.Valid, TableSet.Value, Interfaces.WellFormed, Follows, Inv, Broadcasts, Listeners,
        Gated;
      ghost var v := State();
      assert Follows(v, v, now) by { FollowsReflexive(v, now); }
      if ifs.Endpoint? { return Dropped; }
      var n, lt, boxes := BroadcastNow(source, q, TransportForward, !ifs.IsLocalClient(source), now);
      r := if n > 0 then Forwarded else Dropped;
    }

    /** A data packet: link traffic, a path request, a plain broadcast, or a frame to forward. */
    method HandleData(p: Packet, hops: byte, id: byte, m: Mode, now: u64) returns (r: Action)
      requires Valid() && Inv(State()) && clock == now && Up(ifs, id)
      modifies tables.repr, outbox, outbox.ring, outbox.ring.slots
      ensures Valid() && Inv(State()) && Follows(old(State()), State(), now)
      ensures Calm(old(State()).tabs.paths, State().tabs.paths)
      ensures Conveys(old(State()), State(), p, hops, id, m, Sizes(), r, now)
    {
      hide Thrifty, Paced, TableSet.Valid, TableSet.Value, Interfaces.WellFormed, Follows, Inv, Up, LeavesNoTrace,
        CarriesOn, RelaysData, Answers, Claims, Carries, Relays, Withheld, Replies, Answerable, Looks, CallsOut, Notes,
        Calm, Passed, Tracked, Conveys, Wanted, Requestor;
      ghost var v := State();
      assert Follows(v, v, now) by { FollowsReflexive(v, now); }
      var handled, sent, lt, g := RouteLinkPacket(p, hops, id, TransportForward, now);
      if handled {
        TrafficIsCalm(v, State(), p, hops, id, TransportForward, lt, g, sent, now);
        ConveysTraffic(v, State(), p, hops, id, m, TransportForward, lt, g, sent, Sizes(), Forwarded, now);
        return Forwarded;
      }
      assert Calm(v.tabs.paths, v.tabs.paths) by { StillCalm(v, v); }
      if p.header.destination == env.pathRequest {
        ghost var h, isNew, searched;
        r, h, isNew, searched := HandlePathRequest(p.payload, id, m, now);
        ConveysRequest(v, State(), p, hops, id, m, h, searched, Sizes(), r, now);
      } else if p.header.flags.destinationType.Plain? && p.header.flags.transportType.Broadcast? {
        r := Bridge(Passed(p, hops), id, now);
        ConveysPlain(v, State(), p, hops, id, m, Sizes(), r, now);
      } else {
        ghost var lt', h;
        r, lt', h := HandleForward(p, hops, id, now);
        ConveysData(v, State(), p, hops, id, m, h, lt', Sizes(), r, now);
      }
    }

    /** `handle_proof`. */
    method HandleProof(p: Packet, hops: byte, id: byte, now: u64) returns (r: Action)
      requires Valid() && Inv(State()) && clock == now && p.header.flags.packetType.Proof?
      requires |history| > 0 && history[|history| - 1] == Ingested(p, id, hops, now)
      modifies this`evidence, tables.repr, outbox, outbox.ring, outbox.ring.slots
      ensures Valid() && Inv(State()) && Follows(old(State()), State(), now)
      ensures Calm(old(State()).tabs.paths, State().tabs.paths)
      ensures Proves(old(State()), State(), p, hops, id, Sizes(), r, now)
    {
      hide Thrifty, Paced, TableSet.Valid, TableSet.Value, Interfaces.WellFormed, Follows, Inv, LeavesNoTrace,
        CarriesOn, ValidatesLink, ReturnsProof, Claims, Carries, Validates, Returns, Notes, Calm, Tracked,
        CarriesTraffic;
      ghost var v := State();
      ghost var lt, g;
      if p.header.context == CONTEXT_LRPROOF {
        r, lt, g := HandleLinkProof(p, hops, id, now);
        ProofIsCalm(v, State(), p, hops, id, lt, g, r == ForwardedProof, now);
        return;
      }
      var handled, sent;
      handled, sent, lt, g := RouteLinkPacket(p, hops, id, ProofReturn, now);
      if handled {
        TrafficIsCalm(v, State(), p, hops, id, ProofReturn, lt, g, sent, now);
        ConveysTraffic(v, State(), p, hops, id, Full, ProofReturn, lt, g, sent, Sizes(), ForwardedProof, now);
        return ForwardedProof;
      }
      r, lt, g := HandleReverseProof(p, hops, id, now);
      ReturnIsCalm(v, State(), p, hops, id, lt, g, r == ForwardedProof, now);
    }

    /** The start of every timed step: the clock moves, and what it left behind expires. */
    method Prepare(id: byte, m: Mode, now: u64)
      requires Valid() && Inv(State()) && clock <= now
      modifies this`clock, this`ifs, tables.repr, outbox, outbox.ring, outbox.ring.slots
      ensures Valid() && Inv(State()) && Follows(old(State()), State(), now)
      ensures Prepares(old(State()), State(), id, m, now)
    {
      hide Thrifty, Paced, TableSet.Valid, TableSet.Value, Interfaces.WellFormed, Follows, BoxOk, AllSealed, Evidenced,
        Numbered, CacheAgrees, Routed, Minted, WellScheduled, Interfaces.Observe, LiveIn, Purged;
      ghost var v := State();
      clock := now;
      ifs := ifs.Observe(id, m, ProfileMtu(tag));
      ghost var w := State();
      ObservedStep(v, w, now);
      tables.ExpireDiscoveries(enabled, now);
      ghost var x := State();
      ClosedStep(w, x, now);
      FollowsTransitive(v, w, x, now);
      ExpireOutbound(now);
      PurgeStepKeeps(x, State(), LiveIn(x, now), now);
      FollowsTransitive(v, x, State(), now);
      LiveElsewhere(x, State(), now);
    }

    /** Duplicates go, except an announce of a single destination; links and their setup decide for themselves. */
    method IsDuplicate(p: Packet, localLink: Option<Hash>, now: u64) returns (duplicate: bool)
      requires Valid() && Inv(State())
      modifies tables.repr
      ensures Valid() && Inv(State()) && Follows(old(State()), State(), now)
      ensures LooksUp(old(State()), State(), p, localLink, tables.hashes.rows.Length, duplicate, now)
    {
      hide Thrifty, Paced, TableSet.Valid, TableSet.Value, Interfaces.WellFormed, Follows, Inv, HashOf, Repeats,
        LiveRows;
      ghost var v := State();
      assert Follows(v, v, now) by { FollowsReflexive(v, now); }
      var h := p.header;
      var g, link := tables.FindLink(h.destination, now);
      assert link.Some? ==> g in LiveAt(v.tabs.links, now);
      if Repeats(h.context) || link.Some? || h.flags.packetType.LinkRequest? || h.context == CONTEXT_LRPROOF
        || (h.flags.destinationType.Link? && (localLink == Some(h.destination) || LocalLink(h.destination) in local)) {
        return false;
      }
      var isNew := tables.NewHash(HashOf(env, p), SatAdd(now, HASHLIST_LIFETIME_MS), now);
      HashesStep(v, State(), now);
      duplicate := !isNew && !(h.flags.packetType.Announce? && h.flags.destinationType.Single?);
    }

    /** `ingest_inner`. */
    method Ingest(frame: Bytes, id: byte, given: Option<Mode>, localLink: Option<Hash>, admitted: bool,
                  stored: Option<Hash>, now: u64)
        returns (r: Action, ghost met: View, ghost seen: View)
      requires Valid() && Inv(State()) && clock <= now
      modifies this`sends, this`clock, this`ifs, this`history, this`evidence
      modifies tables.repr, outbox, outbox.ring, outbox.ring.slots
      ensures Valid() && Inv(State()) && Step(old(State()), State(), now) && clock == now
      ensures Inv(met) && Inv(seen)
      ensures Ingests(old(State()), State(), frame, id, if given.Some? then given.value
        else mode, localLink, admitted, stored, Sizes(), r,
                      met, seen, now)
    {
      hide Thrifty, Paced, TableSet.Valid, TableSet.Value, Interfaces.WellFormed, Follows, Inv, Fresher, Up, IsLocal,
        Prepares, Screen, LooksUp, Deals, Handles, Paired, Witnessed, Logs, Interfaces.IsLocalClient, Interfaces.Config;
      ghost var v := State();
      var m := if given.Some? then given.value else mode;
      Prepare(id, m, now);
      ghost var w := State();
      met, seen := w, w;
      PreparedParts(v, w, id, m, now);
      var s := Screen(env, Own(transportId, tag, mode, local, plainSink, modem), ifs, frame, id);
      if s.Out? {
        r := s.action;
        IngestSound(v, w, frame, id, m, localLink, admitted, stored, Sizes(), r, met, seen, now);
        return;
      }
      assert Up(ifs, id) by { ScreenedUp(env, w.own, ifs, frame, id); }
      r, seen := Admit(s.packet, id, m, localLink, admitted, stored, now);
      FollowsTransitive(v, w, State(), now);
      IngestSound(v, State(), frame, id, m, localLink, admitted, stored, Sizes(), r, met, seen, now);
    }

    /**
     A frame that was let in: looked up among the frames seen, and dealt with unless it is a duplicate or
     the host's own.
     */
    method Admit(p: Packet, id: byte, m: Mode, localLink: Option<Hash>, admitted: bool, stored: Option<Hash>, now: u64)
        returns (r: Action, ghost seen: View)
      requires Valid() && Inv(State()) && clock == now && Up(ifs, id)
      modifies this`sends, this`history, this`evidence, tables.repr, outbox, outbox.ring, outbox.ring.slots
      ensures Valid() && Inv(State()) && Follows(old(State()), State(), now) && clock == now
      ensures Fresher(old(State()).tabs.paths, State().tabs.paths, now) && old(history) <= history && Inv(seen)
      ensures Handles(old(State()), seen, State(), p, id, m, localLink, admitted, stored, Sizes(), r, now)
    {
      hide Thrifty, Paced, TableSet.Valid, TableSet.Value, Interfaces.WellFormed, Follows, Inv, Fresher, Up, IsLocal,
        LooksUp, Deals, Handles, Interfaces.IsLocalClient, Interfaces.Config;
      ghost var w := State();
      var duplicate := IsDuplicate(p, localLink, now);
      ghost var x := State();
      seen := x;
      LookedUp(w, x, p, localLink, tables.hashes.rows.Length, duplicate, now);
      assert Fresher(w.tabs.paths, x.tabs.paths, now) by { StillFresher(w, x, now); }
      var hops := HopsHere(p.header.hops, ifs.IsLocalClient(id));
      if duplicate || IsLocal(local, p) {
        r := if duplicate then Duplicate else LocalEndpoint;
        HandlesFrame(w, seen, x, p, id, m, localLink, admitted, stored, Sizes(), duplicate, hops, r, now);
        return;
      }
      history := history + [Ingested(p, id, hops, now)];
      ghost var y := State();
      RecordedStep(x, y, now);
      FollowsTransitive(w, x, y, now);
      r := Dispatch(p, hops, id, if ifs.Config(id).Some? then ifs.Config(id).value.mode else m, admitted, stored, now);
      HandlesFrame(w, seen, State(), p, id, m, localLink, admitted, stored, Sizes(), duplicate, hops, r, now);
      FollowsTransitive(w, y, State(), now);
    }

    method Dispatch(p: Packet, hops: byte, id: byte, m: Mode, admitted: bool, stored: Option<Hash>, now: u64)
        returns (r: Action)
      requires Valid() && Inv(State()) && clock == now && Up(ifs, id)
      requires |history| > 0 && history[|history| - 1] == Ingested(p, id, hops, now)
      modifies this`sends, this`evidence, tables.repr, outbox, outbox.ring, outbox.ring.slots
      ensures Valid() && Inv(State()) && Follows(old(State()), State(), now)
      ensures Fresher(old(State()).tabs.paths, State().tabs.paths, now)
      ensures Deals(old(State()), State(), p, hops, id, m, admitted, stored, Sizes(), r, now)
    {
      hide Thrifty, Paced, TableSet.Valid, TableSet.Value, Interfaces.WellFormed, Follows, Inv, Fresher, Up, Calm,
        Heeds, OpensLink, Conveys, Proves, LeavesNoTrace, Links, Requests;
      ghost var v := State();
      match p.header.flags.packetType {
        case Announce =>
          ghost var row, known, heard;
          r, row, known, heard := HandleAnnounce(p, hops, id, m, admitted, stored, now);
          HeededFresher(v, State(), p, hops, id, m, admitted, stored, row, known, heard, Sizes(), r, now);
        case Data =>
          r := HandleData(p, hops, id, m, now);
          CalmFresher(v, State(), now);
        case LinkRequest =>
          ghost var lt, sent, row, g;
          r, lt, sent, row, g := HandleLinkRequest(p, hops, id, now);
          RequestsLink(v, State(), p, hops, id, g, sent, lt, row, Sizes(), r, now);
          CalmFresher(v, State(), now);
        case Proof =>
          r := HandleProof(p, hops, id, now);
          CalmFresher(v, State(), now);
      }
    }

    // --- Announce rebroadcast -------------------------------------------------------------------

    /** An endpoint's send of a due announce, counted against its credit. */
    method SendDue(row: ScheduleRow, now: u64)
      requires Valid() && Inv(State()) && (ifs.Router? ==> row.body.block) && row.key !in State().tabs.schedule
      requires Sent(sends, row.key, 0) < SENDS && Announcing(row)
      modifies this`sends, outbox, outbox.ring, outbox.ring.slots
      ensures Valid() && Inv(State()) && Follows(old(State()), State(), now)
      ensures State() == old(State()).(box := State().box, sends := Bump(old(sends), row.key, 0))
      ensures Offers(old(State()), old(State()).box, State().box, row.body.interface, row.body.packet, DueReason(row))
      ensures Accounts(old(State()), State()) && Loose(old(State()).box, State().box)
    {
      hide TableSet.Valid, TableSet.Value, Interfaces.WellFormed, Follows, Inv, Bump, Sent, Accounts, Loose, Offers,
        Accepts;
      ghost var v := State();
      var ok := Enqueue(row.body.interface, row.body.packet, DueReason(row), now);
      ghost var w := State();
      LooseOffers(v, w, row.body.interface, row.body.packet, DueReason(row));
      sends := Bump(sends, row.key, 0);
      BumpedStep(w, State(), row.key, 0, now);
      FollowsTransitive(v, w, State(), now);
      DueAccounts(v, State(), row);
    }

    /**
     An announce whose time has come: owed to its targets, or sent; then retried once, kept while owed, or
     done with.
     */
    method ProcessDue(row: ScheduleRow, now: u64)
      requires Valid() && Inv(State()) && clock == now && row.body.due <= now < U64_MAX && row.body.retries <= 1
      requires row.key !in State().tabs.schedule && Backed(sends, row) && Announcing(row)
      modifies this`sends, tables.repr, outbox, outbox.ring, outbox.ring.slots
      ensures Valid() && Inv(State()) && Follows(old(State()), State(), now)
      ensures State() == old(State()).(box := State().box, sends := sends,
        tabs := old(State()).tabs.(schedule := State().tabs.schedule))
      ensures Due(LiveRows(State().tabs.schedule, now), now) <= Due(LiveRows(old(State()).tabs.schedule, now), now)
      ensures Processes(old(State()), State(), row, tables.schedule.rows.Length, now)
      ensures Accounts(old(State()), State()) && Loose(old(State()).box, State().box)
    {
      hide TableSet.Valid, TableSet.Value, Interfaces.WellFormed, Follows, Inv, HashOf, LiveRows, Due, Backed,
        NextRound, Bump, Interfaces.Targets, Jitter, Accounts, Loose, Offers, Stays, Processes, Found;
      ghost var v := State();
      assert Follows(v, v, now) by { FollowsReflexive(v, now); }
      AccountsStill(v, v);
      assert Loose(v.box, v.box) by { LooseStill(v, v); }
      var current := StillCurrent(row, row.body.block, now);
      if !current {
        NotProcessed(v, row, tables.schedule.rows.Length, now);
        return;
      }
      var owes := !row.body.block && ifs.Router?;
      if !owes {
        assert Sent(sends, row.key, 0) < SENDS by { HasCredit(sends, row, 0); }
        SendDue(row, now);
      }
      ghost var w := State();
      var due := NextDueTime(env, transportId, row, now);
      PutBack(row, owes, if owes then ifs.Targets(row.body.interface) else {}, Again(row), due, v, now);
      FollowsTransitive(v, w, State(), now);
      AccountsBoth(v, w, State());
      Processed(v, w, State(), row, tables.schedule.rows.Length, now);
    }

    /** Schedule an announce for its next round, unless it has none and nothing is owed. */
    method PutBack(row: ScheduleRow, owes: bool, targets: set<nat>, again: bool, due: u64, ghost v: View, now: u64)
      requires Valid() && Inv(State()) && row.body.due <= now < due && row.body.retries <= 1
      requires due == U64_MAX || row.body.retries == 0
      requires State().tabs == v.tabs && sends == (if owes then v.sends else Bump(v.sends, row.key, 0))
      requires Backed(v.sends, row)
      requires Announcing(row) && (owes || targets == {})
      modifies tables.repr
      ensures Valid() && Inv(State()) && Follows(old(State()), State(), now)
      ensures State() == old(State()).(tabs := old(State()).tabs.(schedule := State().tabs.schedule))
      ensures Due(LiveRows(State().tabs.schedule, now), now) <= Due(LiveRows(v.tabs.schedule, now), now)
      ensures Requeues(old(State()).tabs.schedule, tables.schedule.rows.Length, NextRound(row, owes, targets, due, now),
        again, now,
                       State().tabs.schedule)
    {
      hide TableSet.Valid, TableSet.Value, Outbox.Valid, Outbox.Value, Interfaces.WellFormed, Follows, Inv, LiveRows,
        Due, Schedules, Backed, Bump, NextRound, Announcing, Requeues;
      ghost var w := State();
      assert Follows(w, w, now) by { FollowsReflexive(w, now); }
      var next := NextRound(row, owes, targets, due, now);
      RequeueDecided(w.tabs.schedule, tables.schedule.rows.Length, next, again, now);
      if again || next.body.pending != {} {
        tables.Reschedule(next, now);
        PutBackStep(v, w, State(), row, next, owes, targets, due, tables.schedule.rows.Length, now);
      }
    }

    /** Send or owe every announce that is due; each comes back later than now, so this ends. */
    method ProcessAllDue(now: u64)
      requires Valid() && Inv(State()) && clock == now
      modifies this`sends, tables.repr, outbox, outbox.ring, outbox.ring.slots
      ensures Valid() && Inv(State()) && Follows(old(State()), State(), now)
      ensures State() == old(State()).(box := State().box, sends := sends,
        tabs := old(State()).tabs.(schedule := State().tabs.schedule))
      ensures Due(LiveRows(State().tabs.schedule, now), now) == {}
      ensures Accounts(old(State()), State()) && Loose(old(State()).box, State().box)
      ensures Ungated(old(State()), State())
    {
      hide TableSet.Valid, TableSet.Value, Interfaces.WellFormed, Follows, Inv, LiveRows, Due, Pops, RowCredit, Sent,
        Accounts, Loose, Processes, Ungated;
      ghost var v := State();
      assert Follows(v, v, now) by { FollowsReflexive(v, now); }
      AccountsStill(v, v);
      assert Loose(v.box, v.box) by { LooseStill(v, v); }
      UngatedStill(v, v);
      while true
        invariant Valid() && Inv(State()) && Follows(v, State(), now) && clock == now
        invariant State() == v.(box := State().box, sends := sends, tabs := v.tabs.(schedule := State().tabs.schedule))
        invariant Accounts(v, State()) && Loose(v.box, State().box) && Ungated(v, State())
        decreases |Due(LiveRows(State().tabs.schedule, now), now)|
      {
        ghost var w := State();
        var row := tables.NextDue(now);
        ghost var x := State();
        PoppedStep(w, x, row, now);
        FollowsTransitive(v, w, x, now);
        AccountsOn(v, w, x);
        if row.None? {
          UngatedSame(v, w, x);
          break;
        }
        ProcessDue(row.value, now);
        UngatedMore(v, w, x, State(), row.value, tables.schedule.rows.Length, now);
        AccountsMore(v, x, State(), now);
        FollowsTransitive(v, x, State(), now);
        Fewer(Due(LiveRows(State().tabs.schedule, now), now), Due(LiveRows(x.tabs.schedule, now), now),
          Due(LiveRows(w.tabs.schedule, now), now));
      }
    }

    /** Whether an announce is still the one its destination's route was learned from; `any` asks only for a route. */
    method StillCurrent(row: ScheduleRow, any: bool, now: u64) returns (current: bool)
      requires Valid() && Inv(State())
      ensures current <==> Stays(State(), row, any, now)
    {
      hide TableSet.Valid, TableSet.Value, Outbox.Valid, Outbox.Value, Inv, HashOf;
      var g, path := tables.FindPath(row.key, now);
      RouteDecides(State(), row.key, now, g, path);
      current := path.Some? && (any || HashOf(env, row.body.packet) == path.value.body.packetHash);
    }

    /** Charge the gate of an interface for an announce that was let through. */
    method Charge(slot: nat, size: nat, now: u64)
      requires Valid() && Inv(State()) && ifs.Router? && slot < SLOTS && ifs.registry[slot].Some?
      requires ifs.GateAt(slot) <= now < U64_MAX
      modifies this`ifs, this`aired
      ensures Valid() && Inv(State()) && Follows(old(State()), State(), now)
      ensures State() == Charged(old(State()), slot, size, now)
      ensures ifs.Router? && ifs == old(ifs).(gates := ifs.gates)
    {
      hide TableSet.Valid, TableSet.Value, Outbox.Valid, Outbox.Value, Follows, TabsOk, BoxOk, AllSealed, Evidenced,
        Numbered, Thrifty, InStep;
      ghost var v := State();
      var c := ifs.registry[slot].value;
      var pace := PaceOf(modem, c);
      var spacing := pace.Spacing(size, c.capPermille);
      ifs := ifs.(gates := ifs.gates[slot := SatAdd(now, spacing)]);
      aired := aired[slot := aired[slot] + [Release(now, pace.Work(size))]];
      ChargedStep(v, State(), slot, size, spacing, now);
    }

    /** Let one owed announce through to its interface, at the price of its gate. */
    method SendOwed(row: ScheduleRow, slot: nat, target: InterfaceConfig, now: u64)
        returns (ok: bool, ghost lt: Lifetime)
      requires Valid() && Inv(State()) && clock == now < U64_MAX && ifs.Router? && slot < SLOTS
      requires ifs.registry[slot] == Some(target)
      requires ifs.GateAt(slot) <= now && Count(State().box.queue, GatedTo(target.id)) == 0 && Announcing(row)
      modifies this`ifs, this`aired, outbox, outbox.ring, outbox.ring.slots
      ensures Valid() && Inv(State()) && Follows(old(State()), State(), now)
      ensures Owes(old(State()), State(), row, slot, target, lt, ok, now)
      ensures Loose(old(State()).box, State().box)
    {
      hide TableSet.Valid, TableSet.Value, Interfaces.WellFormed, Follows, Inv, Found, LifetimeFor, Enqueues, Takes,
        Given, Count, Loose, Charged;
      ghost var v := State();
      var size := row.body.packet.Size() + target.tag;
      var life, _, _, _, _ := PacketLifetime(row.body.packet, AnnounceRebroadcast);
      lt := life;
      ok := EnqueueForwarded(row.body.interface, target.id, row.body.packet, AnnounceRebroadcast, life);
      ghost var w := State();
      QueuedOnly(v, w, target.id, row.body.packet, AnnounceRebroadcast, lt, ok, now);
      GivenUntied(v, row.body.packet, AnnounceRebroadcast, lt);
      LooseOffer(v, w, target.id, row.body.packet, AnnounceRebroadcast, lt, ok);
      if ok {
        Charge(slot, size, now);
        FollowsTransitive(v, w, State(), now);
        ChargedParts(w, slot, size, now);
      }
    }

    /** An announce taken from the schedule for a slot, and counted, goes out to its interface. */
    method PassOwed(row: ScheduleRow, slot: nat, target: InterfaceConfig, now: u64, ghost v: View, ghost w: View)
      requires Valid() && Inv(State()) && clock == now < U64_MAX && ifs.Router? && slot < SLOTS && ifs == v.ifs
      requires ifs.registry[slot] == Some(target) && ifs.GateAt(slot) <= now && Announcing(row)
      requires Count(State().box.queue, GatedTo(target.id)) == 0
      requires w == v.(sends := w.sends, tabs := v.tabs.(schedule := w.tabs.schedule)) && Accounts(v, w)
      requires State() == w.(sends := Bump(w.sends, row.key, slot), tabs := w.tabs.(schedule := State().tabs.schedule))
      requires Follows(v, State(), now)
      modifies this`ifs, this`aired, outbox, outbox.ring, outbox.ring.slots
      ensures Valid() && Inv(State()) && Follows(v, State(), now)
      ensures ifs.Router? && State().tabs == v.tabs.(schedule := State().tabs.schedule) && State().own == v.own
      ensures SameSlots(v.ifs, ifs) && Accounts(v, State()) && Loose(v.box, State().box)
      ensures LetsOne(v, State(), slot, now)
    {
      hide TableSet.Valid, TableSet.Value, Interfaces.WellFormed, Follows, Inv, Count, Bump, Accounts, Loose, Owes,
        LetsOne, SameSlots, GatedTo;
      ghost var x := State();
      var ok, lt := SendOwed(row, slot, target, now);
      FollowsTransitive(v, x, State(), now);
      OwedAccounts(v, w, x, State(), row, slot, target, lt, ok, now);
      OwedLets(v, x, State(), row, slot, target, lt, ok, now);
    }

    /** The first announce owed to an open slot goes out, unless there is none or it is not current any more. */
    method ReleaseNext(slot: nat, target: InterfaceConfig, now: u64, ghost v: View) returns (done: bool)
      requires Valid() && Inv(State()) && Follows(v, State(), now) && clock == now && ifs == v.ifs && ifs.Router?
      requires State() == v.(sends := sends, tabs := v.tabs.(schedule := State().tabs.schedule))
      requires Accounts(v, State()) && Loose(v.box, State().box)
      requires slot < SLOTS && ifs.registry[slot] == Some(target) && ifs.GateAt(slot) <= now
      requires Count(State().box.queue, GatedTo(target.id)) == 0
      modifies this`ifs, this`aired, this`sends, tables.repr, outbox, outbox.ring, outbox.ring.slots
      ensures Valid() && Inv(State()) && Follows(v, State(), now) && clock == now
      ensures ifs.Router? && State().tabs == v.tabs.(schedule := State().tabs.schedule) && State().own == v.own
      ensures SameSlots(v.ifs, ifs) && Accounts(v, State()) && Loose(v.box, State().box)
      ensures LetsOne(v, State(), slot, now)
      ensures !done ==>
        && State() == v.(sends := sends, tabs := v.tabs.(schedule := State().tabs.schedule))
        && |Owing(State().tabs.schedule, slot)| < |Owing(old(State()).tabs.schedule, slot)|
    {
      hide TableSet.Valid, TableSet.Value, Interfaces.WellFormed, Follows, Inv, Releases, Owing, Count, Bump, Accounts,
        Loose, Stays, LetsOne, SameSlots, GatedTo;
      ghost var w := State();
      var row := tables.NextOwed(slot, now);
      if row.Some? {
        sends := Bump(sends, row.value.key, slot);
      }
      ghost var x := State();
      ReleasedStep(w, x, slot, row, now);
      FollowsTransitive(v, w, x, now);
      LetsNothing(v, x, slot, now);
      if row.None? {
        AccountsOn(v, w, x);
        return true;
      }
      var current := StillCurrent(row.value, false, now);
      if current {
        PassOwed(row.value, slot, target, now, v, w);
        return true;
      }
      tables.Unschedule((r: ScheduleRow) => r.key == row.value.key);
      StruckStep(w, x, State(), slot, row.value.key, now);
      FollowsTransitive(v, x, State(), now);
      BumpAccounts(v, w, State(), row.value.key, slot);
      LetsNothing(v, State(), slot, now);
      done := false;
    }

    /**
     `release_gated_announces` for one interface: nothing while its gate is closed or an announce waits;
     otherwise the first announce owed that is still current, and those before it are forgotten.
     */
    method ReleaseSlot(slot: nat, now: u64)
      requires Valid() && Inv(State()) && clock == now && ifs.Router? && slot < SLOTS
      modifies this`ifs, this`aired, this`sends, tables.repr, outbox, outbox.ring, outbox.ring.slots
      ensures Valid() && Inv(State()) && Follows(old(State()), State(), now) && clock == now
      ensures ifs.Router? && State().tabs == old(State()).tabs.(schedule := State().tabs.schedule)
      ensures SameSlots(old(ifs), ifs) && Accounts(old(State()), State()) && Loose(old(State()).box, State().box)
      ensures Waits(old(State()), slot, now) ==> State() == old(State())
      ensures State().own == old(State()).own && LetsOne(old(State()), State(), slot, now)
    {
      hide TableSet.Valid, TableSet.Value, Interfaces.WellFormed, Follows, Inv, Count, Accounts, Loose, LetsOne;
      ghost var v := State();
      Resting(v, now);
      LetsNothing(v, v, slot, now);
      var target := ifs.At(slot);
      if target.None? || now < ifs.GateAt(slot) { return; }
      var waiting := outbox.CountRows(GatedTo(target.value.id));
      if waiting > 0 { return; }
      var done := false;
      while !done
        invariant Valid() && Inv(State()) && Follows(v, State(), now) && clock == now && ifs.Router?
        invariant State().tabs == v.tabs.(schedule := State().tabs.schedule) && State().own == v.own
        invariant SameSlots(v.ifs, ifs) && Accounts(v, State()) && Loose(v.box, State().box)
        invariant LetsOne(v, State(), slot, now)
        invariant !done ==> State() == v.(sends := sends, tabs := v.tabs.(schedule := State().tabs.schedule))
        decreases if done then 0 else 1, |Owing(State().tabs.schedule, slot)|
      {
        done := ReleaseNext(slot, target.value, now, v);
      }
    }

    /** `release_gated_announces`, since a state `u` from which nothing was let through. */
    method ReleaseAll(now: u64, ghost u: View)
      requires Valid() && Inv(State()) && clock == now
      requires u.ifs == ifs && u.own == State().own && u.aired == aired && Ungated(u, State())
      requires u.box.identity <= State().box.identity
      modifies this`ifs, this`aired, this`sends, tables.repr, outbox, outbox.ring, outbox.ring.slots
      ensures Valid() && Inv(State()) && Follows(old(State()), State(), now) && clock == now
      ensures State().tabs == old(State()).tabs.(schedule := State().tabs.schedule)
      ensures SameSlots(old(ifs), ifs) && Accounts(old(State()), State()) && Loose(old(State()).box, State().box)
      ensures ifs.Endpoint? ==> State() == old(State())
      ensures Airs(u, State(), now) && (ifs.Endpoint? ==> aired == u.aired)
    {
      hide TableSet.Valid, TableSet.Value, Interfaces.WellFormed, Follows, Inv, Accounts, Loose, Waits, AirsSlot,
        LetsOne, Unaired, AirsBelow, Ungated;
      ghost var v := State();
      Resting(v, now);
      WithinBounds(v);
      if ifs.Endpoint? { return; }
      UngatedUnaired(u, v, now);
      for slot := 0 to SLOTS
        invariant Valid() && Inv(State()) && Follows(v, State(), now) && clock == now && ifs.Router?
        invariant State().tabs == v.tabs.(schedule := State().tabs.schedule)
        invariant SameSlots(v.ifs, ifs) && Accounts(v, State()) && Loose(v.box, State().box)
        invariant State().own == u.own && AirsBelow(u, State(), slot, now)
      {
        ghost var w := State();
        ReleaseSlot(slot, now);
        AccountsMore(v, w, State(), now);
        FollowsTransitive(v, w, State(), now);
        WithinBounds(w);
        IdentitiesOnly(v, w, now);
        AirsNext(u, w, State(), slot, now);
      }
      AirsAll(u, State(), now);
    }

    /** The first half of `tick`: the clock moves, and everything expired goes. */
    method Sweep(now: u64)
      requires Valid() && Inv(State()) && clock <= now
      modifies this`clock, tables.repr, outbox, outbox.ring, outbox.ring.slots
      ensures Valid() && Inv(State()) && Follows(old(State()), State(), now)
      ensures State() == old(State()).(clock := now, tabs := State().tabs, box := State().box)
      ensures Expires(old(State()), State().tabs, now) && Fresher(old(State()).tabs.paths, State().tabs.paths, now)
      ensures State().box == Purged(old(State()).box, LiveIn(State(), now))
      ensures State().box.identity == old(State()).box.identity
      ensures Accounts(old(State()), State()) && Loose(old(State()).box, State().box)
    {
      hide TableSet.Valid, TableSet.Value, Interfaces.WellFormed, Follows, Inv, LiveRows, Retained, LiveIn, Purged,
        Fresher, Calm, Accounts, Loose;
      ghost var v := State();
      clock := now;
      ghost var w := State();
      ObservedStep(v, w, now);
      tables.ExpireDiscoveries(enabled, now);
      tables.ExpireAll(now);
      ghost var x := State();
      ExpiredStep(w, x, now);
      FollowsTransitive(v, w, x, now);
      assert Fresher(v.tabs.paths, x.tabs.paths, now) by { CalmFresher(v, x, now); }
      ExpireOutbound(now);
      PurgeStepKeeps(x, State(), LiveIn(x, now), now);
      FollowsTransitive(v, x, State(), now);
      Swept(v, x, State(), now);
      LiveElsewhere(x, State(), now);
    }

    /** `tick`: everything expired goes, due announces are sent or owed, and gates that are open let one through. */
    method Tick(now: u64)
      requires Valid() && Inv(State()) && clock <= now
      modifies this`clock, this`ifs, this`aired, this`sends, tables.repr, outbox, outbox.ring, outbox.ring.slots
      ensures Valid() && Inv(State()) && Step(old(State()), State(), now) && clock == now
      ensures Expires(old(State()), State().tabs, now)
      ensures ifs.Endpoint? ==> Due(LiveRows(State().tabs.schedule, now), now) == {}
      ensures Tallied(old(State()), State()) && Airs(old(State()), State(), now)
      ensures ifs.Endpoint? ==> aired == old(aired)
    {
      hide TableSet.Valid, TableSet.Value, Interfaces.WellFormed, Follows, Inv, LiveRows, LiveIn, Purged, Fresher, Due,
        Accounts, Loose, Paired, Witnessed, Logs, Tallied;
      ghost var v := State();
      Sweep(now);
      ghost var y := State();
      UngatedStill(v, y);
      ProcessAllDue(now);
      ghost var z := State();
      AccountsMore(v, y, z, now);
      FollowsTransitive(v, y, z, now);
      UngatedSince(v, y, z, now);
      ReleaseAll(now, v);
      AccountsMore(v, z, State(), now);
      FollowsTransitive(v, z, State(), now);
      Ticked(v, y, State(), now);
    }

    // --- Host requests --------------------------------------------------------------------------

    /** `request_path`: send before record. */
    method RequestPath(destination: Hash, tag: Bytes, id: byte, now: u64) returns (ok: bool)
      requires Valid() && Inv(State()) && clock <= now && |tag| <= 16
      modifies this`clock, tables.repr, outbox, outbox.ring, outbox.ring.slots
      ensures Valid() && Inv(State()) && Step(old(State()), State(), now)
      ensures Asks(old(State()), State(), destination, tag, id, ok, now)
      ensures if ok then exists isNew ::
                Remembers(old(tables.tags.entries), tables.tags.rows.Length,
                          Row(RequestKey(ToBe(destination, 16), tag), SatAdd(now, PATH_REQUEST_GATE_MS), ()), now,
                          tables.tags.entries, isNew)
              else tables.tags.entries == old(tables.tags.entries)
    {
      hide TableSet.Valid, TableSet.Value, Interfaces.WellFormed, Follows, Inv, LiveIn, Purged, PathRequestPacket,
        Offers, Accepts, Paired, Witnessed, Logs, Loose;
      ghost var v := State();
      clock := now;
      ghost var w := State();
      ObservedStep(v, w, now);
      ExpireOutbound(now);
      ghost var x := State();
      PurgeStepKeeps(w, x, LiveIn(w, now), now);
      FollowsTransitive(v, w, x, now);
      var request := PathRequestPacket(env, destination, tag, if enabled then Some(transportId) else None);
      ok := Enqueue(id, request, PathRequest, now);
      FollowsTransitive(v, x, State(), now);
      AskedPaired(v, x, State(), destination, tag, id, now);
      if ok {
        var isNew := tables.NewTag(RequestKey(ToBe(destination, 16), tag), SatAdd(now, PATH_REQUEST_GATE_MS), now);
      }
    }

    /** `drop_path`: a failed route goes; its announce stays cached. */
    method DropPath(destination: Hash, ghost time: u64)
      requires Valid() && Inv(State())
      modifies tables.repr
      ensures Valid() && Inv(State()) && Step(old(State()), State(), time)
      ensures State() == old(State()).(tabs :=
        old(State()).tabs.(paths := Without(old(State()).tabs.paths, (r: PathRow) => r.key == destination)))
    {
      hide TableSet.Valid, TableSet.Value, Outbox.Valid, Outbox.Value, Interfaces.WellFormed, Follows, Inv, Without,
        Paired, Witnessed, Logs;
      ghost var v := State();
      tables.DropPath(destination);
      DroppedStep(v, State(), (r: PathRow) => r.key == destination, time);
      QuietStep(v, State(), time);
    }

    /** `record_expired_outbound`: a frame lost by the host is counted, and no queued row goes. */
    method RecordExpired(ghost time: u64)
      requires Valid() && Inv(State())
      modifies outbox
      ensures Valid() && Inv(State()) && Step(old(State()), State(), time)
      ensures var b := old(State()).box;
        State() == old(State()).(box := b.(dropped := SatAdd(b.dropped, 1), refused := b.refused + 1))
    {
      hide TableSet.Valid, TableSet.Value, Interfaces.WellFormed, Follows, AllSealed, Evidenced, Numbered, CacheAgrees,
        Routed, Minted, Paired, Witnessed, Logs;
      ghost var v := State();
      outbox.Refuse();
      RefusedStep(v, State(), time);
      QuietStep(v, State(), time);
    }

    /** `local_outbound_lifetime`: a lifetime for a packet the host sends itself. */
    method LocalLifetime(p: Packet, now: u64) returns (lt: Lifetime)
      requires Valid() && Inv(State())
      ensures lt.enqueued == now && lt.expires <= SatAdd(now, OUTBOUND_MAX_AGE_MS) && lt.state == Independent
      ensures SealedBy(State().tabs, lt)
      ensures if p.header.flags.destinationType.Single? && HasKey(LiveAt(State().tabs.paths, now), p.header.destination)
              then lt.path in State().tabs.paths && State().tabs.paths[lt.path].key == p.header.destination
                && lt.expires <= State().tabs.paths[lt.path].expires
              else lt.path == 0
    {
      hide TableSet.Valid, TableSet.Value, Interfaces.WellFormed, BoxOk, AllSealed, Evidenced, Numbered, CacheAgrees,
        Routed, Thrifty, Paced, WellScheduled;
      lt := Unbound(now);
      if p.header.flags.destinationType.Single? {
        var g, path := tables.FindPath(p.header.destination, now);
        if path.Some? {
          assert g in LiveAt(State().tabs.paths, now);
          lt := lt.(path := g, expires := Earlier(lt.expires, path.value.expires));
        }
      }
    }

    // --- Router interfaces ----------------------------------------------------------------------

    /** `send_local`. */
    method SendLocal(id: byte, packet: Packet, ghost time: u64) returns (ok: bool)
      requires Valid() && Inv(State()) && ifs.Router?
      modifies outbox, outbox.ring, outbox.ring.slots
      ensures Valid() && Inv(State()) && Step(old(State()), State(), time)
      ensures State() == old(State()).(box := State().box)
      ensures Enqueues(old(State()).box, State().box, ifs, depth, id, packet, Local, Unbound(clock), ok)
      ensures ok <==> Accepts(old(State()), id, packet, Local)
    {
      hide TableSet.Valid, TableSet.Value, Interfaces.WellFormed, Follows, Inv, Enqueues, Accepts, Paired, Witnessed,
        Logs, Loose;
      ghost var v := State();
      ok := EnqueueWithLifetime(id, packet, Local, Unbound(clock));
      QueuedOnly(v, State(), id, packet, Local, Unbound(clock), ok, time);
      LooseOffer(v, State(), id, packet, Local, Unbound(clock), ok);
      LoosePaired(v, State());
      SteadyWitnessed(v, State(), time);
      GatelessOffer(v, State(), id, packet, Local, Unbound(clock), ok);
      GatelessLogs(v, v, State(), time);
    }

    /** `poll_tx_for_interface`: the first frame of the interface that is live now, announces last. */
    method PollInterface(id: byte, ghost time: u64) returns (row: Option<Queued>)
      requires Valid() && Inv(State()) && ifs.Router?
      modifies outbox, outbox.ring, outbox.ring.slots
      ensures Valid() && Inv(State()) && Step(old(State()), State(), time)
      ensures State() == old(State()).(box := State().box)
      ensures Polls(old(State()), State().box, id, row)
    {
      hide TableSet.Valid, TableSet.Value, Interfaces.WellFormed, Follows, Inv, LiveIn, Purged, Paired, Witnessed, Logs;
      ghost var v := State();
      ExpireOutbound(clock);
      ghost var w := State();
      PurgeStepKeeps(v, w, LiveIn(v, clock), time);
      QuietStep(v, w, time);
      var k := outbox.FindForemost(id);
      if k == outbox.ring.len { return None; }
      var q := outbox.Remove(k, false);
      assert Leaves(w.box, State().box, k, false);
      HandedStep(w, State(), k, time);
      FollowsTransitive(v, w, State(), time);
      QuietStep(v, State(), time);
      row := Some(q);
    }

    /** `register_interface`: a new registration, which nothing is owed to and nobody waits at. */
    method RegisterInterface(c: InterfaceConfig, ghost time: u64) returns (ok: bool)
      requires Valid() && Inv(State()) && ifs.Router?
      modifies this`ifs, this`aired, tables.repr
      ensures Valid() && Inv(State()) && Step(old(State()), State(), time)
      ensures ok <==> c.Valid(depth) && Register(old(ifs), c).Some?
      ensures !ok ==> State() == old(State())
      ensures ok ==>
        && old(ifs).Config(c.id).None? && Some(ifs) == Register(old(ifs), c)
        && ifs.Config(c.id) == Some(c) && ifs.Generation(c.id) > old(ifs).last
        && ForgetsSlot(old(State()).tabs, State().tabs, ifs.Slot(c.id)) && State().box == old(State()).box
    {
      hide TableSet.Valid, TableSet.Value, Outbox.Valid, Outbox.Value, Interfaces.WellFormed, Interfaces.Config,
        Interfaces.Generation, Interfaces.Slot, Register, Follows, Inv, Reregisters, ForgetsSlot, Awaited,
        WellScheduled, AgreeBut, Paced, Paired, Witnessed, Logs;
      ghost var v := State();
      Still(v, time);
      if !c.Valid(depth) { return false; }
      var next := Register(ifs, c);
      if next.None? { return false; }
      ifs := next.value;
      var slot := ifs.Slot(c.id);
      aired := if slot < |aired| then aired[slot := []] else aired;
      RegisteredIfs(v, ifs, aired, c, slot);
      ForgetSlot(slot, v.tabs);
      ReregisteredStep(v, State(), c.id, slot, time);
      OneLogStarts(v, State(), slot);
      RegistryQuiet(v, State(), time);
      ok := true;
    }

    /** Nobody waits at a slot any more, and nothing is owed to it. */
    method ForgetSlot(slot: nat, ghost t: Tabs)
      requires Valid() && State().tabs == t && Awaited(t.disc) && WellScheduled(t.schedule)
      modifies tables.repr
      ensures Valid() && State() == old(State()).(tabs := State().tabs) && ForgetsSlot(t, State().tabs, slot)
      ensures State().tabs.lastPath == t.lastPath && State().tabs.lastReverse == t.lastReverse
      ensures State().tabs.lastLink == t.lastLink && State().tabs.links == t.links
    {
      hide TableSet.Valid, TableSet.Value, Outbox.Valid, Outbox.Value, Interfaces.WellFormed, RowsTransformed,
        Transformed, Awaited;
      tables.UpdateSchedule(Unowed(slot));
      tables.RetireSlot(slot);
    }

    /** `retire_router_interface`. */
    method RetireInterface(slot: nat, entry: Option<InterfaceConfig>, ghost time: u64)
      requires Valid() && Inv(State()) && ifs.Router? && slot < SLOTS && ifs.registry[slot].Some?
      requires entry.Some? ==>
        var c := ifs.registry[slot].value; entry.value.id == c.id && !entry.value.online && entry.value.depth == c.depth
      modifies this`ifs, this`aired, tables.repr, outbox, outbox.ring, outbox.ring.slots
      ensures Valid() && Inv(State()) && Step(old(State()), State(), time)
      ensures ifs.Router? && ifs.registry == old(ifs).registry[slot := entry] && ifs.last == old(ifs).last
      ensures ifs.Generation(old(ifs).registry[slot].value.id) == 0
      ensures Avoids(State().tabs, old(ifs).registry[slot].value.id)
      ensures forall q :: q in State().box.queue ==> q in old(State()).box.queue && LiveIn(State(), clock)(q)
    {
      hide TableSet.Valid, TableSet.Value, Interfaces.Config, Interfaces.Generation, Follows, Inv, Reregisters,
        RowsTransformed, Transformed, Paced, Purged, LiveIn, Without, RowsWithout, Retained, ForgetsSlot, Paired,
        Witnessed, Logs, Avoids;
      ghost var v := State();
      var id := ifs.registry[slot].value.id;
      ifs := Retire(ifs, slot, entry);
      aired := if slot < |aired| then aired[slot := []] else aired;
      RetiredIfs(v, ifs, aired, entry, slot);
      ForgetSlot(slot, v.tabs);
      ghost var m := State().tabs;
      tables.DropInterface(id, clock);
      ghost var x := State();
      assert DropsInterface(m, x.tabs, id, v.clock);
      ExpireOutbound(clock);
      DroppedAvoids(m, x.tabs, id, v.clock);
      RetiredStep(v, x, State(), id, slot, time);
      PurgedLive(x, State(), clock);
      OneLogStarts(v, State(), slot);
      RegistryQuiet(v, State(), time);
    }

    /** `unregister_interface`: the last one stays. */
    method UnregisterInterface(id: byte, ghost time: u64) returns (ok: bool)
      requires Valid() && Inv(State()) && ifs.Router?
      modifies this`ifs, this`aired, tables.repr, outbox, outbox.ring, outbox.ring.slots
      ensures Valid() && Inv(State()) && Step(old(State()), State(), time)
      ensures ok <==> old(ifs).Config(id).Some? && old(ifs).Registered() != 1
      ensures if ok
              then ifs.Config(id).None? && ifs.Generation(id) == 0 && Avoids(State().tabs, id)
              else State() == old(State())
    {
      hide TableSet.Valid, TableSet.Value, Follows, Inv, Paired, Witnessed, Logs, Avoids, LiveIn;
      ghost var v := State();
      Still(v, time);
      var slot := ifs.Slot(id);
      if slot == SLOTS || ifs.Registered() == 1 { return false; }
      RetireInterface(slot, None, time);
      ok := true;
    }

    /** `set_interface_online`: down is a retirement, and up again a new registration. */
    method SetOnline(id: byte, online: bool, ghost time: u64) returns (ok: bool)
      requires Valid() && Inv(State()) && ifs.Router?
      modifies this`ifs, this`aired, tables.repr, outbox, outbox.ring, outbox.ring.slots
      ensures Valid() && Inv(State()) && Step(old(State()), State(), time)
      ensures ok <==>
        var c := old(ifs).Config(id); c.Some? && (online && !c.value.online ==> old(ifs).last < U64_MAX)
      ensures ok ==> ifs.Config(id) == Some(old(ifs).Config(id).value.(online := online))
      ensures ok && !online ==> ifs.Generation(id) == 0 && Avoids(State().tabs, id)
      ensures ok && online && !old(ifs).Config(id).value.online ==>
        && State() == old(State()).(ifs := ifs) && ifs.Generation(id) > old(ifs).last
      ensures ok && online && old(ifs).Config(id).value.online ==> State() == old(State())
      ensures !ok ==> State() == old(State())
    {
      hide TableSet.Valid, TableSet.Value, Follows, Inv, Reregisters, Paced, Paired, Witnessed, Logs, Avoids, LiveIn;
      ghost var v := State();
      Still(v, time);
      var slot := ifs.Slot(id);
      if slot == SLOTS { return false; }
      var c := ifs.registry[slot].value;
      if !online {
        RetireInterface(slot, Some(c.(online := false)), time);
        ConfigAt(ifs, slot, id, c.(online := false));
      } else if !c.online {
        var next := BringUp(ifs, slot);
        if next.None? { return false; }
        ifs := next.value;
        ConfigAt(ifs, slot, id, c.(online := true));
        RaisedStep(v, State(), slot, time);
        QuietStep(v, State(), time);
      }
      ok := true;
    }

    /**
     `reset_in_place` and `reset_router_in_place`: everything is forgotten but the incarnation counters.
     A router keeps its registry and modem, unless it is given others; a registry given is validated.
     */
    method Reset(enabled: bool, depth: nat, mode: Mode, tag: nat, transportId: Hash,
                 replacing: Option<Replacement>, ghost time: u64) returns (ok: bool)
      requires Valid() && Inv(State()) && (replacing.Some? ==> ifs.Router? && |replacing.value.registry| == SLOTS)
      modifies this, tables.repr, outbox, outbox.ring, outbox.ring.slots
      ensures Valid() && Inv(State()) && Step(old(State()), State(), time)
      ensures ok <==>
        && 0 < depth <= outbox.ring.slots.Length && (old(ifs).Router? ==> old(ifs).last < U64_MAX)
        && (replacing.Some? ==> RegistryValid(replacing.value.registry, depth))
      ensures !ok ==> State() == old(State())
      ensures ok ==>
        && Emptied(old(State()).tabs, State().tabs)
        && State().box == old(State()).box.(queue := [], queued := 0, dropped := 0, handed := 0, lost := 0,
          refused := 0)
        && State().enabled == enabled && State().depth == depth
        && State().own == Own(transportId, tag, mode, {}, None, if replacing.Some? then replacing.value.modem
          else old(modem))
      ensures ok && ifs.Router? ==>
        && ifs.registry == (if replacing.Some? then replacing.value.registry else old(ifs).registry)
        && forall id: byte :: ifs.Generation(id) == 0 || ifs.Generation(id) > old(ifs).last
    {
      hide TableSet.Valid, TableSet.Value, Interfaces.WellFormed, Follows, Inv, Reregisters, Paced, Numbered, Emptied,
        Paired, Witnessed, Logs, Interfaces.Generation, Restarted, Outbox.Valid, Outbox.Value;
      ghost var v := State();
      Still(v, time);
      var next := Restarted(ifs, replacing, depth);
      RestartedExactly(ifs, replacing, depth);
      if depth == 0 || depth > outbox.ring.slots.Length || next.None? { return false; }
      var radio := if replacing.Some? then replacing.value.modem else modem;
      RestartedIfs(v, next.value, replacing, depth, radio);
      Clear();
      Configure(enabled, depth, mode, tag, transportId, radio, next.value);
      ResetStep(v, State(), time);
      EmptiedLasts(v.tabs, State().tabs);
      AllLogsStart(v, State());
      RegistryQuiet(v, State(), time);
      ok := true;
    }

    method Configure(enabled: bool, depth: nat, mode: Mode, tag: nat, transportId: Hash, modem: Option<nat -> u32>,
                     next: Interfaces)
      requires Valid() && next.WellFormed()
      modifies this
      ensures Valid() && ifs == next
      ensures State() == old(State()).(own := Own(transportId, tag, mode, {}, None, modem), enabled := enabled,
        depth := depth,
                                       ifs := next, sends := map[], aired := seq(SLOTS, _ => []))
    {
      hide TableSet.Valid, TableSet.Value, Outbox.Valid, Outbox.Value, Interfaces.WellFormed, LiteNode.Valid,
        LiteNode.State;
      SetIdentity(mode, tag, transportId);
      SetHost(modem);
      SetState(enabled, depth, next);
    }

    method SetIdentity(mode: Mode, tag: nat, transportId: Hash)
      requires Valid()
      modifies this`mode, this`tag, this`transportId
      ensures Valid()
      ensures State() == old(State()).(own := old(State()).own.(transport := transportId, tag := tag, mode := mode))
    {
      hide TableSet.Valid, TableSet.Value, Outbox.Valid, Outbox.Value, Interfaces.WellFormed;
      this.mode, this.tag, this.transportId := mode, tag, transportId;
    }

    method SetHost(modem: Option<nat -> u32>)
      requires Valid()
      modifies this`local, this`plainSink, this`modem
      ensures Valid() && State() == old(State()).(own := old(State()).own.(local := {}, sink := None, modem := modem))
    {
      hide TableSet.Valid, TableSet.Value, Outbox.Valid, Outbox.Value, Interfaces.WellFormed;
      local, plainSink, this.modem := {}, None, modem;
    }

    method SetState(enabled: bool, depth: nat, next: Interfaces)
      requires Valid() && next.WellFormed()
      modifies this`enabled, this`depth, this`ifs, this`sends, this`aired
      ensures Valid() && ifs == next
      ensures State() == old(State()).(enabled := enabled, depth := depth, ifs := next, sends := map[],
        aired := seq(SLOTS, _ => []))
    {
      hide TableSet.Valid, TableSet.Value, Outbox.Valid, Outbox.Value, Interfaces.WellFormed;
      this.enabled, this.depth, ifs, sends, aired := enabled, depth, next, map[], seq(SLOTS, _ => []);
    }

    method Clear()
      requires Valid()
      modifies tables.repr, outbox, outbox.ring, outbox.ring.slots
      ensures Valid() && State() == old(State()).(tabs := State().tabs, box := State().box)
      ensures Emptied(old(State()).tabs, State().tabs)
      ensures State().tabs.lastPath == old(State()).tabs.lastPath
      ensures State().box == old(State()).box.(queue := [], queued := 0, dropped := 0, handed := 0, lost := 0,
        refused := 0)
    {
      hide TableSet.Valid, TableSet.Value, Interfaces.WellFormed;
      tables.Reset();
      outbox.Reset();
    }

    // --- Endpoint interfaces --------------------------------------------------------------------

    /** `retained_outbound_retire_interface`: no row owes to this interface any more, bound or not. */
    method RetireTarget(id: byte, ghost time: u64)
      requires Valid() && Inv(State()) && ifs.Endpoint?
      modifies this`ifs, outbox.ring, outbox.ring.slots
      ensures Valid() && Inv(State()) && Step(old(State()), State(), time)
      ensures State() == old(State()).(ifs := ifs, box := old(State()).box.(queue := State().box.queue))
      ensures ifs == Muted(old(ifs), id)
      ensures if id < 7
              then RowsRetired(old(State()).box.queue, State().box.queue, id)
              else State().box == old(State()).box
    {
      hide TableSet.Valid, TableSet.Value, Follows, Inv, Interfaces.Slot, Paired, Witnessed, Logs;
      ghost var v := State();
      ifs := Muted(ifs, id);
      ghost var w := State();
      EndpointObserved(v, w, time);
      if id < 7 {
        outbox.RetireTarget(id);
        RetiredRows(w, State(), id, time);
        FollowsTransitive(v, w, State(), time);
      }
      QuietStep(v, State(), time);
    }

    /** `retire_replaced_interface`: routes through it go, too, and its facts are forgotten. */
    method RetireReplaced(id: byte, ghost time: u64)
      requires Valid() && Inv(State()) && ifs.Endpoint?
      modifies this`ifs, tables.repr, outbox, outbox.ring, outbox.ring.slots
      ensures Valid() && Inv(State()) && Step(old(State()), State(), time)
      ensures ifs == Forgotten(Muted(old(ifs), id), id) && Avoids(State().tabs, id)
      ensures ifs.Endpoint? && State().own == old(State()).own && State().clock == old(State()).clock
      ensures forall q :: q in State().box.queue ==> LiveIn(State(), clock)(q)
      ensures id < 7 ==> forall q :: q in State().box.queue && q.delivery.Fanout? ==> (id as nat) !in q.delivery.pending
    {
      hide TableSet.Valid, TableSet.Value, Follows, Inv, Interfaces.Slot, LiveIn, Purged, RowsTransformed, Transformed,
        Without, RowsWithout, Retained, Awaited, Paired, Witnessed, Logs, Avoids, Muted;
      ghost var v := State();
      RetireTarget(id, time);
      ghost var w := State();
      var slot := ifs.Slot(id);
      assert Awaited(w.tabs.disc) by { AwaitedIn(w); }
      if slot < SLOTS {
        tables.RetireSlot(slot);
        ifs := Endpoint(ifs.facts[slot := EMPTY_FACTS]);
      }
      ghost var m := State();
      tables.DropInterface(id, clock);
      ghost var x := State();
      DroppedAvoids(m.tabs, x.tabs, id, v.clock);
      ReplacedStep(w, m, x, id, slot, time);
      FollowsTransitive(v, w, x, time);
      ExpireOutbound(clock);
      PurgeStepKeeps(x, State(), LiveIn(x, clock), time);
      PurgedLive(x, State(), clock);
      FollowsTransitive(v, x, State(), time);
      QuietStep(v, State(), time);
    }

    /** What a host's new facts about an interface retire: the interface for a new mode, else queued permission. */
    method RetireChanged(id: byte, slot: nat, generation: nat, m: Mode, outbound: bool, ghost time: u64)
      requires Valid() && Inv(State()) && ifs.Endpoint? && slot == ifs.SlotFor(id) < SLOTS
      modifies this`ifs, tables.repr, outbox, outbox.ring, outbox.ring.slots
      ensures Valid() && Inv(State()) && Step(old(State()), State(), time) && ifs.Endpoint?
      ensures Retires(old(State()), State(), id, generation, m, outbound)
    {
      hide TableSet.Valid, TableSet.Value, Follows, Inv, Interfaces.WellFormed, Paired, Witnessed, Logs, Avoids, LiveIn,
        RowsRetired, Muted, NodeRegistry.Forgotten, Interfaces.Slot;
      ghost var v := State();
      Still(v, time);
      var previous := ifs.FactsAt(slot);
      SlotsStay(ifs, id);
      if previous.occupied && previous.mode != m {
        RetireReplaced(id, time);
      } else if previous.occupied && (previous.generation != generation || !outbound) {
        RetireTarget(id, time);
        if id < 7 {
          RetiredNowhere(v.box.queue, State().box.queue, id);
        }
      }
    }

    /** `update_interface`: a reconnect retires queued permission, a change of mode the interface. */
    method UpdateInterface(id: byte, generation: nat, m: Mode, bitrate: nat, outbound: bool, client: bool,
                           ghost time: u64)
        returns (ok: bool)
      requires Valid() && Inv(State()) && ifs.Endpoint?
      modifies this`ifs, tables.repr, outbox, outbox.ring, outbox.ring.slots
      ensures Valid() && Inv(State()) && Step(old(State()), State(), time) && ifs.Endpoint?
      ensures ok <==> old(ifs).SlotFor(id) < SLOTS
      ensures !ok ==> State() == old(State())
      ensures ok ==> Refits(old(State()), State(), id, generation, m, bitrate, outbound, client)
    {
      hide TableSet.Valid, TableSet.Value, Follows, Inv, Interfaces.WellFormed, Paired, Witnessed, Logs, Avoids, LiveIn,
        Retires, Refits, Interfaces.Slot, Interfaces.FactsAt, Interfaces.WithFacts;
      ghost var v := State();
      Still(v, time);
      var slot := ifs.SlotFor(id);
      if slot == SLOTS { return false; }
      RetireChanged(id, slot, generation, m, outbound, time);
      ghost var w := State();
      var budget := if ifs.FactsAt(slot).occupied then ifs.FactsAt(slot).clearMtu else ProfileMtu(tag);
      ifs := ifs.WithFacts(slot, Facts(true, outbound && generation != 0, true, client, id, generation, m, bitrate,
        budget));
      EndpointObserved(w, State(), time);
      FollowsTransitive(v, w, State(), time);
      PairedElsewhere(v, w, State(), time);
      Refitted(v, w, State(), id, generation, m, bitrate, outbound, client);
      ok := true;
    }

    /** `update_interface_packet_capacity`: links over an interface do not survive a change of its budget. */
    method UpdateCapacity(id: byte, generation: nat, budget: nat, ghost time: u64) returns (ok: bool)
      requires Valid() && Inv(State()) && ifs.Endpoint?
      modifies this`ifs, tables.repr, outbox, outbox.ring, outbox.ring.slots
      ensures Valid() && Inv(State()) && Step(old(State()), State(), time) && ifs.Endpoint?
      ensures Rebudgets(old(State()), State(), id, generation, Min(budget, MTU), ok)
    {
      hide TableSet.Valid, TableSet.Value, Follows, Inv, Interfaces.Slot, Interfaces.WellFormed, LiveIn, Purged,
        Without, Paired, Witnessed, Logs;
      ghost var v := State();
      Still(v, time);
      var slot := ifs.Slot(id);
      if slot >= SLOTS || generation == 0 || ifs.FactsAt(slot).generation != generation { return false; }
      var f := ifs.FactsAt(slot);
      if f.clearMtu != Min(budget, MTU) {
        tables.FilterLinks(ViaLink(id));
        ghost var w := State();
        UnlinkedStep(v, w, ViaLink(id), time);
        ifs := ifs.WithFacts(slot, f.(clearMtu := Min(budget, MTU)));
        ghost var x := State();
        EndpointObserved(w, x, time);
        FollowsTransitive(v, w, x, time);
        ExpireOutbound(clock);
        PurgeStepKeeps(x, State(), LiveIn(x, clock), time);
        FollowsTransitive(v, x, State(), time);
        QuietStep(v, State(), time);
      }
      ok := true;
    }

    // --- Retained fan-out -----------------------------------------------------------------------

    /**
     `retained_outbound_select`: what is offered is live now, bound, and owed only to interfaces registered
     as when it was bound.
     */
    method Select(after: u64, blocked: set<nat>, current: seq<nat>, ghost time: u64) returns (r: Option<Queued>)
      requires Valid() && Inv(State()) && ifs.Endpoint? && |current| == FANOUT
      modifies this`retained, outbox, outbox.ring, outbox.ring.slots
      ensures Valid() && Inv(State()) && Step(old(State()), State(), time)
      ensures State() == old(State()).(box := State().box)
      ensures SelectsLive(old(State()), State().box, current, after, blocked, r)
      ensures forall q :: q in State().box.queue ==> Matches(q, current) && q.delivery.pending != {}
      ensures r.Some? ==> r.value in State().box.queue && Offered(r.value, after, blocked)
      ensures r.None? ==> forall q :: q in State().box.queue ==> !Offered(q, after, blocked)
    {
      hide TableSet.Valid, TableSet.Value, Follows, Inv, LiveIn, Purged, Interfaces.WellFormed, Matches, Offered,
        Rebound, Paired, Witnessed, Logs;
      ghost var v := State();
      retained := true;
      ExpireOutbound(clock);
      ghost var w := State();
      PurgeStepKeeps(v, w, LiveIn(v, clock), time);
      AllFanoutIn(w);
      r := outbox.Select(after, blocked, current);
      SelectedStep(w, State(), current, after, blocked, r, time);
      FollowsTransitive(v, w, State(), time);
      QuietStep(v, State(), time);
    }

    /** `retained_outbound_ack`. */
    method Acknowledge(identity: u64, completed: set<nat>, ghost time: u64) returns (ok: bool)
      requires Valid() && Inv(State()) && ifs.Endpoint?
      modifies outbox, outbox.ring, outbox.ring.slots
      ensures Valid() && Inv(State()) && Step(old(State()), State(), time)
      ensures State() == old(State()).(box := State().box)
      ensures if retained then Acknowledges(old(State()).box, State().box, identity, completed, ok)
              else !ok && State().box == old(State()).box
    {
      hide TableSet.Valid, TableSet.Value, Follows, Inv, Interfaces.WellFormed, AcknowledgesAt, Paired, Witnessed, Logs;
      ghost var v := State();
      Still(v, time);
      if !retained { return false; }
      ok := outbox.Acknowledge(identity, completed);
      AcknowledgedStep(v, State(), identity, completed, ok, time);
      QuietStep(v, State(), time);
    }

    /** `retained_outbound_take`. */
    method TakeRow(identity: u64, ghost time: u64) returns (ok: bool, ghost k: nat)
      requires Valid() && Inv(State()) && ifs.Endpoint?
      modifies outbox, outbox.ring, outbox.ring.slots
      ensures Valid() && Inv(State()) && Step(old(State()), State(), time)
      ensures State() == old(State()).(box := State().box)
      ensures ok <==> retained && identity != 0 && exists q :: q in old(State()).box.queue && q.identity == identity
      ensures if ok then Leaves(old(State()).box, State().box, k, false)
        && old(State()).box.queue[k].identity == identity
              else State().box == old(State()).box
    {
      hide TableSet.Valid, TableSet.Value, Follows, Inv, Interfaces.WellFormed, Paired, Witnessed, Logs;
      ghost var v := State();
      Still(v, time);
      ok, k := false, 0;
      if !retained { return; }
      ok, k := outbox.Take(identity);
      if ok {
        assert v.box.queue[k] in v.box.queue;
        HandedStep(v, State(), k, time);
        QuietStep(v, State(), time);
      }
    }
  }
}
