/**
 Send before record, over every frame a node takes in: a frame it queues names the entry recorded in
 the same step, an entry is recorded only with such a frame, and a step that queues nothing leaves the
 live entries as they were.
 */
module Pairing {
  import opened Base
  import opened Rows
  import opened Generations
  import opened RowTables
  import opened Wire
  import opened Paths
  import opened Announces
  import opened Interfaces
  import opened Discovery
  import opened Rebroadcast
  import opened NodeState
  import opened Outbound
  import opened Tables
  import opened NodeInvariants
  import opened NodeSteps
  import opened NodeEffects
  import opened Decisions
  import opened Ticking

  // --- Frames that name no entry ----------------------------------------------------------------

  /** Rows queued after `base` that name an entry made for them, or are rebroadcasts. */
  function Ties(base: u64): Queued -> bool {
    (q: Queued) => q.identity > base && (!Untied(q) || q.reason.Gated())
  }

  lemma NoTies(v: View, c: Box)
    requires Inv(v) && Count(c.queue, Ties(v.box.identity)) <= Count(v.box.queue, Ties(v.box.identity))
    ensures Loose(v.box, c) && Gateless(v.box, c)
  {
    hide TabsOk, Evidenced, Thrifty, Paced, AllSealed, Numbered, Conserved, Isolated, FanoutShape, Count, Untied,
      Interfaces.WellFormed;
    CountSome(v.box.queue, Ties(v.box.identity));
    CountSome(c.queue, Ties(v.box.identity));
    forall q | q in c.queue && q.identity > v.box.identity ensures Untied(q) && !q.reason.Gated() {
      var k :| 0 <= k < |c.queue| && c.queue[k] == q;
      assert !Ties(v.box.identity)(c.queue[k]);
    }
  }

  /** Frames of a kind that never name an entry made for them. */
  predicate Plainly(packet: Packet, reason: Reason) {
    && !reason.Gated() && !packet.header.flags.packetType.LinkRequest?
    && (packet.header.flags.packetType.Data? ==>
          !(packet.header.flags.destinationType.Single? && reason.TransportForward?))
  }

  lemma OfferTies(v: View, b: Box, c: Box, id: byte, packet: Packet, reason: Reason, base: u64)
    requires v.ifs.WellFormed() && Offers(v, b, c, id, packet, reason) && Plainly(packet, reason)
    ensures Count(c.queue, Ties(base)) <= Count(b.queue, Ties(base))
  {
    hide Given, Enqueues, Accepts, Count, Interfaces.WellFormed, DeliveryFor;
    var ok := Accepts(v.(box := b), id, packet, reason);
    var lt :| Given(v, packet, reason, lt) && Enqueues(b, c, v.ifs, v.depth, id, packet, reason, lt, ok);
    GivenUntied(v, packet, reason, lt);
    CountEnqueue(b, c, v.ifs, v.depth, id, packet, reason, lt, ok, Ties(base));
  }

  lemma {:induction false} AnsweredTies(v: View, boxes: seq<Box>, targets: seq<Option<byte>>, packet: Packet,
                                        reason: Reason, base: u64)
    requires v.ifs.WellFormed() && Answered(v, boxes, targets, packet, reason) && Plainly(packet, reason)
    ensures Count(boxes[|targets|].queue, Ties(base)) <= Count(v.box.queue, Ties(base))
    decreases |targets|
  {
    hide Offers, Count, Interfaces.WellFormed, Plainly, Ties;
    if targets != [] {
      var n := |targets| - 1;
      AnsweredTies(v, boxes[..n + 1], targets[..n], packet, reason, base);
      if targets[n].Some? {
        OfferTies(v, boxes[n], boxes[n + 1], targets[n].value, packet, reason, base);
      }
    }
  }

  lemma {:induction false} BroadcastTies(v: View, boxes: seq<Box>, source: byte, targets: seq<Option<byte>>,
                                         packet: Packet, reason: Reason, lt: Lifetime, base: u64)
    requires v.ifs.WellFormed() && Broadcasts(v, boxes, source, targets, packet, reason, lt)
    requires !lt.state.ReverseOf? && !packet.header.flags.packetType.LinkRequest? && !reason.Gated()
    ensures Count(boxes[|targets|].queue, Ties(base)) <= Count(v.box.queue, Ties(base))
    decreases |targets|
  {
    hide Enqueues, Takes, Count, Interfaces.WellFormed, DeliveryFor;
    if targets != [] {
      var n := |targets| - 1;
      BroadcastTies(v, boxes[..n + 1], source, targets[..n], packet, reason, lt, base);
      if targets[n].Some? {
        CountEnqueue(boxes[n], boxes[n + 1], v.ifs, v.depth, targets[n].value, packet, reason, lt,
                     Takes(v.(box := boxes[n]), source, targets[n].value, packet, reason), Ties(base));
      }
    }
  }

  lemma SettledLoose(v: View, c: Box, owner: Option<Row<Requesters>>, boxes: seq<Box>, p: Packet, hops: byte, id: byte,
                     base: u64)
    requires v.ifs.WellFormed() && Settles(v, c, owner, boxes, p, hops, id)
    ensures Count(c.queue, Ties(base)) <= Count(v.box.queue, Ties(base))
  {
    hide Count, Interfaces.WellFormed, Ties, Answered, Askers;
    if owner.Some? {
      var response := Reframe(p, p.header.destination, hops, v.own.transport, CONTEXT_PATH_RESPONSE);
      if response.Some? {
        AskersLength(v.ifs, owner.value.body, id);
        AnsweredTies(v, boxes, Askers(v.ifs, owner.value.body, id), response.value, PathResponse, base);
      }
    }
  }

  lemma AskersLength(ifs: Interfaces, requesters: Requesters, id: byte)
    requires ifs.WellFormed()
    ensures |Askers(ifs, requesters, id)| == SLOTS
  {
  }

  lemma CalledLoose(v: View, w: View, source: byte, localOnly: bool, packet: Packet, reason: Reason)
    requires Inv(v) && v.ifs.Router? && CallsOut(v, w.box, source, localOnly, packet, reason) && Plainly(packet, reason)
    ensures Loose(v.box, w.box) && Gateless(v.box, w.box)
  {
    hide Inv, Broadcasts, Count, Loose, Gateless, Listeners, Given, Ties;
    assert v.ifs.WellFormed() by { WellFormedIn(v); }
    var lt, boxes :|
      && Broadcasts(v, boxes, source, Listeners(v.ifs, localOnly), packet, reason, lt)
      && Gated(v, packet, reason, lt) && |boxes| == SLOTS + 1 && w.box == boxes[SLOTS];
    var e: u64 :| Given(v, packet, reason, lt.(expires := e));
    GivenUntied(v, packet, reason, lt.(expires := e));
    ListenersLength(v.ifs, localOnly);
    BroadcastTies(v, boxes, source, Listeners(v.ifs, localOnly), packet, reason, lt, v.box.identity);
    NoTies(v, w.box);
  }

  lemma ListenersLength(ifs: Interfaces, localOnly: bool)
    requires ifs.WellFormed() && ifs.Router?
    ensures |Listeners(ifs, localOnly)| == SLOTS
  {
  }

  lemma SoughtLoose(v: View, w: View, request: Packet, id: byte, identity: u64, now: u64)
    requires Inv(v) && Seeks(v, w.box, request, id, identity, now) && !request.header.flags.packetType.LinkRequest?
    ensures Loose(v.box, w.box) && Gateless(v.box, w.box)
  {
    hide Inv, Broadcasts, Count, Loose, Gateless, Listeners, Ties, Enqueues, Accepts;
    assert v.ifs.WellFormed() by { WellFormedIn(v); }
    var lt := SearchLifetime(v.ifs, id, identity, now);
    if v.ifs.Endpoint? {
      LooseOffer(v, w, id, request, PathRequestForward, lt, Accepts(v, id, request, PathRequestForward));
      GatelessOffer(v, w, id, request, PathRequestForward, lt, Accepts(v, id, request, PathRequestForward));
    } else {
      var boxes :| |boxes| == SLOTS + 1 && w.box == boxes[SLOTS]
        && Broadcasts(v, boxes, id, Listeners(v.ifs, false), request, PathRequestForward, lt);
      ListenersLength(v.ifs, false);
      BroadcastTies(v, boxes, id, Listeners(v.ifs, false), request, PathRequestForward, lt, v.box.identity);
      NoTies(v, w.box);
    }
  }

  lemma LookedLoose(v: View, w: View, wanted: Hash, request: Packet, id: byte, m: Mode, capacity: nat, now: u64)
    requires Inv(v) && Looks(v, w, wanted, request, id, m, capacity, now) && request.header.flags.packetType.Data?
    ensures Loose(v.box, w.box) && Gateless(v.box, w.box)
  {
    hide Inv, CallsOut, Seeks, Loose, Gateless, Begins, DiscoveryTimeout, Searchable;
    assert v.ifs.WellFormed() by { WellFormedIn(v); }
    assert Loose(v.box, v.box) && Gateless(v.box, v.box) by { SameQueueLoose(v, v); }
    if v.ifs.Router? && v.ifs.IsLocalClient(id) {
      CalledLoose(v, w, id, false, request, PathRequestForward);
    } else if v.enabled && Discovers(m) {
      if Searchable(v.ifs, id) {
        var begun :|
          && Begins(v.tabs.disc, v.tabs.lastDisc, capacity, wanted, v.ifs.Slot(id), now,
                    DiscoveryTimeout(v.ifs.Slowest(id, 0)), w.tabs.disc, w.tabs.lastDisc, begun)
          && (if begun.New? then Seeks(v, w.box, request, id, begun.identity, now) else w.box == v.box);
        if begun.New? {
          SoughtLoose(v, w, request, id, begun.identity, now);
        }
      }
    } else if v.ifs.Router? {
      CalledLoose(v, w, id, true, request, PathRequestForward);
    }
  }

  // --- Frames that name one ---------------------------------------------------------------------

  /** One frame queued is the only new row. */
  lemma NewRow(v: View, w: View, id: byte, packet: Packet, reason: Reason, lt: Lifetime)
    requires Inv(v) && Enqueues(v.box, w.box, v.ifs, v.depth, id, packet, reason, lt, true)
    ensures var row := Queued(w.box.identity, id, packet, reason, lt, DeliveryFor(v.ifs, id));
      && (forall q :: q in w.box.queue && q.identity > v.box.identity ==> q == row)
      && (v.box.capacity > 0 ==> row in w.box.queue) && w.box.identity == v.box.identity + 1
  {
    hide TabsOk, Evidenced, Thrifty, Paced, AllSealed, Numbered, Conserved, Isolated, FanoutShape, Displaced,
      DeliveryFor, Interfaces.WellFormed;
  }

  lemma RelayPaired(v: View, w: View, p: Packet, hops: byte, id: byte, g: u64, lt: Lifetime, capacity: nat, now: u64)
    requires Inv(v) && RelaysData(v, w, p, hops, id, g, lt, capacity, now)
    ensures Paired(v, w) && Gateless(v.box, w.box) && w.box.identity == v.box.identity + 1
  {
    hide Inv, Enqueues, Touches, Inserts, Given, ForwardAlong, Interfaces.WellFormed, DeliveryFor;
    var path := v.tabs.paths[g].body;
    var sent := ForwardAlong(p, hops, path).packet;
    NewRow(v, w, path.interface, sent, TransportForward, lt);
    var entry := Row(v.env.proofHash(CoreOf(p.header, p.payload)), SatAdd(now, REVERSE_TIMEOUT_MS),
      ReverseBody(id, path.interface));
    InsertedGeneration(v.tabs.reverse, v.tabs.lastReverse, capacity, entry, now, w.tabs.reverse, w.tabs.lastReverse);
    var row := Queued(w.box.identity, path.interface, sent, TransportForward, lt, DeliveryFor(v.ifs, path.interface));
    assert TiedReverse(v, w, row);
  }

  lemma RequestPaired(v: View, w: View, p: Packet, hops: byte, id: byte, g: u64, sent: Packet, lt: Lifetime,
                      row: Row<LinkBody>, now: u64)
    requires Inv(v) && OpensLink(v, w, p, hops, id, g, sent, lt, row, now) && p.header.flags.packetType.LinkRequest?
    ensures Paired(v, w) && Gateless(v.box, w.box) && w.box.identity == v.box.identity + 1
  {
    hide Inv, Enqueues, Touches, RequestAlong, Interfaces.WellFormed, DeliveryFor, LinkDeadline;
    NewRow(v, w, row.body.outbound, sent, TransportForward, lt);
    RequestKind(p, hops, v.tabs.paths[g].body);
    var q := Queued(w.box.identity, row.body.outbound, sent, TransportForward, lt,
      DeliveryFor(v.ifs, row.body.outbound));
    assert TiedLink(v, w, q);
  }

  lemma RequestKind(p: Packet, hops: byte, path: PathBody)
    ensures var r := RequestAlong(p, hops, path);
      r.Some? ==> r.value.header.flags.packetType == p.header.flags.packetType
  {
  }

  /** Anything else queued with one frame: it names no entry made for it. */
  lemma OneLoose(v: View, w: View, id: byte, packet: Packet, reason: Reason, lt: Lifetime)
    requires Inv(v) && Enqueues(v.box, w.box, v.ifs, v.depth, id, packet, reason, lt, true)
    requires !lt.state.ReverseOf? && !packet.header.flags.packetType.LinkRequest?
    requires w.tabs.lastReverse == v.tabs.lastReverse && w.tabs.lastLink == v.tabs.lastLink && !reason.Gated()
    ensures Paired(v, w) && Gateless(v.box, w.box) && w.box.identity == v.box.identity + 1
  {
    hide Inv, Enqueues, Loose, Gateless, Paired, Interfaces.WellFormed;
    WellFormedIn(v);
    LooseOffer(v, w, id, packet, reason, lt, true);
    GatelessOffer(v, w, id, packet, reason, lt, true);
    IdentityTaken(v.box, w.box, v.ifs, v.depth, id, packet, reason, lt, true);
    LoosePaired(v, w);
  }

  // --- Whole frames -----------------------------------------------------------------------------

  /** Live reverse entries, links and, unless the frame is an announce, routes are as they were. */
  ghost predicate EntriesStay(v: View, w: View, p: Packet, now: u64) {
    && LiveAt(w.tabs.reverse, now) == LiveAt(v.tabs.reverse, now) && w.tabs.lastReverse == v.tabs.lastReverse
    && LiveAt(w.tabs.links, now) == LiveAt(v.tabs.links, now) && w.tabs.lastLink == v.tabs.lastLink
    && (!p.header.flags.packetType.Announce? ==> LiveAt(w.tabs.paths, now) == LiveAt(v.tabs.paths, now))
  }

  /** The last frame logged attests every link that is validated and was not. */
  ghost predicate Vouched(v: View, w: View) {
    forall g :: Validated(v, w, g) ==>
      v.history != [] && Attests(v.env, v.history[|v.history| - 1], w.tabs.links[g])
  }

  lemma SteadyVouched(v: View, w: View)
    requires Submap(v.tabs.links, w.tabs.links)
    ensures Vouched(v, w)
  {
    hide Attests;
  }

  /** What each frame does pairs its frames and entries, and without a frame leaves the live entries alone. */
  ghost predicate Sound(v: View, w: View, p: Packet, now: u64) {
    && Paired(v, w) && Vouched(v, w) && Gateless(v.box, w.box)
    && (w.box.identity == v.box.identity ==> EntriesStay(v, w, p, now))
  }

  lemma StillGateless(v: View, w: View)
    requires Inv(w) && w.box.identity == v.box.identity
    ensures Gateless(v.box, w.box)
  {
    hide Inv;
    WithinBox(w);
  }

  lemma NoTraceSound(v: View, w: View, p: Packet, now: u64)
    requires Inv(w) && LeavesNoTrace(v, w, now)
    ensures Sound(v, w, p, now)
  {
    hide Inv, Paired, Vouched, Gateless;
    QuietPaired(v, w);
    SteadyVouched(v, w);
    StillGateless(v, w);
  }

  lemma TrafficSound(v: View, w: View, p: Packet, hops: byte, id: byte, reason: Reason, c: Capacities, now: u64)
    requires Inv(v) && Inv(w) && CarriesTraffic(v, w, p, hops, id, reason, c, now)
    requires !p.header.flags.packetType.LinkRequest?
    requires !reason.Gated()
    ensures Sound(v, w, p, now)
  {
    hide Inv, Carries, CarriesOn, Notes, Tracked, LeavesNoTrace, Sound, Interfaces.WellFormed;
    assert v.ifs.WellFormed() by { WellFormedIn(v); }
    if exists h :: Carries(v, p, hops, id, reason, h, now) {
      var lt, g :| CarriesOn(v, w, p, hops, id, reason, lt, g, now);
      CarriedSound(v, w, p, hops, id, reason, lt, g, now);
    } else {
      NoTraceSound(v, w, p, now);
    }
  }

  lemma CarriedSound(v: View, w: View, p: Packet, hops: byte, id: byte, reason: Reason, lt: Lifetime, g: u64, now: u64)
    requires Inv(v) && CarriesOn(v, w, p, hops, id, reason, lt, g, now) && !p.header.flags.packetType.LinkRequest?
    requires !reason.Gated()
    ensures Sound(v, w, p, now)
  {
    hide Inv, Enqueues, Paired, Interfaces.WellFormed, LinkWay, EntriesStay, Attests, Gateless;
    OneLoose(v, w, LinkWay(v.tabs.links[g].body, hops, id).target, p.(header := p.header.(hops := hops)), reason, lt);
  }

  lemma ValidatedSound(v: View, w: View, p: Packet, hops: byte, id: byte, lt: Lifetime, g: u64, now: u64)
    requires Inv(v) && ValidatesLink(v, w, p, hops, id, lt, g, now) && !p.header.flags.packetType.LinkRequest?
    requires v.history != [] && v.history[|v.history| - 1] == Ingested(p, id, hops, now)
    ensures Sound(v, w, p, now)
  {
    hide Inv, Enqueues, Paired, Interfaces.WellFormed, Attests, EntriesStay, Gateless;
    OneLoose(v, w, v.tabs.links[g].body.receiving, p.(header := p.header.(hops := hops)), ProofReturn, lt);
    assert Attests(v.env, Ingested(p, id, hops, now), w.tabs.links[g]) by {
      SameAttestation(v.env, Ingested(p, id, hops, now), v.tabs.links[g], w.tabs.links[g]);
    }
    forall h | Validated(v, w, h) ensures h == g {
      assert h != g ==> h in w.tabs.links - {g};
    }
  }

  lemma ReturnedSound(v: View, w: View, p: Packet, hops: byte, id: byte, lt: Lifetime, g: u64, now: u64)
    requires Inv(v) && ReturnsProof(v, w, p, hops, id, lt, g, now) && p.header.flags.packetType.Proof?
    ensures Sound(v, w, p, now)
  {
    hide Inv, Enqueues, Paired, Interfaces.WellFormed, Given, EntriesStay, WayBack, Vouched, Gateless;
    SteadyVouched(v, w);
    var e: u64 :| Given(v, Passed(p, hops), ProofReturn, lt.(expires := e));
    GivenUntied(v, Passed(p, hops), ProofReturn, lt.(expires := e));
    assert g in v.tabs.reverse by { WayParts(v, p.header.destination, id, g, now); }
    OneLoose(v, w, v.tabs.reverse[g].body.receiving, Passed(p, hops), ProofReturn, lt);
  }

  lemma ProvesSound(v: View, w: View, p: Packet, hops: byte, id: byte, c: Capacities, r: Action, now: u64)
    requires Inv(v) && Inv(w) && Proves(v, w, p, hops, id, c, r, now) && p.header.flags.packetType.Proof?
    requires v.history != [] && v.history[|v.history| - 1] == Ingested(p, id, hops, now)
    ensures Sound(v, w, p, now)
  {
    hide Inv, Validates, ValidatesLink, Claims, CarriesTraffic, Returns, ReturnsProof, LeavesNoTrace, Sound,
      Interfaces.WellFormed;
    assert v.ifs.WellFormed() by { WellFormedIn(v); }
    if p.header.context == CONTEXT_LRPROOF {
      if r == ForwardedProof {
        var lt, g :| ValidatesLink(v, w, p, hops, id, lt, g, now);
        ValidatedSound(v, w, p, hops, id, lt, g, now);
      } else {
        NoTraceSound(v, w, p, now);
      }
    } else if exists h :: Claims(v, p, hops, id, h, now) {
      TrafficSound(v, w, p, hops, id, ProofReturn, c, now);
    } else if r == ForwardedProof {
      var lt, g :| ReturnsProof(v, w, p, hops, id, lt, g, now);
      ReturnedSound(v, w, p, hops, id, lt, g, now);
    } else {
      NoTraceSound(v, w, p, now);
    }
  }

  /** Path requests and plain broadcasts touch none of the entries. */
  lemma LooseSound(v: View, w: View, p: Packet, now: u64)
    requires Loose(v.box, w.box) && Gateless(v.box, w.box)
    requires w.tabs == v.tabs.(disc := w.tabs.disc, lastDisc := w.tabs.lastDisc)
    ensures Sound(v, w, p, now)
  {
    hide Loose, Gateless, Paired, Vouched;
    LoosePaired(v, w);
    SteadyVouched(v, w);
  }

  lemma AskedSound(v: View, w: View, p: Packet, hops: byte, id: byte, m: Mode, c: Capacities, r: Action, now: u64)
    requires Inv(v) && Inv(w) && Conveys(v, w, p, hops, id, m, c, r, now)
    requires !(exists h :: Claims(v, p, hops, id, h, now)) && p.header.destination == v.env.pathRequest
    ensures Sound(v, w, p, now)
  {
    hide Inv, Claims, Withheld, Looks, Answers, CallsOut, RelaysData, Relays, CarriesTraffic, LeavesNoTrace, Sound,
      Loose, Gateless, Wanted, Requestor, Interfaces.WellFormed;
    assert v.ifs.WellFormed() by { WellFormedIn(v); }
    assert Loose(v.box, w.box) && Gateless(v.box, w.box) by {
      if r == AnsweredPathRequest {
        var g :| Answers(v, w, Wanted(p.payload), id, g, now);
        AnswerLoose(v, w, Wanted(p.payload), id, g, now);
      } else if r == ForwardedPathRequest {
        LookedLoose(v, w, Wanted(p.payload), RequestFor(v, p.payload), id, m, c.links, now);
      } else {
        SameQueueLoose(v, w);
      }
    }
    LooseSound(v, w, p, now);
  }

  lemma SameQueueLoose(v: View, w: View)
    requires Inv(v) && w.box.queue == v.box.queue
    ensures Loose(v.box, w.box) && Gateless(v.box, w.box)
  {
    hide TabsOk, Evidenced, Thrifty, Paced, AllSealed, Numbered, Conserved, Isolated, FanoutShape, Untied,
      Interfaces.WellFormed;
  }

  lemma AnswerLoose(v: View, w: View, wanted: Hash, id: byte, g: u64, now: u64)
    requires Inv(v) && Answers(v, w, wanted, id, g, now)
    ensures Loose(v.box, w.box) && Gateless(v.box, w.box)
  {
    hide Inv, Offers, Loose, Gateless, HashOf;
    LooseOffers(v, w, id, Response(v, wanted).value, PathResponse);
    GatelessOffers(v, w, id, Response(v, wanted).value, PathResponse);
  }

  lemma ConveysSound(v: View, w: View, p: Packet, hops: byte, id: byte, m: Mode, c: Capacities, r: Action, now: u64)
    requires Inv(v) && Inv(w) && Conveys(v, w, p, hops, id, m, c, r, now) && p.header.flags.packetType.Data?
    ensures Sound(v, w, p, now)
  {
    hide Inv, Claims, Withheld, Looks, Answers, CallsOut, RelaysData, Relays, CarriesTraffic, LeavesNoTrace, Sound,
      Loose, Gateless, Wanted, Requestor, Interfaces.WellFormed;
    assert v.ifs.WellFormed() by { WellFormedIn(v); }
    if exists h :: Claims(v, p, hops, id, h, now) {
      TrafficSound(v, w, p, hops, id, TransportForward, c, now);
    } else if p.header.destination == v.env.pathRequest {
      AskedSound(v, w, p, hops, id, m, c, r, now);
    } else if p.header.flags.destinationType.Plain? && p.header.flags.transportType.Broadcast? {
      if v.ifs.Router? {
        CalledLoose(v, w, id, !v.ifs.IsLocalClient(id), Passed(p, hops), TransportForward);
      } else {
        SameQueueLoose(v, w);
      }
      LooseSound(v, w, p, now);
    } else if r == Forwarded {
      var lt, g :| RelaysData(v, w, p, hops, id, g, lt, c.reverse, now);
      assert Sound(v, w, p, now) by { RelaySound(v, w, p, hops, id, g, lt, c.reverse, now); }
    } else {
      NoTraceSound(v, w, p, now);
    }
  }

  lemma RelaySound(v: View, w: View, p: Packet, hops: byte, id: byte, g: u64, lt: Lifetime, capacity: nat, now: u64)
    requires Inv(v) && RelaysData(v, w, p, hops, id, g, lt, capacity, now)
    ensures Sound(v, w, p, now)
  {
    hide Inv, Routable, ForwardAlong, Enqueues, Given, Touches, Inserts, Paired, EntriesStay, Vouched, Gateless;
    RelayPaired(v, w, p, hops, id, g, lt, capacity, now);
    SteadyVouched(v, w);
  }

  /** A link starts out pending. */
  lemma PendingVouched(v: View, w: View, p: Packet, hops: byte, id: byte, g: u64, sent: Packet, lt: Lifetime,
                       row: Row<LinkBody>, now: u64)
    requires OpensLink(v, w, p, hops, id, g, sent, lt, row, now)
    ensures Vouched(v, w)
  {
    hide Attests, Enqueues, Touches, RequestAlong, Interfaces.WellFormed;
  }

  lemma RequestsSound(v: View, w: View, p: Packet, hops: byte, id: byte, c: Capacities, r: Action, now: u64)
    requires Inv(v) && Inv(w) && Requests(v, w, p, hops, id, c, r, now) && p.header.flags.packetType.LinkRequest?
    ensures Sound(v, w, p, now)
  {
    hide Inv, Links, OpensLink, LeavesNoTrace, Interfaces.WellFormed, Paired, EntriesStay, Vouched, Gateless;
    assert v.ifs.WellFormed() by { WellFormedIn(v); }
    if r == Forwarded {
      var g, sent, lt, row :| OpensLink(v, w, p, hops, id, g, sent, lt, row, now);
      RequestPaired(v, w, p, hops, id, g, sent, lt, row, now);
      PendingVouched(v, w, p, hops, id, g, sent, lt, row, now);
    } else {
      NoTraceSound(v, w, p, now);
    }
  }

  lemma HeedsSound(v: View, w: View, p: Packet, hops: byte, id: byte, m: Mode, admitted: bool, stored: Option<Hash>,
                   row: PathRow, known: Option<Hash>, heard: Schedule, c: Capacities, r: Action, now: u64)
    requires Inv(v) && Heeds(v, w, p, hops, id, m, admitted, stored, row, known, heard, c, r, now)
    requires p.header.flags.packetType.Announce?
    ensures Sound(v, w, p, now)
  {
    hide Inv, Hears, Heeded, RouteFrom, BulkHere, RebroadcastOf, KeyKnown, LearnsRoute, IgnoresAnnounce, Schedules,
      Interfaces.WellFormed, Loose, Gateless, Paired, Settles, Count, Ties, Vouched;
    assert v.ifs.WellFormed() by { WellFormedIn(v); }
    if Heeded(v.env, v.own.local, p, hops, admitted, if stored.Some? then stored else known).None?
      || r == AnnounceIgnored {
      SameQueueLoose(v, w);
    } else {
      var x := v.(tabs := w.tabs.(disc := v.tabs.disc, schedule := heard));
      var owner, boxes :| Settles(x, w.box, owner, boxes, p, hops, id);
      SettledLoose(x, w.box, owner, boxes, p, hops, id, v.box.identity);
      NoTies(v, w.box);
    }
    LoosePaired(v, w);
    SteadyVouched(v, w);
  }

  lemma DealsSound(v: View, w: View, p: Packet, hops: byte, id: byte, m: Mode, admitted: bool, stored: Option<Hash>,
                   c: Capacities, r: Action, now: u64)
    requires Inv(v) && Inv(w) && Deals(v, w, p, hops, id, m, admitted, stored, c, r, now)
    requires v.history != [] && v.history[|v.history| - 1] == Ingested(p, id, hops, now)
    ensures Sound(v, w, p, now)
  {
    hide Inv, Heeds, Requests, Conveys, Proves, Sound, Interfaces.WellFormed;
    assert v.ifs.WellFormed() by { WellFormedIn(v); }
    match p.header.flags.packetType {
      case Announce =>
        var row, known, heard :| Heeds(v, w, p, hops, id, m, admitted, stored, row, known, heard, c, r, now);
        HeedsSound(v, w, p, hops, id, m, admitted, stored, row, known, heard, c, r, now);
      case LinkRequest => RequestsSound(v, w, p, hops, id, c, r, now);
      case Data => ConveysSound(v, w, p, hops, id, m, c, r, now);
      case Proof => ProvesSound(v, w, p, hops, id, c, r, now);
    }
  }

  // --- Every frame taken in ---------------------------------------------------------------------

  /** What a step is paired against: identities and incarnations given out, and the queue's capacity. */
  predicate SameCounters(v: View, w: View) {
    && w.box.identity == v.box.identity && w.box.capacity == v.box.capacity
    && w.tabs.lastReverse == v.tabs.lastReverse && w.tabs.lastLink == v.tabs.lastLink
  }

  lemma PairedFrom(v: View, y: View, w: View)
    requires Paired(y, w) && SameCounters(v, y)
    ensures Paired(v, w)
  {
    hide Untied;
    forall q | q in w.box.queue && q.identity > v.box.identity
      ensures Untied(q) || TiedReverse(v, w, q) || TiedLink(v, w, q)
    {
      assert Untied(q) || TiedReverse(y, w, q) || TiedLink(y, w, q);
    }
    if w.tabs.lastReverse != v.tabs.lastReverse && v.box.capacity > 0 {
      var q :| q in w.box.queue && TiedReverse(y, w, q);
      assert TiedReverse(v, w, q);
    }
    if w.tabs.lastLink != v.tabs.lastLink && v.box.capacity > 0 {
      var q :| q in w.box.queue && TiedLink(y, w, q);
      assert TiedLink(v, w, q);
    }
  }

  lemma PreparedSame(v: View, w: View, id: byte, m: Mode, now: u64)
    requires v.ifs.WellFormed() && Prepares(v, w, id, m, now)
    ensures SameCounters(v, w) && w.tabs == v.tabs.(disc := w.tabs.disc)
    ensures w.env == v.env && w.history == v.history && w.own == v.own && w.aired == v.aired
    ensures v.ifs.Router? ==> w.ifs == v.ifs
  {
    hide LiveIn, Interfaces.Observe;
  }

  lemma WitnessedFrom(v: View, y: View, w: View, now: u64)
    requires Vouched(y, w) && y.tabs.links == v.tabs.links && y.env == v.env && w.history == y.history
    requires |y.history| == |v.history| + 1 && v.history <= y.history && y.history[|v.history|].time == now
    requires y.history[|v.history|].packet.header.WellFormed()
    ensures Witnessed(v, w, now)
  {
    hide Attests;
    assert forall g :: Validated(v, w, g) ==> Validated(y, w, g);
  }

  lemma LogsFrom(v: View, y: View, w: View, now: u64)
    requires Inv(v) && Gateless(y.box, w.box) && y.box.identity == v.box.identity && w.aired == v.aired
    ensures Logs(v, w, now)
  {
    hide Inv, LogsStay;
    SameLogsStay(v, w);
    UngatedLogs(v, w, now);
  }

  /** What became of a frame that was let in. */
  ghost predicate Settled(v: View, w: View, p: Packet, now: u64) {
    && Paired(v, w) && Witnessed(v, w, now) && Logs(v, w, now)
    && (w.box.identity == v.box.identity ==> EntriesStay(v, w, p, now))
  }

  lemma HandledSound(met: View, seen: View, w: View, p: Packet, id: byte, m: Mode, localLink: Option<Hash>,
                     admitted: bool, stored: Option<Hash>, c: Capacities, r: Action, now: u64)
    requires Inv(met) && Inv(seen) && Inv(w) && Handles(met, seen, w, p, id, m, localLink, admitted, stored, c, r, now)
    requires p.header.WellFormed()
    ensures Settled(met, w, p, now)
  {
    hide Inv, LooksUp, IsLocal, Deals, Interfaces.WellFormed, Interfaces.Config, Interfaces.IsLocalClient, Paired,
      Witnessed, Vouched, Logs, Gateless;
    assert met.ifs.WellFormed() by { WellFormedIn(met); }
    var mode := if met.ifs.Config(id).Some? then met.ifs.Config(id).value.mode else m;
    var hops := HopsHere(p.header.hops, met.ifs.IsLocalClient(id));
    var y := seen.(history := seen.history + [Ingested(p, id, hops, now)]);
    var duplicate :| LooksUp(met, seen, p, localLink, c.hashes, duplicate, now) &&
      (if duplicate then r == Duplicate && w == seen
       else if IsLocal(met.own.local, p) then r == LocalEndpoint && w == seen
       else
         && y.ifs.WellFormed() && w.history == y.history && w.aired == y.aired
         && Deals(y, w, p, hops, id, mode, admitted, stored, c, r, now));
    LookedUp(met, seen, p, localLink, c.hashes, duplicate, now);
    if duplicate || IsLocal(met.own.local, p) {
      QuietStep(met, w, now);
    } else {
      RecordedStep(seen, y, now);
      DealsSound(y, w, p, hops, id, mode, admitted, stored, c, r, now);
      PairedFrom(met, y, w);
      WitnessedFrom(met, y, w, now);
      LogsFrom(met, y, w, now);
    }
  }

  lemma LogsSame(v: View, met: View, w: View, now: u64)
    requires Logs(met, w, now) && (v.ifs.Router? ==> met.ifs == v.ifs) && met.own == v.own && met.aired == v.aired
    requires met.box.identity == v.box.identity
    ensures Logs(v, w, now)
  {
    forall s: nat | StaysRegistered(v, w, s) ensures AirsSlot(v, w, s, now) {
      assert StaysRegistered(met, w, s);
      assert AirsSlot(met, w, s, now);
      assert forall id: byte, q :: NewGated(v, w, id, q) <==> NewGated(met, w, id, q);
    }
  }

  lemma SettledFrom(v: View, met: View, w: View, p: Packet, now: u64)
    requires Settled(met, w, p, now) && SameCounters(v, met) && met.tabs == v.tabs.(disc := met.tabs.disc)
    requires met.env == v.env && met.history == v.history && met.own == v.own && met.aired == v.aired
    requires v.ifs.Router? ==> met.ifs == v.ifs
    ensures Settled(v, w, p, now)
  {
    hide Paired, Attests, LoggedAs;
    PairedFrom(v, met, w);
    LogsSame(v, met, w, now);
    assert forall g :: Validated(v, w, g) ==> Validated(met, w, g);
  }

  lemma RegistryQuietFrom(v: View, w: View, now: u64)
    requires Inv(w) && SameCounters(v, w) && w.tabs == v.tabs.(disc := w.tabs.disc) && w.history == v.history
    requires w.aired == v.aired && (v.ifs.Router? ==> w.ifs == v.ifs)
    ensures Paired(v, w) && Witnessed(v, w, now) && Logs(v, w, now)
  {
    hide TabsOk, BoxOk, Evidenced, Thrifty, AllSealed, Numbered, Paired, Witnessed, Logs;
    RegistryQuiet(v, w, now);
  }

  /**
   Send before record, for every frame taken in: frames and entries belong together, a link is validated
   only by the frame itself; and when nothing was queued, live reverse entries and links are as they
   were, and so are live routes unless the frame was an announce.
   */
  lemma IngestSound(v: View, w: View, frame: Bytes, id: byte, m: Mode, localLink: Option<Hash>, admitted: bool,
                    stored: Option<Hash>, c: Capacities, r: Action, met: View, seen: View, now: u64)
    requires Ingests(v, w, frame, id, m, localLink, admitted, stored, c, r, met, seen, now) && Inv(met) && Inv(seen)
    requires Inv(w)
    ensures Paired(v, w) && Witnessed(v, w, now) && Logs(v, w, now)
    ensures w.box.identity == v.box.identity ==>
      match Screen(met.env, met.own, met.ifs, frame, id)
      case Out(_) => w.tabs == v.tabs.(disc := w.tabs.disc)
      case In(p) => EntriesStay(v, w, p, now)
  {
    hide Inv, Handles, Prepares, Screen, Paired, Interfaces.WellFormed, Witnessed, Logs;
    PreparedSame(v, met, id, m, now);
    match Screen(met.env, met.own, met.ifs, frame, id) {
      case Out(action) =>
        RegistryQuietFrom(v, w, now);
      case In(p) =>
        ScreenedWellFormed(met.env, met.own, met.ifs, frame, id);
        HandledSound(met, seen, w, p, id, m, localLink, admitted, stored, c, r, now);
        SettledFrom(v, met, w, p, now);
    }
  }
}
