/** The invariant of a node, and the ways in which a step keeps it. */
module NodeSteps {
  import opened Base
  import opened Rows
  import opened Generations
  import opened RowTables
  import opened Wire
  import opened Signalling
  import opened Paths
  import opened Announces
  import opened Interfaces
  import opened Discovery
  import opened Rebroadcast
  import opened AnnounceCap
  import opened NodeState
  import opened Outbound
  import opened Tables
  import opened NodeInvariants

  /** An interface that is up has a registration generation. */
  ghost predicate Numbered(ifs: Interfaces)
    requires ifs.WellFormed()
  {
    ifs.Router? ==> forall id: byte :: ifs.Config(id).Some? && ifs.Config(id).value.online ==> ifs.Generation(id) != 0
  }

  /** The frame is an establishment proof for this link: from its far side, at its distance, signed by its key. */
  ghost predicate Attests(env: Env, i: Ingested, row: Row<LinkBody>) {
    var h, payload, b := i.packet.header, i.packet.payload, row.body;
    && h.flags.packetType.Proof? && h.context == CONTEXT_LRPROOF && h.destination == row.key
    && i.interface == b.outbound && i.hops == b.remainingHops && IsKey(b.signingKey)
    && Parses(payload, PROOF_KEYS) && SignalOf(payload, PROOF_KEYS).mode == b.mode
    && SignalOf(payload, PROOF_KEYS).EffectiveMtu().value <= b.mtuCeiling
    && env.verify(b.signingKey, Signed(row.key, b.signingKey, payload), payload[..SIGNATURE])
  }

  /** The frame's signature verifies over `m`: the link id, the frame's key half, the link's key, the trailer. */
  ghost predicate Certifies(env: Env, i: Ingested, row: Row<LinkBody>, m: Bytes) {
    var payload, key := i.packet.payload, row.body.signingKey;
    && |payload| >= PROOF_KEYS && |m| >= 80 && env.verify(key, m, payload[..SIGNATURE])
    && FromBe(m[..16]) == row.key && m[16..48] == payload[SIGNATURE..PROOF_KEYS] && FromBe(m[48..80]) == key
    && m[80..] == payload[PROOF_KEYS..]
  }

  /** A frame attests a link exactly if, beside fitting the link, it is signed for that link under its key. */
  lemma AttestsExactly(env: Env, i: Ingested, row: Row<LinkBody>)
    requires i.packet.header.WellFormed() && IsKey(row.body.signingKey)
    ensures Attests(env, i, row) <==>
      var h, payload, b := i.packet.header, i.packet.payload, row.body;
      && h.flags.packetType.Proof? && h.context == CONTEXT_LRPROOF && h.destination == row.key
      && i.interface == b.outbound && i.hops == b.remainingHops
      && Parses(payload, PROOF_KEYS) && SignalOf(payload, PROOF_KEYS).mode == b.mode
      && SignalOf(payload, PROOF_KEYS).EffectiveMtu().value <= b.mtuCeiling
      && exists m :: Certifies(env, i, row, m)
  {
    hide FromBe, ToBe, Pow256, SignalOf, IsKey;
    var payload, key := i.packet.payload, row.body.signingKey;
    if |payload| >= PROOF_KEYS && i.packet.header.destination == row.key {
      SignedParts(row.key, key, payload);
      assert env.verify(key, Signed(row.key, key, payload), payload[..SIGNATURE]) ==>
        Certifies(env, i, row, Signed(row.key, key, payload));
      hide Signed;
      if m :| Certifies(env, i, row, m) {
        assert m == Signed(row.key, key, payload) by { Spelled(m, row.key, key, payload); }
      }
    }
  }

  lemma Spelled(m: Bytes, link: Hash, key: Hash, payload: Bytes)
    requires |m| >= 80 && |payload| >= PROOF_KEYS && FromBe(m[..16]) == link && FromBe(m[48..80]) == key
    requires m[16..48] == payload[SIGNATURE..PROOF_KEYS] && m[80..] == payload[PROOF_KEYS..]
    ensures m == Signed(link, key, payload)
  {
    hide FromBe, ToBe, Pow256;
    BytesRoundTrip(m[..16]);
    BytesRoundTrip(m[48..80]);
    var a, b := m[..48], m[48..];
    assert m == a + b;
    assert a == m[..16] + m[16..48];
    assert b == m[48..80] + m[80..];
    assert (m[..16] + m[16..48]) + (m[48..80] + m[80..]) == m[..16] + m[16..48] + m[48..80] + m[80..];
  }

  /** Every link has a signing key, and behind every validated one there is a frame that came in and attests it. */
  ghost predicate Evidenced(env: Env, links: Entries<LinkBody>, history: seq<Ingested>, evidence: map<u64, nat>) {
    && (forall g :: g in links ==> IsKey(links[g].body.signingKey))
    && (forall g :: g in links && links[g].body.validated ==>
          g in evidence && evidence[g] < |history| && Attests(env, history[evidence[g]], links[g]))
  }

  ghost predicate AllSealed(v: View) {
    forall k :: 0 <= k < |v.box.queue| ==> Sealed(v, v.box.queue[k].lifetime, v.box.queue[k].delivery)
  }

  ghost predicate BoxOk(v: View)
    requires v.ifs.WellFormed()
  {
    Ordered(v.box, v.clock) && Conserved(v.box) && Isolated(v.box, v.ifs, v.depth)
  }

  /** How an interface pays for announces. */
  function PaceOf(modem: Option<nat -> u32>, c: InterfaceConfig): Pace {
    if c.role.LoRa? && modem.Some? then Modem(modem.value) else Bits(c.bitrate)
  }

  /** A LoRa interface is paced by the modem's own airtime if there is one, every other by its bit rate. */
  lemma PacedByRole(modem: Option<nat -> u32>, c: InterfaceConfig, size: nat)
    ensures c.role.LoRa? && modem.Some? ==> PaceOf(modem, c).Work(size) == 1000 * modem.value(size)
    ensures !c.role.LoRa? || modem.None? ==>
      PaceOf(modem, c).Unit() == c.bitrate && PaceOf(modem, c).Work(size) == Min(8 * size * 1_000_000, U64_MAX)
  {
  }

  function RateOf(modem: Option<nat -> u32>, c: InterfaceConfig): nat {
    CapFloor(c.capPermille) * PaceOf(modem, c).Unit()
  }

  /** Every registered interface has released announces no faster than its cap allows. */
  ghost predicate Paced(modem: Option<nat -> u32>, ifs: Interfaces, aired: seq<seq<Release>>)
    requires ifs.WellFormed()
  {
    ifs.Router? ==>
      |aired| == SLOTS &&
      forall s :: 0 <= s < SLOTS && ifs.registry[s].Some? && PaceOf(modem, ifs.registry[s].value).Unit() > 0 ==>
        InStep(aired[s], ifs.gates[s], RateOf(modem, ifs.registry[s].value))
  }

  /** What holds in every reachable state of a node. */
  ghost predicate Inv(v: View) {
    && v.ifs.WellFormed() && Numbered(v.ifs)
    && TabsOk(v.env, v.ifs, v.tabs) && (!v.enabled ==> v.tabs.disc == map[])
    && BoxOk(v) && AllSealed(v)
    && Evidenced(v.env, v.tabs.links, v.history, v.evidence)
    && Thrifty(v.sends, v.tabs.schedule) && Paced(v.own.modem, v.ifs, v.aired)
  }

  lemma FollowsTabs(v: View, w: View, time: u64)
    requires v.ifs.WellFormed() && w.ifs == v.ifs && w.env == v.env
    requires TabsFollow(v.tabs, w.tabs, time) && QueueFollows(v.box, w.box)
    ensures Follows(v, w, time)
  {
    hide QueueFollows, Interfaces.WellFormed, Interfaces.Config, Interfaces.Generation, PathsFollow, ReverseFollows,
      LinksFollow, DiscoveriesFollow;
  }

  /** Everything changes but interfaces and settings; the parts hold, so the whole does. */
  lemma StepKeeps(v: View, w: View, time: u64)
    requires Inv(v)
    requires w == v.(tabs := w.tabs, box := w.box, history := w.history, evidence := w.evidence, sends := w.sends)
    requires TabsOk(w.env, w.ifs, w.tabs) && (!w.enabled ==> w.tabs.disc == map[]) && TabsFollow(v.tabs, w.tabs, time)
    requires BoxOk(w) && QueueFollows(v.box, w.box) && AllSealed(w)
    requires Evidenced(w.env, w.tabs.links, w.history, w.evidence) && Thrifty(w.sends, w.tabs.schedule)
    ensures Inv(w) && Follows(v, w, time)
  {
    hide QueueFollows, BoxOk, AllSealed, Evidenced, TabsOk, TabsFollow, Numbered, Interfaces.WellFormed, Thrifty, Paced;
    FollowsTabs(v, w, time);
  }

  // --- Sealing ----------------------------------------------------------------------------------

  /** The incarnations a lifetime names have been given out by these tables. */
  predicate SealedBy(t: Tabs, lt: Lifetime) {
    && lt.path <= t.lastPath
    && match lt.state
       case Independent => true
       case DiscoveryOf(i) => i <= t.lastDisc
       case ReverseOf(g) => g <= t.lastReverse
       case LinkOf(g) => g <= t.lastLink
  }

  /** Counters only go up, so what was sealed stays sealed. */
  lemma StaysSealed(v: View, w: View)
    requires AllSealed(v) && w.ifs == v.ifs
    requires v.tabs.lastPath <= w.tabs.lastPath && v.tabs.lastReverse <= w.tabs.lastReverse
    requires v.tabs.lastLink <= w.tabs.lastLink && v.tabs.lastDisc <= w.tabs.lastDisc
    requires forall q :: q in w.box.queue ==> q in v.box.queue
    ensures AllSealed(w)
  {
    forall k | 0 <= k < |w.box.queue| ensures Sealed(w, w.box.queue[k].lifetime, w.box.queue[k].delivery) {
      assert w.box.queue[k] in w.box.queue;
    }
  }

  /** A frame queued under a lifetime the resulting tables have sealed keeps the queue sealed. */
  lemma SealedAfterEnqueue(v: View, w: View, id: byte, packet: Packet, reason: Reason, lt: Lifetime, ok: bool)
    requires v.ifs.WellFormed() && AllSealed(v) && w.ifs == v.ifs
    requires v.tabs.lastPath <= w.tabs.lastPath && v.tabs.lastReverse <= w.tabs.lastReverse
    requires v.tabs.lastLink <= w.tabs.lastLink && v.tabs.lastDisc <= w.tabs.lastDisc
    requires Enqueues(v.box, w.box, v.ifs, v.depth, id, packet, reason, lt, ok) && (ok ==> SealedBy(w.tabs, lt))
    ensures AllSealed(w)
  {
    hide Interfaces.WellFormed, Interfaces.Config, Interfaces.Generation, Displaced, Count;
    if ok {
      GenerationGivenOut(v.ifs, id);
      var x := Queued(w.box.identity, id, packet, reason, lt, DeliveryFor(v.ifs, id));
      var k: nat :| Displaced(v.box, v.ifs, v.depth, id, reason, k) && Admits(v.box, w.box, x, k);
      forall i | 0 <= i < |w.box.queue| ensures Sealed(w, w.box.queue[i].lifetime, w.box.queue[i].delivery) {
        assert w.box.queue[i] == x || exists j :: 0 <= j < |v.box.queue| && v.box.queue[j] == w.box.queue[i];
      }
    }
  }

  lemma GenerationGivenOut(ifs: Interfaces, id: byte)
    requires ifs.WellFormed()
    ensures ifs.Router? ==> ifs.Generation(id) <= ifs.last
  {
  }

  // --- Queueing and recording -------------------------------------------------------------------

  /**
   Send before record: a frame is queued, then the tables record what its lifetime names. The state
   in between is not a state of the node; the state after is.
   */
  lemma QueueThenRecord(v: View, w: View, id: byte, packet: Packet, reason: Reason, lt: Lifetime, ok: bool, time: u64)
    requires Inv(v)
    requires w == v.(tabs := w.tabs, box := w.box, history := w.history, evidence := w.evidence, sends := w.sends)
    requires Thrifty(w.sends, w.tabs.schedule)
    requires Enqueues(v.box, w.box, v.ifs, v.depth, id, packet, reason, lt, ok)
    requires lt.enqueued <= v.clock && (ok ==> SealedBy(w.tabs, lt))
    requires v.ifs.Router? && reason.Gated() ==> Count(v.box.queue, GatedTo(id)) == 0
    requires TabsOk(w.env, w.ifs, w.tabs) && (!w.enabled ==> w.tabs.disc == map[]) && TabsFollow(v.tabs, w.tabs, time)
    requires Evidenced(w.env, w.tabs.links, w.history, w.evidence)
    ensures Inv(w) && Follows(v, w, time)
  {
    hide AllSealed, Evidenced, TabsOk, Thrifty, Paced, Interfaces.WellFormed, Interfaces.Config, Interfaces.Generation,
      Count, Ordered, Conserved, Isolated, QueueFollows, Follows;
    if ok {
      NumberedWhenOnline(v.ifs, id);
    }
    EnqueueKeeps(v.box, w.box, v.ifs, v.depth, id, packet, reason, lt, ok, v.clock);
    SealedAfterEnqueue(v, w, id, packet, reason, lt, ok);
    StepKeeps(v, w, time);
  }

  lemma NumberedWhenOnline(ifs: Interfaces, id: byte)
    requires ifs.WellFormed() && Numbered(ifs) && ifs.Online(id)
    ensures ifs.Router? ==> ifs.Generation(id) != 0
  {
  }

  /** Links that go, or stay as they are, leave the evidence in order. */
  lemma EvidenceKept(env: Env, m: Entries<LinkBody>, m': Entries<LinkBody>, history: seq<Ingested>, more: seq<Ingested>,
                     evidence: map<u64, nat>)
    requires Evidenced(env, m, history, evidence)
    requires forall g :: g in m' && m'[g].body.validated ==>
      g in m && m[g].body.validated && m'[g].key == m[g].key && m'[g].body == m[g].body
    requires forall g :: g in m' ==>
      IsKey(m'[g].body.signingKey) || (g in m && m'[g].body.signingKey == m[g].body.signingKey)
    ensures Evidenced(env, m', history + more, evidence)
  {
    hide Signed, Parses, SignalOf, Attests, IsKey;
    forall g | g in m' && m'[g].body.validated
      ensures g in evidence && evidence[g] < |history + more| && Attests(env, (history + more)[evidence[g]], m'[g])
    {
      assert Attests(env, history[evidence[g]], m[g]);
      SameAttestation(env, history[evidence[g]], m[g], m'[g]);
    }
  }

  lemma LinkKeyed(v: View, g: u64)
    requires Inv(v) && g in v.tabs.links
    ensures IsKey(v.tabs.links[g].body.signingKey)
  {
    hide TabsOk, BoxOk, AllSealed, Thrifty, Paced, Numbered, IsKey;
  }

  /** Whether a proof attests a link does not depend on deadline or validation. */
  lemma SameAttestation(env: Env, i: Ingested, a: Row<LinkBody>, b: Row<LinkBody>)
    requires Attests(env, i, a) && b.key == a.key && b.body == a.body.(validated := b.body.validated)
    ensures Attests(env, i, b)
  {
  }

  /** A purge keeps the invariant: rows only go. */
  lemma PurgeStepKeeps(v: View, w: View, p: Queued -> bool, time: u64)
    requires Inv(v) && w == v.(box := Purged(v.box, p))
    ensures Inv(w) && Follows(v, w, time)
    ensures forall q :: q in w.box.queue <==> q in v.box.queue && p(q)
  {
    hide AllSealed, Evidenced, TabsOk, Thrifty, Paced, Interfaces.WellFormed, Ordered, Conserved, Isolated,
      QueueFollows, Purged, Follows, Numbered;
    PurgeKeeps(v.box, p, v.ifs, v.depth, v.clock);
    StaysSealed(v, w);
    TabsFollowReflexive(v.tabs, time);
    StepKeeps(v, w, time);
  }

  lemma TabsFollowReflexive(t: Tabs, time: u64)
    ensures TabsFollow(t, t, time)
  {
  }

  // --- Changing interfaces ----------------------------------------------------------------------

  /** Interfaces and everything else change together; the parts hold, so the whole does. */
  lemma RegistryStep(v: View, w: View, time: u64)
    requires Inv(v) && w.env == v.env && w.ifs.WellFormed() && Numbered(w.ifs)
    requires Reregisters(v.ifs, w.ifs) && RoutesKeepInterfaces(v, w)
    requires TabsOk(w.env, w.ifs, w.tabs) && (!w.enabled ==> w.tabs.disc == map[]) && TabsFollow(v.tabs, w.tabs, time)
    requires BoxOk(w) && QueueFollows(v.box, w.box) && AllSealed(w)
    requires Evidenced(w.env, w.tabs.links, w.history, w.evidence) && Thrifty(w.sends, w.tabs.schedule)
    requires Paced(w.own.modem, w.ifs, w.aired)
    ensures Inv(w) && Follows(v, w, time)
  {
    hide QueueFollows, BoxOk, AllSealed, Evidenced, TabsOk, Numbered, Interfaces.WellFormed, Thrifty, Paced,
      Reregisters, RoutesKeepInterfaces, PathsFollow, ReverseFollows, LinksFollow, DiscoveriesFollow;
  }

  lemma TabsOkElsewhere(env: Env, a: Interfaces, b: Interfaces, t: Tabs)
    requires a.WellFormed() && b.WellFormed() && TabsOk(env, a, t) && Routed(b, t)
    ensures TabsOk(env, b, t)
  {
    hide Routed, CacheAgrees, Minted, WellScheduled, Awaited, Interfaces.WellFormed;
  }
}
