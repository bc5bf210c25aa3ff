/**
 Theorems about whole runs of a node.

 A run is any sequence of states in which each follows from the one before it by a step, at times that
 never go back. Every step a host can take on a node keeps `Inv` and is such a step, so these hold of
 every history of a node.
 */
module Runs {
  import opened Base
  import opened Rows
  import opened Generations
  import opened Wire
  import opened Signalling
  import opened Paths
  import opened Interfaces
  import opened Discovery
  import opened Rebroadcast
  import opened AnnounceCap
  import opened NodeState
  import opened Outbound
  import opened Tables
  import opened NodeInvariants
  import opened NodeSteps
  import opened NodeEffects
  import Journeys

  ghost predicate Run(states: seq<View>, times: seq<u64>) {
    && |states| == |times| + 1
    && (forall i :: 0 <= i < |states| ==> Inv(states[i]))
    && (forall i :: 0 <= i < |times| ==> Step(states[i], states[i + 1], times[i]))
    && (forall i, j :: 0 <= i <= j < |times| ==> times[i] <= times[j])
  }

  // --- Frame tokens -----------------------------------------------------------------------------

  lemma SealedNext(v: View, w: View, t: u64, lt: Lifetime, d: Delivery)
    requires Follows(v, w, t) && Sealed(v, lt, d)
    ensures Sealed(w, lt, d)
  {
    hide QueueFollows, RoutesKeepInterfaces;
  }

  lemma {:induction false} SealedLater(states: seq<View>, times: seq<u64>, i: nat, j: nat, lt: Lifetime, d: Delivery)
    requires Run(states, times) && i <= j < |states| && Sealed(states[i], lt, d)
    ensures Sealed(states[j], lt, d)
    decreases j
  {
    hide Inv, Follows, Sealed, Fresher;
    if i < j {
      SealedLater(states, times, i, j - 1, lt, d);
      assert Step(states[j - 1], states[j], times[j - 1]);
      SealedNext(states[j - 1], states[j], times[j - 1], lt, d);
    }
  }

  /** One step back. */
  lemma LiveStepBack(v: View, w: View, t: u64, id: byte, lt: Lifetime, d: Delivery, before: u64, after: u64)
    requires Inv(v) && Inv(w) && Step(v, w, t) && Sealed(v, lt, d) && lt.enqueued <= before <= t <= after
    requires FrameIsLive(w, id, lt, d, after)
    ensures FrameIsLive(v, id, lt, d, before)
  {
    hide BoxOk, AllSealed, Evidenced, Thrifty, Paced, Routed, CacheAgrees, Minted, WellScheduled, Fresher, Follows,
      FrameIsLive, Sealed, Awaited, Interfaces.WellFormed, Numbered;
    LiveBefore(v, w, t, id, lt, d, before, after);
  }

  /** A token live at the end of a run was live at its start. */
  lemma {:induction false} LiveThroughout(states: seq<View>, times: seq<u64>, i: nat, j: nat, id: byte, lt: Lifetime,
                                          d: Delivery, before: u64, after: u64)
    requires Run(states, times) && i < j < |states| && Sealed(states[i], lt, d)
    requires lt.enqueued <= before <= times[i] && times[j - 1] <= after
    requires FrameIsLive(states[j], id, lt, d, after)
    ensures FrameIsLive(states[i], id, lt, d, before)
    decreases j - i
  {
    hide Inv, Step, Sealed, FrameIsLive;
    var middle := if i + 1 < j then times[i] else after;
    if i + 1 < j {
      SealedLater(states, times, i, i + 1, lt, d);
      LiveThroughout(states, times, i + 1, j, id, lt, d, times[i], after);
    }
    LiveStepBack(states[i], states[i + 1], times[i], id, lt, d, before, middle);
  }

  /**
   Tokens never revive. Once the token of an issued frame is dead, it is dead in every later state of
   every run and at every later time, whatever was relearned, reconnected or reset in between.
   */
  lemma NeverRevives(states: seq<View>, times: seq<u64>, i: nat, j: nat, id: byte, lt: Lifetime, d: Delivery, when: u64,
                     later: u64)
    requires Run(states, times) && i < j < |states| && Sealed(states[i], lt, d)
    requires lt.enqueued <= when <= times[i] && times[j - 1] <= later
    requires states[i].ifs.WellFormed() && !FrameIsLive(states[i], id, lt, d, when)
    ensures states[j].ifs.WellFormed() && !FrameIsLive(states[j], id, lt, d, later)
  {
    hide Inv, Step, Sealed, FrameIsLive, Interfaces.WellFormed;
    assert states[j].ifs.WellFormed() by { Formed(states[j]); }
    if FrameIsLive(states[j], id, lt, d, later) {
      LiveThroughout(states, times, i, j, id, lt, d, when, later);
    }
  }

  lemma Formed(v: View)
    requires Inv(v)
    ensures v.ifs.WellFormed()
  {
    hide BoxOk, AllSealed, Evidenced, Thrifty, Paced, TabsOk, Numbered;
  }

  /** Something the token names is not there any more. */
  ghost predicate Gone(v: View, id: byte, lt: Lifetime, d: Delivery)
    requires v.ifs.WellFormed()
  {
    || (lt.path != 0 && lt.path !in v.tabs.paths)
    || (match lt.state
        case Independent => false
        case DiscoveryOf(i) => i !in v.tabs.disc
        case ReverseOf(g) => g !in v.tabs.reverse
        case LinkOf(g) => g !in v.tabs.links)
    || (v.ifs.Router? && d.Bound? && (d.generation == 0 || v.ifs.Generation(id) != d.generation))
  }

  lemma GoneNext(v: View, w: View, t: u64, id: byte, lt: Lifetime, d: Delivery)
    requires Follows(v, w, t) && Sealed(v, lt, d) && v.ifs.WellFormed() && w.ifs.WellFormed() && Gone(v, id, lt, d)
    ensures Gone(w, id, lt, d)
  {
    hide QueueFollows, RoutesKeepInterfaces;
  }

  lemma GoneIsDead(v: View, id: byte, lt: Lifetime, d: Delivery, now: u64)
    requires v.ifs.WellFormed() && Gone(v, id, lt, d)
    ensures !FrameIsLive(v, id, lt, d, now)
  {
  }

  /**
   Frames die with what they name: once the incarnation of a route, reverse entry, link or discovery, or the
   registration, that the token of an issued frame names is gone, the frame is dead in that state and in every
   later one, at any time.
   */
  lemma {:induction false} FramesDieWithWhatTheyName(states: seq<View>, times: seq<u64>, i: nat, j: nat, id: byte,
                                                     lt: Lifetime, d: Delivery, when: u64)
    requires Run(states, times) && i <= j < |states| && Sealed(states[i], lt, d)
    requires states[i].ifs.WellFormed() && Gone(states[i], id, lt, d)
    ensures states[j].ifs.WellFormed() && Gone(states[j], id, lt, d) && !FrameIsLive(states[j], id, lt, d, when)
    decreases j
  {
    hide Inv, Follows, Fresher, Paired, Witnessed, Logs, Sealed, Gone, FrameIsLive, Interfaces.WellFormed;
    assert states[j].ifs.WellFormed() by { Formed(states[j]); }
    if i < j {
      FramesDieWithWhatTheyName(states, times, i, j - 1, id, lt, d, when);
      SealedLater(states, times, i, j - 1, lt, d);
      assert Step(states[j - 1], states[j], times[j - 1]);
      GoneNext(states[j - 1], states[j], times[j - 1], id, lt, d);
    }
    GoneIsDead(states[j], id, lt, d, when);
  }

  /** And with the interfaces they go through: the one they go out on, that of their route, and those of their link. */
  lemma FramesDieWithTheirInterfaces(v: View, down: byte, id: byte, lt: Lifetime, d: Delivery, now: u64)
    requires v.ifs.WellFormed() && !v.ifs.Online(down)
    requires
      || id == down || (lt.path in v.tabs.paths && lt.path != 0 && v.tabs.paths[lt.path].body.interface == down)
      || (lt.state.LinkOf? && lt.state.generation in v.tabs.links &&
          down in {v.tabs.links[lt.state.generation].body.receiving, v.tabs.links[lt.state.generation].body.outbound})
      || (lt.state.ReverseOf? && lt.state.generation in v.tabs.reverse &&
          v.tabs.reverse[lt.state.generation].body.receiving == down)
    ensures !FrameIsLive(v, id, lt, d, now)
  {
    hide Interfaces.Online, Interfaces.WellFormed;
  }

  /** Every queued frame carries such a token. */
  lemma QueuedFramesNeverRevive(states: seq<View>, times: seq<u64>, i: nat, j: nat, k: nat, when: u64, later: u64)
    requires Run(states, times) && i < j < |states| && k < |states[i].box.queue|
    requires var q := states[i].box.queue[k];
      q.lifetime.enqueued <= when <= times[i] && times[j - 1] <= later && !LiveIn(states[i], when)(q)
    ensures !LiveIn(states[j], later)(states[i].box.queue[k])
  {
    hide BoxOk, Evidenced, Thrifty, Paced, TabsOk, Numbered, Step, FrameIsLive, Interfaces.WellFormed;
    var q := states[i].box.queue[k];
    assert Sealed(states[i], q.lifetime, q.delivery);
    NeverRevives(states, times, i, j, q.interface, q.lifetime, q.delivery, when, later);
  }

  // --- The outbound queue -----------------------------------------------------------------------

  lemma OneIdentity(b: Box, clock: u64, p: Queued, q: Queued)
    requires Ordered(b, clock) && p in b.queue && q in b.queue && p.identity == q.identity
    ensures p == q
  {
    hide FanoutShape;
  }

  lemma ShrunkTwice(p: Queued, q: Queued, r: Queued)
    requires Shrunk(p, q) && Shrunk(q, r)
    ensures Shrunk(p, r)
  {
  }

  /** What became of a row: the same frame, owing to fewer targets, its bindings fixed once made. */
  lemma {:induction false} RowsOnlyShrink(states: seq<View>, times: seq<u64>, i: nat, j: nat, q: Queued)
      returns (p: Queued)
    requires Run(states, times) && i <= j < |states| && q in states[j].box.queue && q.identity <= states[i].box.identity
    ensures p in states[i].box.queue && Shrunk(p, q)
    decreases j
  {
    hide Inv, Step, Shrunk;
    if i == j {
      SameRow(q);
      p := q;
    } else {
      IdentitiesGrow(states, times, i, j - 1);
      var m := RowBefore(states[j - 1], states[j], times[j - 1], q);
      p := RowsOnlyShrink(states, times, i, j - 1, m);
      ShrunkTwice(p, m, q);
    }
  }

  lemma SameRow(q: Queued)
    ensures Shrunk(q, q)
  {
  }

  lemma RowBefore(v: View, w: View, t: u64, q: Queued) returns (p: Queued)
    requires Step(v, w, t) && q in w.box.queue && q.identity <= v.box.identity
    ensures p in v.box.queue && Shrunk(p, q) && p.identity == q.identity
  {
    hide Fresher, PathsFollow, ReverseFollows, LinksFollow, DiscoveriesFollow, Reregisters, RoutesKeepInterfaces;
    var k :| 0 <= k < |w.box.queue| && w.box.queue[k] == q;
    assert Inherited(v.box.queue, w.box.queue[k]);
    var n :| 0 <= n < |v.box.queue| && Shrunk(v.box.queue[n], q);
    p := v.box.queue[n];
  }

  lemma {:induction false} IdentitiesGrow(states: seq<View>, times: seq<u64>, i: nat, j: nat)
    requires Run(states, times) && i <= j < |states|
    ensures states[i].box.identity <= states[j].box.identity
    decreases j
  {
    hide Inv, Fresher, PathsFollow, ReverseFollows, LinksFollow, DiscoveriesFollow, Reregisters, RoutesKeepInterfaces;
    if i < j {
      IdentitiesGrow(states, times, i, j - 1);
      assert Step(states[j - 1], states[j], times[j - 1]);
    }
  }

  /**
   Retained fan-out: rows that carry the same identity in two states of a run are one row, which owes
   to no target it did not owe to before, and has kept its bound generations.
   */
  lemma IdentityNamesOneRow(states: seq<View>, times: seq<u64>, i: nat, j: nat, p: Queued, q: Queued)
    requires Run(states, times) && i <= j < |states|
    requires p in states[i].box.queue && q in states[j].box.queue && p.identity == q.identity
    ensures Shrunk(p, q)
  {
    hide TabsOk, Evidenced, Thrifty, Paced, AllSealed, Numbered, Step, Shrunk, Conserved, Isolated;
    assert q.identity <= states[i].box.identity by { WithinIdentities(states[i], p); }
    var r := RowsOnlyShrink(states, times, i, j, q);
    assert r.identity == q.identity by { ShrunkIdentity(r, q); }
    OneIdentity(states[i].box, states[i].clock, p, r);
  }

  lemma ShrunkIdentity(p: Queued, q: Queued)
    requires Shrunk(p, q)
    ensures p.identity == q.identity
  {
  }

  lemma WithinIdentities(v: View, p: Queued)
    requires Inv(v) && p in v.box.queue
    ensures 1 <= p.identity <= v.box.identity
  {
    hide TabsOk, Evidenced, Thrifty, Paced, AllSealed, Numbered, Conserved, Isolated, FanoutShape;
  }

  /** An identity once given out and gone never comes back. */
  lemma IdentitiesAreNeverReused(states: seq<View>, times: seq<u64>, i: nat, j: nat, identity: u64)
    requires Run(states, times) && i <= j < |states| && identity <= states[i].box.identity
    requires forall q :: q in states[i].box.queue ==> q.identity != identity
    ensures forall q :: q in states[j].box.queue ==> q.identity != identity
  {
    hide Inv, Step, Shrunk;
    forall q | q in states[j].box.queue ensures q.identity != identity {
      if q.identity == identity {
        var p := RowsOnlyShrink(states, times, i, j, q);
        ShrunkIdentity(p, q);
      }
    }
  }

  /**
   Queue conservation, below saturation of the counters and with a queue that has room at all: what
   was admitted is queued, handed over or lost, and the drop counter counts each loss once beside the
   packets refused.
   */
  lemma RowsAreConserved(v: View)
    requires Inv(v) && v.box.capacity > 0
    requires |v.box.queue| + v.box.handed + v.box.lost <= U64_MAX && v.box.lost + v.box.refused <= U64_MAX
    ensures v.box.queued == |v.box.queue| + v.box.handed + v.box.lost && v.box.dropped == v.box.lost + v.box.refused
  {
    hide TabsOk, Evidenced, Thrifty, Paced, AllSealed, Numbered, Ordered, Isolated;
  }

  /** Admission keeps the books balanced exactly when the queue has a slot: without one the row is counted and gone. */
  lemma AdmissionBalancesExactly(b: Box, c: Box, row: Queued, k: nat)
    requires Admits(b, c, row, k) && b.queued == |b.queue| + b.handed + b.lost && b.queued < U64_MAX
    requires |b.queue| <= b.capacity
    requires k <= |b.queue|
    ensures c.queued == |c.queue| + c.handed + c.lost <==> b.capacity > 0
  {
  }

  /** Router queue isolation, in every reachable state. */
  lemma SharesAreKept(v: View, id: byte)
    requires Inv(v) && v.ifs.Router? && v.ifs.Config(id).Some?
    ensures Count(v.box.queue, To(id)) <= v.ifs.Config(id).value.depth
    ensures |v.box.queue| <= Min(v.depth, v.box.capacity)
    ensures Count(v.box.queue, GatedTo(id)) <= 1
  {
    hide TabsOk, Evidenced, Thrifty, Paced, AllSealed, Numbered, Ordered, Conserved, AllCurrent, Interfaces.WellFormed,
      Interfaces.Config, Count;
  }

  lemma OthersStay(b: Box, c: Box, x: Queued, k: nat, j: nat)
    requires Admits(b, c, x, k) && b.capacity > 0 && j < |b.queue| && k <= |b.queue|
    ensures |c.queue| >= |b.queue| && (j == k || b.queue[j] in c.queue)
  {
    if j != k {
      assert c.queue[if j < k then j else j - 1] == b.queue[j];
    }
  }

  /** An admission costs at most one row, of the same interface, and an announce costs only announces. */
  lemma AdmissionIsIsolated(b: Box, c: Box, ifs: Interfaces, depth: nat, id: byte, packet: Packet, reason: Reason,
                            lt: Lifetime, j: nat)
    requires ifs.WellFormed() && ifs.Router? && Isolated(b, ifs, depth)
    requires Enqueues(b, c, ifs, depth, id, packet, reason, lt, true)
    requires j < |b.queue| && b.queue[j] !in c.queue && b.capacity > 0
    ensures b.queue[j].interface == id && (reason.Gated() ==> b.queue[j].reason.Gated())
    ensures |c.queue| >= |b.queue|
  {
    hide Interfaces.WellFormed, Interfaces.Config, Interfaces.Generation, Count, Shared, AllCurrent, Admits;
    var x := Queued(c.identity, id, packet, reason, lt, DeliveryFor(ifs, id));
    var k: nat :| Displaced(b, ifs, depth, id, reason, k) && Admits(b, c, x, k);
    OthersStay(b, c, x, k, j);
  }

  // --- Links ------------------------------------------------------------------------------------

  /** What became of a link: everything but validation and deadline is as it was, and a pending deadline is fixed. */
  lemma {:induction false} LinksAreFixed(states: seq<View>, times: seq<u64>, i: nat, j: nat, g: u64)
    requires Run(states, times) && i <= j < |states| && g in states[j].tabs.links && g <= states[i].tabs.lastLink
    ensures g in states[i].tabs.links
    ensures states[j].tabs.links[g].key == states[i].tabs.links[g].key
    ensures states[j].tabs.links[g].body ==
      states[i].tabs.links[g].body.(validated := states[j].tabs.links[g].body.validated)
    ensures states[i].tabs.links[g].body.validated ==> states[j].tabs.links[g].body.validated
    ensures !states[j].tabs.links[g].body.validated ==>
      states[j].tabs.links[g].expires == states[i].tabs.links[g].expires
    decreases j
  {
    hide Inv, Fresher, PathsFollow, ReverseFollows, DiscoveriesFollow, Reregisters, RoutesKeepInterfaces, QueueFollows;
    if i < j {
      assert Step(states[j - 1], states[j], times[j - 1]);
      LinkCountersGrow(states, times, i, j - 1);
      LinksAreFixed(states, times, i, j - 1, g);
    }
  }

  lemma {:induction false} LinkCountersGrow(states: seq<View>, times: seq<u64>, i: nat, j: nat)
    requires Run(states, times) && i <= j < |states|
    ensures states[i].tabs.lastLink <= states[j].tabs.lastLink
    decreases j
  {
    hide Inv, Fresher, PathsFollow, ReverseFollows, DiscoveriesFollow, Reregisters, RoutesKeepInterfaces, QueueFollows;
    if i < j {
      LinkCountersGrow(states, times, i, j - 1);
      assert Step(states[j - 1], states[j], times[j - 1]);
    }
  }

  /** The frame that step `k` took in. */
  ghost predicate TookIn(states: seq<View>, times: seq<u64>, k: nat, frame: Ingested) {
    && k < |times| == |states| - 1
    && states[k + 1].history == states[k].history + [frame] && frame.time == times[k]
    && frame.packet.header.WellFormed()
  }

  lemma FrameOfStep(v: View, w: View, t: u64, g: u64) returns (frame: Ingested)
    requires Step(v, w, t) && Validated(v, w, g)
    ensures w.history == v.history + [frame] && frame.time == t && Attests(w.env, frame, w.tabs.links[g])
    ensures frame.packet.header.WellFormed()
  {
    hide Fresher, PathsFollow, ReverseFollows, LinksFollow, DiscoveriesFollow, Reregisters, RoutesKeepInterfaces,
      QueueFollows, Paired, Attests;
    frame := w.history[|v.history|];
  }

  lemma AttestedStill(v: View, w: View, t: u64, g: u64, frame: Ingested)
    requires Inv(v) && Step(v, w, t) && g in v.tabs.links && g in w.tabs.links
    requires Attests(v.env, frame, v.tabs.links[g])
    ensures Attests(w.env, frame, w.tabs.links[g])
  {
    hide Inv, Fresher, PathsFollow, ReverseFollows, DiscoveriesFollow, Reregisters, RoutesKeepInterfaces, QueueFollows,
      Paired, Attests, Witnessed;
    WithinLinks(v, g);
    LinkBefore(v, w, t, g);
    SameAttestation(w.env, frame, v.tabs.links[g], w.tabs.links[g]);
  }

  lemma AttestedCertified(v: View, g: u64, frame: Ingested)
    requires Inv(v) && g in v.tabs.links && frame.packet.header.WellFormed()
    requires Attests(v.env, frame, v.tabs.links[g])
    ensures exists m :: Certifies(v.env, frame, v.tabs.links[g], m)
  {
    hide Inv, Certifies, Parses, SignalOf, Signed, IsKey, Header.WellFormed;
    LinkKeyed(v, g);
    AttestsExactly(v.env, frame, v.tabs.links[g]);
  }

  /**
   Link evidence: a link that is validated and once was not was validated by a step that took in a frame
   from its outbound interface, at its recorded distance and mode, whose signature verifies, under the key
   the link was admitted with, over a message that names this link and no other.
   */
  lemma {:induction false} ValidationHasEvidence(states: seq<View>, times: seq<u64>, i: nat, j: nat, g: u64)
      returns (k: nat, frame: Ingested)
    requires Run(states, times) && i < j < |states| && g in states[j].tabs.links
    requires states[j].tabs.links[g].body.validated
    requires !(g in states[i].tabs.links && states[i].tabs.links[g].body.validated)
    ensures i <= k < j && Validated(states[k], states[k + 1], g) && TookIn(states, times, k, frame)
    ensures Attests(states[j].env, frame, states[j].tabs.links[g])
    ensures exists m :: Certifies(states[j].env, frame, states[j].tabs.links[g], m)
    decreases j
  {
    hide Inv, Step, Attests, Certifies, Header.WellFormed;
    var v, w, t := states[j - 1], states[j], times[j - 1];
    if Validated(v, w, g) {
      k := j - 1;
      frame := FrameOfStep(v, w, t, g);
    } else {
      k, frame := ValidationHasEvidence(states, times, i, j - 1, g);
      AttestedStill(v, w, t, g, frame);
    }
    AttestedCertified(w, g, frame);
  }

  /** For as long as an opened link lasts, traffic from either side, at that side's hop count, goes to the other. */
  lemma OpenedLinkCrosses(states: seq<View>, times: seq<u64>, k: nat, j: nat, p: Packet, hops: byte, id: byte, r: u64,
                          sent: Packet, lt: Lifetime, row: Row<LinkBody>)
    requires Run(states, times) && k < j < |states|
    requires OpensLink(states[k], states[k + 1], p, hops, id, r, sent, lt, row, times[k])
    requires states[k + 1].tabs.lastLink in states[j].tabs.links
    ensures r in states[k].tabs.paths
    ensures var b, path := states[j].tabs.links[states[k + 1].tabs.lastLink].body, states[k].tabs.paths[r].body;
      LinkWay(b, hops, id) == Toward(path.interface) && LinkWay(b, path.hops, path.interface) == Toward(id)
  {
    hide Inv, Step, OpensLink;
    Journeys.OpenedCrosses(states[k], states[k + 1], p, hops, id, r, sent, lt, row, times[k]);
    LinksAreFixed(states, times, k + 1, j, states[k + 1].tabs.lastLink);
  }

  // --- Send before record -----------------------------------------------------------------------

  /** The queue has room for a frame at all, throughout a run. */
  ghost predicate Roomy(states: seq<View>) {
    forall i :: 0 <= i < |states| ==> states[i].box.capacity > 0
  }

  lemma ReverseFramed(v: View, w: View, t: u64, g: u64) returns (q: Queued)
    requires Inv(w) && Step(v, w, t) && v.box.capacity > 0 && g in w.tabs.reverse && g > v.tabs.lastReverse
    ensures q in w.box.queue && TiedReverse(v, w, q) && q.lifetime.state == ReverseOf(g)
  {
    hide Follows, Fresher, BoxOk, AllSealed, Evidenced, Thrifty, Paced, Numbered, Routed, CacheAgrees, WellScheduled,
      Untied, TiedLink;
    q :| q in w.box.queue && TiedReverse(v, w, q);
  }

  lemma ReverseBefore(v: View, w: View, t: u64, g: u64)
    requires Step(v, w, t) && g in w.tabs.reverse && g <= v.tabs.lastReverse
    ensures g in v.tabs.reverse && w.tabs.reverse[g] == v.tabs.reverse[g]
  {
    hide Fresher, PathsFollow, LinksFollow, DiscoveriesFollow, Reregisters, RoutesKeepInterfaces, QueueFollows, Paired;
  }

  /**
   A reverse entry is recorded only with its frame: whichever entry there is was made in a step that
   queued a data frame naming it, towards the interface the entry has its proofs come back from.
   */
  lemma {:induction false} ReverseEntriesHaveFrames(states: seq<View>, times: seq<u64>, j: nat, g: u64)
      returns (k: nat, q: Queued)
    requires Run(states, times) && Roomy(states) && j < |states| && g in states[j].tabs.reverse
    requires g > states[0].tabs.lastReverse
    ensures k < j && q in states[k + 1].box.queue && TiedReverse(states[k], states[k + 1], q)
    ensures q.lifetime.state == ReverseOf(g)
    ensures g in states[k + 1].tabs.reverse && states[k + 1].tabs.reverse[g] == states[j].tabs.reverse[g]
    decreases j
  {
    hide Inv, Step, TiedReverse;
    WithinReverse(states[j], g);
    var v, w, t := states[j - 1], states[j], times[j - 1];
    if g > v.tabs.lastReverse {
      q := ReverseFramed(v, w, t, g);
      k := j - 1;
    } else {
      ReverseBefore(v, w, t, g);
      k, q := ReverseEntriesHaveFrames(states, times, j - 1, g);
    }
  }

  lemma WithinReverse(v: View, g: u64)
    requires Inv(v) && g in v.tabs.reverse
    ensures g <= v.tabs.lastReverse
  {
    hide BoxOk, AllSealed, Evidenced, Thrifty, Paced, Numbered, Routed, CacheAgrees, WellScheduled,
      Interfaces.WellFormed;
  }

  lemma LinkFramed(v: View, w: View, t: u64, g: u64) returns (q: Queued)
    requires Inv(w) && Step(v, w, t) && v.box.capacity > 0 && g in w.tabs.links && g > v.tabs.lastLink
    ensures q in w.box.queue && TiedLink(v, w, q) && q.lifetime.state == LinkOf(g)
  {
    hide Follows, Fresher, BoxOk, AllSealed, Evidenced, Thrifty, Paced, Numbered, Routed, CacheAgrees, WellScheduled,
      Untied, TiedReverse;
    q :| q in w.box.queue && TiedLink(v, w, q);
  }

  lemma WithinLinks(v: View, g: u64)
    requires Inv(v) && g in v.tabs.links
    ensures g <= v.tabs.lastLink
  {
    hide BoxOk, AllSealed, Evidenced, Thrifty, Paced, Numbered, Routed, CacheAgrees, WellScheduled,
      Interfaces.WellFormed;
  }

  lemma LinkBefore(v: View, w: View, t: u64, g: u64)
    requires Step(v, w, t) && g in w.tabs.links && g <= v.tabs.lastLink
    ensures g in v.tabs.links && w.tabs.links[g].key == v.tabs.links[g].key
    ensures w.tabs.links[g].body == v.tabs.links[g].body.(validated := w.tabs.links[g].body.validated)
  {
    hide Fresher, PathsFollow, ReverseFollows, DiscoveriesFollow, Reregisters, RoutesKeepInterfaces, QueueFollows,
      Paired;
  }

  /** A link is recorded only with its request, as pending, and keeps everything but its validation and deadline. */
  lemma {:induction false} LinksHaveFrames(states: seq<View>, times: seq<u64>, j: nat, g: u64)
      returns (k: nat, q: Queued)
    requires Run(states, times) && Roomy(states) && j < |states| && g in states[j].tabs.links
    requires g > states[0].tabs.lastLink
    ensures k < j && q in states[k + 1].box.queue && TiedLink(states[k], states[k + 1], q)
    ensures q.lifetime.state == LinkOf(g)
    ensures g in states[k + 1].tabs.links && states[k + 1].tabs.links[g].key == states[j].tabs.links[g].key
    ensures states[j].tabs.links[g].body ==
      states[k + 1].tabs.links[g].body.(validated := states[j].tabs.links[g].body.validated)
    decreases j
  {
    hide Inv, Step, TiedLink;
    WithinLinks(states[j], g);
    var v, w, t := states[j - 1], states[j], times[j - 1];
    if g > v.tabs.lastLink {
      q := LinkFramed(v, w, t, g);
      k := j - 1;
    } else {
      LinkBefore(v, w, t, g);
      k, q := LinksHaveFrames(states, times, j - 1, g);
    }
  }

  lemma FrameRecorded(v: View, w: View, t: u64, q: Queued)
    requires Step(v, w, t) && q in w.box.queue && q.identity > v.box.identity && !Untied(q)
    ensures TiedReverse(v, w, q) || TiedLink(v, w, q)
  {
    hide Follows, Fresher, TiedReverse, TiedLink, Untied;
  }

  /** A frame that names an entry made for it was queued in the step that recorded the entry. */
  lemma {:induction false} FramesHaveEntries(states: seq<View>, times: seq<u64>, j: nat, q: Queued)
      returns (k: nat, p: Queued)
    requires Run(states, times) && j < |states| && q in states[j].box.queue && q.identity > states[0].box.identity
    requires !Untied(q)
    ensures k < j && p in states[k + 1].box.queue && Shrunk(p, q)
    ensures TiedReverse(states[k], states[k + 1], p) || TiedLink(states[k], states[k + 1], p)
    decreases j
  {
    hide Inv, Step, TiedReverse, TiedLink;
    WithinIdentities(states[j], q);
    var v, w, t := states[j - 1], states[j], times[j - 1];
    if q.identity > v.box.identity {
      FrameRecorded(v, w, t, q);
      SameRow(q);
      k, p := j - 1, q;
    } else {
      var r := RowBefore(v, w, t, q);
      k, p := FramesHaveEntries(states, times, j - 1, r);
      ShrunkTwice(p, r, q);
    }
  }

  // --- Routes and announces ---------------------------------------------------------------------

  lemma {:induction false} PathCountersGrow(states: seq<View>, times: seq<u64>, i: nat, j: nat)
    requires Run(states, times) && i <= j < |states|
    ensures states[i].tabs.lastPath <= states[j].tabs.lastPath
    decreases j
  {
    hide Inv, Fresher, LinksFollow, ReverseFollows, DiscoveriesFollow, Reregisters, RoutesKeepInterfaces, QueueFollows,
      Paired, Witnessed, Logs;
    if i < j {
      PathCountersGrow(states, times, i, j - 1);
      assert Step(states[j - 1], states[j], times[j - 1]);
    }
  }

  /** What became of an incarnation of a route: it leads to the same place over the same next hop, as far as ever. */
  lemma {:induction false} RoutesAreFixed(states: seq<View>, times: seq<u64>, i: nat, j: nat, g: u64)
    requires Run(states, times) && i <= j < |states| && g in states[j].tabs.paths && g <= states[i].tabs.lastPath
    ensures g in states[i].tabs.paths
    ensures var p, q := states[i].tabs.paths[g], states[j].tabs.paths[g];
      && q.key == p.key && q.body.nextHop == p.body.nextHop && q.body.interface == p.body.interface
      && q.body.hops == p.body.hops
    decreases j
  {
    hide Inv, Fresher, LinksFollow, ReverseFollows, DiscoveriesFollow, Reregisters, RoutesKeepInterfaces, QueueFollows,
      Paired, Witnessed, Logs, NoOlder;
    if i < j {
      assert Step(states[j - 1], states[j], times[j - 1]);
      PathCountersGrow(states, times, i, j - 1);
      RoutesAreFixed(states, times, i, j - 1, g);
    }
  }

  /** A route that is retained over a step is from the same announce, or from one emitted later. */
  lemma EmissionsIncrease(v: View, w: View, t: u64, g: u64, h: u64)
    requires Inv(v) && Step(v, w, t) && Inv(w)
    requires g in v.tabs.paths && h in w.tabs.paths && w.tabs.paths[h].key == v.tabs.paths[g].key
    requires t < v.tabs.paths[g].expires
    ensures NoOlder(v.tabs.paths[g], w.tabs.paths[h])
  {
    hide BoxOk, AllSealed, Evidenced, Thrifty, Paced, Numbered, Routed, CacheAgrees, WellScheduled, NoOlder,
      QueueFollows, ReverseFollows, LinksFollow, DiscoveriesFollow, Reregisters, RoutesKeepInterfaces;
  }

  /** A destination keeps a live route from step to step. */
  ghost predicate Retains(states: seq<View>, times: seq<u64>, key: Hash, gens: seq<u64>) {
    && |gens| == |states| == |times| + 1
    && (forall i :: 0 <= i < |states| ==> gens[i] in states[i].tabs.paths && states[i].tabs.paths[gens[i]].key == key)
    && (forall i :: 0 <= i < |times| ==> times[i] < states[i].tabs.paths[gens[i]].expires)
  }

  /** While a destination is retained, its stored emission time never goes back, and rises with every replacement. */
  lemma {:induction false} EmissionsIncreaseWhileRetained(states: seq<View>, times: seq<u64>, key: Hash, gens: seq<u64>,
                                                          i: nat, j: nat)
    requires Run(states, times) && Retains(states, times, key, gens) && i <= j < |states|
    ensures NoOlder(states[i].tabs.paths[gens[i]], states[j].tabs.paths[gens[j]])
    decreases j
  {
    hide Inv, Step, Emitted;
    if i < j {
      EmissionsIncreaseWhileRetained(states, times, key, gens, i, j - 1);
      EmissionsIncrease(states[j - 1], states[j], times[j - 1], gens[j - 1], gens[j]);
    }
  }

  /** In every reachable state the cached announce of a destination is the one its route was learned from. */
  lemma CacheMatchesRoute(v: View, key: Hash, g: u64)
    requires Inv(v) && key in v.tabs.cache && g in v.tabs.paths && v.tabs.paths[g].key == key
    ensures HashOf(v.env, v.tabs.cache[key].body.packet) == v.tabs.paths[g].body.packetHash
    ensures v.tabs.cache[key].body.hops == v.tabs.paths[g].body.hops
  {
    hide BoxOk, AllSealed, Evidenced, Thrifty, Paced, Numbered, Routed, Minted, WellScheduled, HashOf;
  }

  /** No scheduled announce is sent more than twice to any target. */
  lemma SentAtMostTwice(v: View, key: Hash, target: nat)
    requires Inv(v)
    ensures Sent(v.sends, key, target) <= 2
  {
    hide BoxOk, AllSealed, Evidenced, Paced, Numbered, TabsOk;
    assert Sent(v.sends, key, target) + Credit(v.tabs.schedule, key, target) <= SENDS;
  }

  /**
   The announce cap of a registered interface, from any of its releases since registration to any later
   one: the airtime of all but the last, a thousandfold, is within the cap.
   */
  lemma CapIsKept(v: View, s: nat, i: nat, j: nat)
    requires Inv(v) && v.ifs.Router? && s < SLOTS && v.ifs.registry[s].Some? && s < |v.aired| && i <= j < |v.aired[s]|
    requires PaceOf(v.own.modem, v.ifs.registry[s].value).Unit() > 0
    ensures var run, c := v.aired[s], v.ifs.registry[s].value;
      && run[i].time <= run[j].time
      && TotalWork(run[i..j]) <= CapFloor(c.capPermille) * PaceOf(v.own.modem, c).Unit() * (run[j].time - run[i].time)
  {
    hide BoxOk, AllSealed, Evidenced, Numbered, TabsOk, Thrifty, InStep, TotalWork;
    var c := v.ifs.registry[s].value;
    StretchCapped(v.aired[s], v.ifs.gates[s], c.capPermille, PaceOf(v.own.modem, c).Unit(), i, j);
  }

  /** The work of the rebroadcast a step queued to an interface, if it queued one. */
  ghost function Airtime(v: View, w: View, c: InterfaceConfig): nat {
    if exists q :: NewGated(v, w, c.id, q) then
      var q :| NewGated(v, w, c.id, q);
      LoggedAs(v, c, q, 0).work
    else 0
  }

  /** The work of all rebroadcasts queued to an interface by the steps from state `a` to state `b`. */
  ghost function AirtimeBetween(states: seq<View>, c: InterfaceConfig, a: nat, b: nat): nat
    requires a <= b < |states|
    decreases b
  {
    if a == b then 0 else AirtimeBetween(states, c, a, b - 1) + Airtime(states[b - 1], states[b], c)
  }

  /** An interface holds its slot, under one registration, from state `a` to state `b`. */
  ghost predicate Holds(states: seq<View>, s: nat, c: InterfaceConfig, a: nat, b: nat) {
    && a <= b < |states|
    && (forall k :: a <= k < b ==> StaysRegistered(states[k], states[k + 1], s))
    && (forall k :: a <= k <= b ==>
          states[k].ifs.Router? && s < |states[k].ifs.registry| && states[k].ifs.registry[s] == Some(c))
  }

  lemma {:induction false} TwoCount(queue: seq<Queued>, p: Queued -> bool, i: nat, j: nat)
    requires i < j < |queue| && p(queue[i]) && p(queue[j])
    ensures Count(queue, p) >= 2
  {
    var n := |queue| - 1;
    CountAppend(queue[..n], queue[n], p);
    assert queue == queue[..n] + [queue[n]];
    if j < n {
      TwoCount(queue[..n], p, i, j);
    } else {
      CountSome(queue[..n], p);
      assert p(queue[..n][i]);
    }
  }

  /** At most one rebroadcast waits for an interface. */
  lemma OneRebroadcast(v: View, id: byte, p: Queued, q: Queued)
    requires Inv(v) && v.ifs.Router? && p in v.box.queue && q in v.box.queue && GatedTo(id)(p) && GatedTo(id)(q)
    ensures p == q
  {
    hide TabsOk, Evidenced, Thrifty, Paced, AllSealed, Numbered, Ordered, Conserved, AllCurrent, Interfaces.WellFormed,
      Interfaces.Config, Count;
    var i :| 0 <= i < |v.box.queue| && v.box.queue[i] == p;
    var j :| 0 <= j < |v.box.queue| && v.box.queue[j] == q;
    if i != j {
      TwoCount(v.box.queue, GatedTo(id), if i < j then i else j, if i < j then j else i);
    }
  }

  lemma StepLogs(v: View, w: View, t: u64, s: nat)
    requires Step(v, w, t) && StaysRegistered(v, w, s)
    ensures AirsSlot(v, w, s, t)
  {
    hide Follows, Fresher, Paired, Witnessed, AirsSlot;
  }

  /** The log of a step: one release for the rebroadcast it queued. */
  lemma StepAirs(v: View, w: View, t: u64, s: nat, c: InterfaceConfig, i: nat)
    requires Inv(w) && Step(v, w, t) && StaysRegistered(v, w, s) && v.ifs.registry[s] == Some(c)
    requires s < |v.aired| && i <= |v.aired[s]|
    ensures s < |w.aired| && v.aired[s] <= w.aired[s]
    ensures TotalWork(w.aired[s][i..]) == TotalWork(v.aired[s][i..]) + Airtime(v, w, c)
    ensures (exists q :: NewGated(v, w, c.id, q)) ==>
      |w.aired[s]| == |v.aired[s]| + 1 && w.aired[s][|v.aired[s]|].time == t
  {
    hide Inv, Step, TotalWork;
    StepLogs(v, w, t, s);
    if exists q :: NewGated(v, w, c.id, q) {
      var q :| NewGated(v, w, c.id, q) && w.aired[s] == v.aired[s] + [LoggedAs(v, c, q, t)];
      var p :| NewGated(v, w, c.id, p) && Airtime(v, w, c) == LoggedAs(v, c, p, 0).work;
      assert p == q by { OneRebroadcast(w, c.id, p, q); }
      assert LoggedAs(v, c, q, t).work == LoggedAs(v, c, p, 0).work;
      assert w.aired[s][i..] == v.aired[s][i..] + [LoggedAs(v, c, q, t)];
      WorkAppend(v.aired[s][i..], LoggedAs(v, c, q, t));
    }
  }

  lemma WorkAppend(run: seq<Release>, r: Release)
    ensures TotalWork(run + [r]) == TotalWork(run) + r.work
  {
    assert (run + [r])[..|run|] == run;
  }

  lemma LogsThere(v: View)
    requires Inv(v) && v.ifs.Router?
    ensures |v.aired| == SLOTS == |v.ifs.registry|
  {
    hide BoxOk, AllSealed, Evidenced, Numbered, TabsOk, Thrifty, InStep;
  }

  /** What was logged between two states of a run is what was queued between them. */
  lemma {:induction false} LogIsWhatWasQueued(states: seq<View>, times: seq<u64>, s: nat, c: InterfaceConfig,
                                              a: nat, b: nat)
    requires Run(states, times) && Holds(states, s, c, a, b)
    ensures s < |states[a].aired| && s < |states[b].aired| && states[a].aired[s] <= states[b].aired[s]
    ensures TotalWork(states[b].aired[s][|states[a].aired[s]|..]) == AirtimeBetween(states, c, a, b)
    decreases b
  {
    hide Inv, Step, StaysRegistered, Airtime, TotalWork;
    LogsThere(states[a]);
    LogsThere(states[b]);
    if a < b {
      assert Holds(states, s, c, a, b - 1);
      LogIsWhatWasQueued(states, times, s, c, a, b - 1);
      assert StaysRegistered(states[b - 1], states[b - 1 + 1], s);
      StepAirs(states[b - 1], states[b], times[b - 1], s, c, |states[a].aired[s]|);
    } else {
      assert states[b].aired[s][|states[a].aired[s]|..] == [];
      NoWork();
    }
  }

  lemma NoWork()
    ensures TotalWork([]) == 0
  {
  }

  /**
   The announce cap, over every run: while an interface stays registered, from any step that queues a
   rebroadcast to it to any later one, the airtime of all rebroadcasts queued to it before the later one,
   a thousandfold, is within its cap.
   */
  lemma RebroadcastsWithinCap(states: seq<View>, times: seq<u64>, s: nat, c: InterfaceConfig, a: nat, b: nat,
                              p: Queued, q: Queued)
    requires Run(states, times) && a < b < |times| && Holds(states, s, c, a, b + 1)
    requires PaceOf(states[b + 1].own.modem, c).Unit() > 0
    requires NewGated(states[a], states[a + 1], c.id, p) && NewGated(states[b], states[b + 1], c.id, q)
    ensures var cap := if c.capPermille == 0 then 1 else c.capPermille;
      AirtimeBetween(states, c, a, b) <= cap * PaceOf(states[b + 1].own.modem, c).Unit() * (times[b] - times[a])
  {
    hide Inv, Step, StaysRegistered, Airtime, TotalWork, AirtimeBetween, NewGated, LoggedAs;
    assert Holds(states, s, c, a, b) && Holds(states, s, c, a + 1, b) && Holds(states, s, c, b, b + 1)
      && Holds(states, s, c, a, a + 1);
    LogIsWhatWasQueued(states, times, s, c, a, b);
    LogIsWhatWasQueued(states, times, s, c, a + 1, b);
    LogsThere(states[b + 1]);
    var i, j := |states[a].aired[s]|, |states[b].aired[s]|;
    assert StaysRegistered(states[a], states[a + 1], s) && StaysRegistered(states[b], states[b + 1], s);
    StepAirs(states[a], states[a + 1], times[a], s, c, i);
    StepAirs(states[b], states[b + 1], times[b], s, c, i);
    var log := states[b + 1].aired[s];
    assert log[..j] == states[b].aired[s];
    assert log[i..j] == states[b].aired[s][i..];
    CapIsKept(states[b + 1], s, i, j);
  }
}
