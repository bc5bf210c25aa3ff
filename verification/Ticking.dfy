/**
 What a tick queues, against what it counts: rebroadcasts of an announce to a target, and the tally of
 its sends.
 */
module Ticking {
  import opened Base
  import opened Rows
  import opened Generations
  import opened RowTables
  import opened Wire
  import opened Announces
  import opened Interfaces
  import opened AnnounceCap
  import opened Rebroadcast
  import opened NodeState
  import opened Outbound
  import opened Tables
  import opened NodeInvariants
  import opened NodeSteps
  import opened NodeEffects
  import opened Decisions

  /** Rebroadcasts of a destination's announce queued after `base`, to this interface or to any. */
  function Resends(base: u64, key: Hash, id: Option<byte>): Queued -> bool {
    (q: Queued) =>
      && q.identity > base && q.reason.AnnounceRebroadcast? && q.packet.header.destination == key
      && (id.Some? ==> q.interface == id.value)
  }

  /** The interface a target of the schedule stands for: of a router, that of its slot; an endpoint has one target. */
  ghost predicate Stands(ifs: Interfaces, target: nat, id: Option<byte>)
    requires ifs.WellFormed()
  {
    match ifs
    case Endpoint(_) => target == 0 && id.None?
    case Router(registry, _, _, _) =>
      target < SLOTS && registry[target].Some? && id == Some(registry[target].value.id)
  }

  /** Rows of a kind come only with a rise of the tally for their destination and target. */
  ghost predicate Accounts(v: View, w: View) {
    && v.ifs.WellFormed()
    && forall base: u64, key: Hash, target: nat, id ::
         Stands(v.ifs, target, id) ==>
           Count(w.box.queue, Resends(base, key, id)) + Sent(v.sends, key, target) <=
           Count(v.box.queue, Resends(base, key, id)) + Sent(w.sends, key, target)
  }

  /** Two routers that differ in their gates, or the same interfaces. */
  predicate SameSlots(a: Interfaces, b: Interfaces) {
    a == b || (a.Router? && b.Router? && a.registry == b.registry)
  }

  lemma AccountsTransitive(u: View, v: View, w: View)
    requires Accounts(u, v) && Accounts(v, w) && SameSlots(u.ifs, v.ifs)
    ensures Accounts(u, w)
  {
    hide Resends, Sent, Count, Interfaces.WellFormed;
    forall base: u64, key: Hash, target: nat, id | Stands(u.ifs, target, id)
      ensures Count(w.box.queue, Resends(base, key, id)) + Sent(u.sends, key, target) <=
              Count(u.box.queue, Resends(base, key, id)) + Sent(w.sends, key, target)
    {
      assert Stands(v.ifs, target, id);
    }
  }

  lemma AccountsStill(v: View, w: View)
    requires v.ifs.WellFormed() && w.box.queue == v.box.queue && w.sends == v.sends
    ensures Accounts(v, w)
  {
    hide Resends, Sent, Count, Interfaces.WellFormed, Stands;
  }

  lemma {:induction false} CountFilter(queue: seq<Queued>, p: Queued -> bool, r: Queued -> bool)
    ensures Count(Filter(queue, p), r) <= Count(queue, r)
  {
    if queue != [] {
      var n := |queue| - 1;
      var front, x := queue[..n], queue[n];
      CountFilter(front, p, r);
      assert queue == front + [x];
      FilterAppend(front, x, p);
      CountAppend(front, x, r);
      CountAppend(Filter(front, p), x, r);
      assert Filter(front, p) + [] == Filter(front, p);
    }
  }

  lemma PurgeAccounts(v: View, w: View, p: Queued -> bool)
    requires v.ifs.WellFormed() && w == v.(box := Purged(v.box, p))
    ensures Accounts(v, w)
  {
    hide Resends, Sent, Count, Interfaces.WellFormed, Stands, Filter;
    forall r: Queued -> bool ensures Count(w.box.queue, r) <= Count(v.box.queue, r) {
      CountFilter(v.box.queue, p, r);
    }
  }

  /** Queueing one frame adds at most that frame to any count. */
  lemma CountEnqueue(b: Box, c: Box, ifs: Interfaces, depth: nat, id: byte, packet: Packet, reason: Reason,
                     lt: Lifetime, ok: bool, p: Queued -> bool)
    requires ifs.WellFormed() && Enqueues(b, c, ifs, depth, id, packet, reason, lt, ok)
    ensures Count(c.queue, p) <=
      Count(b.queue, p) + if ok && p(Queued(c.identity, id, packet, reason, lt, DeliveryFor(ifs, id))) then 1 else 0
  {
    hide Count, Interfaces.WellFormed, DeliveryFor;
    if ok && b.capacity > 0 {
      var row := Queued(c.identity, id, packet, reason, lt, DeliveryFor(ifs, id));
      var k: nat :| Displaced(b, ifs, depth, id, reason, k) && Admits(b, c, row, k);
      CountAppend(Drop(b.queue, k), row, p);
      if k < |b.queue| {
        CountDrop(b.queue, k, p);
      }
    }
  }

  lemma BumpSent(t: Tally, key: Hash, target: nat, k: Hash, s: nat)
    ensures Sent(Bump(t, key, target), k, s) == Sent(t, k, s) + if k == key && s == target then 1 else 0
  {
  }

  /** One rebroadcast queued, and one counted, for the same destination and a target that stands for its interface. */
  lemma SendAccounts(v: View, w: View, id: byte, packet: Packet, reason: Reason, lt: Lifetime, ok: bool, target: nat)
    requires v.ifs.WellFormed() && Enqueues(v.box, w.box, v.ifs, v.depth, id, packet, reason, lt, ok)
    requires w.sends == Bump(v.sends, packet.header.destination, target)
    requires reason.AnnounceRebroadcast? ==> if v.ifs.Endpoint? then target == 0 else Stands(v.ifs, target, Some(id))
    ensures Accounts(v, w)
  {
    hide Count, Bump, Sent, Enqueues;
    forall base: u64, key: Hash, s: nat, i | Stands(v.ifs, s, i)
      ensures Count(w.box.queue, Resends(base, key, i)) + Sent(v.sends, key, s) <=
              Count(v.box.queue, Resends(base, key, i)) + Sent(w.sends, key, s)
    {
      CountEnqueue(v.box, w.box, v.ifs, v.depth, id, packet, reason, lt, ok, Resends(base, key, i));
      BumpSent(v.sends, packet.header.destination, target, key, s);
    }
  }

  /** Rows queued since `v` against the rise of the tally. */
  ghost predicate Tallied(v: View, w: View) {
    && v.ifs.WellFormed()
    && forall key: Hash, target: nat, id ::
         Stands(v.ifs, target, id) ==>
           Count(w.box.queue, Resends(v.box.identity, key, id)) + Sent(v.sends, key, target) <= Sent(w.sends, key,
             target)
  }

  lemma AccountsTallied(v: View, w: View)
    requires Inv(v) && Accounts(v, w)
    ensures Tallied(v, w)
  {
    hide TabsOk, Evidenced, Thrifty, Paced, AllSealed, Numbered, Conserved, Isolated, FanoutShape, Sent, Count,
      Interfaces.WellFormed, Stands;
    forall key: Hash, target: nat, id | Stands(v.ifs, target, id)
      ensures Count(w.box.queue, Resends(v.box.identity, key, id)) + Sent(v.sends, key, target) <= Sent(w.sends, key,
        target)
    {
      CountSome(v.box.queue, Resends(v.box.identity, key, id));
    }
  }

  // --- Lifetimes of frames that name no entry ---------------------------------------------------

  /** Only a data packet that follows a route names a reverse entry, and only a link request a new link. */
  lemma GivenUntied(v: View, packet: Packet, reason: Reason, lt: Lifetime)
    requires v.ifs.WellFormed() && Given(v, packet, reason, lt) && !packet.header.flags.packetType.LinkRequest?
    requires packet.header.flags.packetType.Data? ==>
      !(packet.header.flags.destinationType.Single? && reason.TransportForward?)
    ensures !lt.state.ReverseOf?
  {
    hide Interfaces.WellFormed, Found, Interfaces.Bitrate;
  }

  /** Offering a frame that names no entry is a loose step. */
  lemma LooseOffers(v: View, w: View, id: byte, packet: Packet, reason: Reason)
    requires Inv(v) && Offers(v, v.box, w.box, id, packet, reason) && !packet.header.flags.packetType.LinkRequest?
    requires packet.header.flags.packetType.Data? ==>
      !(packet.header.flags.destinationType.Single? && reason.TransportForward?)
    ensures Loose(v.box, w.box)
  {
    hide Inv, Given, Enqueues, Accepts, Loose;
    assert v.ifs.WellFormed() by { WellFormedIn(v); }
    var lt :| Given(v, packet, reason, lt) &&
      Enqueues(v.box, w.box, v.ifs, v.depth, id, packet, reason, lt, Accepts(v.(box := v.box), id, packet, reason));
    GivenUntied(v, packet, reason, lt);
    LooseOffer(v, w, id, packet, reason, lt, Accepts(v.(box := v.box), id, packet, reason));
  }

  lemma WithinBox(v: View)
    requires Inv(v)
    ensures forall q :: q in v.box.queue ==> q.identity <= v.box.identity
  {
    hide TabsOk, Evidenced, Thrifty, Paced, AllSealed, Numbered, Conserved, Isolated, FanoutShape,
      Interfaces.WellFormed;
  }

  /** Queueing anything but a rebroadcast queues none. */
  lemma GatelessOffer(v: View, w: View, id: byte, packet: Packet, reason: Reason, lt: Lifetime, ok: bool)
    requires Inv(v) && Enqueues(v.box, w.box, v.ifs, v.depth, id, packet, reason, lt, ok) && !reason.Gated()
    ensures Gateless(v.box, w.box)
  {
    hide Inv, Displaced, DeliveryFor, Interfaces.WellFormed;
    WithinBox(v);
  }

  lemma GatelessOffers(v: View, w: View, id: byte, packet: Packet, reason: Reason)
    requires Inv(v) && Offers(v, v.box, w.box, id, packet, reason) && !reason.Gated()
    ensures Gateless(v.box, w.box)
  {
    hide Inv, Given, Enqueues, Accepts, Gateless;
    assert v.ifs.WellFormed() by { WellFormedIn(v); }
    var ok := Accepts(v.(box := v.box), id, packet, reason);
    var lt :| Given(v, packet, reason, lt) && Enqueues(v.box, w.box, v.ifs, v.depth, id, packet, reason, lt, ok);
    GatelessOffer(v, w, id, packet, reason, lt, ok);
  }

  // --- Steps of a tick --------------------------------------------------------------------------

  /** The reason a due announce is queued under; a blocked one answers a request. */
  function DueReason(row: ScheduleRow): Reason {
    if row.body.block then PathResponse else AnnounceRebroadcast
  }

  /** Whether a due announce has another round to go. */
  predicate Again(row: ScheduleRow) {
    !row.body.block && row.body.retries + 1 <= PATHFINDER_R
  }

  function NextDueTime(env: Env, transport: Hash, row: ScheduleRow, now: u64): (due: u64)
    ensures now < U64_MAX ==> now < due
    ensures due == U64_MAX || row.body.retries == 0
  {
    if Again(row) then SatAdd(SatAdd(now, PATHFINDER_G_MS),
      Jitter(env, HashOf(env, row.body.packet), transport, row.body.retries + 1))
    else U64_MAX
  }

  /** There is a live route to the announce's destination, learned from this very announce unless any will do. */
  ghost predicate Stays(v: View, row: ScheduleRow, any: bool, now: u64) {
    exists g ::
      && g in v.tabs.paths && v.tabs.paths[g].key == row.key && now < v.tabs.paths[g].expires
      && (any || HashOf(v.env, row.body.packet) == v.tabs.paths[g].body.packetHash)
  }

  /** An entry is scheduled again for another round, or for what it owes; otherwise it is done with. */
  ghost predicate Requeues(m: Schedule, capacity: nat, next: ScheduleRow, again: bool, now: u64, m': Schedule) {
    if again || next.body.pending != {} then Schedules(m, capacity, next, now, m') else m' == m
  }

  lemma RequeueDecided(m: Schedule, capacity: nat, next: ScheduleRow, again: bool, now: u64)
    ensures !again && next.body.pending == {} ==> Requeues(m, capacity, next, again, now, m)
    ensures again || next.body.pending != {} ==>
      forall m': Schedule :: Schedules(m, capacity, next, now, m') ==> Requeues(m, capacity, next, again, now, m')
  {
    hide Schedules;
  }

  /**
   What a due announce does: nothing once its route is gone; otherwise it is owed to its targets, or
   offered and counted, and put back for another round or for what it owes.
   */
  ghost predicate Processes(v: View, w: View, row: ScheduleRow, capacity: nat, now: u64) {
    && v.ifs.WellFormed()
    && if !Stays(v, row, row.body.block, now) then w == v
       else
         var owes := !row.body.block && v.ifs.Router?;
         var targets := if owes then v.ifs.Targets(row.body.interface) else {};
         var next := NextRound(row, owes, targets, NextDueTime(v.env, v.own.transport, row, now), now);
         && (if owes then w.box == v.box && w.sends == v.sends
             else w.sends == Bump(v.sends, row.key, 0) &&
                  Offers(v, v.box, w.box, row.body.interface, row.body.packet, DueReason(row)))
         && Requeues(v.tabs.schedule, capacity, next, Again(row), now, w.tabs.schedule)
  }

  lemma NotProcessed(v: View, row: ScheduleRow, capacity: nat, now: u64)
    requires v.ifs.WellFormed() && !Stays(v, row, row.body.block, now)
    ensures Processes(v, v, row, capacity, now)
  {
    hide Stays, Interfaces.WellFormed;
  }

  lemma Processed(v: View, w: View, x: View, row: ScheduleRow, capacity: nat, now: u64)
    requires v.ifs.WellFormed() && Stays(v, row, row.body.block, now)
    requires var owes := !row.body.block && v.ifs.Router?;
      if owes then w == v
      else
        && w == v.(box := w.box, sends := Bump(v.sends, row.key, 0))
        && Offers(v, v.box, w.box, row.body.interface, row.body.packet, DueReason(row))
    requires x == w.(tabs := w.tabs.(schedule := x.tabs.schedule))
    requires var owes := !row.body.block && v.ifs.Router?;
      var targets := if owes then v.ifs.Targets(row.body.interface) else {};
      var next := NextRound(row, owes, targets, NextDueTime(v.env, v.own.transport, row, now), now);
      Requeues(w.tabs.schedule, capacity, next, Again(row), now, x.tabs.schedule)
    ensures Processes(v, x, row, capacity, now)
  {
    hide Stays, Interfaces.WellFormed, Offers, Bump, NextRound, NextDueTime, Interfaces.Targets, Requeues;
  }

  lemma DueAccounts(v: View, w: View, row: ScheduleRow)
    requires v.ifs.WellFormed() && Announcing(row) && (v.ifs.Router? ==> row.body.block)
    requires Offers(v, v.box, w.box, row.body.interface, row.body.packet, DueReason(row))
    requires w.sends == Bump(v.sends, row.key, 0)
    ensures Accounts(v, w)
  {
    hide Given, Enqueues, Accepts, Accounts, Bump, Interfaces.WellFormed;
    var lt :| Given(v, row.body.packet, DueReason(row), lt) &&
      Enqueues(v.box, w.box, v.ifs, v.depth, row.body.interface, row.body.packet, DueReason(row), lt,
               Accepts(v.(box := v.box), row.body.interface, row.body.packet, DueReason(row)));
    SendAccounts(v, w, row.body.interface, row.body.packet, DueReason(row), lt,
                 Accepts(v.(box := v.box), row.body.interface, row.body.packet, DueReason(row)), 0);
  }

  lemma LooseStill(v: View, w: View)
    requires Inv(w) && w.box.identity == v.box.identity
    ensures Loose(v.box, w.box)
  {
    hide TabsOk, Evidenced, Thrifty, Paced, AllSealed, Numbered, Conserved, Isolated, FanoutShape, Untied,
      Interfaces.WellFormed;
  }

  lemma Resting(v: View, now: u64)
    requires Inv(v)
    ensures Follows(v, v, now) && Accounts(v, v) && Loose(v.box, v.box)
  {
    hide Inv, Follows, Accounts, Loose;
    WellFormedIn(v);
    FollowsReflexive(v, now);
    AccountsStill(v, v);
    LooseStill(v, v);
  }

  /** After a step that touches neither queue nor tally. */
  lemma AccountsOn(v: View, w: View, x: View)
    requires Accounts(v, w) && x.box == w.box && x.sends == w.sends
    ensures Accounts(v, x)
  {
    hide Resends, Sent, Count, Interfaces.WellFormed, Stands;
  }

  lemma AccountsBoth(v: View, w: View, x: View)
    requires Accounts(v, w) && Loose(v.box, w.box) && x == w.(tabs := x.tabs)
    ensures Accounts(v, x) && Loose(v.box, x.box)
  {
    hide Accounts, Loose;
    AccountsOn(v, w, x);
  }

  lemma AccountsMore(v: View, w: View, x: View, now: u64)
    requires Accounts(v, w) && Loose(v.box, w.box) && SameSlots(v.ifs, w.ifs)
    requires Accounts(w, x) && Loose(w.box, x.box) && Follows(w, x, now)
    ensures Accounts(v, x) && Loose(v.box, x.box)
  {
    hide Accounts, Loose, QueueFollows, PathsFollow, ReverseFollows, LinksFollow, DiscoveriesFollow, Reregisters,
      RoutesKeepInterfaces;
    AccountsTransitive(v, w, x);
    LooseTransitive(v.box, w.box, x.box);
  }

  // --- Releases ---------------------------------------------------------------------------------

  /** Nothing is released on a slot: it is empty, its gate is closed, or an announce waits for its interface. */
  ghost predicate Waits(v: View, slot: nat, now: u64) {
    && v.ifs.WellFormed() && v.ifs.Router? && slot < SLOTS
    && (v.ifs.At(slot).None? || now < v.ifs.GateAt(slot) || Count(v.box.queue, GatedTo(v.ifs.At(slot).value.id)) > 0)
  }

  /** The node once the gate of a slot has been charged for an announce of this size. */
  function Charged(v: View, slot: nat, size: nat, now: u64): View {
    if !v.ifs.Router? || slot >= |v.ifs.gates| || slot >= |v.ifs.registry| || slot >= |v.aired|
      || v.ifs.registry[slot].None? then v
    else
      var c := v.ifs.registry[slot].value;
      var pace := PaceOf(v.own.modem, c);
      v.(ifs := v.ifs.(gates := v.ifs.gates[slot := SatAdd(now, pace.Spacing(size, c.capPermille))]),
         aired := v.aired[slot := v.aired[slot] + [Release(now, pace.Work(size))]])
  }

  lemma ChargedParts(v: View, slot: nat, size: nat, now: u64)
    ensures var w := Charged(v, slot, size, now);
      && w == v.(ifs := w.ifs, aired := w.aired) && SameSlots(v.ifs, w.ifs) && w.ifs.Router? == v.ifs.Router?
  {
  }

  /** One owed announce offered to the interface of its slot; if it is admitted, the gate is charged for it. */
  ghost predicate Owes(v: View, w: View, row: ScheduleRow, slot: nat, target: InterfaceConfig, lt: Lifetime, ok: bool,
                       now: u64) {
    && v.ifs.WellFormed() && v.ifs.Router? && w.ifs.Router?
    && (ok <==> Takes(v, row.body.interface, target.id, row.body.packet, AnnounceRebroadcast))
    && Given(v, row.body.packet, AnnounceRebroadcast, lt)
    && Enqueues(v.box, w.box, v.ifs, v.depth, target.id, row.body.packet, AnnounceRebroadcast, lt, ok)
    && w == if ok then Charged(v.(box := w.box), slot, row.body.packet.Size() + target.tag, now) else v.(box := w.box)
  }

  /** A release is counted before it is queued, for its own destination and slot. */
  lemma OwedAccounts(v: View, w: View, x: View, y: View, row: ScheduleRow, slot: nat, target: InterfaceConfig,
                     lt: Lifetime, ok: bool, now: u64)
    requires Accounts(v, w) && w.ifs == v.ifs && w.box == v.box && Announcing(row)
    requires x.ifs == w.ifs && x.box == w.box && x.depth == w.depth && x.sends == Bump(w.sends, row.key, slot)
    requires Owes(x, y, row, slot, target, lt, ok, now) && slot < SLOTS && x.ifs.registry[slot] == Some(target)
    ensures Accounts(v, y) && SameSlots(v.ifs, y.ifs) && y.sends == x.sends
    ensures y.tabs == x.tabs && y.clock == x.clock && y.own == x.own && y.ifs.Router?
  {
    hide Given, Enqueues, Takes, Accounts, Bump, Interfaces.WellFormed, Charged;
    ChargedParts(x.(box := y.box), slot, row.body.packet.Size() + target.tag, now);
    var u := w.(box := y.box, sends := x.sends);
    SendAccounts(w, u, target.id, row.body.packet, AnnounceRebroadcast, lt, ok, slot);
    AccountsTransitive(v, w, u);
    AccountsOn(v, u, y);
  }

  lemma BumpAccounts(v: View, w: View, x: View, key: Hash, slot: nat)
    requires Accounts(v, w) && x.box == w.box && x.sends == Bump(w.sends, key, slot)
    ensures Accounts(v, x)
  {
    hide Resends, Count, Interfaces.WellFormed, Stands, Bump, Sent;
    forall k: Hash, s: nat ensures Sent(x.sends, k, s) >= Sent(w.sends, k, s) {
      BumpSent(w.sends, key, slot, k, s);
    }
  }

  // --- The log of releases ----------------------------------------------------------------------

  /** What a tick queues to each interface of a router is what it logs. */
  ghost predicate Airs(v: View, w: View, now: u64) {
    v.ifs.Router? ==> forall s: nat :: s < SLOTS ==> AirsSlot(v, w, s, now)
  }

  /** Nothing was queued to the interface of a slot, and nothing logged. */
  ghost predicate Unaired(v: View, w: View, s: nat) {
    && v.ifs.Router? && s < |v.ifs.registry| && s < |v.aired| && s < |w.aired| && w.aired[s] == v.aired[s]
    && (v.ifs.registry[s].Some? ==> forall q :: !NewGated(v, w, v.ifs.registry[s].value.id, q))
  }

  ghost predicate AirsBelow(v: View, w: View, n: nat, now: u64) {
    && (forall s: nat :: s < n ==> AirsSlot(v, w, s, now))
    && (forall s: nat :: n <= s < SLOTS ==> Unaired(v, w, s))
  }

  /** One rebroadcast is queued to the interface of a slot, and logged. */
  ghost predicate LetsThrough(v: View, w: View, slot: nat, c: InterfaceConfig, q: Queued, now: u64) {
    && v.ifs.Router? && slot < |v.ifs.registry| && slot < |v.aired| && v.ifs.registry[slot] == Some(c)
    && NewGated(v, w, c.id, q)
    && (forall r :: r in w.box.queue ==> r == q || r in v.box.queue)
    && (forall r :: r in v.box.queue && r.interface != c.id ==> r in w.box.queue)
    && w.aired == v.aired[slot := v.aired[slot] + [LoggedAs(v, c, q, now)]]
  }

  /** Nothing happens to queue and log, or one rebroadcast is let through. */
  ghost predicate LetsOne(v: View, w: View, slot: nat, now: u64) {
    || (w.aired == v.aired && w.box.queue == v.box.queue)
    || exists c, q :: LetsThrough(v, w, slot, c, q, now)
  }

  lemma LetsNothing(v: View, w: View, slot: nat, now: u64)
    requires w.aired == v.aired && w.box == v.box && w.ifs == v.ifs
    ensures LetsOne(v, w, slot, now) && SameSlots(v.ifs, w.ifs)
  {
  }

  lemma UngatedTransitive(u: View, v: View, w: View)
    requires Ungated(u, v) && Ungated(v, w) && QueueFollows(v.box, w.box) && u.ifs.Router? == v.ifs.Router?
    ensures Ungated(u, w)
  {
    forall q | u.ifs.Router? && q in w.box.queue && q.identity > u.box.identity ensures !q.reason.Gated() {
      if q.identity <= v.box.identity {
        var k :| 0 <= k < |w.box.queue| && w.box.queue[k] == q;
        assert Inherited(v.box.queue, w.box.queue[k]);
        var n :| 0 <= n < |v.box.queue| && Shrunk(v.box.queue[n], q);
        assert v.box.queue[n] in v.box.queue;
      }
    }
  }

  /** A router's due announce is owed, or answers a request: neither is a rebroadcast. */
  lemma DueUngated(v: View, w: View, row: ScheduleRow, capacity: nat, now: u64)
    requires Inv(v) && Processes(v, w, row, capacity, now)
    ensures Ungated(v, w)
  {
    hide Inv, Stays, Interfaces.WellFormed, Given, Enqueues, Accepts, Bump, NextRound, NextDueTime, Requeues,
      Interfaces.Targets;
    if v.ifs.Router? {
      if !Stays(v, row, row.body.block, now) || !row.body.block {
        WithinBox(v);
      } else {
        var ok := Accepts(v.(box := v.box), row.body.interface, row.body.packet, PathResponse);
        var lt :| Given(v, row.body.packet, PathResponse, lt) &&
          Enqueues(v.box, w.box, v.ifs, v.depth, row.body.interface, row.body.packet, PathResponse, lt, ok);
        GatelessOffer(v, w, row.body.interface, row.body.packet, PathResponse, lt, ok);
      }
    }
  }

  /** An owed announce that is admitted is the one row let through. */
  lemma OwedLets(v: View, x: View, y: View, row: ScheduleRow, slot: nat, target: InterfaceConfig, lt: Lifetime,
                 ok: bool, now: u64)
    requires Inv(x) && x.box == v.box && x.aired == v.aired && x.ifs == v.ifs && x.own == v.own && slot < SLOTS
    requires Owes(x, y, row, slot, target, lt, ok, now) && x.ifs.registry[slot] == Some(target)
    ensures LetsOne(v, y, slot, now)
  {
    hide Inv, Interfaces.WellFormed, Given, Takes, DeliveryFor, Enqueues;
    WithinBounds(x);
    if !ok {
      assert y.box.queue == x.box.queue by { Refused(x.box, y.box, x.ifs, x.depth, target.id, row.body.packet, lt); }
    } else {
      var delivery := DeliveryFor(x.ifs, target.id);
      var q := Queued(y.box.identity, target.id, row.body.packet, AnnounceRebroadcast, lt, delivery);
      AdmittedRow(x.box, y.box, x.ifs, x.depth, target.id, row.body.packet, lt);
      assert LetsThrough(v, y, slot, target, q, now);
    }
  }

  lemma WithinBounds(v: View)
    requires Inv(v)
    ensures v.ifs.WellFormed() && |v.box.queue| <= v.box.capacity
    ensures v.ifs.Router? ==> |v.aired| == |v.ifs.registry| == |v.ifs.gates| == SLOTS
  {
    hide TabsOk, Evidenced, Thrifty, AllSealed, Numbered, Conserved, Isolated, FanoutShape, InStep;
  }

  lemma Refused(b: Box, c: Box, ifs: Interfaces, depth: nat, id: byte, packet: Packet, lt: Lifetime)
    requires ifs.WellFormed() && Enqueues(b, c, ifs, depth, id, packet, AnnounceRebroadcast, lt, false)
    ensures c.queue == b.queue
  {
    hide Interfaces.WellFormed;
  }

  lemma AdmittedRow(b: Box, c: Box, ifs: Interfaces, depth: nat, id: byte, packet: Packet, lt: Lifetime)
    requires ifs.WellFormed() && ifs.Router? && |b.queue| <= b.capacity
    requires Enqueues(b, c, ifs, depth, id, packet, AnnounceRebroadcast, lt, true)
    ensures var q := Queued(c.identity, id, packet, AnnounceRebroadcast, lt, DeliveryFor(ifs, id));
      && q in c.queue && c.identity == b.identity + 1
      && (forall r :: r in c.queue ==> r == q || r in b.queue)
      && (forall r :: r in b.queue && r.interface != id ==> r in c.queue)
  {
    hide Interfaces.WellFormed, DeliveryFor, Count, Interfaces.Config, Drop;
    var q := Queued(c.identity, id, packet, AnnounceRebroadcast, lt, DeliveryFor(ifs, id));
    var k: nat :| Displaced(b, ifs, depth, id, AnnounceRebroadcast, k) && Admits(b, c, q, k);
    assert c.queue == Drop(b.queue, k) + [q];
    DroppedMembers(b.queue, k, q);
  }

  /** One row goes and one comes. */
  lemma DroppedMembers(queue: seq<Queued>, k: nat, q: Queued)
    requires k <= |queue|
    ensures var next := Drop(queue, k) + [q];
      && q in next && (forall r :: r in next ==> r == q || r in queue)
      && (forall r :: r in queue ==> r in next || (k < |queue| && r == queue[k]))
  {
    var next := Drop(queue, k) + [q];
    assert next[|next| - 1] == q;
    forall r | r in queue ensures r in next || (k < |queue| && r == queue[k]) {
      var j :| 0 <= j < |queue| && queue[j] == r;
      assert j == k || next[if j < k then j else j - 1] == r;
    }
  }

  /** A release on one slot leaves the other slots' interfaces and logs alone. */
  lemma AirsNext(v: View, w: View, x: View, slot: nat, now: u64)
    requires v.ifs.WellFormed() && v.ifs.Router? && slot < SLOTS && |w.aired| == SLOTS
    requires AirsBelow(v, w, slot, now) && LetsOne(w, x, slot, now) && SameSlots(v.ifs, w.ifs)
    requires w.own == v.own && v.box.identity <= w.box.identity
    ensures AirsBelow(v, x, slot + 1, now)
  {
    if w.aired == x.aired && x.box.queue == w.box.queue {
      forall s: nat | s < SLOTS ensures s <= slot ==> AirsSlot(v, x, s, now)
        ensures s > slot ==> Unaired(v, x, s)
      {
        AirsSame(v, w, x, s, now);
        assert Unaired(v, w, slot);
      }
    } else {
      var c, q :| LetsThrough(w, x, slot, c, q, now);
      forall s: nat | s < SLOTS ensures s <= slot ==> AirsSlot(v, x, s, now)
        ensures s > slot ==> Unaired(v, x, s)
      {
        assert s >= slot ==> Unaired(v, w, s);
        if s == slot {
          AirsThis(v, w, x, slot, c, q, now);
        } else {
          AirsOther(v, w, x, slot, c, q, s, now);
        }
      }
    }
  }

  lemma AirsSame(v: View, w: View, x: View, s: nat, now: u64)
    requires x.aired == w.aired && x.box.queue == w.box.queue
    ensures AirsSlot(v, w, s, now) || Unaired(v, w, s) ==> AirsSlot(v, x, s, now)
    ensures Unaired(v, w, s) ==> Unaired(v, x, s)
  {
    hide LoggedAs;
    assert forall id: byte, q :: NewGated(v, x, id, q) <==> NewGated(v, w, id, q);
  }

  lemma AirsThis(v: View, w: View, x: View, slot: nat, c: InterfaceConfig, q: Queued, now: u64)
    requires LetsThrough(w, x, slot, c, q, now) && Unaired(v, w, slot) && SameSlots(v.ifs, w.ifs)
    requires w.own == v.own && v.box.identity <= w.box.identity
    ensures AirsSlot(v, x, slot, now)
  {
    assert NewGated(v, x, c.id, q);
  }

  lemma AirsOther(v: View, w: View, x: View, slot: nat, c: InterfaceConfig, q: Queued, s: nat, now: u64)
    requires v.ifs.WellFormed() && LetsThrough(w, x, slot, c, q, now) && SameSlots(v.ifs, w.ifs)
    requires s < SLOTS && s != slot && slot < SLOTS && |w.aired| == SLOTS
    ensures AirsSlot(v, w, s, now) ==> AirsSlot(v, x, s, now)
    ensures Unaired(v, w, s) ==> Unaired(v, x, s)
  {
    hide LoggedAs;
    assert forall id: byte, r :: id != c.id ==> (NewGated(v, x, id, r) <==> NewGated(v, w, id, r));
  }

  lemma AirsAll(v: View, w: View, now: u64)
    requires AirsBelow(v, w, SLOTS, now)
    ensures Airs(v, w, now)
  {
    hide AirsSlot, Unaired;
  }

  lemma IdentitiesOnly(v: View, w: View, now: u64)
    requires Follows(v, w, now)
    ensures v.box.identity <= w.box.identity && QueueFollows(v.box, w.box)
  {
    hide PathsFollow, ReverseFollows, LinksFollow, DiscoveriesFollow, Reregisters, RoutesKeepInterfaces;
  }

  lemma UngatedSame(v: View, w: View, x: View)
    requires Ungated(v, w) && x.box == w.box
    ensures Ungated(v, x)
  {
  }

  lemma UngatedSince(v: View, w: View, x: View, now: u64)
    requires Ungated(v, w) && Ungated(w, x) && Follows(w, x, now) && v.ifs == w.ifs
    ensures Ungated(v, x)
    ensures w.box.identity <= x.box.identity
  {
    hide Ungated, Follows, QueueFollows;
    IdentitiesOnly(w, x, now);
    UngatedTransitive(v, w, x);
  }

  lemma UngatedMore(v: View, w: View, x: View, y: View, row: ScheduleRow, capacity: nat, now: u64)
    requires Ungated(v, w) && x.box == w.box && v.ifs == x.ifs
    requires Inv(x) && Processes(x, y, row, capacity, now) && Follows(x, y, now)
    ensures Ungated(v, y)
  {
    hide Ungated, Follows, Inv, Processes;
    DueUngated(x, y, row, capacity, now);
    UngatedSame(v, w, x);
    UngatedSince(v, x, y, now);
  }

  lemma UngatedUnaired(v: View, w: View, now: u64)
    requires v.ifs.WellFormed() && v.ifs.Router? && Ungated(v, w) && w.aired == v.aired && |v.aired| == SLOTS
    ensures AirsBelow(v, w, 0, now)
  {
  }

  // --- A whole tick -----------------------------------------------------------------------------

  /** The tables once everything expired has gone; the schedule is dealt with after that. */
  ghost predicate Expires(v: View, t: Tabs, now: u64) {
    && t.paths == LiveAt(v.tabs.paths, now) && t.lastPath == v.tabs.lastPath
    && t.reverse == LiveAt(v.tabs.reverse, now) && t.lastReverse == v.tabs.lastReverse
    && t.links == LiveAt(v.tabs.links, now) && t.lastLink == v.tabs.lastLink
    && t.disc == (if v.enabled then LiveAt(v.tabs.disc, now) else map[]) && t.lastDisc == v.tabs.lastDisc
    && t.hashes == LiveRows(v.tabs.hashes, now)
  }

  lemma Swept(v: View, x: View, y: View, now: u64)
    requires v.ifs.WellFormed() && Inv(y) && x.ifs == v.ifs && x.box == v.box && x.sends == v.sends
    requires y == x.(box := Purged(x.box, LiveIn(x, now))) && y.box.identity == x.box.identity
    ensures Accounts(v, y) && Loose(v.box, y.box)
  {
    hide Inv, Accounts, Loose, Purged, LiveIn, Interfaces.WellFormed;
    PurgeAccounts(x, y, LiveIn(x, now));
    LooseStill(v, y);
    AccountsFrom(v, x, y);
  }

  lemma AccountsFrom(v: View, w: View, x: View)
    requires Accounts(w, x) && v.ifs == w.ifs && v.box == w.box && v.sends == w.sends
    ensures Accounts(v, x)
  {
    hide Resends, Sent, Count, Interfaces.WellFormed, Stands;
  }

  lemma AirsLogs(v: View, w: View, now: u64)
    requires Inv(v) && Airs(v, w, now)
    ensures Logs(v, w, now)
  {
    hide TabsOk, Evidenced, Thrifty, AllSealed, Numbered, BoxOk, Paced, AirsSlot;
  }

  lemma Ticked(v: View, x: View, w: View, now: u64)
    requires Inv(v) && Accounts(v, w) && Loose(v.box, w.box)
    requires w.tabs == x.tabs.(schedule := w.tabs.schedule) && x.tabs.lastReverse == v.tabs.lastReverse
    requires x.tabs.lastLink == v.tabs.lastLink && w.history == v.history && Submap(v.tabs.links, x.tabs.links)
    requires Airs(v, w, now)
    ensures Tallied(v, w) && Paired(v, w) && Witnessed(v, w, now) && Logs(v, w, now)
  {
    hide Inv, Accounts, Loose, Tallied, Paired, Witnessed, Airs, Logs;
    AirsLogs(v, w, now);
    AccountsTallied(v, w);
    LoosePaired(v, w);
    SteadyWitnessed(v, w, now);
  }

  /** `request_path`: the request is offered to the queue once dead rows are gone, and no table changes. */
  ghost predicate Asks(v: View, w: View, destination: Hash, tag: Bytes, id: byte, ok: bool, now: u64) {
    && v.ifs.WellFormed() && |tag| <= 16
    && var u := v.(clock := now);
    var x := u.(box := Purged(v.box, LiveIn(u, now)));
    var request := PathRequestPacket(v.env, destination, tag, if v.enabled then Some(v.own.transport) else None);
    && w == x.(box := w.box) && Offers(x, x.box, w.box, id, request, PathRequest)
    && (ok <==> Accepts(x, id, request, PathRequest))
  }

  lemma GatelessLogs(x: View, v: View, w: View, now: u64)
    requires Inv(x) && x.ifs == v.ifs && x.aired == v.aired && w.aired == v.aired
    requires Gateless(x.box, w.box) && x.box.identity == v.box.identity
    ensures Logs(v, w, now)
  {
    hide Inv;
    SameLogsStay(x, w);
    assert forall s: nat :: StaysRegistered(v, w, s) ==> StaysRegistered(x, w, s);
    UngatedLogs(v, w, now);
  }

  lemma AskedPaired(v: View, x: View, w: View, destination: Hash, tag: Bytes, id: byte, now: u64)
    requires Inv(x) && |tag| <= 16 && w == x.(box := w.box) && x.box.identity == v.box.identity
    requires x.history == v.history && x.tabs.links == v.tabs.links && x.aired == v.aired && x.ifs == v.ifs
    requires x.tabs.lastReverse == v.tabs.lastReverse && x.tabs.lastLink == v.tabs.lastLink
    requires var request := PathRequestPacket(x.env, destination, tag,
                                              if x.enabled then Some(x.own.transport) else None);
      Offers(x, x.box, w.box, id, request, PathRequest)
    ensures Paired(v, w) && Witnessed(v, w, now) && Logs(v, w, now)
  {
    hide Inv, Offers, Loose, Paired, Witnessed, Gateless, Logs;
    SteadyWitnessed(v, w, now);
    var request := PathRequestPacket(x.env, destination, tag, if x.enabled then Some(x.own.transport) else None);
    LooseOffers(x, w, id, request, PathRequest);
    assert Loose(v.box, w.box) by { LooseSame(v.box, x.box, w.box); }
    LoosePaired(v, w);
    GatelessOffers(x, w, id, request, PathRequest);
    GatelessLogs(x, v, w, now);
  }

  lemma LooseSame(a: Box, b: Box, c: Box)
    requires Loose(b, c) && a.identity == b.identity
    ensures Loose(a, c)
  {
  }
}
