/** Steps that change the interfaces of a node, and why each keeps the invariant. */
module NodeRegistry {
  import opened Base
  import opened Rows
  import opened Generations
  import opened RowTables
  import opened Announces
  import opened Interfaces
  import opened Discovery
  import opened Rebroadcast
  import opened AnnounceCap
  import opened NodeState
  import opened Outbound
  import opened Tables
  import opened NodeInvariants
  import opened NodeSteps
  import opened NodeEffects

  /** Two routers that agree on every interface but `id`. */
  ghost predicate AgreeBut(v: Interfaces, w: Interfaces, id: byte) {
    && v.WellFormed() && w.WellFormed() && v.Router? && w.Router? && v.last <= w.last
    && forall other: byte :: other != id ==>
         w.Config(other) == v.Config(other) && w.Generation(other) == v.Generation(other)
  }

  /** Entries that avoid `id` see the same interfaces. */
  lemma AvoidingRoutes(v: View, w: View, id: byte)
    requires AgreeBut(v.ifs, w.ifs, id) && Routed(v.ifs, w.tabs)
    requires forall g :: g in w.tabs.paths ==> w.tabs.paths[g].body.interface != id
    requires forall g ::
      g in w.tabs.reverse ==> w.tabs.reverse[g].body.receiving != id && w.tabs.reverse[g].body.outbound != id
    requires forall g ::
      g in w.tabs.links ==> w.tabs.links[g].body.receiving != id && w.tabs.links[g].body.outbound != id
    ensures Routed(w.ifs, w.tabs) && RoutesKeepInterfaces(v, w)
  {
    hide Interfaces.WellFormed, Interfaces.Config, Interfaces.Generation;
  }

  /** Rows of other interfaces keep their registration and their shares. */
  lemma AvoidingRows(v: Interfaces, w: Interfaces, b: Box, depth: nat, id: byte)
    requires AgreeBut(v, w, id) && Isolated(b, v, depth)
    requires forall k :: 0 <= k < |b.queue| ==> b.queue[k].interface != id
    ensures Isolated(b, w, depth)
  {
    hide Interfaces.WellFormed, Interfaces.Config, Interfaces.Generation, Count;
    CountSome(b.queue, To(id));
    forall other: byte
      ensures w.Config(other).Some? ==> Count(b.queue, To(other)) <= w.Config(other).value.depth
      ensures Count(b.queue, GatedTo(other)) <= 1
    {
      assert v.Config(other).Some? ==> Count(b.queue, To(other)) <= v.Config(other).value.depth;
      assert Count(b.queue, GatedTo(other)) <= 1;
    }
  }

  // --- Registering ------------------------------------------------------------------------------

  /** What the tables forget about a slot: who waits at it, and what is owed to it. */
  ghost predicate ForgetsSlot(t: Tabs, t': Tabs, slot: nat) {
    && t' == t.(disc := t'.disc, schedule := RowsTransformed(t.schedule, Unowed(slot)))
    && t'.disc == (if slot < REQUESTERS then Transformed(t.disc, Struck(slot)) else t.disc)
    && Awaited(t'.disc)
  }

  /** Nobody waits at a slot that was forgotten and nothing is owed to it; everybody else still waits. */
  lemma SlotIsForgotten(t: Tabs, t': Tabs, slot: nat)
    requires ForgetsSlot(t, t', slot) && slot < REQUESTERS
    ensures forall g :: g in t'.disc ==> slot !in t'.disc[g].body
    ensures forall k :: k in t'.schedule ==> slot !in t'.schedule[k].body.pending
    ensures forall g, s :: g in t.disc && s in t.disc[g].body && s != slot ==> g in t'.disc && s in t'.disc[g].body
    ensures forall k, s :: k in t.schedule && s in t.schedule[k].body.pending && s != slot ==>
      k in t'.schedule && s in t'.schedule[k].body.pending
  {
    hide Awaited;
    forall g, s | g in t.disc && s in t.disc[g].body && s != slot
      ensures g in t'.disc && s in t'.disc[g].body
    {
      assert s in t.disc[g].body - {slot};
    }
    forall k, s | k in t.schedule && s in t.schedule[k].body.pending && s != slot
      ensures k in t'.schedule && s in t'.schedule[k].body.pending
    {
      assert s in t.schedule[k].body.pending - {slot};
    }
  }

  lemma ForgettingTabs(env: Env, ifs: Interfaces, t: Tabs, t': Tabs, slot: nat, time: u64)
    requires ifs.WellFormed() && TabsOk(env, ifs, t) && ForgetsSlot(t, t', slot)
    ensures TabsOk(env, ifs, t') && TabsFollow(t, t', time) && Spends(t.schedule, t'.schedule)
  {
    hide Interfaces.WellFormed, Routed, CacheAgrees, Minted, TabsFollow;
    KeptSpends(t.schedule, t'.schedule);
    ShrinkingTabs(env, ifs, t, t', time);
  }

  lemma NoRowsOffline(v: View, id: byte)
    requires Inv(v) && v.ifs.Router? && !v.ifs.Online(id)
    ensures forall k :: 0 <= k < |v.box.queue| ==> v.box.queue[k].interface != id
  {
    hide Interfaces.WellFormed, TabsOk, AllSealed, Evidenced, Thrifty, Paced, Numbered, Ordered, Conserved, Shared;
    forall k | 0 <= k < |v.box.queue| ensures v.box.queue[k].interface != id {
      assert Current(v.box.queue[k], v.ifs);
    }
  }

  lemma NoRoutesDown(v: View, id: byte)
    requires Inv(v) && !Up(v.ifs, id)
    ensures forall g :: g in v.tabs.paths ==> v.tabs.paths[g].body.interface != id
    ensures forall g ::
      g in v.tabs.reverse ==> v.tabs.reverse[g].body.receiving != id && v.tabs.reverse[g].body.outbound != id
    ensures forall g ::
      g in v.tabs.links ==> v.tabs.links[g].body.receiving != id && v.tabs.links[g].body.outbound != id
  {
    hide Interfaces.WellFormed, Up, AllSealed, Evidenced, Thrifty, Paced, Numbered, BoxOk, CacheAgrees, Minted,
      WellScheduled;
  }

  /** An interface that is not up gets a registration; nothing queued or recorded concerns it. */
  lemma ReregisteredStep(v: View, w: View, id: byte, slot: nat, time: u64)
    requires Inv(v) && AgreeBut(v.ifs, w.ifs, id) && Reregisters(v.ifs, w.ifs) && !Up(v.ifs, id)
    requires w == v.(ifs := w.ifs, aired := w.aired, tabs := w.tabs) && Paced(w.own.modem, w.ifs, w.aired)
    requires w.ifs.Config(id).Some? && w.ifs.Generation(id) > 0
    requires w.tabs == v.tabs || ForgetsSlot(v.tabs, w.tabs, slot)
    ensures Inv(w) && Follows(v, w, time)
  {
    hide Interfaces.WellFormed, Interfaces.Config, Interfaces.Generation, TabsOk, AllSealed, Evidenced, Thrifty, Paced,
      Ordered, Conserved, Isolated, TabsFollow, Reregisters, RoutesKeepInterfaces, QueueFollows, Follows, Routed;
    NoRowsOffline(v, id);
    NoRoutesDown(v, id);
    if w.tabs == v.tabs {
      TabsFollowReflexive(v.tabs, time);
    } else {
      ForgettingTabs(v.env, v.ifs, v.tabs, w.tabs, slot, time);
      SpendingKeeps(v.sends, v.tabs.schedule, w.tabs.schedule);
    }
    RoutedIn(v.env, v.ifs, w.tabs);
    AvoidingRoutes(v, w, id);
    TabsOkElsewhere(v.env, v.ifs, w.ifs, w.tabs);
    AvoidingRows(v.ifs, w.ifs, v.box, v.depth, id);
    QueueFollowsReflexive(v.box);
    assert AllSealed(w) by { SealedUnder(v, w); }
    RegistryStep(v, w, time);
  }

  lemma RoutedIn(env: Env, ifs: Interfaces, t: Tabs)
    requires ifs.WellFormed() && TabsOk(env, ifs, t)
    ensures Routed(ifs, t)
  {
    hide Routed, CacheAgrees, Minted, WellScheduled, Awaited, Interfaces.WellFormed;
  }

  /** Registration counters only go up, too. */
  lemma SealedUnder(v: View, w: View)
    requires AllSealed(v) && v.ifs.Router? && w.ifs.Router? && v.ifs.last <= w.ifs.last
    requires v.tabs.lastPath <= w.tabs.lastPath && v.tabs.lastReverse <= w.tabs.lastReverse
    requires v.tabs.lastLink <= w.tabs.lastLink && v.tabs.lastDisc <= w.tabs.lastDisc
    requires forall q :: q in w.box.queue ==> q in v.box.queue
    ensures AllSealed(w)
  {
    forall k | 0 <= k < |w.box.queue| ensures Sealed(w, w.box.queue[k].lifetime, w.box.queue[k].delivery) {
      assert w.box.queue[k] in w.box.queue;
    }
  }

  // --- Retiring ---------------------------------------------------------------------------------

  /** The tables once an interface is gone: nothing waits at its slot, is owed to it, or goes through it. */
  ghost predicate Forgets(t: Tabs, t': Tabs, id: byte, slot: nat, now: u64) {
    exists m :: ForgetsSlot(t, m, slot) && DropsInterface(m, t', id, now)
  }

  ghost predicate DropsInterface(t: Tabs, t': Tabs, id: byte, now: u64) {
    var kept := Without(t.paths, ViaPath(id));
    t' == t.(paths := kept, reverse := Without(t.reverse, ViaReverse(id)), links := Without(t.links, ViaLink(id)),
             schedule := RowsWithout(t.schedule, FromInterface(id)), cache := Retained(t.cache, kept, now))
  }

  lemma DroppingTabs(env: Env, ifs: Interfaces, t: Tabs, t': Tabs, id: byte, now: u64, time: u64)
    requires ifs.WellFormed() && TabsOk(env, ifs, t) && DropsInterface(t, t', id, now)
    ensures TabsOk(env, ifs, t') && TabsFollow(t, t', time) && Spends(t.schedule, t'.schedule) && Shrinks(t, t')
    ensures forall g :: g in t'.paths ==> t'.paths[g].body.interface != id
    ensures forall g :: g in t'.reverse ==> t'.reverse[g].body.receiving != id && t'.reverse[g].body.outbound != id
    ensures forall g :: g in t'.links ==> t'.links[g].body.receiving != id && t'.links[g].body.outbound != id
  {
    hide Interfaces.WellFormed, Routed, CacheAgrees, Minted, TabsFollow;
    KeptSpends(t.schedule, t'.schedule);
    ShrinkingTabs(env, ifs, t, t', time);
  }

  /** A row that is live has a registration and can be sent, so rows that survive a retirement are someone else's. */
  lemma SurvivingRows(v: View, x: View, c: Box, id: byte, now: u64)
    requires v.ifs.WellFormed() && AgreeBut(v.ifs, x.ifs, id) && !x.ifs.Online(id) && BoxOk(v) && x.depth == v.depth
    requires c == Purged(v.box, LiveIn(x, now))
    ensures Ordered(c, v.clock) && Conserved(c) && Isolated(c, x.ifs, v.depth) && QueueFollows(v.box, c)
    ensures forall q :: q in c.queue ==> q in v.box.queue
  {
    hide Ordered, Conserved, Isolated, QueueFollows, Purged, Interfaces.WellFormed, Interfaces.Config,
      Interfaces.Generation, PathIsLive, DependencyIsLive;
    PurgeKeeps(v.box, LiveIn(x, now), v.ifs, v.depth, v.clock);
    forall k | 0 <= k < |c.queue| ensures c.queue[k].interface != id {
      assert c.queue[k] in c.queue;
      assert LiveIn(x, now)(c.queue[k]);
    }
    AvoidingRows(v.ifs, x.ifs, c, v.depth, id);
  }

  /** An interface goes down or away, and with it everything that depends on it. */
  lemma RetiredStep(v: View, x: View, w: View, id: byte, slot: nat, time: u64)
    requires Inv(v) && AgreeBut(v.ifs, x.ifs, id) && Reregisters(v.ifs, x.ifs) && !Up(x.ifs, id)
    requires x == v.(ifs := x.ifs, aired := x.aired, tabs := x.tabs) && Paced(x.own.modem, x.ifs, x.aired)
    requires Forgets(v.tabs, x.tabs, id, slot, v.clock)
    requires w == x.(box := Purged(x.box, LiveIn(x, x.clock)))
    ensures Inv(w) && Follows(v, w, time)
  {
    hide Interfaces.WellFormed, Interfaces.Config, Interfaces.Generation, TabsOk, AllSealed, Evidenced, Thrifty, Paced,
      Ordered, Conserved, Isolated, TabsFollow, Reregisters, RoutesKeepInterfaces, QueueFollows, Follows, Routed,
      ForgetsSlot, DropsInterface, Shrinks, Purged, LiveIn;
    var m :| ForgetsSlot(v.tabs, m, slot) && DropsInterface(m, x.tabs, id, v.clock);
    ForgettingTabs(v.env, v.ifs, v.tabs, m, slot, time);
    DroppingTabs(v.env, v.ifs, m, x.tabs, id, v.clock, time);
    TabsFollowTransitive(v.tabs, m, x.tabs, time);
    SpendingKeeps(v.sends, v.tabs.schedule, m.schedule);
    SpendingKeeps(v.sends, m.schedule, x.tabs.schedule);
    RoutedIn(v.env, v.ifs, x.tabs);
    AvoidingRoutes(v, w, id);
    TabsOkElsewhere(v.env, v.ifs, x.ifs, x.tabs);
    SurvivingRows(v, x, w.box, id, x.clock);
    SameLasts(v.tabs, m, x.tabs, id, slot, v.clock);
    assert AllSealed(w) by { SealedUnder(v, w); }
    LinksGo(v, m, x.tabs, id, slot);
    RegistryStep(v, w, time);
  }

  lemma SameLasts(t: Tabs, m: Tabs, t': Tabs, id: byte, slot: nat, now: u64)
    requires ForgetsSlot(t, m, slot) && DropsInterface(m, t', id, now)
    ensures t'.lastPath == t.lastPath && t'.lastReverse == t.lastReverse && t'.lastLink == t.lastLink
    ensures t'.lastDisc == t.lastDisc
    ensures t.disc == map[] ==> t'.disc == map[]
  {
  }

  lemma LinksGo(v: View, m: Tabs, t: Tabs, id: byte, slot: nat)
    requires Evidenced(v.env, v.tabs.links, v.history, v.evidence) && ForgetsSlot(v.tabs, m, slot)
    requires DropsInterface(m, t, id, v.clock)
    ensures Evidenced(v.env, t.links, v.history, v.evidence)
  {
    hide Evidenced;
    EvidenceKept(v.env, v.tabs.links, t.links, v.history, [], v.evidence);
    assert v.history + [] == v.history;
  }

  // --- Starting over ----------------------------------------------------------------------------

  ghost predicate Emptied(t: Tabs, t': Tabs) {
    t' == t.(paths := map[], reverse := map[], links := map[], disc := map[], cache := map[], schedule := map[],
      hashes := map[])
  }

  lemma EmptiedLasts(t: Tabs, t': Tabs)
    requires Emptied(t, t')
    ensures t'.lastReverse == t.lastReverse && t'.lastLink == t.lastLink && t'.lastPath == t.lastPath
    ensures Submap(t.links, t'.links)
  {
  }

  lemma EmptiedTabs(env: Env, ifs: Interfaces, t: Tabs, t': Tabs, time: u64)
    requires ifs.WellFormed() && Emptied(t, t')
    ensures TabsOk(env, ifs, t') && TabsFollow(t, t', time) && Thrifty(map[], t'.schedule)
  {
    hide Interfaces.WellFormed, HashOf;
  }

  /** A reset forgets everything but the incarnation counters, under a new registration epoch. */
  lemma ResetStep(v: View, w: View, time: u64)
    requires Inv(v) && w.env == v.env && w.ifs.WellFormed() && Numbered(w.ifs) && Reregisters(v.ifs, w.ifs)
    requires Emptied(v.tabs, w.tabs)
    requires w.box == v.box.(queue := [], queued := 0, dropped := 0, handed := 0, lost := 0, refused := 0)
    requires w.sends == map[] && Paced(w.own.modem, w.ifs, w.aired)
    ensures Inv(w) && Follows(v, w, time)
  {
    hide Interfaces.WellFormed, Interfaces.Config, Interfaces.Generation, Paced, Reregisters, Numbered, TabsOk,
      TabsFollow, Thrifty, Attests;
    EmptiedTabs(w.env, w.ifs, v.tabs, w.tabs, time);
    RegistryStep(v, w, time);
  }

  /** A log that starts anew with its registration leaves the others alone. */
  lemma OneLogStarts(v: View, w: View, slot: nat)
    requires Inv(v) && w.aired == (if slot < |v.aired| then v.aired[slot := []] else v.aired)
    requires !StaysRegistered(v, w, slot)
    ensures LogsStay(v, w)
  {
    hide TabsOk, BoxOk, AllSealed, Evidenced, Thrifty, Numbered;
  }

  /** After a reset every interface is registered anew. */
  lemma AllLogsStart(v: View, w: View)
    requires Inv(v) && w.ifs.WellFormed()
    requires v.ifs.Router? && w.ifs.Router? ==>
      forall id: byte :: w.ifs.Generation(id) == 0 || w.ifs.Generation(id) > v.ifs.last
    ensures LogsStay(v, w)
  {
    hide TabsOk, BoxOk, AllSealed, Evidenced, Thrifty, Numbered, Paced;
    forall s: nat ensures !StaysRegistered(v, w, s) {
      GenerationAt(w.ifs, s);
    }
  }

  lemma GenerationAt(ifs: Interfaces, s: nat)
    requires ifs.WellFormed()
    ensures ifs.Router? && s < SLOTS && ifs.registry[s].Some? ==>
      ifs.Generation(ifs.registry[s].value.id) == ifs.generations[s]
  {
  }

  lemma RegisteredIfs(v: View, w: Interfaces, aired: seq<seq<Release>>, c: InterfaceConfig, slot: nat)
    requires Inv(v) && v.ifs.Router? && Register(v.ifs, c) == Some(w) && slot == w.Slot(c.id)
    requires aired == if slot < |v.aired| then v.aired[slot := []] else v.aired
    ensures AgreeBut(v.ifs, w, c.id) && Reregisters(v.ifs, w) && !Up(v.ifs, c.id) && Paced(v.own.modem, w, aired)
    ensures w.Config(c.id) == Some(c) && v.ifs.Config(c.id).None? && w.Generation(c.id) > v.ifs.last
    ensures Awaited(v.tabs.disc) && WellScheduled(v.tabs.schedule)
    ensures slot < SLOTS && w.registry[slot] != v.ifs.registry[slot]
  {
    hide Routed, CacheAgrees, Minted, BoxOk, AllSealed, Evidenced, Thrifty, Numbered, Interfaces.Slot;
  }

  lemma RetiredIfs(v: View, w: Interfaces, aired: seq<seq<Release>>, entry: Option<InterfaceConfig>, slot: nat)
    requires Inv(v) && v.ifs.Router? && slot < SLOTS && v.ifs.registry[slot].Some?
    requires entry.Some? ==> entry.value.id == v.ifs.registry[slot].value.id && !entry.value.online
    requires w == Retire(v.ifs, slot, entry) && aired == if slot < |v.aired| then v.aired[slot := []] else v.aired
    ensures AgreeBut(v.ifs, w, v.ifs.registry[slot].value.id) && Reregisters(v.ifs, w)
    ensures !Up(w, v.ifs.registry[slot].value.id)
    ensures Paced(v.own.modem, w, aired) && Awaited(v.tabs.disc) && WellScheduled(v.tabs.schedule)
  {
    hide Routed, CacheAgrees, Minted, BoxOk, AllSealed, Evidenced, Thrifty, Numbered, Interfaces.Slot;
  }

  lemma RaisedStep(v: View, w: View, slot: nat, time: u64)
    requires Inv(v) && v.ifs.Router? && slot < SLOTS && v.ifs.registry[slot].Some? && !v.ifs.registry[slot].value.online
    requires BringUp(v.ifs, slot) == Some(w.ifs) && w == v.(ifs := w.ifs)
    requires v.ifs.Slot(v.ifs.registry[slot].value.id) == slot
    ensures Inv(w) && Follows(v, w, time)
  {
    hide TabsOk, BoxOk, AllSealed, Evidenced, Thrifty, Numbered, Interfaces.Slot, Follows, InStep;
    var id := v.ifs.registry[slot].value.id;
    assert Paced(w.own.modem, w.ifs, w.aired);
    assert AgreeBut(v.ifs, w.ifs, id);
    ReregisteredStep(v, w, id, slot, time);
  }

  /** `InterfaceRegistry::validate`. */
  predicate RegistryValid(registry: seq<Option<InterfaceConfig>>, depth: nat) {
    && (forall s :: 0 <= s < |registry| && registry[s].Some? ==> registry[s].value.Valid(depth))
    && (forall s, t :: 0 <= s < t < |registry| && registry[s].Some? && registry[t].Some? ==>
      registry[s].value.id != registry[t].value.id)
  }

  /** A registry that is accepted holds only usable interfaces, each under an id of its own. */
  lemma AcceptedRegistry(registry: seq<Option<InterfaceConfig>>, depth: nat, s: nat, t: nat)
    requires RegistryValid(registry, depth) && s < |registry| && registry[s].Some?
    ensures var c := registry[s].value;
      && 19 <= c.ClearMtu() <= 500 && 0 < c.depth <= depth && (c.direction.inbound || c.direction.outbound)
      && (c.online && (c.direction.forward || c.direction.repeat) ==> c.Sends())
    ensures t < |registry| && registry[t].Some? && t != s ==> registry[t].value.id != registry[s].value.id
  {
    ValidIsUsable(registry[s].value, depth);
  }

  /** The registry and modem a reset may bring. */
  datatype Replacement = Replacement(registry: seq<Option<InterfaceConfig>>, modem: Option<nat -> u32>)

  /**
   The interfaces after a reset: a router's registry, replaced or as it was, under a new epoch; none if a
   replacement is refused. A registry that stays is not validated again.
   */
  function Restarted(ifs: Interfaces, replacing: Option<Replacement>, depth: nat): Option<Interfaces>
    requires ifs.WellFormed() && (replacing.Some? ==> |replacing.value.registry| == SLOTS)
  {
    match ifs
    case Endpoint(_) => Some(ifs)
    case Router(registry, _, _, _) =>
      if replacing.None? then Renew(ifs, registry)
      else if !RegistryValid(replacing.value.registry, depth) then None
      else Renew(ifs, replacing.value.registry)
  }

  lemma RestartedExactly(ifs: Interfaces, replacing: Option<Replacement>, depth: nat)
    requires ifs.WellFormed() && (replacing.Some? ==> ifs.Router? && |replacing.value.registry| == SLOTS)
    ensures var w := Restarted(ifs, replacing, depth);
      && (w.Some? <==>
            && (ifs.Router? ==> ifs.last < U64_MAX)
            && (replacing.Some? ==> RegistryValid(replacing.value.registry, depth)))
      && (w.Some? && ifs.Router? ==>
            w.value.Router? && w.value.registry == if replacing.Some? then replacing.value.registry else ifs.registry)
      && (w.Some? ==> w.value.WellFormed() && w.value.Router? == ifs.Router?)
  {
  }

  lemma RestartedIfs(v: View, w: Interfaces, replacing: Option<Replacement>, depth: nat, modem: Option<nat -> u32>)
    requires Inv(v) && (replacing.Some? ==> |replacing.value.registry| == SLOTS)
    requires Restarted(v.ifs, replacing, depth) == Some(w)
    ensures w.WellFormed() && Numbered(w) && Reregisters(v.ifs, w) && Paced(modem, w, seq(SLOTS, _ => []))
    ensures w.Router? ==> forall id: byte :: w.Generation(id) == 0 || w.Generation(id) > v.ifs.last
  {
    hide TabsOk, BoxOk, AllSealed, Evidenced, Thrifty;
  }

  // --- Endpoints --------------------------------------------------------------------------------

  /** An endpoint's interface that nothing may be sent on. */
  function Muted(ifs: Interfaces, id: byte): (w: Interfaces)
    requires ifs.WellFormed() && ifs.Endpoint?
    ensures w.WellFormed() && w.Endpoint?
  {
    var s := ifs.Slot(id);
    if s < SLOTS then Endpoint(ifs.facts[s := ifs.facts[s].(sendable := false)]) else ifs
  }

  /** An endpoint that no longer knows an interface. */
  function Forgotten(ifs: Interfaces, id: byte): (w: Interfaces)
    requires ifs.WellFormed() && ifs.Endpoint?
    ensures w.WellFormed() && w.Endpoint?
  {
    var s := ifs.Slot(id);
    if s < SLOTS then Endpoint(ifs.facts[s := EMPTY_FACTS]) else ifs
  }

  /** Muting or forgetting an interface touches its own slot alone. */
  lemma SlotsStay(ifs: Interfaces, id: byte)
    requires ifs.WellFormed() && ifs.Endpoint? && ifs.SlotFor(id) < SLOTS
    ensures var s, f := ifs.SlotFor(id), ifs.FactsAt(ifs.SlotFor(id));
      && (f.occupied ==> Muted(ifs, id).FactsAt(s) == f.(sendable := false))
      && (f.occupied ==> Forgotten(Muted(ifs, id), id).FactsAt(s) == EMPTY_FACTS)
  {
    var s := ifs.SlotFor(id);
    if ifs.Slot(id) < SLOTS {
      var m := Muted(ifs, id);
      assert m.facts[s].occupied && m.facts[s].id == id;
      assert m.Slot(id) == s;
    }
  }

  ghost predicate RowsRetired(queue: seq<Queued>, queue': seq<Queued>, target: nat) {
    && |queue'| == |queue|
    && forall k :: 0 <= k < |queue| ==> queue'[k] == Retired(queue[k], target)
  }

  lemma RetiredNowhere(queue: seq<Queued>, queue': seq<Queued>, target: nat)
    requires RowsRetired(queue, queue', target)
    ensures forall q :: q in queue' && q.delivery.Fanout? ==> target !in q.delivery.pending
  {
  }

  /** The row handed over to a driver: the first of the interface among those live, announces last. */
  ghost predicate Polls(v: View, c: Box, id: byte, row: Option<Queued>) {
    var b := Purged(v.box, LiveIn(v, v.clock));
    match row
    case None => c == b && forall q :: q in b.queue ==> q.interface != id
    case Some(r) =>
      && r.interface == id
      && exists k: nat :: Leaves(b, c, k, false) && b.queue[k] == r && Foremost(b.queue, k, id)
  }

  /** A selection among the rows live. */
  ghost predicate SelectsLive(v: View, c: Box, current: seq<nat>, after: u64, blocked: set<nat>, r: Option<Queued>) {
    && |current| == FANOUT && AllFanout(Purged(v.box, LiveIn(v, v.clock)).queue)
    && Selects(Purged(v.box, LiveIn(v, v.clock)), c, current, after, blocked, r)
  }

  /** A new packet budget for an endpoint's interface: if it differs, links over the interface go. */
  ghost predicate Rebudgets(v: View, w: View, id: byte, generation: nat, budget: nat, ok: bool) {
    && v.ifs.WellFormed() && v.ifs.Endpoint?
    && (ok <==> v.ifs.Slot(id) < SLOTS && generation != 0 && v.ifs.FactsAt(v.ifs.Slot(id)).generation == generation)
    && if !ok || v.ifs.FactsAt(v.ifs.Slot(id)).clearMtu == budget then w == v
    else
      var f := v.ifs.FactsAt(v.ifs.Slot(id));
      var x := v.(ifs := v.ifs.WithFacts(v.ifs.Slot(id), f.(clearMtu := budget)),
                  tabs := v.tabs.(links := Without(v.tabs.links, ViaLink(id))));
      w == x.(box := Purged(v.box, LiveIn(x, v.clock)))
  }

  lemma ConfigAt(ifs: Interfaces, s: nat, id: byte, c: InterfaceConfig)
    requires ifs.WellFormed() && ifs.Router? && s < SLOTS && ifs.registry[s] == Some(c) && c.id == id
    ensures ifs.Config(id) == Some(c) && ifs.Slot(id) == s
  {
  }

  /** No entry goes through the interface. */
  ghost predicate Avoids(t: Tabs, id: byte) {
    && (forall g :: g in t.paths ==> t.paths[g].body.interface != id)
    && (forall g :: g in t.reverse ==> t.reverse[g].body.receiving != id && t.reverse[g].body.outbound != id)
    && (forall g :: g in t.links ==> t.links[g].body.receiving != id && t.links[g].body.outbound != id)
  }

  lemma DroppedAvoids(t: Tabs, t': Tabs, id: byte, now: u64)
    requires DropsInterface(t, t', id, now)
    ensures Avoids(t', id) && t'.lastReverse == t.lastReverse && t'.lastLink == t.lastLink && t'.lastPath == t.lastPath
    ensures Submap(t.links, t'.links)
  {
  }

  /** What a purge leaves is live still. */
  lemma PurgedLive(v: View, w: View, now: u64)
    requires w == v.(box := Purged(v.box, LiveIn(v, now)))
    ensures forall q :: q in w.box.queue ==> q in v.box.queue && LiveIn(w, now)(q)
  {
    hide FrameIsLive;
    FilterMember(v.box.queue, LiveIn(v, now));
    SameLiveness(v, w, now);
  }

  lemma EndpointObserved(v: View, w: View, time: u64)
    requires Inv(v) && w == v.(ifs := w.ifs) && v.ifs.Endpoint? && w.ifs.Endpoint? && w.ifs.WellFormed()
    ensures Inv(w) && Follows(v, w, time)
  {
    hide Inv, Follows;
    ObservedStep(v, w, time);
  }

  lemma AwaitedIn(v: View)
    requires Inv(v)
    ensures Awaited(v.tabs.disc)
  {
    hide Awaited, BoxOk, AllSealed, Evidenced, Thrifty, Paced, Routed, CacheAgrees, Minted, WellScheduled;
  }

  lemma AllFanoutIn(v: View)
    requires Inv(v) && v.ifs.Endpoint?
    ensures AllFanout(v.box.queue)
  {
    hide TabsOk, Evidenced, Thrifty, Paced, Conserved, Numbered;
    forall k | 0 <= k < |v.box.queue| ensures v.box.queue[k].delivery.Fanout? && FanoutShape(v.box.queue[k].delivery) {
      assert Sealed(v, v.box.queue[k].lifetime, v.box.queue[k].delivery);
    }
  }

  /** Rows that shrink, or go, are sealed as they were. */
  lemma ShrunkSealed(v: View, w: View)
    requires AllSealed(v) && w == v.(box := w.box) && w.box.identity == v.box.identity
    requires QueueFollows(v.box, w.box) && Ordered(w.box, w.clock)
    ensures AllSealed(w)
  {
    forall k | 0 <= k < |w.box.queue| ensures Sealed(w, w.box.queue[k].lifetime, w.box.queue[k].delivery) {
      var j :| 0 <= j < |v.box.queue| && Shrunk(v.box.queue[j], w.box.queue[k]);
      assert Sealed(v, v.box.queue[j].lifetime, v.box.queue[j].delivery);
    }
  }

  lemma ShrunkBoxStep(v: View, w: View, time: u64)
    requires Inv(v) && w == v.(box := w.box) && v.ifs.Endpoint? && w.box.identity == v.box.identity
    requires Ordered(w.box, w.clock) && Conserved(w.box) && QueueFollows(v.box, w.box)
    ensures Inv(w) && Follows(v, w, time)
  {
    hide TabsOk, Evidenced, Thrifty, Paced, Conserved, Numbered, Ordered, QueueFollows, AllSealed, Follows, TabsFollow,
      Interfaces.WellFormed;
    ShrunkSealed(v, w);
    TabsFollowReflexive(v.tabs, time);
    StepKeeps(v, w, time);
  }

  lemma RetiredRows(v: View, w: View, target: nat, time: u64)
    requires Inv(v) && v.ifs.Endpoint? && w == v.(box := v.box.(queue := w.box.queue)) && |w.box.queue| == |v.box.queue|
    requires forall k :: 0 <= k < |w.box.queue| ==> w.box.queue[k] == Retired(v.box.queue[k], target)
    ensures Inv(w) && Follows(v, w, time)
    ensures forall q :: q in w.box.queue && q.delivery.Fanout? ==> target !in q.delivery.pending
  {
    hide TabsOk, Evidenced, Thrifty, Paced, Conserved, Numbered, QueueFollows, AllSealed, Follows,
      Interfaces.WellFormed;
    ShrinkingKeeps(v.box, w.box, v.clock);
    ShrunkBoxStep(v, w, time);
  }

  lemma SelectedStep(v: View, w: View, current: seq<nat>, after: u64, blocked: set<nat>, r: Option<Queued>, time: u64)
    requires Inv(v) && v.ifs.Endpoint? && w == v.(box := w.box) && |current| == FANOUT && AllFanout(v.box.queue)
    requires Selects(v.box, w.box, current, after, blocked, r)
    ensures Inv(w) && Follows(v, w, time) && w.box.identity == v.box.identity
    ensures forall q :: q in w.box.queue ==> Matches(q, current) && q.delivery.pending != {}
    ensures r.Some? ==> r.value in w.box.queue && Offered(r.value, after, blocked)
    ensures r.None? ==> forall q :: q in w.box.queue ==> !Offered(q, after, blocked)
  {
    hide TabsOk, Evidenced, Thrifty, Paced, Conserved, Numbered, QueueFollows, AllSealed, Follows,
      Interfaces.WellFormed, Ordered, Matches, Offered, Filter, Rebound;
    SelectKeeps(v.box, w.box, current, after, blocked, r, v.ifs, v.depth, v.clock);
    ShrunkBoxStep(v, w, time);
  }

  lemma AcknowledgedStep(v: View, w: View, identity: u64, completed: set<nat>, ok: bool, time: u64)
    requires Inv(v) && v.ifs.Endpoint? && w == v.(box := w.box) && Acknowledges(v.box, w.box, identity, completed, ok)
    ensures Inv(w) && Follows(v, w, time) && w.box.identity == v.box.identity
  {
    hide TabsOk, Evidenced, Thrifty, Paced, Conserved, Numbered, QueueFollows, AllSealed, Follows,
      Interfaces.WellFormed, Ordered;
    AckKeeps(v.box, w.box, identity, completed, ok, v.ifs, v.depth, v.clock);
    ShrunkBoxStep(v, w, time);
  }

  lemma UnlinkedStep(v: View, w: View, p: Row<LinkBody> -> bool, time: u64)
    requires Inv(v) && w == v.(tabs := v.tabs.(links := Without(v.tabs.links, p)))
    ensures Inv(w) && Follows(v, w, time) && Submap(v.tabs.links, w.tabs.links)
  {
    hide Thrifty, Paced, Routed, CacheAgrees, Minted, Follows, BoxOk, AllSealed, Numbered, Interfaces.WellFormed,
      Evidenced;
    ShrunkStep(v, w, time);
  }

  lemma ReplacedStep(v: View, m: View, w: View, id: byte, slot: nat, time: u64)
    requires Inv(v) && v.ifs.Endpoint? && m == v.(ifs := m.ifs, tabs := v.tabs.(disc := m.tabs.disc)) && m.ifs.Endpoint?
    requires m.ifs.WellFormed()
    requires Awaited(m.tabs.disc)
    requires m.tabs.disc == (if slot < REQUESTERS then Transformed(v.tabs.disc, Struck(slot)) else v.tabs.disc)
    requires w == m.(tabs := w.tabs) && DropsInterface(m.tabs, w.tabs, id, m.clock)
    ensures Inv(w) && Follows(v, w, time)
  {
    hide Thrifty, Paced, Routed, CacheAgrees, Minted, Follows, BoxOk, AllSealed, Numbered, Evidenced, TabsFollow;
    var u := v.(tabs := m.tabs);
    ClosedStep(v, u, time);
    EndpointObserved(u, m, time);
    FollowsTransitive(v, u, m, time);
    KeptSpends(m.tabs.schedule, w.tabs.schedule);
    ShrunkStep(m, w, time);
    FollowsTransitive(v, m, w, time);
  }
}
