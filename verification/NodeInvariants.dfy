/** What every reachable state of a node satisfies, and why each table operation keeps it. */
module NodeInvariants {
  import opened Base
  import opened Rows
  import opened Generations
  import opened RowTables
  import opened Wire
  import opened Paths
  import opened Announces
  import opened Interfaces
  import opened Discovery
  import opened NodeState
  import opened Outbound
  import opened Tables

  function HashOf(env: Env, p: Packet): Hash {
    env.packetHash(CoreOf(p.header, p.payload))
  }

  /** Registered and up, as far as a router knows; an endpoint leaves that to its host. */
  predicate Up(ifs: Interfaces, id: byte)
    requires ifs.WellFormed()
  {
    ifs.Router? ==> ifs.Config(id).Some? && ifs.Config(id).value.online
  }

  /** Entries only go through interfaces that are up. */
  ghost predicate Routed(ifs: Interfaces, t: Tabs)
    requires ifs.WellFormed()
  {
    && (forall g :: g in t.paths ==> Up(ifs, t.paths[g].body.interface))
    && (forall g :: g in t.reverse ==> Up(ifs, t.reverse[g].body.receiving) && Up(ifs, t.reverse[g].body.outbound))
    && (forall g :: g in t.links ==> Up(ifs, t.links[g].body.receiving) && Up(ifs, t.links[g].body.outbound))
  }

  /** A cached announce is the one its destination's route was learned from. */
  ghost predicate CacheAgrees(env: Env, t: Tabs) {
    forall k, g :: k in t.cache && g in t.paths && t.paths[g].key == k ==>
      HashOf(env, t.cache[k].body.packet) == t.paths[g].body.packetHash && t.cache[k].body.hops == t.paths[g].body.hops
  }

  /** Every scheduled announce is one of its own destination, with at most one retry to its name. */
  ghost predicate WellScheduled(m: Schedule) {
    forall k :: k in m ==> m[k].key == k && Announcing(m[k]) && (m[k].body.PendingOnly() || m[k].body.retries <= 1)
  }

  ghost predicate Tabular(t: Tabs) {
    Minted(t.paths, t.lastPath) && Minted(t.reverse, t.lastReverse) && Minted(t.links, t.lastLink)
      && Minted(t.disc, t.lastDisc)
  }

  ghost predicate TabsOk(env: Env, ifs: Interfaces, t: Tabs)
    requires ifs.WellFormed()
  {
    Tabular(t) && Awaited(t.disc) && Routed(ifs, t) && CacheAgrees(env, t) && WellScheduled(t.schedule)
  }

  ghost predicate TabsFollow(t: Tabs, t': Tabs, time: u64) {
    && PathsFollow(t.paths, t.lastPath, t'.paths, t'.lastPath, time)
    && ReverseFollows(t.reverse, t.lastReverse, t'.reverse, t'.lastReverse)
    && LinksFollow(t.links, t.lastLink, t'.links, t'.lastLink, time)
    && DiscoveriesFollow(t.disc, t.lastDisc, t'.disc, t'.lastDisc)
  }

  ghost predicate Submap<K, V>(m: map<K, V>, m': map<K, V>) {
    forall k :: k in m' ==> k in m && m'[k] == m[k]
  }

  /** Entries only go. */
  ghost predicate Shrinks(t: Tabs, t': Tabs) {
    && t'.lastPath == t.lastPath && t'.lastReverse == t.lastReverse && t'.lastLink == t.lastLink
    && t'.lastDisc == t.lastDisc
    && Submap(t.paths, t'.paths) && Submap(t.reverse, t'.reverse) && Submap(t.links, t'.links)
    && Submap(t.cache, t'.cache)
    && (forall g :: g in t'.disc ==>
          g in t.disc && t'.disc[g].key == t.disc[g].key && t'.disc[g].expires == t.disc[g].expires)
  }

  lemma ShrinkingMint<B>(m: Entries<B>, m': Entries<B>, last: u64)
    requires Minted(m, last) && forall g :: g in m' ==> g in m && m'[g].key == m[g].key
    ensures Minted(m', last)
  {
  }

  lemma ShrinkingRoutes(ifs: Interfaces, t: Tabs, t': Tabs)
    requires ifs.WellFormed() && Routed(ifs, t) && Shrinks(t, t')
    ensures Routed(ifs, t')
  {
    hide Interfaces.WellFormed, Up;
  }

  lemma ShrinkingCache(env: Env, t: Tabs, t': Tabs)
    requires CacheAgrees(env, t) && Shrinks(t, t')
    ensures CacheAgrees(env, t')
  {
    hide HashOf;
  }

  lemma ShrinkingFollows(t: Tabs, t': Tabs, time: u64)
    requires Shrinks(t, t')
    ensures TabsFollow(t, t', time)
  {
  }

  lemma ShrinkingTabs(env: Env, ifs: Interfaces, t: Tabs, t': Tabs, time: u64)
    requires ifs.WellFormed() && TabsOk(env, ifs, t) && Shrinks(t, t') && Awaited(t'.disc) && WellScheduled(t'.schedule)
    ensures TabsOk(env, ifs, t') && TabsFollow(t, t', time)
  {
    hide Interfaces.WellFormed, Routed, CacheAgrees, TabsFollow, Minted, WellScheduled, Awaited;
    ShrinkingMint(t.paths, t'.paths, t.lastPath);
    ShrinkingMint(t.reverse, t'.reverse, t.lastReverse);
    ShrinkingMint(t.links, t'.links, t.lastLink);
    ShrinkingMint(t.disc, t'.disc, t.lastDisc);
    ShrinkingRoutes(ifs, t, t');
    ShrinkingCache(env, t, t');
    ShrinkingFollows(t, t', time);
  }

  // --- Learning a route -------------------------------------------------------------------------

  /** The announced route stands at `g`: in place of a live one it agrees with, or newly minted. */
  ghost predicate Lands(m: Entries<PathBody>, last: u64, row: PathRow, now: u64, m': Entries<PathBody>, last': u64,
                        g: u64) {
    && g in m' && m'[g] == row
    && (forall h :: h in m' && h != g ==> h in m && m'[h] == m[h] && m[h].key != row.key)
    && ((last' == last && g in m && now < m[g].expires && SameRoute(m[g], row) && NoOlder(m[g], row))
      || (last < U64_MAX && g == last' == last + 1))
  }

  lemma UpdateLands(m: Entries<PathBody>, last: u64, capacity: nat, row: PathRow, now: u64, m': Entries<PathBody>,
                    last': u64)
      returns (g: u64)
    requires Minted(m, last) && Updates(m, last, capacity, row, now, m', last', true)
    ensures Lands(m, last, row, now, m', last', g)
  {
    hide Emitted, SameRoute, MakesRoom;
    var live := LiveAt(m, now);
    if HasKey(live, row.key) {
      var h :| h in live && live[h].key == row.key;
      g := if SameRoute(live[h], row) then h else last';
    } else {
      g := last';
    }
  }

  lemma RefusedUpdate(m: Entries<PathBody>, last: u64, capacity: nat, row: PathRow, now: u64, m': Entries<PathBody>,
                      last': u64)
    requires Updates(m, last, capacity, row, now, m', last', false)
    ensures m' == LiveAt(m, now) && last' == last
  {
  }

  /** After an update, a route is an old live one or the announced one. */
  lemma RoutesAfterUpdate(m: Entries<PathBody>, last: u64, capacity: nat, row: PathRow, now: u64, m': Entries<PathBody>,
                          last': u64, learned: bool)
    requires Minted(m, last) && Updates(m, last, capacity, row, now, m', last', learned)
    ensures Minted(m', last') && PathsFollow(m, last, m', last', now)
    ensures forall g :: g in m' ==> (g in m && m'[g] == m[g]) || (learned && m'[g] == row)
    ensures learned ==> HasKey(m', row.key) && forall g :: g in m' && m'[g].key == row.key ==> m'[g] == row
  {
    hide Emitted, Updates;
    if learned {
      var g := UpdateLands(m, last, capacity, row, now, m', last');
    } else {
      RefusedUpdate(m, last, capacity, row, now, m', last');
    }
  }

  lemma LearningTabs(env: Env, ifs: Interfaces, t: Tabs, t': Tabs, row: PathRow, announce: CacheRow, capacity: nat,
                     learned: bool, time: u64)
    requires ifs.WellFormed() && TabsOk(env, ifs, t)
    requires t' == t.(paths := t'.paths, lastPath := t'.lastPath, cache := t'.cache)
    requires Updates(t.paths, t.lastPath, capacity, row, time, t'.paths, t'.lastPath, learned)
    requires if learned then Recaches(t.cache, announce, t'.cache) else t'.cache == t.cache
    requires announce.key == row.key && HashOf(env, announce.body.packet) == row.body.packetHash
    requires announce.body.hops == row.body.hops
    requires Up(ifs, row.body.interface)
    ensures TabsOk(env, ifs, t') && TabsFollow(t, t', time)
  {
    hide Interfaces.WellFormed, HashOf, Up, Updates, Minted, PathsFollow, Awaited, WellScheduled, LinksFollow,
      ReverseFollows, DiscoveriesFollow;
    RoutesAfterUpdate(t.paths, t.lastPath, capacity, row, time, t'.paths, t'.lastPath, learned);
    SameTabs(t, t', time);
  }

  lemma SameTabs(t: Tabs, t': Tabs, time: u64)
    ensures t'.paths == t.paths && t'.lastPath == t.lastPath ==>
      PathsFollow(t.paths, t.lastPath, t'.paths, t'.lastPath, time)
    ensures t'.reverse == t.reverse && t'.lastReverse == t.lastReverse ==>
      ReverseFollows(t.reverse, t.lastReverse, t'.reverse, t'.lastReverse)
    ensures t'.links == t.links && t'.lastLink == t.lastLink ==>
      LinksFollow(t.links, t.lastLink, t'.links, t'.lastLink, time)
    ensures t'.disc == t.disc && t'.lastDisc == t.lastDisc ==>
      DiscoveriesFollow(t.disc, t.lastDisc, t'.disc, t'.lastDisc)
  {
  }

  // --- The other table operations ---------------------------------------------------------------

  lemma TouchedRoutes(m: Entries<PathBody>, last: u64, key: Hash, now: u64, m': Entries<PathBody>)
    requires Minted(m, last) && Touches(m, key, now, m')
    ensures Minted(m', last) && PathsFollow(m, last, m', last, now)
    ensures m'.Keys == m.Keys
    ensures forall g :: g in m ==> SameRoute(m[g], m'[g]) && m'[g].body.packetHash == m[g].body.packetHash
  {
    if HasKey(LiveAt(m, now), key) {
      var h :| h in m && m[h].key == key && now < m[h].expires && m' == m[h := Touched(m[h], now)];
    }
  }

  lemma TouchingTabs(env: Env, ifs: Interfaces, t: Tabs, t': Tabs, key: Hash, now: u64)
    requires ifs.WellFormed() && TabsOk(env, ifs, t)
    requires t' == t.(paths := t'.paths) && Touches(t.paths, key, now, t'.paths)
    ensures TabsOk(env, ifs, t') && TabsFollow(t, t', now)
  {
    hide Interfaces.WellFormed, HashOf, Up, Touches, Minted, PathsFollow, Awaited, WellScheduled, LinksFollow,
      ReverseFollows, DiscoveriesFollow;
    TouchedRoutes(t.paths, t.lastPath, key, now, t'.paths);
    SameTabs(t, t', now);
  }

  /** After an insertion, an entry is an old live one or the new one under a new generation. */
  lemma EntriesAfterInsert<B>(m: Entries<B>, last: u64, capacity: nat, row: Row<B>, now: u64, m': Entries<B>,
                              last': u64)
    requires Minted(m, last) && Inserts(m, last, capacity, row, now, m', last')
    ensures Minted(m', last') && last <= last'
    ensures forall g :: g in m' ==> (g in m && m'[g] == m[g] && g <= last) || (g == last' && g > last && m'[g] == row)
  {
    var live := LiveAt(m, now);
    if NextGeneration(capacity, last) != 0 {
      var gone :| Displaces(live, capacity, row.key, gone) && m' == (live - gone)[last' := row];
      forall g | g in m' && g != last' ensures m'[g].key != row.key && g in m && m'[g] == m[g] {
      }
    }
  }

  lemma ReversingTabs(env: Env, ifs: Interfaces, t: Tabs, t': Tabs, row: Row<ReverseBody>, capacity: nat, now: u64)
    requires ifs.WellFormed() && TabsOk(env, ifs, t)
    requires t' == t.(reverse := t'.reverse, lastReverse := t'.lastReverse)
    requires Inserts(t.reverse, t.lastReverse, capacity, row, now, t'.reverse, t'.lastReverse)
    requires Up(ifs, row.body.receiving) && Up(ifs, row.body.outbound)
    ensures TabsOk(env, ifs, t') && TabsFollow(t, t', now)
  {
    hide Interfaces.WellFormed, HashOf, Up, Inserts, Minted, PathsFollow, Awaited, WellScheduled, LinksFollow,
      DiscoveriesFollow;
    EntriesAfterInsert(t.reverse, t.lastReverse, capacity, row, now, t'.reverse, t'.lastReverse);
    SameTabs(t, t', now);
  }

  lemma LinkingTabs(env: Env, ifs: Interfaces, t: Tabs, t': Tabs, row: Row<LinkBody>, capacity: nat, now: u64)
    requires ifs.WellFormed() && TabsOk(env, ifs, t)
    requires t' == t.(links := t'.links, lastLink := t'.lastLink)
    requires Inserts(t.links, t.lastLink, capacity, row, now, t'.links, t'.lastLink)
    requires Up(ifs, row.body.receiving) && Up(ifs, row.body.outbound)
    ensures TabsOk(env, ifs, t') && TabsFollow(t, t', now)
  {
    hide Interfaces.WellFormed, HashOf, Up, Inserts, Minted, PathsFollow, Awaited, WellScheduled, ReverseFollows,
      DiscoveriesFollow;
    EntriesAfterInsert(t.links, t.lastLink, capacity, row, now, t'.links, t'.lastLink);
    SameTabs(t, t', now);
  }

  /** Renewal changes the deadline of one live link; unless it validates, that link was validated. */
  lemma RenewedLinks(m: Entries<LinkBody>, last: u64, key: Hash, expires: u64, validates: bool, now: u64,
                     m': Entries<LinkBody>)
    requires Minted(m, last) && Renews(m, key, expires, validates, now, m')
    requires !validates ==> forall g :: g in m && now < m[g].expires && m[g].key == key ==> m[g].body.validated
    ensures Minted(m', last) && LinksFollow(m, last, m', last, now)
    ensures forall g :: g in m' ==> g in m && m'[g].body == m[g].body.(validated := m'[g].body.validated)
    ensures forall g :: g in m' ==> m'[g].body.validated == (m[g].body.validated || (validates && m[g].key == key))
  {
    var live := LiveAt(m, now);
    if HasKey(live, key) {
      var h :| h in live && live[h].key == key &&
        m' == live[h := Row(key, expires, if validates then live[h].body.(validated := true) else live[h].body)];
    }
  }

  lemma RenewingTabs(env: Env, ifs: Interfaces, t: Tabs, t': Tabs, key: Hash, expires: u64, validates: bool, now: u64)
    requires ifs.WellFormed() && TabsOk(env, ifs, t)
    requires t' == t.(links := t'.links) && Renews(t.links, key, expires, validates, now, t'.links)
    requires !validates ==>
      forall g :: g in t.links && now < t.links[g].expires && t.links[g].key == key ==> t.links[g].body.validated
    ensures TabsOk(env, ifs, t') && TabsFollow(t, t', now)
  {
    hide Interfaces.WellFormed, HashOf, Up, Renews, Minted, PathsFollow, Awaited, WellScheduled, LinksFollow,
      ReverseFollows, DiscoveriesFollow;
    RenewedLinks(t.links, t.lastLink, key, expires, validates, now, t'.links);
    SameTabs(t, t', now);
  }

  lemma BegunDiscoveries(m: Ledger, last: u64, capacity: nat, destination: Hash, slot: nat, now: u64, timeout: u64,
                         m': Ledger, last': u64, r: Begun)
    requires Minted(m, last) && Begins(m, last, capacity, destination, slot, now, timeout, m', last', r)
    ensures Minted(m', last') && DiscoveriesFollow(m, last, m', last')
  {
    if r.Joined? {
      var live := LiveAt(m, now);
      var h :| h in live && live[h].key == destination && m' == live[h := live[h].(body := live[h].body + {slot})];
    }
  }

  lemma DiscoveringTabs(env: Env, ifs: Interfaces, t: Tabs, t': Tabs, capacity: nat, destination: Hash, slot: nat,
                        now: u64, timeout: u64, r: Begun)
    requires ifs.WellFormed() && TabsOk(env, ifs, t)
    requires t' == t.(disc := t'.disc, lastDisc := t'.lastDisc) && Awaited(t'.disc)
    requires Begins(t.disc, t.lastDisc, capacity, destination, slot, now, timeout, t'.disc, t'.lastDisc, r)
    ensures TabsOk(env, ifs, t') && TabsFollow(t, t', now)
  {
    hide Interfaces.WellFormed, HashOf, Up, Begins, Minted, PathsFollow, Awaited, WellScheduled, LinksFollow,
      ReverseFollows, DiscoveriesFollow;
    BegunDiscoveries(t.disc, t.lastDisc, capacity, destination, slot, now, timeout, t'.disc, t'.lastDisc, r);
    SameTabs(t, t', now);
  }

  lemma SchedulingTabs(env: Env, ifs: Interfaces, t: Tabs, t': Tabs, time: u64)
    requires ifs.WellFormed() && TabsOk(env, ifs, t)
    requires t' == t.(schedule := t'.schedule) && WellScheduled(t'.schedule)
    ensures TabsOk(env, ifs, t') && TabsFollow(t, t', time)
  {
    hide Interfaces.WellFormed, HashOf, Up, Minted, PathsFollow, Awaited, WellScheduled, LinksFollow, ReverseFollows,
      DiscoveriesFollow;
    SameTabs(t, t', time);
  }

  lemma TabsFollowTransitive(t: Tabs, u: Tabs, w: Tabs, time: u64)
    requires TabsFollow(t, u, time) && TabsFollow(u, w, time)
    ensures TabsFollow(t, w, time)
  {
  }
}
