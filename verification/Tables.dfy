/** The tables of a node in place, and the table operations its steps are made of. */
module Tables {
  import opened Base
  import opened Rows
  import opened Generations
  import opened RowTables
  import opened Paths
  import opened Announces
  import opened Discovery
  import opened NodeState

  /** A used route lives on for as long as it was given when last seen. */
  function Touched(row: PathRow, now: u64): PathRow {
    var span := if row.expires >= row.body.lastSeen then row.expires - row.body.lastSeen else 0;
    row.(expires := SatAdd(now, span), body := row.body.(lastSeen := now))
  }

  ghost predicate Touches(m: Entries<PathBody>, key: Hash, now: u64, m': Entries<PathBody>) {
    if HasKey(LiveAt(m, now), key) then
      exists g :: g in m && m[g].key == key && now < m[g].expires && m' == m[g := Touched(m[g], now)]
    else m' == m
  }

  /** The link under this key, live at `now`, with another deadline and perhaps validated. */
  ghost predicate Renews(m: Entries<LinkBody>, key: Hash, expires: u64, validates: bool, now: u64,
                         m': Entries<LinkBody>) {
    var live := LiveAt(m, now);
    if HasKey(live, key) then
      exists g :: g in live && live[g].key == key &&
        m' == live[g := Row(key, expires, if validates then live[g].body.(validated := true) else live[g].body)]
    else m' == live
  }

  ghost function Retained(cache: Table<CacheBody>, paths: Entries<PathBody>, now: u64): Table<CacheBody> {
    map k | k in cache && HasKey(LiveAt(paths, now), k) :: cache[k]
  }

  /** The cache after a learned announce: its own entry is the new one, the rest only shrinks. */
  ghost predicate Recaches(cache: Table<CacheBody>, row: CacheRow, cache': Table<CacheBody>) {
    && (forall k :: k in cache' && k != row.key ==> k in cache && cache'[k] == cache[k])
    && (row.key in cache' ==> cache'[row.key] == row)
  }

  function ViaPath(id: byte): PathRow -> bool {
    (r: PathRow) => r.body.interface == id
  }

  function ViaReverse(id: byte): Row<ReverseBody> -> bool {
    (r: Row<ReverseBody>) => r.body.receiving == id || r.body.outbound == id
  }

  function ViaLink(id: byte): Row<LinkBody> -> bool {
    (r: Row<LinkBody>) => r.body.receiving == id || r.body.outbound == id
  }

  function FromInterface(id: byte): ScheduleRow -> bool {
    (r: ScheduleRow) => r.body.interface == id
  }

  /** Generations have been given out, and no key is held twice. */
  ghost predicate Minted<B>(m: Entries<B>, last: u64) {
    (forall g :: g in m ==> 1 <= g <= last) && UniquelyKeyed(m)
  }

  /** Generation and row of the live entry with this key; generation zero for none. */
  ghost predicate Found<B>(m: Entries<B>, key: Hash, now: u64, g: u64, row: Option<Row<B>>) {
    match row
    case None => g == 0 && !HasKey(LiveAt(m, now), key)
    case Some(r) => g in m && m[g] == r && r.key == key && now < r.expires
  }

  ghost function Incarnation<B>(m: Entries<B>, g: u64, now: u64): Option<Row<B>> {
    if g in m && now < m[g].expires then Some(m[g]) else None
  }

  method Lookup<B>(t: GenTable<B>, key: Hash, now: u64) returns (g: u64, row: Option<Row<B>>)
    requires t.Valid()
    ensures row.None? ==> g == 0 && !HasKey(LiveAt(t.entries, now), key)
    ensures row.Some? ==> g in t.entries && t.entries[g] == row.value && row.value.key == key && now < row.value.expires
    ensures row.Some? ==> 1 <= g <= t.last
    ensures UniquelyKeyed(t.entries)
  {
    hide Holds;
    HoldsAt(t.rows[..], t.gens[..], t.last, t.entries, t.slot, t.owner);
    var i := t.Find(key, now);
    if i < t.rows.Length {
      return t.gens[i], t.rows[i];
    }
    return 0, None;
  }

  method TouchPath(t: GenTable<PathBody>, key: Hash, now: u64)
    requires t.Valid()
    modifies t, t.rows, t.gens
    ensures t.Valid() && t.last == old(t.last) && Touches(old(t.entries), key, now, t.entries)
  {
    hide Holds;
    var i := t.Find(key, now);
    if i < t.rows.Length {
      HoldsAt(t.rows[..], t.gens[..], t.last, t.entries, t.slot, t.owner);
      assert t.rows[..][i] == t.rows[i] && t.gens[..][i] == t.gens[i];
      ghost var g := t.gens[i];
      assert g in LiveAt(t.entries, now);
      t.Write(i, Touched(t.rows[i].value, now), t.gens[i]);
      assert t.entries == old(t.entries)[g := Touched(old(t.entries)[g], now)];
    }
  }

  /** `LinkTable::mark_validated` and `LinkTable::touch`. */
  method RenewLink(t: GenTable<LinkBody>, key: Hash, expires: u64, validates: bool, now: u64)
    requires t.Valid()
    modifies t, t.rows, t.gens
    ensures t.Valid() && t.last == old(t.last) && Renews(old(t.entries), key, expires, validates, now, t.entries)
  {
    hide Holds;
    t.Expire(now);
    HoldsAt(t.rows[..], t.gens[..], t.last, t.entries, t.slot, t.owner);
    var i := FindKey(t.rows, key);
    if i < t.rows.Length {
      assert t.rows[..][i] == t.rows[i] && t.gens[..][i] == t.gens[i];
      ghost var live, g := t.entries, t.gens[i];
      var row := t.rows[i].value;
      var body := if validates then row.body.(validated := true) else row.body;
      t.Write(i, Row(key, expires, body), t.gens[i]);
      assert t.entries == live[g := Row(key, expires, body)];
    }
  }

  /** `LinkTable::has_free_slot`. */
  method HasFreeSlot(t: GenTable<LinkBody>, now: u64) returns (free: bool)
    requires t.Valid()
    modifies t`entries, t`slot, t.rows
    ensures t.Valid() && t.entries == LiveAt(old(t.entries), now)
    ensures free <==> |t.entries| < t.rows.Length
  {
    hide Holds;
    t.Expire(now);
    var i := t.FreeSlot();
    free := i < t.rows.Length;
  }

  /** `ReverseTable::take_with_generation`. */
  method TakeReverse(t: GenTable<ReverseBody>, key: Hash, now: u64) returns (g: u64, row: Option<Row<ReverseBody>>)
    requires t.Valid()
    modifies t`entries, t`slot, t.rows
    ensures t.Valid()
    ensures var live := LiveAt(old(t.entries), now);
      match row
      case None => g == 0 && t.entries == live && !HasKey(live, key)
      case Some(r) => 1 <= g <= t.last && g in live && live[g] == r && r.key == key && t.entries == live - {g}
    ensures row.Some? ==> |t.entries| < t.rows.Length && !HasKey(t.entries, key)
  {
    hide Holds, Without;
    t.Expire(now);
    HoldsAt(t.rows[..], t.gens[..], t.last, t.entries, t.slot, t.owner);
    ghost var live := t.entries;
    var i := FindKey(t.rows, key);
    if i == t.rows.Length { return 0, None; }
    assert t.rows[..][i] == t.rows[i] && t.gens[..][i] == t.gens[i];
    g, row := t.gens[i], t.rows[i];
    Occupancy(t.rows[..], t.gens[..], t.last, t.entries, t.slot, t.owner);
    TakenOut(live, g, key);
    t.RemoveWhere((r: Row<ReverseBody>) => r.key == key);
  }

  /** The one entry of a key, taken out. */
  lemma TakenOut<B>(m: Entries<B>, g: u64, key: Hash)
    requires UniquelyKeyed(m) && g in m && m[g].key == key
    ensures Without(m, (r: Row<B>) => r.key == key) == m - {g}
    ensures |m - {g}| < |m| && !HasKey(m - {g}, key)
  {
    assert m.Keys == (m - {g}).Keys + {g};
  }

  /** `ReverseTable::restore_consumed`: undo the taking of an entry. */
  method RestoreReverse(t: GenTable<ReverseBody>, row: Row<ReverseBody>, g: u64)
    requires t.Valid() && 1 <= g <= t.last && g !in t.entries && !HasKey(t.entries, row.key)
    requires |t.entries| < t.rows.Length
    modifies t, t.rows, t.gens
    ensures t.Valid() && t.last == old(t.last) && t.entries == old(t.entries)[g := row]
  {
    hide Holds;
    HoldsAt(t.rows[..], t.gens[..], t.last, t.entries, t.slot, t.owner);
    Occupancy(t.rows[..], t.gens[..], t.last, t.entries, t.slot, t.owner);
    var i := FindFree(t.rows);
    if i < t.rows.Length {
      t.Write(i, row, g);
    }
  }

  /** Cached destinations without a live route. */
  method FindUnrouted(cache: RowTable<CacheBody>, paths: GenTable<PathBody>, now: u64) returns (dead: set<Hash>)
    requires cache.Valid() && paths.Valid()
    ensures forall k :: k in cache.entries ==> (k in dead <==> !HasKey(LiveAt(paths.entries, now), k))
  {
    hide Holds, Keeps;
    dead := {};
    for i := 0 to cache.rows.Length
      invariant forall k :: 0 <= k < i && cache.rows[k].Some? ==>
        (cache.rows[k].value.key in dead <==> !HasKey(LiveAt(paths.entries, now), cache.rows[k].value.key))
      invariant forall key :: key in dead ==> !HasKey(LiveAt(paths.entries, now), key)
    {
      if cache.rows[i].Some? {
        var j := paths.Find(cache.rows[i].value.key, now);
        if j == paths.rows.Length {
          dead := dead + {cache.rows[i].value.key};
        } else {
          assert paths.gens[j] in LiveAt(paths.entries, now);
        }
      }
    }
    KeepsAt(cache.rows[..], cache.entries, cache.slot);
    forall k | k in cache.entries ensures k in dead <==> !HasKey(LiveAt(paths.entries, now), k) {
      var i :| 0 <= i < |cache.rows[..]| && cache.rows[..][i] == Some(cache.entries[k]);
      assert cache.rows[i].Some?;
    }
  }

  /** `AnnounceCache::retain_paths`: announces without a live route go. */
  method RetainPaths(cache: RowTable<CacheBody>, paths: GenTable<PathBody>, now: u64)
    requires cache.Valid() && paths.Valid()
    modifies cache, cache.rows
    ensures cache.Valid() && cache.entries == Retained(old(cache.entries), paths.entries, now)
  {
    hide Holds, Keeps;
    var dead := FindUnrouted(cache, paths, now);
    ghost var m := cache.entries;
    assert forall k :: k in m ==> m[k].key == k by { KeepsAt(cache.rows[..], cache.entries, cache.slot); }
    cache.RemoveWhere((r: CacheRow) => r.key in dead);
  }

  /** Replace the cached announce of a destination, after dropping those without a route. */
  method ReplaceAnnounce(cache: RowTable<CacheBody>, paths: GenTable<PathBody>, announce: CacheRow, now: u64)
    requires cache.Valid() && paths.Valid()
    modifies cache, cache.rows
    ensures cache.Valid()
    ensures Caches(Retained(old(cache.entries), paths.entries, now), cache.rows.Length, announce, now, cache.entries)
  {
    hide Holds, Keeps, Caches;
    RetainPaths(cache, paths, now);
    CacheInsert(cache, announce, now);
  }

  lemma Recached(m: Table<CacheBody>, paths: Entries<PathBody>, capacity: nat, row: CacheRow, now: u64,
                 m': Table<CacheBody>)
    requires Caches(Retained(m, paths, now), capacity, row, now, m')
    ensures Recaches(m, row, m')
  {
    hide Displaceable, HasAny;
  }

  /** Nothing is owed to registry slot `slot` any more; entries kept only for it go. */
  function Unowed(slot: nat): ScheduleRow -> Option<ScheduleRow> {
    (r: ScheduleRow) => AfterRelease(r, slot)
  }

  /** A neighbour's copy of our queued rebroadcast was heard. */
  function Heard(key: Hash): ScheduleRow -> Option<ScheduleRow> {
    (r: ScheduleRow) => Some(if r.key == key then r.(body := r.body.(local := r.body.local + 1)) else r)
  }

  class TableSet {
    const paths: GenTable<PathBody>
    const reverse: GenTable<ReverseBody>
    const links: GenTable<LinkBody>
    const disc: GenTable<Requesters>
    const cache: RowTable<CacheBody>
    const schedule: RowTable<ScheduleBody>
    const hashes: RowTable<()>
    const tags: RowTable<()>
    /** Every object the tables are made of. */
    ghost const repr: set<object>

    ghost predicate Valid()
      reads repr
    {
      && paths in repr && paths.rows in repr && paths.gens in repr
      && reverse in repr && reverse.rows in repr && reverse.gens in repr
      && links in repr && links.rows in repr && links.gens in repr
      && disc in repr && disc.rows in repr && disc.gens in repr
      && cache in repr && cache.rows in repr && schedule in repr && schedule.rows in repr
      && hashes in repr && hashes.rows in repr && tags in repr && tags.rows in repr
      && paths.gens != reverse.gens && paths.gens != links.gens && paths.gens != disc.gens
      && reverse.gens != links.gens && reverse.gens != disc.gens && links.gens != disc.gens
      && hashes != tags && hashes.rows != tags.rows && disc.rows.Length == links.rows.Length
      && paths.Valid() && reverse.Valid() && links.Valid() && disc.Valid()
      && cache.Valid() && schedule.Valid() && hashes.Valid() && tags.Valid()
    }

    ghost function Value(): Tabs
      requires Valid()
      reads repr
    {
      Tabs(paths.entries, paths.last, reverse.entries, reverse.last, links.entries, links.last,
           disc.entries, disc.last, cache.entries, schedule.entries, hashes.entries)
    }

    constructor (paths: GenTable<PathBody>, reverse: GenTable<ReverseBody>, links: GenTable<LinkBody>,
                 disc: GenTable<Requesters>, cache: RowTable<CacheBody>, schedule: RowTable<ScheduleBody>,
                 hashes: RowTable<()>, tags: RowTable<()>)
      requires paths.Valid() && reverse.Valid() && links.Valid() && disc.Valid()
      requires cache.Valid() && schedule.Valid() && hashes.Valid() && tags.Valid()
      requires paths.gens != reverse.gens && paths.gens != links.gens && paths.gens != disc.gens
      requires reverse.gens != links.gens && reverse.gens != disc.gens && links.gens != disc.gens
      requires hashes != tags && hashes.rows != tags.rows && disc.rows.Length == links.rows.Length
      ensures Valid()
      ensures this.cache == cache && this.schedule == schedule && this.hashes == hashes && this.tags == tags
      ensures Value() == Tabs(paths.entries, paths.last, reverse.entries, reverse.last, links.entries, links.last,
                              disc.entries, disc.last, cache.entries, schedule.entries, hashes.entries)
      ensures this.paths == paths && this.reverse == reverse && this.links == links && this.disc == disc
      ensures repr == {paths, paths.rows, paths.gens, reverse, reverse.rows, reverse.gens, links, links.rows,
                       links.gens, disc, disc.rows, disc.gens, cache, cache.rows, schedule, schedule.rows, hashes,
                       hashes.rows, tags, tags.rows}
    {
      hide Holds, Keeps;
      this.paths, this.reverse, this.links, this.disc := paths, reverse, links, disc;
      this.cache, this.schedule, this.hashes, this.tags := cache, schedule, hashes, tags;
      repr := {paths, paths.rows, paths.gens, reverse, reverse.rows, reverse.gens, links, links.rows, links.gens,
               disc, disc.rows, disc.gens, cache, cache.rows, schedule, schedule.rows, hashes, hashes.rows, tags,
               tags.rows};
    }

    // --- Lookups ------------------------------------------------------------------------------

    method FindPath(key: Hash, now: u64) returns (g: u64, row: Option<PathRow>)
      requires Valid()
      ensures Found(Value().paths, key, now, g, row)
    {
      hide Holds, Keeps;
      g, row := Lookup(paths, key, now);
    }

    method FindLink(key: Hash, now: u64) returns (g: u64, row: Option<Row<LinkBody>>)
      requires Valid()
      ensures Found(Value().links, key, now, g, row)
    {
      hide Holds, Keeps;
      g, row := Lookup(links, key, now);
    }

    method FindReverse(key: Hash, now: u64) returns (g: u64, row: Option<Row<ReverseBody>>)
      requires Valid()
      ensures Found(Value().reverse, key, now, g, row)
    {
      hide Holds, Keeps;
      g, row := Lookup(reverse, key, now);
    }

    method FindDiscovery(key: Hash, now: u64) returns (g: u64, row: Option<Row<Requesters>>)
      requires Valid()
      ensures Found(Value().disc, key, now, g, row)
    {
      hide Holds, Keeps;
      g, row := Lookup(disc, key, now);
    }

    /** The live entries of the incarnations a lifetime may name. */
    method Incarnations(path: u64, state: Dependency, now: u64)
        returns (p: Option<PathRow>, r: Option<Row<ReverseBody>>, l: Option<Row<LinkBody>>, d: Option<Row<Requesters>>)
      requires Valid()
      ensures p == Incarnation(Value().paths, path, now)
      ensures state.ReverseOf? ==> r == Incarnation(Value().reverse, state.generation, now)
      ensures state.LinkOf? ==> l == Incarnation(Value().links, state.generation, now)
      ensures state.DiscoveryOf? ==> d == Incarnation(Value().disc, state.identity, now)
    {
      hide Holds, Keeps;
      r, l, d := None, None, None;
      p := paths.GetGeneration(path, now);
      match state {
        case Independent =>
        case ReverseOf(g) => r := reverse.GetGeneration(g, now);
        case LinkOf(g) => l := links.GetGeneration(g, now);
        case DiscoveryOf(g) => d := disc.GetGeneration(g, now);
      }
    }

    /** The public key a stored route carries, expired or not. */
    method KnownKey(key: Hash) returns (k: Option<Hash>)
      requires Valid()
      ensures k.Some? ==>
        exists g :: g in Value().paths && Value().paths[g].key == key && Value().paths[g].body.publicKey == k.value
      ensures k.None? ==> !HasKey(Value().paths, key)
    {
      hide Holds, Keeps;
      HoldsAt(paths.rows[..], paths.gens[..], paths.last, paths.entries, paths.slot, paths.owner);
      var i := FindKey(paths.rows, key);
      if i == paths.rows.Length { return None; }
      assert paths.rows[..][i] == paths.rows[i] && paths.gens[..][i] == paths.gens[i];
      assert paths.gens[i] in Value().paths;
      return Some(paths.rows[i].value.body.publicKey);
    }

    method CachedAnnounce(key: Hash, now: u64) returns (row: Option<CacheRow>)
      requires Valid()
      ensures row == if key in Value().cache && now < Value().cache[key].expires then Some(Value().cache[key]) else None
    {
      hide Holds, Keeps;
      row := cache.Get(key);
      if row.Some? && now >= row.value.expires {
        row := None;
      }
    }

    method Scheduled(key: Hash) returns (row: Option<ScheduleRow>)
      requires Valid()
      ensures row == if key in Value().schedule then Some(Value().schedule[key]) else None
    {
      hide Holds, Keeps;
      row := schedule.Get(key);
    }

    method NextReverse() returns (g: u64)
      requires Valid()
      ensures g == NextGeneration(reverse.rows.Length, Value().lastReverse)
    {
      g := NextGeneration(reverse.rows.Length, reverse.last);
    }

    method NextLink() returns (g: u64)
      requires Valid()
      ensures g == NextGeneration(links.rows.Length, Value().lastLink)
    {
      g := NextGeneration(links.rows.Length, links.last);
    }

    // --- Routes -------------------------------------------------------------------------------

    /** Learn an announce's route and, only then, cache the announce itself. */
    method Learn(row: PathRow, announce: CacheRow, now: u64) returns (learned: bool)
      requires Valid()
      modifies repr
      ensures Valid()
      ensures Value() == old(Value()).(paths := Value().paths, lastPath := Value().lastPath, cache := Value().cache)
      ensures Updates(old(Value()).paths, old(Value()).lastPath, paths.rows.Length, row, now, Value().paths,
        Value().lastPath, learned)
      ensures if learned
              then Caches(Retained(old(Value()).cache, Value().paths, now), cache.rows.Length, announce, now,
                Value().cache)
              else Value().cache == old(Value()).cache
    {
      hide Holds, Keeps, Updates, Caches;
      learned := LearnRoute(row, now);
      if learned {
        Recache(announce, now);
      }
    }

    method LearnRoute(row: PathRow, now: u64) returns (learned: bool)
      requires Valid()
      modifies repr
      ensures Valid() && Value() == old(Value()).(paths := Value().paths, lastPath := Value().lastPath)
      ensures Updates(old(Value()).paths, old(Value()).lastPath, paths.rows.Length, row, now, Value().paths,
        Value().lastPath, learned)
    {
      hide Holds, Keeps, Updates;
      learned := InsertOrUpdate(paths, row, now);
    }

    method Recache(announce: CacheRow, now: u64)
      requires Valid()
      modifies repr
      ensures Valid() && Value() == old(Value()).(cache := Value().cache)
      ensures Caches(Retained(old(Value()).cache, Value().paths, now), cache.rows.Length, announce, now, Value().cache)
    {
      hide Holds, Keeps, Caches;
      ReplaceAnnounce(cache, paths, announce, now);
    }

    method UsePath(key: Hash, now: u64)
      requires Valid()
      modifies repr
      ensures Valid() && Value() == old(Value()).(paths := Value().paths)
      ensures Touches(old(Value()).paths, key, now, Value().paths)
    {
      hide Holds, Keeps, Touches;
      TouchPath(paths, key, now);
    }

    method DropPath(key: Hash)
      requires Valid()
      modifies repr
      ensures Valid() && Value() == old(Value()).(paths := Without(old(Value()).paths, (r: PathRow) => r.key == key))
    {
      hide Holds, Keeps;
      paths.RemoveWhere((r: PathRow) => r.key == key);
    }

    // --- Reverse entries and links ------------------------------------------------------------

    method RecordReverse(row: Row<ReverseBody>, now: u64)
      requires Valid()
      modifies repr
      ensures Valid() && Value() == old(Value()).(reverse := Value().reverse, lastReverse := Value().lastReverse)
      ensures Inserts(old(Value()).reverse, old(Value()).lastReverse, reverse.rows.Length, row, now, Value().reverse,
        Value().lastReverse)
    {
      hide Holds, Keeps, Inserts;
      reverse.Insert(row, now);
    }

    method Take(key: Hash, now: u64) returns (g: u64, row: Option<Row<ReverseBody>>)
      requires Valid()
      modifies repr
      ensures Valid() && Value() == old(Value()).(reverse := Value().reverse)
      ensures var live := LiveAt(old(Value()).reverse, now);
        match row
        case None => g == 0 && Value().reverse == live && !HasKey(live, key)
        case Some(r) =>
          1 <= g <= Value().lastReverse && g in live && live[g] == r && r.key == key && Value().reverse == live - {g}
      ensures row.Some? ==> |Value().reverse| < reverse.rows.Length && !HasKey(Value().reverse, key)
    {
      hide Holds, Keeps;
      g, row := TakeReverse(reverse, key, now);
    }

    method Restore(row: Row<ReverseBody>, g: u64)
      requires Valid() && 1 <= g <= Value().lastReverse && g !in Value().reverse && !HasKey(Value().reverse, row.key)
      requires |Value().reverse| < reverse.rows.Length
      modifies repr
      ensures Valid() && Value() == old(Value()).(reverse := old(Value()).reverse[g := row])
    {
      hide Holds, Keeps;
      RestoreReverse(reverse, row, g);
    }

    method LinkSlotFree(now: u64) returns (free: bool)
      requires Valid()
      modifies repr
      ensures Valid() && Value() == old(Value()).(links := LiveAt(old(Value()).links, now))
      ensures free <==> |Value().links| < links.rows.Length
    {
      hide Holds, Keeps;
      free := HasFreeSlot(links, now);
    }

    method RecordLink(row: Row<LinkBody>, now: u64)
      requires Valid()
      modifies repr
      ensures Valid() && Value() == old(Value()).(links := Value().links, lastLink := Value().lastLink)
      ensures Inserts(old(Value()).links, old(Value()).lastLink, links.rows.Length, row, now, Value().links,
        Value().lastLink)
    {
      hide Holds, Keeps, Inserts;
      links.Insert(row, now);
    }

    method Renew(key: Hash, expires: u64, validates: bool, now: u64)
      requires Valid()
      modifies repr
      ensures Valid() && Value() == old(Value()).(links := Value().links)
      ensures Renews(old(Value()).links, key, expires, validates, now, Value().links)
    {
      hide Holds, Keeps, Renews;
      RenewLink(links, key, expires, validates, now);
    }

    // --- Discoveries --------------------------------------------------------------------------

    method BeginDiscovery(destination: Hash, slot: nat, now: u64, timeout: u64) returns (r: Begun)
      requires Valid() && Awaited(Value().disc)
      modifies repr
      ensures Valid() && Value() == old(Value()).(disc := Value().disc, lastDisc := Value().lastDisc)
      ensures Awaited(Value().disc)
      ensures Begins(old(Value()).disc, old(Value()).lastDisc, links.rows.Length, destination, slot, now, timeout,
                     Value().disc, Value().lastDisc, r)
    {
      hide Holds, Keeps, Begins;
      r := Begin(disc, destination, slot, now, timeout);
    }

    method RetireSlot(slot: nat)
      requires Valid() && Awaited(Value().disc)
      modifies repr
      ensures Valid() && Value() == old(Value()).(disc := Value().disc) && Awaited(Value().disc)
      ensures Value().disc == if slot < REQUESTERS then Transformed(old(Value()).disc, Struck(slot))
        else old(Value()).disc
    {
      hide Holds, Keeps;
      RetireRequester(disc, slot);
    }

    method CloseDiscovery(destination: Hash, now: u64) returns (r: Option<Row<Requesters>>)
      requires Valid() && Awaited(Value().disc)
      modifies repr
      ensures Valid() && Value() == old(Value()).(disc := Value().disc) && Awaited(Value().disc)
      ensures Value().disc == Without(old(Value()).disc, (r: Row<Requesters>) => r.key == destination)
      ensures r.None? ==> !HasKey(LiveAt(old(Value()).disc, now), destination)
      ensures r.Some? ==> exists g :: Found(old(Value()).disc, destination, now, g, r)
    {
      hide Holds, Keeps;
      ghost var m := Value().disc;
      r := Discovery.Take(disc, destination, now);
      if r.Some? {
        ghost var g :| g in m && m[g] == r.value && r.value.key == destination && now < r.value.expires;
        assert Found(m, destination, now, g, r);
      }
    }

    /** Expired discoveries go; all of them when transport is off. */
    method ExpireDiscoveries(enabled: bool, now: u64)
      requires Valid()
      modifies repr
      ensures Valid() && Value() == old(Value()).(disc := if enabled then LiveAt(old(Value()).disc, now) else map[])
    {
      hide Holds, Keeps;
      if enabled {
        disc.Expire(now);
      } else {
        disc.Clear();
      }
    }

    // --- Announce schedule --------------------------------------------------------------------

    method Reschedule(row: ScheduleRow, now: u64)
      requires Valid()
      modifies repr
      ensures Valid() && Value() == old(Value()).(schedule := Value().schedule)
      ensures Schedules(old(Value()).schedule, schedule.rows.Length, row, now, Value().schedule)
    {
      hide Holds, Keeps, Schedules;
      ScheduleInsert(schedule, row, now);
    }

    method NextDue(now: u64) returns (r: Option<ScheduleRow>)
      requires Valid()
      modifies repr
      ensures Valid() && Value() == old(Value()).(schedule := Value().schedule)
      ensures Pops(old(Value()).schedule, now, r, Value().schedule)
    {
      hide Holds, Keeps, Pops;
      r := PopDue(schedule, now);
    }

    method NextOwed(slot: nat, now: u64) returns (r: Option<ScheduleRow>)
      requires Valid()
      modifies repr
      ensures Valid() && Value() == old(Value()).(schedule := Value().schedule)
      ensures Releases(old(Value()).schedule, slot, now, r, Value().schedule)
    {
      hide Holds, Keeps, Releases;
      r := ReleasePending(schedule, slot, now);
    }

    method Unschedule(p: ScheduleRow -> bool)
      requires Valid()
      modifies repr
      ensures Valid() && Value() == old(Value()).(schedule := RowsWithout(old(Value()).schedule, p))
    {
      hide Holds, Keeps;
      schedule.RemoveWhere(p);
    }

    method UpdateSchedule(f: ScheduleRow -> Option<ScheduleRow>)
      requires Valid()
      requires forall k ::
        k in Value().schedule && f(Value().schedule[k]).Some? ==> f(Value().schedule[k]).value.key == k
      modifies repr
      ensures Valid() && Value() == old(Value()).(schedule := RowsTransformed(old(Value()).schedule, f))
    {
      hide Holds, Keeps;
      assert Value().schedule == schedule.entries;
      schedule.Transform(f);
    }

    // --- Duplicate lists ----------------------------------------------------------------------

    method NewHash(hash: Hash, expires: u64, now: u64) returns (isNew: bool)
      requires Valid()
      modifies repr
      ensures Valid() && Value() == old(Value()).(hashes := Value().hashes)
      ensures Remembers(old(Value()).hashes, hashes.rows.Length, Row(hash, expires, ()), now, Value().hashes, isNew)
    {
      hide Holds, Keeps, Remembers;
      isNew := hashes.InsertIfNew(Row(hash, expires, ()), now);
    }

    /** Non-inserting check, so that a hash is consumed only after a send succeeded. */
    method SeenHash(hash: Hash, now: u64) returns (seen: bool)
      requires Valid()
      modifies repr
      ensures Valid() && Value() == old(Value()).(hashes := LiveRows(old(Value()).hashes, now))
      ensures seen <==> hash in LiveRows(old(Value()).hashes, now)
    {
      hide Holds, Keeps;
      hashes.Expire(now);
      var r := hashes.Get(hash);
      seen := r.Some?;
    }

    method NewTag(tag: Hash, expires: u64, now: u64) returns (isNew: bool)
      requires Valid()
      modifies repr
      ensures Valid() && Value() == old(Value())
      ensures Remembers(old(tags.entries), tags.rows.Length, Row(tag, expires, ()), now, tags.entries, isNew)
    {
      hide Holds, Keeps, Remembers;
      isNew := tags.InsertIfNew(Row(tag, expires, ()), now);
    }

    // --- Whole-table steps --------------------------------------------------------------------

    method FilterRoutes(p: PathRow -> bool)
      requires Valid()
      modifies repr
      ensures Valid() && Value() == old(Value()).(paths := Without(old(Value()).paths, p))
    {
      hide Holds, Keeps;
      paths.RemoveWhere(p);
    }

    method FilterReverse(p: Row<ReverseBody> -> bool)
      requires Valid()
      modifies repr
      ensures Valid() && Value() == old(Value()).(reverse := Without(old(Value()).reverse, p))
    {
      hide Holds, Keeps;
      reverse.RemoveWhere(p);
    }

    method FilterLinks(p: Row<LinkBody> -> bool)
      requires Valid()
      modifies repr
      ensures Valid() && Value() == old(Value()).(links := Without(old(Value()).links, p))
    {
      hide Holds, Keeps;
      links.RemoveWhere(p);
    }

    method FilterCache(p: CacheRow -> bool)
      requires Valid()
      modifies repr
      ensures Valid() && Value() == old(Value()).(cache := RowsWithout(old(Value()).cache, p))
    {
      hide Holds, Keeps;
      cache.RemoveWhere(p);
    }

    method RetainCache(now: u64)
      requires Valid()
      modifies repr
      ensures Valid() && Value() == old(Value()).(cache := Retained(old(Value()).cache, old(Value()).paths, now))
    {
      hide Holds, Keeps;
      RetainPaths(cache, paths, now);
    }

    method FilterHashes(p: Row<()> -> bool)
      requires Valid()
      modifies repr
      ensures Valid() && Value() == old(Value()).(hashes := RowsWithout(old(Value()).hashes, p))
    {
      hide Holds, Keeps;
      hashes.RemoveWhere(p);
    }

    method FilterTags(p: Row<()> -> bool)
      requires Valid()
      modifies repr
      ensures Valid() && Value() == old(Value())
    {
      hide Holds, Keeps;
      tags.RemoveWhere(p);
    }

    /** Everything through an interface goes, with the announces that no longer have a route. */
    method DropInterface(id: byte, now: u64)
      requires Valid()
      modifies repr
      ensures Valid()
      ensures var t := old(Value());
        var kept := Without(t.paths, ViaPath(id));
        Value() == t.(paths := kept, reverse := Without(t.reverse, ViaReverse(id)),
          links := Without(t.links, ViaLink(id)),
                      schedule := RowsWithout(t.schedule, FromInterface(id)), cache := Retained(t.cache, kept, now))
    {
      hide TableSet.Valid, TableSet.Value, Without, RowsWithout, Retained;
      FilterRoutes(ViaPath(id));
      FilterReverse(ViaReverse(id));
      FilterLinks(ViaLink(id));
      Unschedule(FromInterface(id));
      RetainCache(now);
    }

    /** `tick`, first half: every table drops what has expired. */
    method ExpireAll(now: u64)
      requires Valid()
      modifies repr
      ensures Valid()
      ensures var t := old(Value());
        var live := LiveAt(t.paths, now);
        Value() == t.(paths := live, reverse := LiveAt(t.reverse, now), links := LiveAt(t.links, now),
                      schedule := LiveRows(t.schedule, now), hashes := LiveRows(t.hashes, now),
                      cache := Retained(LiveRows(t.cache, now), live, now))
    {
      hide TableSet.Valid, TableSet.Value, Retained, Without, RowsWithout, LiveAt, LiveRows;
      ghost var t := Value();
      FilterHashes(Expired(now));
      FilterTags(Expired(now));
      FilterRoutes(Expired(now));
      FilterReverse(Expired(now));
      FilterLinks(Expired(now));
      FilterCache(Expired(now));
      Unschedule(Expired(now));
      RetainCache(now);
      ExpiringLeavesLive(t.paths, now);
      ExpiringLeavesLive(t.reverse, now);
      ExpiringLeavesLive(t.links, now);
      ExpiringLeavesRows(t.cache, now);
      ExpiringLeavesRows(t.schedule, now);
      ExpiringLeavesRows(t.hashes, now);
    }

    /** `reset_in_place`: every entry goes, and every incarnation counter stays. */
    method Reset()
      requires Valid()
      modifies repr
      ensures Valid()
      ensures Value() == old(Value()).(paths := map[], reverse := map[], links := map[], disc := map[], cache := map[],
        schedule := map[], hashes := map[])
    {
      hide TableSet.Valid, TableSet.Value;
      FilterRoutes(_ => true);
      FilterReverse(_ => true);
      FilterLinks(_ => true);
      ExpireDiscoveries(false, 0);
      FilterCache(_ => true);
      Unschedule(_ => true);
      FilterHashes(_ => true);
      FilterTags(_ => true);
    }
  }

  /** The const-generic capacities of a node. */
  datatype Capacities = Capacities(
    paths: nat, hashes: nat, announces: nat, reverse: nat, links: nat, tags: nat, outbound: nat, scheduled: nat)

  method EmptyGenerations(c: Capacities)
      returns (paths: GenTable<PathBody>, reverse: GenTable<ReverseBody>, links: GenTable<LinkBody>,
               disc: GenTable<Requesters>)
    ensures paths.Valid() && reverse.Valid() && links.Valid() && disc.Valid()
    ensures paths.entries == map[] && reverse.entries == map[] && links.entries == map[] && disc.entries == map[]
    ensures paths.last == reverse.last == links.last == disc.last == 0
    ensures fresh({paths, paths.rows, paths.gens, reverse, reverse.rows, reverse.gens, links, links.rows, links.gens,
      disc, disc.rows, disc.gens})
    ensures paths.gens != reverse.gens && paths.gens != links.gens && paths.gens != disc.gens
    ensures reverse.gens != links.gens && reverse.gens != disc.gens && links.gens != disc.gens
    ensures paths.rows.Length == c.paths && reverse.rows.Length == c.reverse
    ensures links.rows.Length == c.links == disc.rows.Length
  {
    hide Holds;
    paths := new GenTable<PathBody>(c.paths);
    reverse := new GenTable<ReverseBody>(c.reverse);
    links := new GenTable<LinkBody>(c.links);
    disc := new GenTable<Requesters>(c.links);
  }

  method EmptyLists(c: Capacities)
      returns (cache: RowTable<CacheBody>, schedule: RowTable<ScheduleBody>, hashes: RowTable<()>, tags: RowTable<()>)
    ensures cache.Valid() && schedule.Valid() && hashes.Valid() && tags.Valid()
    ensures cache.entries == map[] && schedule.entries == map[] && hashes.entries == map[] && tags.entries == map[]
    ensures fresh({cache, cache.rows, schedule, schedule.rows, hashes, hashes.rows, tags, tags.rows})
    ensures hashes != tags && hashes.rows != tags.rows
    ensures cache.rows.Length == c.announces && schedule.rows.Length == c.scheduled
    ensures hashes.rows.Length == c.hashes && tags.rows.Length == c.tags
  {
    hide Keeps;
    cache := new RowTable<CacheBody>(c.announces);
    schedule := new RowTable<ScheduleBody>(c.scheduled);
    hashes := new RowTable<()>(c.hashes);
    tags := new RowTable<()>(c.tags);
  }

  /** Tables without entries, no incarnation given out. */
  method EmptyTables(c: Capacities) returns (t: TableSet)
    ensures t.Valid() && fresh(t.repr)
    ensures t.Value() == Tabs(map[], 0, map[], 0, map[], 0, map[], 0, map[], map[], map[])
    ensures t.paths.rows.Length == c.paths && t.reverse.rows.Length == c.reverse && t.links.rows.Length == c.links
    ensures t.cache.rows.Length == c.announces && t.schedule.rows.Length == c.scheduled
    ensures t.hashes.rows.Length == c.hashes && t.tags.rows.Length == c.tags
  {
    hide Holds, Keeps, TableSet.Valid, TableSet.Value;
    var paths, reverse, links, disc := EmptyGenerations(c);
    var cache, schedule, hashes, tags := EmptyLists(c);
    t := new TableSet(paths, reverse, links, disc, cache, schedule, hashes, tags);
  }
}
