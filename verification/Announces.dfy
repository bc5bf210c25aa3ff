/** The announce cache that answers path requests, and the rebroadcast schedule. */
module Announces {
  import opened Base
  import opened Rows
  import opened RowTables
  import opened Wire

  datatype CacheBody = CacheBody(packet: Packet, hops: byte, bulk: bool)
  type CacheRow = Row<CacheBody>

  function BulkAnnounce(): CacheRow -> bool {
    (r: CacheRow) => r.body.bulk
  }

  /** The announce that makes room for another destination's: the oldest bulk one, else the oldest. */
  ghost predicate Displaceable(m: Table<CacheBody>, v: Hash) {
    && v in m && (HasAny(m, BulkAnnounce()) ==> m[v].body.bulk)
    && forall k :: k in m && (HasAny(m, BulkAnnounce()) ==> m[k].body.bulk) ==> m[v].expires <= m[k].expires
  }

  /** `AnnounceCache::insert`: over whatever the destination had before; a bulk newcomer displaces only bulk. */
  ghost predicate Caches(m: Table<CacheBody>, capacity: nat, row: CacheRow, now: u64, m': Table<CacheBody>) {
    var live := LiveRows(m, now);
    if row.key in live then m' == live[row.key := row] else CachesNew(live, capacity, row, m')
  }

  /** A destination that is not cached: entered where there is room, else in place of the class victim, if any. */
  ghost predicate CachesNew(m: Table<CacheBody>, capacity: nat, row: CacheRow, m': Table<CacheBody>) {
    if |m| < capacity then m' == m[row.key := row]
    else if capacity == 0 || (row.body.bulk && !HasAny(m, BulkAnnounce())) then m' == m
    else exists v: Hash :: Displaceable(m, v) && m' == (m - {v})[row.key := row]
  }

  /** Where the class victim of a full cache is. */
  lemma VictimCached(rows: seq<Option<CacheRow>>, m: Table<CacheBody>, slot: map<Hash, nat>, bulk: bool, i: nat)
    requires Keeps(rows, m, slot) && Admitted(rows, bulk, BulkAnnounce(), i) && rows[i].Some?
    ensures Displaceable(m, rows[i].value.key) && (bulk ==> HasAny(m, BulkAnnounce())) && |m| == |rows|
  {
    KeepsAt(rows, m, slot);
    KeepsCount(rows, m, slot);
    var v := rows[i].value.key;
    assert m[v] == rows[i].value;
    forall k | k in m ensures rows[slot[k]] == Some(m[k]) {
    }
    assert !m[v].body.bulk ==> !HasAny(m, BulkAnnounce());
  }

  lemma NoneBulk(rows: seq<Option<CacheRow>>, m: Table<CacheBody>, slot: map<Hash, nat>)
    requires Keeps(rows, m, slot) && forall k :: 0 <= k < |rows| ==> rows[k].Some? && !BulkAnnounce()(rows[k].value)
    ensures !HasAny(m, BulkAnnounce())
  {
    KeepsAt(rows, m, slot);
  }

  /** Where a new destination's announce goes: a free slot, else the class victim, else nowhere. */
  method RoomInCache(t: RowTable<CacheBody>, bulk: bool) returns (i: nat)
    requires t.Valid()
    ensures i <= t.rows.Length
    ensures i == t.rows.Length ==> |t.entries| == i && (i != 0 ==> bulk && !HasAny(t.entries, BulkAnnounce()))
    ensures i < t.rows.Length ==>
      match t.rows[i]
      case None => |t.entries| < t.rows.Length
      case Some(v) =>
        && |t.entries| == t.rows.Length && Displaceable(t.entries, v.key)
        && (bulk ==> HasAny(t.entries, BulkAnnounce()))
  {
    hide Keeps, HasAny, Displaceable, Admitted;
    KeepsCount(t.rows[..], t.entries, t.slot);
    i := FindRoom(t.rows, bulk, BulkAnnounce());
    if i == t.rows.Length {
      NoneBulk(t.rows[..], t.entries, t.slot);
    } else if t.rows[i].Some? {
      VictimCached(t.rows[..], t.entries, t.slot, bulk, i);
    } else {
      assert t.rows[..][i] == None;
    }
  }

  method CacheInsert(t: RowTable<CacheBody>, row: CacheRow, now: u64)
    requires t.Valid()
    modifies t, t.rows
    ensures t.Valid() && Caches(old(t.entries), t.rows.Length, row, now, t.entries)
  {
    hide Keeps, HasAny, Displaceable;
    t.Expire(now);
    KeepsAt(t.rows[..], t.entries, t.slot);
    var i := FindKey(t.rows, row.key);
    assert i < t.rows.Length ==> t.rows[..][i] == t.rows[i];
    if i < t.rows.Length {
      assert t.entries - {row.key} + map[row.key := row] == t.entries[row.key := row];
      t.Write(i, row);
    } else {
      CacheNew(t, row);
    }
  }

  /** An announce whose destination is not cached goes where there is room for it. */
  method CacheNew(t: RowTable<CacheBody>, row: CacheRow)
    requires t.Valid() && row.key !in t.entries
    modifies t, t.rows
    ensures t.Valid() && CachesNew(old(t.entries), t.rows.Length, row, t.entries)
  {
    hide Keeps, HasAny, Displaceable;
    KeepsAt(t.rows[..], t.entries, t.slot);
    var i := RoomInCache(t, row.body.bulk);
    if i == t.rows.Length { return; }
    assert t.rows[..][i] == t.rows[i];
    t.Write(i, row);
  }

  /** `ScheduledAnnounce`, with the registry slots still owed a copy as a set. */
  datatype ScheduleBody = ScheduleBody(
    packet: Packet,
    interface: byte,
    due: u64,
    block: bool,
    hops: byte,
    retries: nat,
    local: nat,
    pending: set<nat>)
  {
    predicate PendingOnly() {
      due == U64_MAX
    }
  }
  type ScheduleRow = Row<ScheduleBody>
  type Schedule = Table<ScheduleBody>

  /** The frame of a scheduled entry is an announce of the entry's destination. */
  predicate Announcing(row: ScheduleRow) {
    var h := row.body.packet.header;
    && h.destination == row.key && h.context == CONTEXT_NONE
    && h.flags.packetType.Announce? && h.flags.destinationType.Single?
  }

  /** `release_precedes`: fewer hops first, then the earlier deadline. */
  predicate Precedes(a: ScheduleRow, b: ScheduleRow) {
    a.body.hops < b.body.hops || (a.body.hops == b.body.hops && a.expires < b.expires)
  }

  /** Who makes room for a new destination: a pending-only entry released last, else one of least expiry. */
  ghost predicate ScheduleEvicts(m: Schedule, capacity: nat, gone: set<Hash>) {
    if |m| < capacity then gone == {} else exists v :: gone == {v} && LastOut(m, v)
  }

  ghost predicate LastOut(m: Schedule, v: Hash) {
    && v in m
    && if exists k :: k in m && m[k].body.PendingOnly() then
         m[v].body.PendingOnly() && forall k :: k in m && m[k].body.PendingOnly() ==> !Precedes(m[v], m[k])
       else
         forall k :: k in m ==> m[v].expires <= m[k].expires
  }

  /** `AnnounceSchedule::insert`. */
  ghost predicate Schedules(m: Schedule, capacity: nat, row: ScheduleRow, now: u64, m': Schedule) {
    var live := LiveRows(m, now);
    if row.key in live then m' == live[row.key := row]
    else if capacity == 0 then m' == live
    else exists gone :: ScheduleEvicts(live, capacity, gone) && m' == (live - gone)[row.key := row]
  }

  /**
   First slot, among those satisfying `p`, that no other such slot comes before (`first`) or
   after (otherwise) in release order; the capacity when none satisfies `p`.
   */
  method FindExtreme(a: array<Option<ScheduleRow>>, p: ScheduleRow -> bool, first: bool) returns (idx: nat)
    ensures idx <= a.Length
    ensures idx < a.Length ==> Eligible(a[idx], p)
    ensures idx < a.Length ==> forall k :: 0 <= k < a.Length && Eligible(a[k], p) ==>
      if first then !Precedes(a[k].value, a[idx].value) else !Precedes(a[idx].value, a[k].value)
    ensures idx == a.Length ==> forall k :: 0 <= k < a.Length ==> !Eligible(a[k], p)
  {
    idx := a.Length;
    for i := 0 to a.Length
      invariant idx == a.Length || idx < i
      invariant idx < i ==> Eligible(a[idx], p)
      invariant idx < i ==> forall k :: 0 <= k < i && Eligible(a[k], p) ==>
        if first then !Precedes(a[k].value, a[idx].value) else !Precedes(a[idx].value, a[k].value)
      invariant idx == a.Length ==> forall k :: 0 <= k < i ==> !Eligible(a[k], p)
    {
      if a[i].Some? && p(a[i].value) &&
         (idx == a.Length || if first then Precedes(a[i].value, a[idx].value) else Precedes(a[idx].value, a[i].value)) {
        idx := i;
      }
    }
  }

  /** Slot `i` is free, or the table is full and the slot holds the entry to go first. */
  ghost predicate SpareScheduled(rows: seq<Option<ScheduleRow>>, i: nat) {
    && i < |rows|
    && (rows[i].Some? ==>
          && (forall k :: 0 <= k < |rows| ==> rows[k].Some?)
          && if rows[i].value.body.PendingOnly() then
               forall k :: 0 <= k < |rows| && rows[k].value.body.PendingOnly() ==>
                 !Precedes(rows[i].value, rows[k].value)
             else
               forall k :: 0 <= k < |rows| ==>
                 !rows[k].value.body.PendingOnly() && rows[i].value.expires <= rows[k].value.expires)
  }

  lemma VictimScheduled(rows: seq<Option<ScheduleRow>>, m: Schedule, slot: map<Hash, nat>, i: nat)
    requires Keeps(rows, m, slot) && SpareScheduled(rows, i)
    ensures ScheduleEvicts(m, |rows|, if rows[i].Some? then {rows[i].value.key} else {})
  {
    KeepsCount(rows, m, slot);
    if rows[i].Some? {
      var v := rows[i].value.key;
      assert v in m && m[v] == rows[i].value;
      forall k | k in m ensures rows[slot[k]] == Some(m[k]) {
      }
      assert LastOut(m, v);
    }
  }

  method FindScheduleSpare(a: array<Option<ScheduleRow>>) returns (i: nat)
    ensures if a.Length == 0 then i == 0 else SpareScheduled(a[..], i)
  {
    i := FindFree(a);
    if i < a.Length { return; }
    var pendingOnly := (r: ScheduleRow) => r.body.PendingOnly();
    i := FindExtreme(a, pendingOnly, false);
    if i < a.Length {
      assert forall k :: 0 <= k < a.Length && a[k].value.body.PendingOnly() ==> Eligible(a[k], pendingOnly);
    } else {
      assert forall k :: 0 <= k < a.Length ==> !Eligible(a[k], pendingOnly) && !a[k].value.body.PendingOnly();
      i := FindSpare(a);
    }
  }

  method ScheduleInsert(t: RowTable<ScheduleBody>, row: ScheduleRow, now: u64)
    requires t.Valid()
    modifies t, t.rows
    ensures t.Valid() && Schedules(old(t.entries), t.rows.Length, row, now, t.entries)
  {
    hide Keeps;
    t.Expire(now);
    KeepsAt(t.rows[..], t.entries, t.slot);
    var i := FindKey(t.rows, row.key);
    if i < t.rows.Length {
      assert t.rows[..][i] == t.rows[i];
      t.Write(i, row);
    } else if t.rows.Length != 0 {
      i := FindScheduleSpare(t.rows);
      VictimScheduled(t.rows[..], t.entries, t.slot, i);
      t.Write(i, row);
    }
  }

  /** The entry left behind once `slot` has been served: gone when nothing more is owed or scheduled. */
  function AfterRelease(row: ScheduleRow, slot: nat): Option<ScheduleRow> {
    var rest := row.(body := row.body.(pending := row.body.pending - {slot}));
    if rest.body.pending != {} || !rest.body.PendingOnly() then Some(rest) else None
  }

  /** `release_pending`: the first owed entry in release order, with `slot` struck off. */
  ghost predicate Releases(m: Schedule, slot: nat, now: u64, r: Option<ScheduleRow>, m': Schedule) {
    var live := LiveRows(m, now);
    match r
    case None => m' == live && forall k :: k in live ==> slot !in live[k].body.pending || slot >= 8
    case Some(row) =>
      && slot < 8 && slot !in row.body.pending
      && row.key in live && slot in live[row.key].body.pending
      && row == live[row.key].(body := live[row.key].body.(pending := live[row.key].body.pending - {slot}))
      && (forall k :: k in live && slot in live[k].body.pending ==> !Precedes(live[k], row))
      && m' == match AfterRelease(live[row.key], slot)
               case Some(rest) => live[row.key := rest]
               case None => live - {row.key}
  }

  /** The slot of the first owed entry in release order; the capacity when nothing is owed. */
  method FirstOwed(t: RowTable<ScheduleBody>, slot: nat) returns (i: nat)
    requires t.Valid()
    ensures i <= t.rows.Length
    ensures i == t.rows.Length ==> forall k :: k in t.entries ==> slot !in t.entries[k].body.pending
    ensures i < t.rows.Length ==>
      && t.rows[i].Some? && t.rows[i].value.key in t.entries && t.entries[t.rows[i].value.key] == t.rows[i].value
      && slot in t.rows[i].value.body.pending
      && forall k :: k in t.entries && slot in t.entries[k].body.pending ==> !Precedes(t.entries[k], t.rows[i].value)
  {
    hide Keeps, Precedes;
    KeepsAt(t.rows[..], t.entries, t.slot);
    var owed := (r: ScheduleRow) => slot in r.body.pending;
    i := FindExtreme(t.rows, owed, true);
    forall k | k in t.entries && slot in t.entries[k].body.pending
      ensures i < t.rows.Length && !Precedes(t.entries[k], t.rows[i].value)
    {
      var j :| 0 <= j < t.rows.Length && t.rows[..][j] == Some(t.entries[k]);
      assert Eligible(t.rows[j], owed);
    }
    if i < t.rows.Length {
      assert Eligible(t.rows[i], owed) && t.rows[..][i] == t.rows[i];
    }
  }

  method ReleasePending(t: RowTable<ScheduleBody>, slot: nat, now: u64) returns (r: Option<ScheduleRow>)
    requires t.Valid()
    modifies t, t.rows
    ensures t.Valid() && Releases(old(t.entries), slot, now, r, t.entries)
  {
    hide Keeps, Precedes;
    t.Expire(now);
    if slot >= 8 { return None; }
    var i := FirstOwed(t, slot);
    if i == t.rows.Length { return None; }
    ghost var live := t.entries;
    var best := t.rows[i].value;
    var rest := best.(body := best.body.(pending := best.body.pending - {slot}));
    assert forall k :: k in live && slot in live[k].body.pending ==> !Precedes(live[k], rest) by {
      SamePlace(best, rest);
    }
    if rest.body.pending != {} || !rest.body.PendingOnly() {
      t.Write(i, rest);
      assert t.entries == live[best.key := rest];
    } else {
      RemoveKey(t, best.key);
    }
    return Some(rest);
  }

  /** What is owed has no bearing on the place in release order. */
  lemma SamePlace(a: ScheduleRow, b: ScheduleRow)
    requires b == a.(body := a.body.(pending := b.body.pending))
    ensures forall x :: Precedes(x, a) == Precedes(x, b)
  {
  }

  lemma WithoutKey(m: Schedule, key: Hash)
    requires forall k :: k in m ==> m[k].key == k
    ensures RowsWithout(m, (r: ScheduleRow) => r.key == key) == m - {key}
  {
  }

  method RemoveKey(t: RowTable<ScheduleBody>, key: Hash)
    requires t.Valid()
    modifies t, t.rows
    ensures t.Valid() && t.entries == old(t.entries) - {key}
  {
    assert forall k :: k in t.entries ==> t.entries[k].key == k by {
      KeysHeld(t.rows[..], t.entries, t.slot);
    }
    hide Keeps;
    ghost var m := t.entries;
    t.RemoveWhere((r: ScheduleRow) => r.key == key);
    assert t.entries == m - {key} by { WithoutKey(m, key); }
  }

  /** `pop_due`: an entry whose time has come, taken out of the schedule. */
  ghost predicate Pops(m: Schedule, now: u64, r: Option<ScheduleRow>, m': Schedule) {
    var live := LiveRows(m, now);
    match r
    case None => m' == live && forall k :: k in live ==> now < live[k].body.due
    case Some(row) => row.key in live && live[row.key] == row && now >= row.body.due && m' == live - {row.key}
  }

  method PopDue(t: RowTable<ScheduleBody>, now: u64) returns (r: Option<ScheduleRow>)
    requires t.Valid()
    modifies t, t.rows
    ensures t.Valid() && Pops(old(t.entries), now, r, t.entries)
  {
    hide Keeps;
    t.Expire(now);
    KeepsAt(t.rows[..], t.entries, t.slot);
    ghost var live := t.entries;
    var due := (r: ScheduleRow) => now >= r.body.due;
    var i := FindWhere(t.rows, due);
    if i < t.rows.Length {
      r := t.rows[i];
      assert Eligible(t.rows[i], due) && t.rows[..][i] == r;
      var key := r.value.key;
      t.RemoveWhere((r: ScheduleRow) => r.key == key);
      assert t.entries == live - {key};
    } else {
      r := None;
      forall k | k in live ensures now < live[k].body.due {
        var j :| 0 <= j < t.rows.Length && t.rows[..][j] == Some(live[k]);
        assert !Eligible(t.rows[j], due);
      }
    }
  }
}
