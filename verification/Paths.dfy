/** Learned routes: freshness, class-aware eviction and incarnations. */
module Paths {
  import opened Base
  import opened Rows
  import opened Generations

  type RandomHash = s: Bytes | |s| == 10 witness seq(10, _ => 0)

  datatype PathBody = PathBody(
    nextHop: Option<Hash>,
    hops: byte,
    interface: byte,
    lastSeen: u64,
    packetHash: Hash,
    random: RandomHash,
    publicKey: Hash,
    bulk: bool)

  type PathRow = Row<PathBody>

  /** Announce emission time: the big-endian integer in bytes 5 to 9 of the random hash. */
  function Emitted(random: RandomHash): (e: nat)
    ensures e < 0x100_0000_0000
  {
    ((((random[5] as int) * 256 + random[6]) * 256 + random[7]) * 256 + random[8]) * 256 + random[9]
  }

  /** It is what the last five of the ten bytes denote. */
  lemma EmittedIsRead(random: RandomHash)
    ensures Emitted(random) == FromBe(random[5..])
  {
    var b := random[5..];
    assert b[..4][..3][..2][..1] == [random[5]];
    assert FromBe(b[..4][..3][..2][..1]) == random[5];
    assert FromBe(b[..4][..3][..2]) == (random[5] as int) * 256 + random[6];
    assert FromBe(b[..4][..3]) == ((random[5] as int) * 256 + random[6]) * 256 + random[7];
    assert FromBe(b[..4]) == (((random[5] as int) * 256 + random[6]) * 256 + random[7]) * 256 + random[8];
  }

  predicate SameRoute(a: PathRow, b: PathRow) {
    a.key == b.key && a.body.interface == b.body.interface && a.body.nextHop == b.body.nextHop
      && a.body.hops == b.body.hops
  }

  /** The same announce, or one emitted later. */
  predicate NoOlder(a: PathRow, b: PathRow) {
    b.body.random == a.body.random || Emitted(b.body.random) > Emitted(a.body.random)
  }

  /** The branch structure of the replacement decision for a retained destination. */
  predicate ShouldReplace(old_: PathRow, new_: PathRow, now: u64) {
    var randomSeen := new_.body.random == old_.body.random;
    if new_.body.hops <= old_.body.hops then
      !randomSeen && Emitted(new_.body.random) > Emitted(old_.body.random)
    else if !(now < old_.expires) || Emitted(new_.body.random) > Emitted(old_.body.random) then
      !randomSeen
    else
      false
  }

  /** For a live route, hop count does not matter: an announce replaces it exactly when emitted later. */
  lemma ReplacesExactlyNewer(old_: PathRow, new_: PathRow, now: u64)
    requires now < old_.expires
    ensures ShouldReplace(old_, new_, now) <==> Emitted(new_.body.random) > Emitted(old_.body.random)
  {
  }

  ghost predicate OldestOf(m: Entries<PathBody>, v: u64, p: PathRow -> bool) {
    && v in m && p(m[v])
    && forall g :: g in m && p(m[g]) ==> m[v].expires <= m[g].expires
  }

  function BulkRoute(): PathRow -> bool {
    (r: PathRow) => r.body.bulk
  }

  /** Room for a new destination: free space, else the oldest bulk route, else, for a newcomer that
      is not bulk, the oldest route. A bulk newcomer gets no room from other classes. */
  ghost predicate MakesRoom(m: Entries<PathBody>, capacity: nat, bulk: bool, gone: set<u64>) {
    if |m| < capacity then
      gone == {}
    else
      && (HasAny(m, BulkRoute()) || !bulk)
      && exists v :: gone == {v} && OldestOf(m, v, (r: PathRow) => HasAny(m, BulkRoute()) ==> r.body.bulk)
  }

  /** `PathTable::insert_or_update`. */
  ghost predicate Updates(m: Entries<PathBody>, last: u64, capacity: nat, row: PathRow, now: u64,
                          m': Entries<PathBody>, last': u64, learned: bool)
  {
    var live := LiveAt(m, now);
    if HasKey(live, row.key) then
      exists h :: h in live && live[h].key == row.key &&
        if !learned then
          && m' == live && last' == last
          && (!(Emitted(row.body.random) > Emitted(live[h].body.random))
            || (!SameRoute(live[h], row) && last == U64_MAX))
        else
          && Emitted(row.body.random) > Emitted(live[h].body.random)
          && if SameRoute(live[h], row) then
               m' == live[h := row] && last' == last
             else
               last < U64_MAX && last' == last + 1 && m' == (live - {h})[last' := row]
    else InsertsNew(live, last, capacity, row, m', last', learned)
  }

  /** A path that has no predecessor in `m` is entered, or there is no room or generation for it. */
  ghost predicate InsertsNew(m: Entries<PathBody>, last: u64, capacity: nat, row: PathRow,
                             m': Entries<PathBody>, last': u64, learned: bool)
  {
    if learned then
      last < U64_MAX && last' == last + 1 &&
      exists gone :: MakesRoom(m, capacity, row.body.bulk, gone) && m' == (m - gone)[last' := row]
    else
      && m' == m && last' == last
      && (NextGeneration(capacity, last) == 0 || (|m| >= capacity && row.body.bulk && !HasAny(m, BulkRoute())))
  }

  lemma RoomMade(rows: seq<Option<PathRow>>, gens: seq<u64>, last: u64,
                 m: Entries<PathBody>, slot: map<u64, nat>, owner: map<Hash, u64>, bulk: bool, i: nat)
    requires Holds(rows, gens, last, m, slot, owner) && Admitted(rows, bulk, BulkRoute(), i)
    ensures MakesRoom(m, |rows|, bulk, if rows[i].Some? then {gens[i]} else {})
  {
    Occupancy(rows, gens, last, m, slot, owner);
    if rows[i].Some? {
      var v := gens[i];
      assert m[v] == rows[i].value;
      assert HasAny(m, BulkRoute()) <==> m[v].body.bulk by {
        if HasAny(m, BulkRoute()) {
          var g :| g in m && m[g].body.bulk;
          assert rows[slot[g]] == Some(m[g]);
        }
      }
      var p := (r: PathRow) => HasAny(m, BulkRoute()) ==> r.body.bulk;
      forall g | g in m && p(m[g]) ensures m[v].expires <= m[g].expires {
        assert rows[slot[g]] == Some(m[g]);
      }
      assert OldestOf(m, v, p);
    }
  }

  lemma NoRoom(rows: seq<Option<PathRow>>, gens: seq<u64>, last: u64,
               m: Entries<PathBody>, slot: map<u64, nat>, owner: map<Hash, u64>)
    requires Holds(rows, gens, last, m, slot, owner)
    requires forall k :: 0 <= k < |rows| ==> rows[k].Some? && !rows[k].value.body.bulk
    ensures |m| >= |rows| && !HasAny(m, BulkRoute())
  {
    Occupancy(rows, gens, last, m, slot, owner);
    forall g | g in m ensures !m[g].body.bulk {
      assert rows[slot[g]] == Some(m[g]);
    }
  }

  method InsertOrUpdate(t: GenTable<PathBody>, row: PathRow, now: u64) returns (learned: bool)
    requires t.Valid()
    modifies t, t.rows, t.gens
    ensures t.Valid()
    ensures Updates(old(t.entries), old(t.last), t.rows.Length, row, now, t.entries, t.last, learned)
  {
    hide Holds, InsertsNew;
    t.Expire(now);
    HoldsAt(t.rows[..], t.gens[..], t.last, t.entries, t.slot, t.owner);
    var i := FindKey(t.rows, row.key);
    if i < t.rows.Length {
      ghost var h := t.gens[i];
      assert t.rows[..][i].Some? && h in t.entries && t.entries[h] == t.rows[i].value;
      if ShouldReplace(t.rows[i].value, row, now) {
        learned := ReplaceEntry(t, i, row);
      } else {
        learned := false;
      }
      ReplacesExactlyNewer(old(t.entries)[h], row, now);
    } else {
      learned := InsertNew(t, row);
    }
  }

  /** A destination without a live path gets one where there is room for it. */
  method InsertNew(t: GenTable<PathBody>, row: PathRow) returns (learned: bool)
    requires t.Valid() && forall k :: 0 <= k < t.rows.Length && t.rows[k].Some? ==> t.rows[k].value.key != row.key
    modifies t, t.rows, t.gens
    ensures t.Valid()
    ensures InsertsNew(old(t.entries), old(t.last), t.rows.Length, row, t.entries, t.last, learned)
  {
    hide Holds;
    HoldsAt(t.rows[..], t.gens[..], t.last, t.entries, t.slot, t.owner);
    var i := FindRoom(t.rows, row.body.bulk, BulkRoute());
    if i == t.rows.Length {
      NoRoom(t.rows[..], t.gens[..], t.last, t.entries, t.slot, t.owner);
      learned := false;
    } else {
      RoomMade(t.rows[..], t.gens[..], t.last, t.entries, t.slot, t.owner, row.body.bulk, i);
      learned := ReplaceEntry(t, i, row);
    }
  }

  /**
   A fresh announce over the same route keeps the incarnation of queued bytes; anything else
   mints one, and fails without writing when no generation is left.
   */
  method ReplaceEntry(t: GenTable<PathBody>, i: nat, row: PathRow) returns (ok: bool)
    requires t.Valid() && i < t.rows.Length == t.gens.Length
    requires forall k :: 0 <= k < t.rows.Length && k != i && t.rows[k].Some? ==> t.rows[k].value.key != row.key
    modifies t, t.rows, t.gens
    ensures t.Valid()
    ensures if old(t.rows[i]).Some? && SameRoute(old(t.rows[i]).value, row) then
              ok && t.last == old(t.last) && t.entries == old(t.entries)[old(t.gens[i]) := row]
            else if old(t.last) == U64_MAX then
              !ok && t.last == old(t.last) && t.entries == old(t.entries)
            else
              && ok && t.last == old(t.last) + 1
              && t.entries == (old(t.entries) - (if old(t.rows[i]).Some? then {old(t.gens[i])} else {}))[t.last := row]
  {
    hide Holds;
    HoldsAt(t.rows[..], t.gens[..], t.last, t.entries, t.slot, t.owner);
    assert t.rows[..][i] == t.rows[i] && t.gens[..][i] == t.gens[i];
    if t.rows[i].Some? && SameRoute(t.rows[i].value, row) {
      t.Write(i, row, t.gens[i]);
      return true;
    }
    if NextGeneration(t.rows.Length, t.last) == 0 { return false; }
    t.Write(i, row, t.last + 1);
    return true;
  }
}
