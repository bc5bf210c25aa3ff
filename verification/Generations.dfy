/**
 Tables whose entries carry an incarnation ("generation") number.

 The abstract value of such a table is a map from generation to entry, with the last generation
 given out: a generation names at most one entry for the whole life of the table, so slot
 positions, slot reuse and the order of lookups are invisible through the map. `GenTable` is the
 concrete form, two arrays of slots, and each of its methods meets the map-level description.
 */
module Generations {
  import opened Base
  import opened Rows

  type Entries<B> = map<u64, Row<B>>

  /** The entries whose deadline is still ahead at `now`. */
  ghost function LiveAt<B>(m: Entries<B>, now: u64): Entries<B> {
    map g | g in m && now < m[g].expires :: m[g]
  }

  ghost function Without<B>(m: Entries<B>, p: Row<B> -> bool): Entries<B> {
    map g | g in m && !p(m[g]) :: m[g]
  }

  lemma ExpiringLeavesLive<B>(m: Entries<B>, now: u64)
    ensures Without(m, Expired(now)) == LiveAt(m, now)
  {
  }

  ghost predicate HasKey<B>(m: Entries<B>, key: Hash) {
    exists g :: g in m && m[g].key == key
  }

  ghost predicate UniquelyKeyed<B>(m: Entries<B>) {
    forall g, h :: g in m && h in m && m[g].key == m[h].key ==> g == h
  }

  /** `next_generation`, with zero for none: a table without slots or an exhausted counter. */
  function NextGeneration(capacity: nat, last: u64): (g: u64)
    ensures g == 0 <==> capacity == 0 || last == U64_MAX
    ensures g != 0 ==> g == last + 1
  {
    if capacity == 0 || last == U64_MAX then 0 else last + 1
  }

  /** What making room for `key` may remove from the live entries `m`. */
  ghost predicate Displaces<B>(m: Entries<B>, capacity: nat, key: Hash, gone: set<u64>) {
    if HasKey(m, key) then
      forall g :: g in gone <==> g in m && m[g].key == key
    else if |m| < capacity then
      gone == {}
    else
      exists v :: v in m && gone == {v} && forall g :: g in m ==> m[v].expires <= m[g].expires
  }

  /**
   `ReverseTable::insert` and `LinkTable::insert`: drop expired entries, then replace the entry
   with the same key, use free space, or displace an entry of least expiry. Nothing is inserted
   without a generation to give out.
   */
  ghost predicate Inserts<B>(m: Entries<B>, last: u64, capacity: nat, row: Row<B>, now: u64,
                             m': Entries<B>, last': u64)
  {
    var live := LiveAt(m, now);
    var g := NextGeneration(capacity, last);
    if g == 0 then
      m' == live && last' == last
    else
      last' == g && exists gone :: Displaces(live, capacity, row.key, gone) && m' == (live - gone)[g := row]
  }

  /**
   The slots `rows`, `gens` hold exactly the entries `m`: `slot` gives the slot of each held
   generation and `owner` the generation of each held key, so neither is held twice.
   */
  ghost predicate Holds<B>(rows: seq<Option<Row<B>>>, gens: seq<u64>, last: u64,
                           m: Entries<B>, slot: map<u64, nat>, owner: map<Hash, u64>)
  {
    && |rows| == |gens|
    && slot.Keys == m.Keys
    && (forall g :: g in m ==> 1 <= g <= last)
    && (forall g :: g in m ==> slot[g] < |rows| && rows[slot[g]] == Some(m[g]) && gens[slot[g]] == g)
    && (forall i :: 0 <= i < |rows| && rows[i].Some? ==> gens[i] in m && slot[gens[i]] == i)
    && (forall g :: g in m ==> m[g].key in owner && owner[m[g].key] == g)
  }

  lemma HoldsAt<B>(rows: seq<Option<Row<B>>>, gens: seq<u64>, last: u64,
                   m: Entries<B>, slot: map<u64, nat>, owner: map<Hash, u64>)
    requires Holds(rows, gens, last, m, slot, owner)
    ensures |rows| == |gens|
    ensures forall i :: 0 <= i < |rows| && rows[i].Some? ==> gens[i] in m && m[gens[i]] == rows[i].value
    ensures forall g :: g in m ==> 1 <= g <= last
    ensures UniquelyKeyed(m) && UniqueKeys(rows)
    ensures forall key :: HasKey(m, key) <==> exists i :: 0 <= i < |rows| && rows[i].Some? && rows[i].value.key == key
  {
    forall key | HasKey(m, key)
      ensures exists i :: 0 <= i < |rows| && rows[i].Some? && rows[i].value.key == key
    {
      var g :| g in m && m[g].key == key;
      assert rows[slot[g]].Some?;
    }
  }

  lemma Filtered<B>(rows: seq<Option<Row<B>>>, kept: seq<Option<Row<B>>>, gens: seq<u64>, last: u64,
                    m: Entries<B>, slot: map<u64, nat>, owner: map<Hash, u64>, p: Row<B> -> bool)
    requires Holds(rows, gens, last, m, slot, owner) && |kept| == |rows|
    requires forall i :: 0 <= i < |rows| ==> kept[i] == if rows[i].Some? && p(rows[i].value) then None else rows[i]
    ensures Holds(kept, gens, last, Without(m, p), map g | g in Without(m, p) && g in slot :: slot[g], owner)
  {
  }

  /** The entries after `f`, which keeps keys, has been applied to each. */
  ghost function Transformed<B>(m: Entries<B>, f: Row<B> -> Option<Row<B>>): Entries<B> {
    map g | g in m && f(m[g]).Some? :: f(m[g]).value
  }

  lemma Mapped<B>(rows: seq<Option<Row<B>>>, kept: seq<Option<Row<B>>>, gens: seq<u64>, last: u64,
                  m: Entries<B>, slot: map<u64, nat>, owner: map<Hash, u64>, f: Row<B> -> Option<Row<B>>)
    requires Holds(rows, gens, last, m, slot, owner) && |kept| == |rows|
    requires forall i :: 0 <= i < |rows| ==> kept[i] == if rows[i].Some? then f(rows[i].value) else None
    requires forall g :: g in m && f(m[g]).Some? ==> f(m[g]).value.key == m[g].key
    ensures Holds(kept, gens, last, Transformed(m, f), map g | g in Transformed(m, f) && g in slot :: slot[g], owner)
  {
  }

  /** Writing `row` under generation `g` into slot `i` displaces exactly what the slot held. */
  lemma Written<B>(rows: seq<Option<Row<B>>>, gens: seq<u64>, last: u64, last': u64,
                   m: Entries<B>, slot: map<u64, nat>, owner: map<Hash, u64>, i: nat, row: Row<B>, g: u64)
    requires Holds(rows, gens, last, m, slot, owner) && i < |rows| && last <= last' && 1 <= g <= last'
    requires g in m ==> rows[i].Some? && gens[i] == g
    requires forall k :: 0 <= k < |rows| && k != i && rows[k].Some? ==> rows[k].value.key != row.key
    ensures var gone := if rows[i].Some? then {gens[i]} else {};
      Holds(rows[i := Some(row)], gens[i := g], last', (m - gone)[g := row], (slot - gone)[g := i], owner[row.key := g])
  {
    var gone := if rows[i].Some? then {gens[i]} else {};
    assert forall h :: h in m && h !in gone ==> slot[h] != i;
  }

  /** A table holds at most one entry per slot, and is full exactly when no slot is empty. */
  lemma Occupancy<B>(rows: seq<Option<Row<B>>>, gens: seq<u64>, last: u64,
                     m: Entries<B>, slot: map<u64, nat>, owner: map<Hash, u64>)
    requires Holds(rows, gens, last, m, slot, owner)
    ensures |m| <= |rows|
    ensures |m| == |rows| <==> forall i :: 0 <= i < |rows| ==> rows[i].Some?
  {
    forall g, h | g in m.Keys && h in m.Keys && slot[g] == slot[h] ensures g == h {
      assert gens[slot[g]] == g && gens[slot[h]] == h;
    }
    forall i | 0 <= i < |rows| && rows[i].Some? ensures exists g :: g in m.Keys && slot[g] == i {
      assert slot[gens[i]] == i;
    }
    SlotCount(rows, m.Keys, slot);
    assert |m| == |m.Keys|;
  }

  /** Slot `i` is where `insert` writes an entry with this key. */
  ghost predicate Chosen<B>(rows: seq<Option<Row<B>>>, key: Hash, i: nat) {
    && i < |rows|
    && if exists k :: 0 <= k < |rows| && rows[k].Some? && rows[k].value.key == key then
         rows[i].Some? && rows[i].value.key == key
       else
         rows[i].Some? ==>
           forall k :: 0 <= k < |rows| ==> rows[k].Some? && rows[i].value.expires <= rows[k].value.expires
  }

  lemma Evicted<B>(rows: seq<Option<Row<B>>>, gens: seq<u64>, last: u64,
                   m: Entries<B>, slot: map<u64, nat>, owner: map<Hash, u64>, key: Hash, i: nat)
    requires Holds(rows, gens, last, m, slot, owner) && Chosen(rows, key, i)
    ensures Displaces(m, |rows|, key, if rows[i].Some? then {gens[i]} else {})
    ensures forall k :: 0 <= k < |rows| && k != i && rows[k].Some? ==> rows[k].value.key != key
  {
    HoldsAt(rows, gens, last, m, slot, owner);
    Occupancy(rows, gens, last, m, slot, owner);
    if !HasKey(m, key) && rows[i].Some? {
      forall g | g in m ensures rows[i].value.expires <= m[g].expires {
        assert rows[slot[g]] == Some(m[g]);
      }
    }
  }

  class GenTable<B> {
    const rows: array<Option<Row<B>>>
    const gens: array<u64>
    var last: u64
    /** The entries held, by generation. */
    ghost var entries: Entries<B>
    ghost var slot: map<u64, nat>
    ghost var owner: map<Hash, u64>

    ghost predicate Valid()
      reads this, rows, gens
    {
      Holds(rows[..], gens[..], last, entries, slot, owner)
    }

    constructor (capacity: nat)
      ensures Valid() && fresh(rows) && fresh(gens)
      ensures entries == map[] && last == 0 && rows.Length == capacity
    {
      rows := new Option<Row<B>>[capacity](_ => None);
      gens := new u64[capacity](_ => 0);
      last, entries, slot, owner := 0, map[], map[], map[];
    }

    method RemoveWhere(p: Row<B> -> bool)
      requires Valid()
      modifies this`entries, this`slot, rows
      ensures Valid() && entries == Without(old(entries), p)
    {
      hide Holds;
      RemoveSlots(rows, p);
      Filtered(old(rows[..]), rows[..], gens[..], last, entries, slot, owner, p);
      slot := map g | g in Without(entries, p) && g in slot :: slot[g];
      entries := Without(entries, p);
    }

    method Transform(f: Row<B> -> Option<Row<B>>)
      requires Valid()
      requires forall g :: g in entries && f(entries[g]).Some? ==> f(entries[g]).value.key == entries[g].key
      modifies this`entries, this`slot, rows
      ensures Valid() && entries == Transformed(old(entries), f)
    {
      hide Holds;
      TransformSlots(rows, f);
      Mapped(old(rows[..]), rows[..], gens[..], last, entries, slot, owner, f);
      slot := map g | g in Transformed(entries, f) && g in slot :: slot[g];
      entries := Transformed(entries, f);
    }

    /** Keeps every generation number: only the entries go. */
    method Clear()
      requires Valid()
      modifies this`entries, this`slot, rows
      ensures Valid() && entries == map[]
    {
      RemoveWhere(_ => true);
    }

    method Expire(now: u64)
      requires Valid()
      modifies this`entries, this`slot, rows
      ensures Valid() && entries == LiveAt(old(entries), now)
    {
      hide Holds;
      RemoveWhere(Expired(now));
    }

    /** Slot of the entry with this key that is live at `now`, or the capacity. */
    method Find(key: Hash, now: u64) returns (idx: nat)
      requires Valid()
      ensures idx <= rows.Length == gens.Length
      ensures idx < rows.Length ==> gens[idx] in entries && rows[idx] == Some(entries[gens[idx]])
      ensures idx < rows.Length ==> rows[idx].value.key == key && now < rows[idx].value.expires
      ensures idx == rows.Length ==> !HasKey(LiveAt(entries, now), key)
    {
      idx := 0;
      while idx < rows.Length && !(rows[idx].Some? && rows[idx].value.key == key && now < rows[idx].value.expires)
        invariant idx <= rows.Length
        invariant forall k ::
          0 <= k < idx ==> !(rows[k].Some? && rows[k].value.key == key && now < rows[k].value.expires)
      {
        idx := idx + 1;
      }
    }

    /** First empty slot, or the capacity when the table is full. */
    method FreeSlot() returns (i: nat)
      requires Valid()
      ensures i <= rows.Length && (i == rows.Length <==> |entries| >= rows.Length)
      ensures i < rows.Length ==> rows[i].None?
    {
      hide Holds;
      i := FindFree(rows);
      Occupancy(rows[..], gens[..], last, entries, slot, owner);
      if i < rows.Length {
        assert rows[..][i] == None;
      }
    }

    /** Live entry of generation `g`; generation zero names nothing. */
    method GetGeneration(g: u64, now: u64) returns (r: Option<Row<B>>)
      requires Valid()
      ensures r == if g in entries && now < entries[g].expires then Some(entries[g]) else None
    {
      r := None;
      if g == 0 { return; }
      for i := 0 to rows.Length
        invariant forall k :: 0 <= k < i ==> !(rows[k].Some? && gens[k] == g && now < rows[k].value.expires)
      {
        if rows[i].Some? && gens[i] == g && now < rows[i].value.expires {
          return rows[i];
        }
      }
    }

    /** Write `row` under generation `g` into slot `i`, displacing what the slot held. */
    method Write(i: nat, row: Row<B>, g: u64)
      requires Valid() && i < rows.Length == gens.Length && 1 <= g <= last + 1
      requires g in entries ==> rows[i].Some? && gens[i] == g
      requires forall k :: 0 <= k < rows.Length && k != i && rows[k].Some? ==> rows[k].value.key != row.key
      modifies this, rows, gens
      ensures Valid() && last == if g <= old(last) then old(last) else g
      ensures entries == (old(entries) - (if old(rows[i]).Some? then {old(gens[i])} else {}))[g := row]
    {
      hide Holds;
      ghost var gone := if rows[i].Some? then {gens[i]} else {};
      var next := if g <= last then last else g;
      Written(rows[..], gens[..], last, next, entries, slot, owner, i, row, g);
      last := next;
      rows[i], gens[i] := Some(row), g;
      assert rows[..] == old(rows[..])[i := Some(row)] && gens[..] == old(gens[..])[i := g];
      entries, slot, owner := (entries - gone)[g := row], (slot - gone)[g := i], owner[row.key := g];
    }

    method Insert(row: Row<B>, now: u64)
      requires Valid()
      modifies this, rows, gens
      ensures Valid()
      ensures Inserts(old(entries), old(last), rows.Length, row, now, entries, last)
    {
      hide Holds;
      Expire(now);
      if NextGeneration(rows.Length, last) == 0 { return; }
      HoldsAt(rows[..], gens[..], last, entries, slot, owner);
      var i := FindKey(rows, row.key);
      if i == rows.Length {
        i := FindSpare(rows);
      }
      assert Chosen(rows[..], row.key, i);
      Evicted(rows[..], gens[..], last, entries, slot, owner, row.key, i);
      Write(i, row, last + 1);
    }
  }
}
