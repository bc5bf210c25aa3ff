/** Keyed tables without incarnations: duplicate lists and the announce cache. */
module RowTables {
  import opened Base
  import opened Rows

  type Table<B> = map<Hash, Row<B>>

  ghost function LiveRows<B>(m: Table<B>, now: u64): Table<B> {
    map k | k in m && now < m[k].expires :: m[k]
  }

  ghost function RowsWithout<B>(m: Table<B>, p: Row<B> -> bool): Table<B> {
    map k | k in m && !p(m[k]) :: m[k]
  }

  lemma ExpiringLeavesRows<B>(m: Table<B>, now: u64)
    ensures RowsWithout(m, Expired(now)) == LiveRows(m, now)
  {
  }

  /** The slots hold exactly the entries `m`, each under its own key. */
  ghost predicate Keeps<B>(rows: seq<Option<Row<B>>>, m: Table<B>, slot: map<Hash, nat>) {
    && slot.Keys == m.Keys
    && (forall k :: k in m ==> m[k].key == k && slot[k] < |rows| && rows[slot[k]] == Some(m[k]))
    && (forall i :: 0 <= i < |rows| && rows[i].Some? ==> rows[i].value.key in m && slot[rows[i].value.key] == i)
  }

  lemma KeepsAt<B>(rows: seq<Option<Row<B>>>, m: Table<B>, slot: map<Hash, nat>)
    requires Keeps(rows, m, slot)
    ensures forall i ::
      0 <= i < |rows| && rows[i].Some? ==> rows[i].value.key in m && m[rows[i].value.key] == rows[i].value
    ensures forall k :: k in m ==> m[k].key == k && exists i :: 0 <= i < |rows| && rows[i] == Some(m[k])
    ensures UniqueKeys(rows)
  {
    forall k | k in m ensures exists i :: 0 <= i < |rows| && rows[i] == Some(m[k]) {
      assert rows[slot[k]] == Some(m[k]);
    }
  }

  lemma KeysHeld<B>(rows: seq<Option<Row<B>>>, m: Table<B>, slot: map<Hash, nat>)
    requires Keeps(rows, m, slot)
    ensures forall k :: k in m ==> m[k].key == k
  {
  }

  lemma KeepsFiltered<B>(rows: seq<Option<Row<B>>>, kept: seq<Option<Row<B>>>, m: Table<B>, slot: map<Hash, nat>,
                         p: Row<B> -> bool)
    requires Keeps(rows, m, slot) && |kept| == |rows|
    requires forall i :: 0 <= i < |rows| ==> kept[i] == if rows[i].Some? && p(rows[i].value) then None else rows[i]
    ensures Keeps(kept, RowsWithout(m, p), map k | k in RowsWithout(m, p) && k in slot :: slot[k])
  {
  }

  ghost function RowsTransformed<B>(m: Table<B>, f: Row<B> -> Option<Row<B>>): Table<B> {
    map k | k in m && f(m[k]).Some? :: f(m[k]).value
  }

  lemma KeepsMapped<B>(rows: seq<Option<Row<B>>>, kept: seq<Option<Row<B>>>, m: Table<B>, slot: map<Hash, nat>,
                       f: Row<B> -> Option<Row<B>>)
    requires Keeps(rows, m, slot) && |kept| == |rows|
    requires forall i :: 0 <= i < |rows| ==> kept[i] == if rows[i].Some? then f(rows[i].value) else None
    requires forall k :: k in m && f(m[k]).Some? ==> f(m[k]).value.key == k
    ensures Keeps(kept, RowsTransformed(m, f), map k | k in RowsTransformed(m, f) && k in slot :: slot[k])
  {
  }

  lemma KeepsWritten<B>(rows: seq<Option<Row<B>>>, m: Table<B>, slot: map<Hash, nat>, i: nat, row: Row<B>)
    requires Keeps(rows, m, slot) && i < |rows|
    requires row.key in m ==> rows[i].Some? && rows[i].value.key == row.key
    ensures var gone := if rows[i].Some? then {rows[i].value.key} else {};
      Keeps(rows[i := Some(row)], (m - gone)[row.key := row], (slot - gone)[row.key := i])
  {
    var gone := if rows[i].Some? then {rows[i].value.key} else {};
    assert forall k :: k in m && k !in gone ==> slot[k] != i;
  }

  lemma KeepsCount<B>(rows: seq<Option<Row<B>>>, m: Table<B>, slot: map<Hash, nat>)
    requires Keeps(rows, m, slot)
    ensures |m| <= |rows|
    ensures |m| == |rows| <==> forall i :: 0 <= i < |rows| ==> rows[i].Some?
  {
    forall i | 0 <= i < |rows| && rows[i].Some? ensures exists k :: k in m.Keys && slot[k] == i {
      assert slot[rows[i].value.key] == i;
    }
    SlotCount(rows, m.Keys, slot);
    assert |m| == |m.Keys|;
  }

  /** Room for one more entry: nothing goes unless the table is full, and then one of least expiry. */
  ghost predicate Evicts<B>(m: Table<B>, capacity: nat, gone: set<Hash>) {
    if |m| < capacity then gone == {}
    else exists v :: v in m && gone == {v} && forall k :: k in m ==> m[v].expires <= m[k].expires
  }

  lemma SpareEvicts<B>(rows: seq<Option<Row<B>>>, m: Table<B>, slot: map<Hash, nat>, i: nat)
    requires Keeps(rows, m, slot) && Spare(rows, i)
    ensures Evicts(m, |rows|, if rows[i].Some? then {rows[i].value.key} else {})
  {
    KeepsCount(rows, m, slot);
    if rows[i].Some? {
      var v := rows[i].value.key;
      assert m[v] == rows[i].value;
      forall k | k in m ensures m[v].expires <= m[k].expires {
        assert rows[slot[k]] == Some(m[k]);
      }
    }
  }

  /** A key still held is not refreshed; a new one is kept at the cost of at most one entry of least expiry. */
  ghost predicate Remembers<B>(m: Table<B>, capacity: nat, row: Row<B>, now: u64, m': Table<B>, isNew: bool) {
    var live := LiveRows(m, now);
    && isNew == (row.key !in live)
    && (!isNew || capacity == 0 ==> m' == live)
    && (isNew && capacity != 0 ==> exists gone :: Evicts(live, capacity, gone) && m' == (live - gone)[row.key := row])
  }

  class RowTable<B> {
    const rows: array<Option<Row<B>>>
    /** The entries held, by key. */
    ghost var entries: Table<B>
    ghost var slot: map<Hash, nat>

    ghost predicate Valid()
      reads this, rows
    {
      Keeps(rows[..], entries, slot)
    }

    constructor (capacity: nat)
      ensures Valid() && fresh(rows) && entries == map[] && rows.Length == capacity
    {
      rows := new Option<Row<B>>[capacity](_ => None);
      entries, slot := map[], map[];
    }

    method RemoveWhere(p: Row<B> -> bool)
      requires Valid()
      modifies this, rows
      ensures Valid() && entries == RowsWithout(old(entries), p)
    {
      hide Keeps;
      RemoveSlots(rows, p);
      KeepsFiltered(old(rows[..]), rows[..], entries, slot, p);
      slot := map k | k in RowsWithout(entries, p) && k in slot :: slot[k];
      entries := RowsWithout(entries, p);
    }

    method Transform(f: Row<B> -> Option<Row<B>>)
      requires Valid()
      requires forall k :: k in entries && f(entries[k]).Some? ==> f(entries[k]).value.key == k
      modifies this, rows
      ensures Valid() && entries == RowsTransformed(old(entries), f)
    {
      hide Keeps;
      TransformSlots(rows, f);
      KeepsMapped(old(rows[..]), rows[..], entries, slot, f);
      slot := map k | k in RowsTransformed(entries, f) && k in slot :: slot[k];
      entries := RowsTransformed(entries, f);
    }

    method Expire(now: u64)
      requires Valid()
      modifies this, rows
      ensures Valid() && entries == LiveRows(old(entries), now)
    {
      hide Keeps;
      RemoveWhere(Expired(now));
    }

    /** The entry with this key, expired or not. */
    method Get(key: Hash) returns (r: Option<Row<B>>)
      requires Valid()
      ensures r == if key in entries then Some(entries[key]) else None
    {
      hide Keeps;
      KeepsAt(rows[..], entries, slot);
      var i := FindKey(rows, key);
      if i < rows.Length {
        assert rows[..][i] == rows[i];
        r := rows[i];
      } else {
        r := None;
      }
    }

    /** Put `row` into slot `i`, displacing what the slot held. */
    method Write(i: nat, row: Row<B>)
      requires Valid() && i < rows.Length
      requires row.key in entries ==> rows[i].Some? && rows[i].value.key == row.key
      modifies this, rows
      ensures Valid() && rows[..] == old(rows[..])[i := Some(row)]
      ensures entries == (old(entries) - (if old(rows[i]).Some? then {old(rows[i]).value.key} else {}))[row.key := row]
    {
      hide Keeps;
      ghost var gone := if rows[i].Some? then {rows[i].value.key} else {};
      KeepsWritten(rows[..], entries, slot, i, row);
      rows[i] := Some(row);
      assert rows[..] == old(rows[..])[i := Some(row)];
      entries, slot := (entries - gone)[row.key := row], (slot - gone)[row.key := i];
    }

    /** `PacketHashTable::insert` and `RequestTagTable::insert_if_new`: false for a key that is still held. */
    method InsertIfNew(row: Row<B>, now: u64) returns (isNew: bool)
      requires Valid()
      modifies this, rows
      ensures Valid() && Remembers(old(entries), rows.Length, row, now, entries, isNew)
    {
      hide Keeps;
      Expire(now);
      KeepsAt(rows[..], entries, slot);
      var i := FindKey(rows, row.key);
      if i < rows.Length {
        assert rows[..][i] == rows[i];
        return false;
      }
      isNew := true;
      if rows.Length != 0 {
        i := FindSpare(rows);
        SpareEvicts(rows[..], entries, slot, i);
        Write(i, row);
      }
    }
  }
}
