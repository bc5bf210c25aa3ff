/**
 Fixed-capacity tables of optional entries, and the scans the transport's tables share.

 Every bounded table of the transport stores entries that have a lookup key and an expiry
 deadline; `Row` names those two fields once, and `body` holds what is particular to a table.
 */
module Rows {
  import opened Base

  datatype Row<+B> = Row(key: Hash, expires: u64, body: B)

  ghost predicate UniqueKeys<B>(s: seq<Option<Row<B>>>) {
    forall i, j :: 0 <= i < j < |s| && s[i].Some? && s[j].Some? ==> s[i].value.key != s[j].value.key
  }

  ghost function Indices(n: nat): (s: set<nat>)
    ensures |s| == n && forall i :: i in s <==> 0 <= i < n
  {
    if n == 0 then {} else Indices(n - 1) + {n - 1}
  }

  ghost function Image<K>(keys: set<K>, slot: map<K, nat>): set<nat>
    requires keys <= slot.Keys
  {
    set g | g in keys :: slot[g]
  }

  lemma {:induction false} ImageSize<K>(keys: set<K>, slot: map<K, nat>)
    requires keys <= slot.Keys
    requires forall g, h :: g in keys && h in keys && slot[g] == slot[h] ==> g == h
    ensures |Image(keys, slot)| == |keys|
  {
    if keys != {} {
      var g :| g in keys;
      ImageSize(keys - {g}, slot);
      assert Image(keys, slot) == Image(keys - {g}, slot) + {slot[g]};
    }
  }

  /** If every held key has its own slot and every filled slot its key, then full means no slot is empty. */
  lemma SlotCount<K, T>(rows: seq<Option<T>>, keys: set<K>, slot: map<K, nat>)
    requires keys <= slot.Keys
    requires forall k :: k in keys ==> slot[k] < |rows| && rows[slot[k]].Some?
    requires forall k, l :: k in keys && l in keys && slot[k] == slot[l] ==> k == l
    requires forall i :: 0 <= i < |rows| && rows[i].Some? ==> exists k :: k in keys && slot[k] == i
    ensures |keys| <= |rows|
    ensures |keys| == |rows| <==> forall i :: 0 <= i < |rows| ==> rows[i].Some?
  {
    ImageSize(keys, slot);
    SubsetSize(Image(keys, slot), Indices(|rows|));
    forall i | 0 <= i < |rows|
      ensures i in Image(keys, slot) <==> rows[i].Some?
    {
    }
    assert Image(keys, slot) == Indices(|rows|) <==> forall i :: 0 <= i < |rows| ==> rows[i].Some?;
  }

  function Expired<B>(now: u64): Row<B> -> bool {
    (r: Row<B>) => now >= r.expires
  }

  method RemoveSlots<B>(a: array<Option<Row<B>>>, p: Row<B> -> bool)
    modifies a
    ensures forall i :: 0 <= i < a.Length ==>
      a[i] == if old(a[i]).Some? && p(old(a[i]).value) then None else old(a[i])
  {
    for i := 0 to a.Length
      invariant forall k :: 0 <= k < i ==>
        a[k] == if old(a[k]).Some? && p(old(a[k]).value) then None else old(a[k])
      invariant forall k :: i <= k < a.Length ==> a[k] == old(a[k])
    {
      if a[i].Some? && p(a[i].value) {
        a[i] := None;
      }
    }
  }

  /** Replace every entry by its image under `f`, or drop it where there is none. */
  method TransformSlots<B>(a: array<Option<Row<B>>>, f: Row<B> -> Option<Row<B>>)
    modifies a
    ensures forall i :: 0 <= i < a.Length ==> a[i] == if old(a[i]).Some? then f(old(a[i]).value) else None
  {
    for i := 0 to a.Length
      invariant forall k :: 0 <= k < i ==> a[k] == if old(a[k]).Some? then f(old(a[k]).value) else None
      invariant forall k :: i <= k < a.Length ==> a[k] == old(a[k])
    {
      if a[i].Some? {
        a[i] := f(a[i].value);
      }
    }
  }

  /** First slot holding `key`, or the capacity when there is none. */
  method FindKey<B>(a: array<Option<Row<B>>>, key: Hash) returns (idx: nat)
    ensures idx <= a.Length
    ensures idx < a.Length ==> a[idx].Some? && a[idx].value.key == key
    ensures forall k :: 0 <= k < idx ==> a[k].None? || a[k].value.key != key
  {
    idx := 0;
    while idx < a.Length && !(a[idx].Some? && a[idx].value.key == key)
      invariant idx <= a.Length
      invariant forall k :: 0 <= k < idx ==> a[k].None? || a[k].value.key != key
    {
      idx := idx + 1;
    }
  }

  /** First empty slot, or the capacity when the table is full. */
  method FindFree<B>(a: array<Option<Row<B>>>) returns (idx: nat)
    ensures idx <= a.Length
    ensures idx < a.Length ==> a[idx].None?
    ensures forall k :: 0 <= k < idx ==> a[k].Some?
  {
    idx := 0;
    while idx < a.Length && a[idx].Some?
      invariant idx <= a.Length
      invariant forall k :: 0 <= k < idx ==> a[k].Some?
    {
      idx := idx + 1;
    }
  }

  ghost predicate Eligible<B>(o: Option<Row<B>>, p: Row<B> -> bool) {
    o.Some? && p(o.value)
  }

  /** First slot whose entry satisfies `p`, or the capacity when there is none. */
  method FindWhere<B>(a: array<Option<Row<B>>>, p: Row<B> -> bool) returns (idx: nat)
    ensures idx <= a.Length
    ensures idx < a.Length ==> Eligible(a[idx], p)
    ensures forall k :: 0 <= k < idx ==> !Eligible(a[k], p)
  {
    idx := 0;
    while idx < a.Length && !(a[idx].Some? && p(a[idx].value))
      invariant idx <= a.Length
      invariant forall k :: 0 <= k < idx ==> !Eligible(a[k], p)
    {
      idx := idx + 1;
    }
  }

  /**
   First slot of least expiry among the entries satisfying `p`, or the capacity when there is
   none. `oldest_index` is the case where `p` always holds.
   */
  method FindOldest<B>(a: array<Option<Row<B>>>, p: Row<B> -> bool) returns (idx: nat)
    ensures idx <= a.Length
    ensures idx < a.Length ==> Eligible(a[idx], p)
    ensures idx < a.Length ==>
      forall k :: 0 <= k < a.Length && Eligible(a[k], p) ==> a[idx].value.expires <= a[k].value.expires
    ensures idx < a.Length ==>
      forall k :: 0 <= k < idx && Eligible(a[k], p) ==> a[idx].value.expires < a[k].value.expires
    ensures idx == a.Length ==> forall k :: 0 <= k < a.Length ==> !Eligible(a[k], p)
    ensures idx == a.Length != 0 ==> !Eligible(a[0], p)
  {
    idx := a.Length;
    for i := 0 to a.Length
      invariant idx == a.Length || idx < i
      invariant idx < i ==> Eligible(a[idx], p)
      invariant idx < i ==>
        forall k :: 0 <= k < i && Eligible(a[k], p) ==> a[idx].value.expires <= a[k].value.expires
      invariant idx < i ==>
        forall k :: 0 <= k < idx && Eligible(a[k], p) ==> a[idx].value.expires < a[k].value.expires
      invariant idx == a.Length ==> forall k :: 0 <= k < i ==> !Eligible(a[k], p)
    {
      if a[i].Some? && p(a[i].value) && (idx == a.Length || a[i].value.expires < a[idx].value.expires) {
        idx := i;
      }
    }
  }

  /** Slot `i` is free, or the table is full and the slot holds an entry of least expiry. */
  ghost predicate Spare<B>(rows: seq<Option<Row<B>>>, i: nat) {
    && i < |rows|
    && (rows[i].Some? ==>
          forall k :: 0 <= k < |rows| ==> rows[k].Some? && rows[i].value.expires <= rows[k].value.expires)
  }

  /** First free slot, else an oldest entry; the capacity only for a table without slots. */
  method FindSpare<B>(a: array<Option<Row<B>>>) returns (i: nat)
    ensures if a.Length == 0 then i == 0 else Spare(a[..], i)
  {
    i := FindFree(a);
    if i == a.Length {
      var all := (_: Row<B>) => true;
      assert forall k :: 0 <= k < a.Length ==> Eligible(a[k], all);
      i := FindOldest(a, all);
    }
  }

  /** Some entry satisfies `p`. */
  ghost predicate HasAny<K, B>(m: map<K, Row<B>>, p: Row<B> -> bool) {
    exists k :: k in m && p(m[k])
  }

  /** Slot `i` is where a new entry goes: free, else an oldest bulk entry, else, for a newcomer that
      is not bulk, an oldest entry. */
  ghost predicate Admitted<B>(rows: seq<Option<Row<B>>>, bulk: bool, isBulk: Row<B> -> bool, i: nat) {
    && i < |rows|
    && (rows[i].Some? ==> forall k :: 0 <= k < |rows| ==> rows[k].Some?)
    && (rows[i].Some? ==>
          if isBulk(rows[i].value) then
            forall k :: 0 <= k < |rows| && isBulk(rows[k].value) ==> rows[i].value.expires <= rows[k].value.expires
          else
            && !bulk
            && forall k :: 0 <= k < |rows| ==> !isBulk(rows[k].value) && rows[i].value.expires <= rows[k].value.expires)
  }

  /** First free slot, else the class victim, else the capacity. */
  method FindRoom<B>(rows: array<Option<Row<B>>>, bulk: bool, isBulk: Row<B> -> bool) returns (i: nat)
    ensures i <= rows.Length
    ensures i < rows.Length ==> Admitted(rows[..], bulk, isBulk, i)
    ensures i == rows.Length && i != 0 ==> bulk
    ensures i == rows.Length ==> forall k :: 0 <= k < rows.Length ==> rows[k].Some? && !isBulk(rows[k].value)
  {
    i := FindFree(rows);
    if i < rows.Length { return; }
    i := FindOldest(rows, isBulk);
    if i < rows.Length {
      assert forall k :: 0 <= k < rows.Length && isBulk(rows[k].value) ==> Eligible(rows[k], isBulk);
      return;
    }
    assert forall k :: 0 <= k < rows.Length ==> !Eligible(rows[k], isBulk) && !isBulk(rows[k].value);
    if bulk { return; }
    var all := (_: Row<B>) => true;
    assert forall k :: 0 <= k < rows.Length ==> Eligible(rows[k], all);
    i := FindOldest(rows, all);
    if i < rows.Length {
      assert forall k :: 0 <= k < rows.Length ==> rows[i].value.expires <= rows[k].value.expires;
    }
  }
}
