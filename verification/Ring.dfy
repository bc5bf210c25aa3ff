/** Fixed-capacity FIFO queue over a ring of optional slots. */
module Ring {
  import opened Base

  lemma ModOnce(x: nat, n: nat)
    requires 0 < n && x < n + n
    ensures x % n == if x < n then x else x - n
  {
    var q := x / n;
    assert x == n * q + x % n;
    if q >= 2 {
      Scale(n, 2, q);
    } else if q == 1 {
      assert n * q == n;
    } else {
      assert n * q == 0;
    }
  }

  /** `(head + offset) % N` for a position inside the ring. */
  function Wrap(head: nat, offset: nat, n: nat): (i: nat)
    requires head < n && offset <= n
    ensures i < n && i == if head + offset < n then head + offset else head + offset - n
  {
    ModOnce(head + offset, n);
    (head + offset) % n
  }

  /** The ring read from its head. */
  ghost function Line<T>(slots: seq<T>, head: nat): (l: seq<T>)
    requires head <= |slots|
    ensures |l| == |slots|
  {
    slots[head..] + slots[..head]
  }

  lemma LineAt<T>(slots: seq<T>, head: nat, k: nat, v: T)
    requires head < |slots| && k < |slots|
    ensures Line(slots, head)[k] == slots[Wrap(head, k, |slots|)]
    ensures Line(slots[Wrap(head, k, |slots|) := v], head) == Line(slots, head)[k := v]
  {
  }

  lemma LineAdvanced<T>(slots: seq<T>, head: nat)
    requires head < |slots|
    ensures Line(slots, Wrap(head, 1, |slots|)) == Line(slots, head)[1..] + [Line(slots, head)[0]]
  {
  }

  /** `contents` from the head of the line, and empty slots after it. */
  ghost predicate Lined<T>(line: seq<Option<T>>, contents: seq<T>) {
    && |contents| <= |line|
    && (forall k :: 0 <= k < |contents| ==> line[k] == Some(contents[k]))
    && (forall k :: |contents| <= k < |line| ==> line[k] == None)
  }

  /** `line` with the entries after `offset` moved down one place, as far as `shift`, now vacant. */
  ghost predicate Shifted<T>(l: seq<Option<T>>, line: seq<Option<T>>, offset: nat, shift: nat) {
    && offset <= shift < |l| == |line|
    && l[shift] == None
    && (forall k :: 0 <= k < offset || shift < k < |l| ==> l[k] == line[k])
    && (forall k :: offset <= k < shift ==> l[k] == line[k + 1])
  }

  lemma ShiftedLined<T>(l: seq<Option<T>>, line: seq<Option<T>>, offset: nat, contents: seq<T>)
    requires Lined(line, contents) && offset < |contents| && Shifted(l, line, offset, |contents| - 1)
    ensures Lined(l, contents[..offset] + contents[offset + 1..])
  {
    var c := contents[..offset] + contents[offset + 1..];
    forall k | 0 <= k < |c| ensures l[k] == Some(c[k]) {
    }
  }

  class Queue<T> {
    const slots: array<Option<T>>
    var head: nat
    var len: nat
    /** The queued values, oldest first. */
    ghost var contents: seq<T>

    ghost predicate Valid()
      reads this, slots
    {
      && len == |contents| <= slots.Length
      && head <= slots.Length
      && (head == slots.Length ==> head == 0)
      && Lined(Line(slots[..], head), contents)
    }

    constructor (capacity: nat)
      ensures Valid() && fresh(slots) && contents == [] && slots.Length == capacity
    {
      slots := new Option<T>[capacity](_ => None);
      head, len, contents := 0, 0, [];
    }

    method Clear()
      requires Valid()
      modifies this, slots
      ensures Valid() && contents == []
    {
      for i := 0 to slots.Length
        modifies slots
        invariant forall k :: 0 <= k < i ==> slots[k] == None
      {
        slots[i] := None;
      }
      head, len, contents := 0, 0, [];
    }

    /** Overwrite the slot at position `k` of the line. */
    method Put(k: nat, v: Option<T>)
      requires head < slots.Length && k < slots.Length
      modifies slots
      ensures Line(slots[..], head) == old(Line(slots[..], head))[k := v]
    {
      hide Wrap, Line;
      LineAt(slots[..], head, k, v);
      slots[Wrap(head, k, slots.Length)] := v;
      assert slots[..] == old(slots[..])[Wrap(head, k, slots.Length) := v];
    }

    /**
     Appends `value`, dropping the oldest when full. The result says whether an entry was
     evicted; a queue without slots discards the value and reports no eviction.
     */
    method PushDropOldest(value: T) returns (evicted: bool)
      requires Valid()
      modifies this, slots
      ensures Valid()
      ensures evicted <==> 0 < slots.Length == |old(contents)|
      ensures contents == if slots.Length == 0 then []
                          else if evicted then old(contents)[1..] + [value]
                          else old(contents) + [value]
    {
      hide Wrap, Line;
      if slots.Length == 0 { return false; }
      if len == slots.Length {
        Put(0, Some(value));
        LineAdvanced(slots[..], head);
        head := Wrap(head, 1, slots.Length);
        contents := contents[1..] + [value];
        evicted := true;
      } else {
        Put(len, Some(value));
        len := len + 1;
        contents := contents + [value];
        evicted := false;
      }
    }

    method Get(offset: nat) returns (r: Option<T>)
      requires Valid()
      ensures r == if offset < |contents| then Some(contents[offset]) else None
    {
      hide Wrap, Line;
      if offset >= len { return None; }
      LineAt(slots[..], head, offset, None);
      r := slots[Wrap(head, offset, slots.Length)];
    }

    /** Overwrite the entry at `offset` in FIFO order. */
    method Set(offset: nat, value: T)
      requires Valid() && offset < |contents|
      modifies this, slots
      ensures Valid() && contents == old(contents)[offset := value]
    {
      hide Line;
      Put(offset, Some(value));
      contents := contents[offset := value];
    }

    /** Remove the entry at `offset`, shifting the younger ones down. */
    method Remove(offset: nat) returns (r: Option<T>)
      requires Valid()
      modifies this, slots
      ensures Valid()
      ensures offset < |old(contents)| ==>
        r == Some(old(contents)[offset]) && contents == old(contents)[..offset] + old(contents)[offset + 1..]
      ensures offset >= |old(contents)| ==> r == None && contents == old(contents)
    {
      hide Wrap, Line;
      r := Get(offset);
      if r == None { return; }
      ghost var line := Line(slots[..], head);
      Put(offset, None);
      for shift := offset to len - 1
        modifies slots
        invariant Shifted(Line(slots[..], head), line, offset, shift)
      {
        LineAt(slots[..], head, shift + 1, None);
        var next := slots[Wrap(head, shift + 1, slots.Length)];
        Put(shift + 1, None);
        Put(shift, next);
      }
      ShiftedLined(Line(slots[..], head), line, offset, contents);
      len := len - 1;
      contents := contents[..offset] + contents[offset + 1..];
    }
  }
}
