/** The outbound queue of a node in place: a ring of rows, the last identity given out, and the books. */
module Outboxes {
  import opened Base
  import opened Ring
  import opened Wire
  import opened Interfaces
  import opened NodeState
  import opened Outbound

  class Outbox {
    const ring: Queue<Queued>
    var identity: u64
    var queued: u64
    var dropped: u64
    ghost var handed: nat
    ghost var lost: nat
    ghost var refused: nat

    ghost predicate Valid()
      reads this, ring, ring.slots
    {
      ring.Valid()
    }

    ghost function Value(): Box
      reads this, ring
    {
      Box(ring.contents, ring.slots.Length, identity, queued, dropped, handed, lost, refused)
    }

    constructor (capacity: nat)
      ensures Valid() && fresh(ring) && fresh(ring.slots)
      ensures Value() == Box([], capacity, 0, 0, 0, 0, 0, 0)
    {
      ring := new Queue(capacity);
      identity, queued, dropped, handed, lost, refused := 0, 0, 0, 0, 0, 0;
    }

    /** Empty the queue and the counters; identities go on from where they were. */
    method Reset()
      requires Valid()
      modifies this, ring, ring.slots
      ensures Valid()
      ensures Value() == old(Value()).(queue := [], queued := 0, dropped := 0, handed := 0, lost := 0, refused := 0)
    {
      ring.Clear();
      queued, dropped, handed, lost, refused := 0, 0, 0, 0, 0;
    }

    method CountRows(p: Queued -> bool) returns (n: nat)
      requires Valid()
      ensures n == Count(ring.contents, p)
    {
      hide Line, Lined, Count;
      n := 0;
      assert ring.contents[..0] == [];
      CountSome([], p);
      for i := 0 to ring.len
        invariant n == Count(ring.contents[..i], p)
      {
        var row := ring.Get(i);
        assert ring.contents[..i + 1] == ring.contents[..i] + [row.value];
        CountAppend(ring.contents[..i], row.value, p);
        if p(row.value) {
          n := n + 1;
        }
      }
      assert ring.contents[..ring.len] == ring.contents;
    }

    /** First row satisfying `p`, or the queue length. */
    method FindRow(p: Queued -> bool) returns (k: nat)
      requires Valid()
      ensures k <= |ring.contents|
      ensures k < |ring.contents| ==> p(ring.contents[k])
      ensures forall i :: 0 <= i < k ==> !p(ring.contents[i])
    {
      hide Line, Lined;
      k := 0;
      while k < ring.len
        invariant k <= ring.len
        invariant forall i :: 0 <= i < k ==> !p(ring.contents[i])
      {
        var row := ring.Get(k);
        if p(row.value) { return; }
        k := k + 1;
      }
    }

    /** The row of an interface to be handed over next, announces last; the queue length for none. */
    method FindForemost(id: byte) returns (k: nat)
      requires Valid()
      ensures k <= |ring.contents|
      ensures k == |ring.contents| ==> forall q :: q in ring.contents ==> q.interface != id
      ensures k < |ring.contents| ==> ring.contents[k].interface == id && Foremost(ring.contents, k, id)
    {
      hide Line, Lined;
      k := FindRow((q: Queued) => q.interface == id && !q.reason.Gated());
      if k == ring.len {
        k := FindRow(To(id));
      }
    }

    /** Count a packet that was not admitted. */
    method Refuse()
      requires Valid()
      modifies this
      ensures Valid() && Value() == old(Value()).(dropped := SatAdd(old(dropped), 1), refused := old(refused) + 1)
    {
      refused := refused + 1;
      dropped := SatAdd(dropped, 1);
    }

    /** Count `n` packets that were never made. */
    method RefuseMany(n: nat)
      requires Valid() && n <= U64_MAX
      modifies this
      ensures Valid() && Value() == old(Value()).(dropped := SatAdd(old(dropped), n), refused := old(refused) + n)
    {
      refused := refused + n;
      dropped := SatAdd(dropped, n);
    }

    /** Take a row out, as lost or as handed over to a driver. */
    method Remove(k: nat, isLost: bool) returns (row: Queued)
      requires Valid() && k < |ring.contents|
      modifies this, ring, ring.slots
      ensures Valid() && Leaves(old(Value()), Value(), k, isLost) && row == old(ring.contents)[k]
    {
      hide Line, Lined;
      var r := ring.Remove(k);
      row := r.value;
      if isLost {
        lost := lost + 1;
        dropped := SatAdd(dropped, 1);
      } else {
        handed := handed + 1;
      }
    }

    /** The row a router gives up for a new one, none (the queue length) or no admission at all. */
    method FindVictim(ifs: Interfaces, depth: nat, id: byte, reason: Reason) returns (ok: bool, k: nat)
      requires Valid() && ifs.WellFormed() && ifs.Router? && ifs.Config(id).Some?
      ensures k <= |ring.contents|
      ensures ok ==> Displaced(Value(), ifs, depth, id, reason, k)
      ensures identity < U64_MAX ==> (ok <==> HasRoom(Value(), ifs, depth, id, reason))
    {
      hide Line, Lined, Interfaces.WellFormed, Interfaces.Config, Count;
      var n := CountRows(To(id));
      if n >= ifs.Config(id).value.depth {
        CountSome(ring.contents, GatedTo(id));
        CountSome(ring.contents, To(id));
        k := FindRow(GatedTo(id));
        if k == ring.len && !reason.Gated() {
          k := FindRow(To(id));
        }
        ok := k < ring.len;
      } else {
        k := ring.len;
        ok := ring.len < Min(depth, ring.slots.Length);
      }
    }

    /** Number a row, push it and count it; the oldest row goes when the ring is full. */
    method Push(id: byte, packet: Packet, reason: Reason, lt: Lifetime, delivery: Delivery)
      requires Valid() && identity < U64_MAX
      modifies this, ring, ring.slots
      ensures Valid()
      ensures Admits(old(Value()), Value(), Queued(identity, id, packet, reason, lt, delivery),
                     if old(|ring.contents|) == ring.slots.Length then 0 else old(|ring.contents|))
    {
      hide Line, Lined;
      identity := identity + 1;
      var evicted := ring.PushDropOldest(Queued(identity, id, packet, reason, lt, delivery));
      if evicted {
        assert Drop(old(ring.contents), 0) == old(ring.contents)[1..];
        lost := lost + 1;
        dropped := SatAdd(dropped, 1);
      }
      queued := SatAdd(queued, 1);
    }

    /** The end of `enqueue_with_lifetime`: reserve room on a router, then push. */
    method Admit(ifs: Interfaces, depth: nat, id: byte, packet: Packet, reason: Reason, lt: Lifetime) returns (ok: bool)
      requires Valid() && ifs.WellFormed() && ifs.Online(id)
      modifies this, ring, ring.slots
      ensures Valid() && Enqueues(old(Value()), Value(), ifs, depth, id, packet, reason, lt, ok)
      ensures ok <==> HasRoom(old(Value()), ifs, depth, id, reason)
      ensures !ok ==> Value() == old(Value()).(dropped := SatAdd(old(dropped), 1), refused := old(refused) + 1)
    {
      hide Line, Lined, Interfaces.WellFormed, Interfaces.Config, Count;
      ghost var b := Value();
      ghost var k: nat := if |ring.contents| == ring.slots.Length then 0 else |ring.contents|;
      if identity == U64_MAX {
        Refuse();
        return false;
      }
      if ifs.Router? {
        var victim: nat;
        ok, victim := FindVictim(ifs, depth, id, reason);
        if !ok {
          Refuse();
          return;
        }
        k := victim;
        if victim < ring.len {
          var row := Remove(victim, true);
        }
      }
      Push(id, packet, reason, lt, DeliveryFor(ifs, id));
      ok := true;
      assert Displaced(b, ifs, depth, id, reason, k);
      assert Admits(b, Value(), Queued(identity, id, packet, reason, lt, DeliveryFor(ifs, id)), k);
    }

    // --- Retained fan-out -------------------------------------------------------------------------

    method RebindRows(current: seq<nat>)
      requires Valid() && |current| == FANOUT && AllFanout(ring.contents)
      modifies ring, ring.slots
      ensures Valid()
      ensures ring.contents == Rebound(old(ring.contents), current)
    {
      hide Line, Lined, Rebind;
      for i := 0 to ring.len
        modifies ring, ring.slots
        invariant Valid() && ring.len == old(ring.len)
        invariant forall k :: 0 <= k < i ==> ring.contents[k] == Rebind(old(ring.contents)[k], current)
        invariant forall k :: i <= k < ring.len ==> ring.contents[k] == old(ring.contents)[k]
      {
        var row := ring.Get(i);
        ring.Set(i, Rebind(row.value, current));
      }
    }

    /** Drop the rows failing `p`, one at a time, counting each as lost. */
    method Purge(p: Queued -> bool)
      requires Valid()
      modifies this, ring, ring.slots
      ensures Valid() && Value() == Purged(old(Value()), p)
    {
      hide Line, Lined, Purged;
      var fails := (q: Queued) => !p(q);
      while true
        invariant Valid() && Purged(Value(), p) == Purged(old(Value()), p)
        decreases |ring.contents|
      {
        var k := FindRow(fails);
        if k == ring.len { break; }
        ghost var b := Value();
        var row := Remove(k, true);
        PurgeStep(b, Value(), k, p);
      }
      PurgeDone(Value(), p);
    }

    /** `retained_outbound_select`, once stale rows are gone. */
    method Select(after: u64, blocked: set<nat>, current: seq<nat>) returns (r: Option<Queued>)
      requires Valid() && |current| == FANOUT && AllFanout(ring.contents)
      modifies this, ring, ring.slots
      ensures Valid() && Selects(old(Value()), Value(), current, after, blocked, r)
    {
      hide Line, Lined, Rebind, Purged;
      RebindRows(current);
      Purge(Owed());
      var k := FindRow((q: Queued) => Offered(q, after, blocked));
      if k < ring.len {
        r := ring.Get(k);
        assert FirstOffered(ring.contents, k, after, blocked);
      } else {
        r := None;
      }
    }

    method Acknowledge(identity: u64, completed: set<nat>) returns (ok: bool)
      requires Valid()
      modifies this, ring, ring.slots
      ensures Valid() && Acknowledges(old(Value()), Value(), identity, completed, ok)
    {
      hide Line, Lined;
      var k := FindRow((q: Queued) => q.identity == identity);
      if identity == 0 || k == ring.len { return false; }
      var row := ring.Get(k);
      var d := row.value.delivery;
      if d.Bound? || !d.initialized { return false; }
      ghost var b := Value();
      if d.pending - completed == {} {
        var gone := Remove(k, false);
      } else {
        ring.Set(k, row.value.(delivery := d.(pending := d.pending - completed)));
      }
      assert AcknowledgesAt(b, Value(), k, completed);
      ok := true;
    }

    /** `retained_outbound_take`: hand over the row with this identity whole. */
    method Take(identity: u64) returns (ok: bool, ghost k: nat)
      requires Valid()
      modifies this, ring, ring.slots
      ensures Valid()
      ensures !ok ==>
        && Value() == old(Value())
        && (identity != 0 ==> forall i :: 0 <= i < |ring.contents| ==> ring.contents[i].identity != identity)
      ensures ok ==>
        identity != 0 && Leaves(old(Value()), Value(), k, false) && old(ring.contents)[k].identity == identity
    {
      hide Line, Lined;
      var i := FindRow((q: Queued) => q.identity == identity);
      k := i;
      ok := identity != 0 && i < ring.len;
      if ok {
        var row := Remove(i, false);
      }
    }

    /** No queued row, bound or not, owes to host interface `target` any more. */
    method RetireTarget(target: nat)
      requires Valid()
      modifies ring, ring.slots
      ensures Valid() && |ring.contents| == |old(ring.contents)|
      ensures forall k :: 0 <= k < |ring.contents| ==> ring.contents[k] == Retired(old(ring.contents)[k], target)
    {
      hide Line, Lined;
      for i := 0 to ring.len
        modifies ring, ring.slots
        invariant Valid() && ring.len == old(ring.len)
        invariant forall k :: 0 <= k < i ==> ring.contents[k] == Retired(old(ring.contents)[k], target)
        invariant forall k :: i <= k < ring.len ==> ring.contents[k] == old(ring.contents)[k]
      {
        var row := ring.Get(i);
        ring.Set(i, Retired(row.value, target));
      }
    }
  }
}
