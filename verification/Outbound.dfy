/** The outbound queue as a sequence of rows: admission, displacement, expiry and bookkeeping. */
module Outbound {
  import opened Base
  import opened Wire
  import opened Interfaces
  import opened NodeState

  /** The sequence without its element `k`; unchanged when there is none. */
  function Drop<T>(q: seq<T>, k: nat): (r: seq<T>)
    ensures |r| == if k < |q| then |q| - 1 else |q|
    ensures forall i :: 0 <= i < |r| ==> r[i] == if i < k then q[i] else q[i + 1]
  {
    if k < |q| then q[..k] + q[k + 1..] else q
  }

  function Count(q: seq<Queued>, p: Queued -> bool): (n: nat)
    ensures n <= |q|
  {
    if q == [] then 0 else Count(q[..|q| - 1], p) + if p(q[|q| - 1]) then 1 else 0
  }

  function To(id: byte): Queued -> bool {
    (q: Queued) => q.interface == id
  }

  function GatedTo(id: byte): Queued -> bool {
    (q: Queued) => q.interface == id && q.reason.Gated()
  }

  lemma CountAppend(q: seq<Queued>, x: Queued, p: Queued -> bool)
    ensures Count(q + [x], p) == Count(q, p) + if p(x) then 1 else 0
  {
    assert (q + [x])[..|q|] == q;
  }

  lemma {:induction false} CountDrop(q: seq<Queued>, k: nat, p: Queued -> bool)
    requires k < |q|
    ensures Count(Drop(q, k), p) == Count(q, p) - if p(q[k]) then 1 else 0
  {
    hide Drop, Count;
    var n := |q| - 1;
    assert q == q[..n] + [q[n]];
    CountAppend(q[..n], q[n], p);
    if k == n {
      DropLast(q);
    } else {
      CountDrop(q[..n], k, p);
      DropEarlier(q, k);
      CountAppend(Drop(q[..n], k), q[n], p);
    }
  }

  lemma DropLast<T>(q: seq<T>)
    requires q != []
    ensures Drop(q, |q| - 1) == q[..|q| - 1]
  {
  }

  lemma DropEarlier<T>(q: seq<T>, k: nat)
    requires k < |q| - 1
    ensures Drop(q, k) == Drop(q[..|q| - 1], k) + [q[|q| - 1]]
  {
  }

  /** Something is counted exactly when a row satisfies the predicate. */
  lemma {:induction false} CountSome(q: seq<Queued>, p: Queued -> bool)
    ensures Count(q, p) > 0 <==> exists k :: 0 <= k < |q| && p(q[k])
  {
    if q != [] {
      var n := |q| - 1;
      CountSome(q[..n], p);
      if k :| 0 <= k < n && p(q[k]) {
        assert p(q[..n][k]);
      }
      if Count(q[..n], p) > 0 {
        var k :| 0 <= k < n && p(q[..n][k]);
        assert p(q[k]);
      }
    }
  }

  /** A counter that saturates at the largest machine integer. */
  function Sat(n: nat): u64 {
    if n <= U64_MAX then n else U64_MAX
  }

  lemma SatNext(n: nat)
    ensures SatAdd(Sat(n), 1) == Sat(n + 1)
  {
  }

  // --- Invariants of the queue ------------------------------------------------------------------

  const TARGETS: set<nat> := {0, 1, 2, 3, 4, 5, 6}

  /** A fan-out row has one generation per host interface and owes only to those. */
  predicate FanoutShape(d: Delivery) {
    d.Fanout? ==> |d.generations| == FANOUT && d.pending <= TARGETS
  }

  /** Identities increase from front to back and none exceeds the last one given out. */
  ghost predicate Ordered(b: Box, clock: u64) {
    && |b.queue| <= b.capacity
    && (forall k :: 0 <= k < |b.queue| ==> FanoutShape(b.queue[k].delivery))
    && (forall k :: 0 <= k < |b.queue| ==>
          1 <= b.queue[k].identity <= b.identity && b.queue[k].lifetime.enqueued <= clock)
    && (forall j, k :: 0 <= j < k < |b.queue| ==> b.queue[j].identity < b.queue[k].identity)
  }

  /** No interface holds more rows than its share, and at most one announce waits per interface. */
  ghost predicate Shared(queue: seq<Queued>, ifs: Interfaces)
    requires ifs.WellFormed()
  {
    forall id: byte ::
      && (ifs.Config(id).Some? ==> Count(queue, To(id)) <= ifs.Config(id).value.depth)
      && Count(queue, GatedTo(id)) <= 1
  }

  /** Every queued row belongs to a current registration of an interface that can send. */
  ghost predicate AllCurrent(queue: seq<Queued>, ifs: Interfaces)
    requires ifs.WellFormed()
  {
    forall k :: 0 <= k < |queue| ==> Current(queue[k], ifs)
  }

  predicate Current(q: Queued, ifs: Interfaces)
    requires ifs.WellFormed()
  {
    q.delivery.Bound? && DeliveryCurrent(ifs, q.interface, q.delivery) && ifs.Online(q.interface)
  }

  /** What a router's queue keeps: current rows, shares, and the configured depth. */
  ghost predicate Isolated(b: Box, ifs: Interfaces, depth: nat)
    requires ifs.WellFormed()
  {
    ifs.Router? ==> |b.queue| <= Min(depth, b.capacity) && AllCurrent(b.queue, ifs) && Shared(b.queue, ifs)
  }

  /**
   Rows admitted are rows queued, handed over or lost; the drop counter counts lost rows once each,
   beside refusals. Both counters saturate. A queue without slots loses rows silently.
   */
  ghost predicate Conserved(b: Box) {
    b.capacity > 0 ==> b.queued == Sat(|b.queue| + b.handed + b.lost) && b.dropped == Sat(b.lost + b.refused)
  }

  // --- Admission --------------------------------------------------------------------------------

  function DeliveryFor(ifs: Interfaces, id: byte): Delivery
    requires ifs.WellFormed()
  {
    if ifs.Router? then Bound(ifs.Generation(id))
    else Fanout(seq(FANOUT, _ => 0), TARGETS, false)
  }

  /**
   Which row makes room: on a router one of the same interface, an announce when it has one, and
   never a non-announce for an announce; on an endpoint the oldest row of a full ring.
   */
  ghost predicate Displaced(b: Box, ifs: Interfaces, depth: nat, id: byte, reason: Reason, k: nat)
    requires ifs.WellFormed() && (ifs.Router? ==> ifs.Config(id).Some?)
  {
    && k <= |b.queue|
    && if ifs.Router? then
         if Count(b.queue, To(id)) >= ifs.Config(id).value.depth then
           && k < |b.queue| && b.queue[k].interface == id
           && (reason.Gated() || Count(b.queue, GatedTo(id)) > 0 ==> b.queue[k].reason.Gated())
         else
           k == |b.queue| && |b.queue| < Min(depth, b.capacity)
       else
         k == if |b.queue| == b.capacity then 0 else |b.queue|
  }

  /**
   Whether a frame is admitted. On a router an interface with a full share needs a row to give up, an
   announce if the newcomer is one; below its share the whole queue must have room. An endpoint
   always makes room. Either way an identity must be left.
   */
  ghost predicate HasRoom(b: Box, ifs: Interfaces, depth: nat, id: byte, reason: Reason)
    requires ifs.WellFormed() && (ifs.Router? ==> ifs.Config(id).Some?)
  {
    && b.identity < U64_MAX
    && (ifs.Router? ==>
          if Count(b.queue, To(id)) >= ifs.Config(id).value.depth then
            Count(b.queue, GatedTo(id)) > 0 || (!reason.Gated() && Count(b.queue, To(id)) > 0)
          else |b.queue| < Min(depth, b.capacity))
  }

  /** The books after admitting a row at the cost of row `k`, if there is one. */
  ghost predicate Admits(b: Box, c: Box, row: Queued, k: nat) {
    && b.identity < U64_MAX && row.identity == b.identity + 1
    && c == b.(queue := if b.capacity == 0 then b.queue else Drop(b.queue, k) + [row],
               identity := row.identity,
               queued := SatAdd(b.queued, 1),
               lost := c.lost, dropped := c.dropped)
    && (if b.capacity != 0 && k < |b.queue| then c.lost == b.lost + 1 && c.dropped == SatAdd(b.dropped, 1)
        else c.lost == b.lost && c.dropped == b.dropped)
  }

  ghost predicate Refuses(b: Box, c: Box) {
    c == b || c == b.(dropped := SatAdd(b.dropped, 1), refused := b.refused + 1)
  }

  /** `enqueue_with_lifetime`: a refusal leaves the queue as it was. */
  ghost predicate Enqueues(b: Box, c: Box, ifs: Interfaces, depth: nat, id: byte, packet: Packet, reason: Reason,
                           lt: Lifetime, ok: bool)
    requires ifs.WellFormed()
  {
    if !ok then Refuses(b, c)
    else
      && ifs.Online(id)
      && exists k: nat ::
           && Displaced(b, ifs, depth, id, reason, k)
           && Admits(b, c, Queued(c.identity, id, packet, reason, lt, DeliveryFor(ifs, id)), k)
  }

  lemma OrderedAfter(b: Box, c: Box, row: Queued, k: nat, clock: u64)
    requires Ordered(b, clock) && Admits(b, c, row, k) && row.lifetime.enqueued <= clock && FanoutShape(row.delivery)
    requires k < |b.queue| || |b.queue| < b.capacity || b.capacity == 0
    ensures Ordered(c, clock) && QueueFollows(b, c)
  {
    hide FanoutShape;
    FollowsAfter(b, c, row, k, clock);
  }

  lemma FollowsAfter(b: Box, c: Box, row: Queued, k: nat, clock: u64)
    requires Ordered(b, clock) && Admits(b, c, row, k)
    requires k < |b.queue| || |b.queue| < b.capacity || b.capacity == 0
    ensures QueueFollows(b, c)
  {
    hide FanoutShape;
    forall i | 0 <= i < |c.queue| && c.queue[i].identity <= b.identity ensures Inherited(b.queue, c.queue[i]) {
      var j := if i < k then i else i + 1;
      assert Shrunk(b.queue[j], c.queue[i]);
    }
  }

  lemma SharedAfter(queue: seq<Queued>, ifs: Interfaces, k: nat, x: Queued)
    requires ifs.WellFormed() && Shared(queue, ifs) && ifs.Config(x.interface).Some? && k <= |queue|
    requires if k < |queue| then queue[k].interface == x.interface
             else Count(queue, To(x.interface)) < ifs.Config(x.interface).value.depth
    requires x.reason.Gated() ==> Count(queue, GatedTo(x.interface)) == 0
    ensures Shared(Drop(queue, k) + [x], ifs)
  {
    hide Interfaces.WellFormed, Interfaces.Config, Count;
    var rest := Drop(queue, k);
    forall id: byte
      ensures ifs.Config(id).Some? ==> Count(rest + [x], To(id)) <= ifs.Config(id).value.depth
      ensures Count(rest + [x], GatedTo(id)) <= 1
    {
      CountAppend(rest, x, To(id));
      CountAppend(rest, x, GatedTo(id));
      if k < |queue| {
        CountDrop(queue, k, To(id));
        CountDrop(queue, k, GatedTo(id));
      }
    }
  }

  /** Admission keeps the order of identities, the books, and the shares of the interfaces. */
  lemma EnqueueKeeps(b: Box, c: Box, ifs: Interfaces, depth: nat, id: byte, packet: Packet, reason: Reason,
                     lt: Lifetime, ok: bool, clock: u64)
    requires ifs.WellFormed() && Enqueues(b, c, ifs, depth, id, packet, reason, lt, ok)
    requires Ordered(b, clock) && Conserved(b) && Isolated(b, ifs, depth) && lt.enqueued <= clock
    requires ifs.Router? && ok ==> ifs.Generation(id) != 0
    requires ifs.Router? && reason.Gated() ==> Count(b.queue, GatedTo(id)) == 0
    ensures Ordered(c, clock) && Conserved(c) && Isolated(c, ifs, depth) && QueueFollows(b, c)
  {
    hide Count, Shared, QueueFollows, Interfaces.WellFormed, Interfaces.Config, Interfaces.Generation;
    SatNext(|b.queue| + b.handed + b.lost);
    SatNext(b.lost + b.refused);
    if ok {
      var x := Queued(c.identity, id, packet, reason, lt, DeliveryFor(ifs, id));
      var k: nat :| Displaced(b, ifs, depth, id, reason, k) && Admits(b, c, x, k);
      OrderedAfter(b, c, x, k, clock);
      if ifs.Router? {
        SharedAfter(b.queue, ifs, k, x);
      }
    } else {
      QueueFollowsReflexive(b);
      assert QueueFollows(b, c) by { Unchanged(b, c); }
    }
  }

  lemma Unchanged(b: Box, c: Box)
    requires b.queue == c.queue && b.identity <= c.identity
    ensures QueueFollows(b, c)
  {
    QueueFollowsReflexive(b);
  }

  // --- Removal ----------------------------------------------------------------------------------

  /** One row leaves the queue, lost (and counted) or handed over. */
  ghost predicate Leaves(b: Box, c: Box, k: nat, isLost: bool) {
    && k < |b.queue|
    && c == if isLost then b.(queue := Drop(b.queue, k), lost := b.lost + 1, dropped := SatAdd(b.dropped, 1))
            else b.(queue := Drop(b.queue, k), handed := b.handed + 1)
  }

  lemma SharedDrop(queue: seq<Queued>, ifs: Interfaces, k: nat)
    requires ifs.WellFormed() && Shared(queue, ifs)
    ensures Shared(Drop(queue, k), ifs)
  {
    hide Interfaces.WellFormed, Interfaces.Config, Count;
    if k < |queue| {
      forall id: byte
        ensures Count(Drop(queue, k), To(id)) <= Count(queue, To(id))
        ensures Count(Drop(queue, k), GatedTo(id)) <= Count(queue, GatedTo(id))
      {
        CountDrop(queue, k, To(id));
        CountDrop(queue, k, GatedTo(id));
      }
    }
  }

  lemma OrderedDrop(b: Box, c: Box, k: nat, clock: u64)
    requires Ordered(b, clock) && k < |b.queue|
    requires c.queue == Drop(b.queue, k) && c.capacity == b.capacity && c.identity == b.identity
    ensures Ordered(c, clock) && QueueFollows(b, c)
  {
    hide FanoutShape;
    forall i | 0 <= i < |c.queue| ensures Inherited(b.queue, c.queue[i]) {
      var j := if i < k then i else i + 1;
      assert Shrunk(b.queue[j], c.queue[i]);
    }
  }

  lemma LeavingKeeps(b: Box, c: Box, ifs: Interfaces, depth: nat, k: nat, isLost: bool, clock: u64)
    requires ifs.WellFormed() && Leaves(b, c, k, isLost)
    requires Ordered(b, clock) && Conserved(b) && Isolated(b, ifs, depth)
    ensures Ordered(c, clock) && Conserved(c) && Isolated(c, ifs, depth) && QueueFollows(b, c)
    ensures forall q :: q in c.queue ==> q in b.queue
  {
    hide Count, Shared, Ordered, QueueFollows, Current, Interfaces.WellFormed;
    SatNext(b.lost + b.refused);
    OrderedDrop(b, c, k, clock);
    if ifs.Router? {
      SharedDrop(b.queue, ifs, k);
    }
  }

  /** The rows satisfying `p`, in order. */
  ghost function Filter(queue: seq<Queued>, p: Queued -> bool): seq<Queued> {
    if queue == [] then []
    else Filter(queue[..|queue| - 1], p) + if p(queue[|queue| - 1]) then [queue[|queue| - 1]] else []
  }

  lemma {:induction false} FilterDrop(queue: seq<Queued>, k: nat, p: Queued -> bool)
    requires k < |queue| && !p(queue[k])
    ensures Filter(Drop(queue, k), p) == Filter(queue, p)
  {
    hide Filter;
    var n := |queue| - 1;
    assert queue == queue[..n] + [queue[n]];
    FilterAppend(queue[..n], queue[n], p);
    if k == n {
      assert Drop(queue, k) == queue[..n];
    } else {
      FilterDrop(queue[..n], k, p);
      FilterAppend(Drop(queue[..n], k), queue[n], p);
      assert Drop(queue, k) == Drop(queue[..n], k) + [queue[n]];
    }
  }

  lemma FilterAppend(queue: seq<Queued>, x: Queued, p: Queued -> bool)
    ensures Filter(queue + [x], p) == Filter(queue, p) + if p(x) then [x] else []
  {
    assert (queue + [x])[..|queue|] == queue;
  }

  lemma {:induction false} FilterAll(queue: seq<Queued>, p: Queued -> bool)
    requires forall k :: 0 <= k < |queue| ==> p(queue[k])
    ensures Filter(queue, p) == queue
  {
    if queue != [] {
      FilterAll(queue[..|queue| - 1], p);
    }
  }

  lemma {:induction false} FilterMember(queue: seq<Queued>, p: Queued -> bool)
    ensures |Filter(queue, p)| <= |queue|
    ensures forall q :: q in Filter(queue, p) <==> q in queue && p(q)
  {
    if queue != [] {
      FilterMember(queue[..|queue| - 1], p);
      assert queue == queue[..|queue| - 1] + [queue[|queue| - 1]];
    }
  }

  /** The box once the rows failing `p` have left, each counted as lost. */
  ghost function Purged(b: Box, p: Queued -> bool): Box {
    FilterMember(b.queue, p);
    var kept := Filter(b.queue, p);
    var n := |b.queue| - |kept|;
    b.(queue := kept, lost := b.lost + n, dropped := Sat(b.dropped + n))
  }

  lemma PurgeStep(b: Box, c: Box, k: nat, p: Queued -> bool)
    requires Leaves(b, c, k, true) && !p(b.queue[k])
    ensures Purged(c, p) == Purged(b, p)
  {
    FilterDrop(b.queue, k, p);
    FilterMember(c.queue, p);
  }

  lemma PurgeDone(b: Box, p: Queued -> bool)
    requires forall k :: 0 <= k < |b.queue| ==> p(b.queue[k])
    ensures Purged(b, p) == b
  {
    FilterAll(b.queue, p);
  }

  lemma {:induction false} PurgeKeeps(b: Box, p: Queued -> bool, ifs: Interfaces, depth: nat, clock: u64)
    requires ifs.WellFormed()
    requires Ordered(b, clock) && Conserved(b) && Isolated(b, ifs, depth)
    ensures var c := Purged(b, p);
      && Ordered(c, clock) && Conserved(c) && Isolated(c, ifs, depth) && QueueFollows(b, c)
      && forall q :: q in c.queue <==> q in b.queue && p(q)
    decreases |b.queue|
  {
    hide Isolated, Ordered, Conserved, QueueFollows, Interfaces.WellFormed, Filter, Purged;
    if k :| 0 <= k < |b.queue| && !p(b.queue[k]) {
      var m := b.(queue := Drop(b.queue, k), lost := b.lost + 1, dropped := SatAdd(b.dropped, 1));
      LeavingKeeps(b, m, ifs, depth, k, true, clock);
      PurgeKeeps(m, p, ifs, depth, clock);
      PurgeStep(b, m, k, p);
      QueueFollowsTransitive(b, m, Purged(b, p));
      forall q | q in b.queue && p(q) ensures q in m.queue {
        var i :| 0 <= i < |b.queue| && b.queue[i] == q;
        assert m.queue[if i < k then i else i - 1] == q;
      }
    } else {
      PurgeDone(b, p);
      QueueFollowsReflexive(b);
    }
  }

  /** The rows live in `v` at `now`. */
  ghost function LiveIn(v: View, now: u64): Queued -> bool {
    (q: Queued) => v.ifs.WellFormed() && FrameIsLive(v, q.interface, q.lifetime, q.delivery, now)
  }

  /**
   Row `k` of the interface is the one handed over next: the first that is no announce, else, if there is
   none, the first.
   */
  ghost predicate Foremost(queue: seq<Queued>, k: nat, id: byte)
    requires k < |queue|
  {
    && (forall j :: 0 <= j < k && queue[j].interface == id ==> queue[j].reason.Gated() && !queue[k].reason.Gated())
    && (queue[k].reason.Gated() ==> forall q :: q in queue && q.interface == id ==> q.reason.Gated())
  }

  // --- Retained fan-out -------------------------------------------------------------------------

  /** The host interfaces a frame may go to, before any is bound. */
  function InitialTargets(reason: Reason, id: byte): set<nat> {
    match reason
    case PathRequest => TARGETS
    case AnnounceRebroadcast => TARGETS - {id}
    case PathRequestForward => TARGETS - {id}
    case _ => TARGETS * {id}
  }

  /**
   A row as `select` leaves it: bound to the current generations if it was not bound before, and
   owing only to targets whose current generation is the bound one.
   */
  function Rebind(q: Queued, current: seq<nat>): (r: Queued)
    requires |current| == FANOUT && q.delivery.Fanout? && FanoutShape(q.delivery)
    ensures Shrunk(q, r) && Matches(r, current)
  {
    var d := if q.delivery.initialized then q.delivery
             else Fanout(current, q.delivery.pending * InitialTargets(q.reason, q.interface), true);
    q.(delivery := d.(pending := set i | i in d.pending && current[i] != 0 && current[i] == d.generations[i]))
  }

  /**
   What a row owes once it is bound for the first time: a node's own path request to every interface there is,
   what it passes on to every other, and anything else only to its own.
   */
  lemma FirstBinding(ifs: Interfaces, q: Queued, current: seq<nat>)
    requires ifs.WellFormed() && ifs.Endpoint? && q.delivery == DeliveryFor(ifs, q.interface) && |current| == FANOUT
    ensures var owed, there := Rebind(q, current).delivery.pending, set i: nat | i in TARGETS && current[i] != 0;
      match q.reason
      case PathRequest => owed == there
      case AnnounceRebroadcast => owed == there - {q.interface as nat}
      case PathRequestForward => owed == there - {q.interface as nat}
      case _ => owed == there * {q.interface as nat}
  {
  }

  /** Once bound, it owes only less, and nothing to an interface that was registered anew or is gone. */
  lemma LaterBinding(q: Queued, current: seq<nat>, i: nat)
    requires |current| == FANOUT && q.delivery.Fanout? && FanoutShape(q.delivery) && q.delivery.initialized
    ensures i in Rebind(q, current).delivery.pending <==>
      i in q.delivery.pending && current[i] != 0 && current[i] == q.delivery.generations[i]
  {
  }

  /** Selection goes through the rows in turn: past the one named, and past none that could have been offered. */
  lemma SelectGoesOn(b: Box, c: Box, current: seq<nat>, after: u64, blocked: set<nat>, q: Queued, clock: u64)
    requires |current| == FANOUT && AllFanout(b.queue) && Selects(b, c, current, after, blocked, Some(q))
    requires Ordered(c, clock)
    ensures q.identity > after && q in c.queue && q.delivery.Fanout? && !(q.delivery.pending <= blocked)
    ensures forall p :: p in c.queue && after < p.identity < q.identity && p.delivery.Fanout? ==>
      p.delivery.pending <= blocked
  {
    hide Purged, Rebind, FanoutShape;
    var k :| 0 <= k < |c.queue| && c.queue[k] == q && FirstOffered(c.queue, k, after, blocked);
    forall p | p in c.queue && after < p.identity < q.identity && p.delivery.Fanout?
      ensures p.delivery.pending <= blocked
    {
      var j :| 0 <= j < |c.queue| && c.queue[j] == p;
      assert j < k;
      assert !Offered(c.queue[j], after, blocked);
      assert forall i :: i in p.delivery.pending && i !in blocked ==> i in p.delivery.pending - blocked;
    }
  }

  ghost predicate AllFanout(queue: seq<Queued>) {
    forall k :: 0 <= k < |queue| ==> queue[k].delivery.Fanout? && FanoutShape(queue[k].delivery)
  }

  ghost function Rebound(queue: seq<Queued>, current: seq<nat>): (r: seq<Queued>)
    requires |current| == FANOUT && AllFanout(queue)
    ensures |r| == |queue| && forall k :: 0 <= k < |queue| ==> r[k] == Rebind(queue[k], current)
  {
    seq(|queue|, k requires 0 <= k < |queue| => Rebind(queue[k], current))
  }

  function Owed(): Queued -> bool {
    (q: Queued) => q.delivery.Fanout? && q.delivery.pending != {}
  }

  /** `retained_outbound_select` on the queue, and the row it offers. */
  ghost predicate Selects(b: Box, c: Box, current: seq<nat>, after: u64, blocked: set<nat>, r: Option<Queued>)
    requires |current| == FANOUT && AllFanout(b.queue)
  {
    && c == Purged(b.(queue := Rebound(b.queue, current)), Owed())
    && match r
       case None => forall k :: 0 <= k < |c.queue| ==> !Offered(c.queue[k], after, blocked)
       case Some(q) => exists k :: 0 <= k < |c.queue| && c.queue[k] == q && FirstOffered(c.queue, k, after, blocked)
  }

  ghost predicate FirstOffered(queue: seq<Queued>, k: nat, after: u64, blocked: set<nat>)
    requires k < |queue|
  {
    Offered(queue[k], after, blocked) && forall j :: 0 <= j < k ==> !Offered(queue[j], after, blocked)
  }

  /** A bound row owing only to targets registered as they were when it was bound. */
  predicate Matches(q: Queued, current: seq<nat>)
    requires |current| == FANOUT
  {
    && q.delivery.Fanout? && FanoutShape(q.delivery) && q.delivery.initialized
    && forall i :: i in q.delivery.pending ==> current[i] != 0 && q.delivery.generations[i] == current[i]
  }

  predicate Offered(q: Queued, after: u64, blocked: set<nat>) {
    q.identity > after && q.delivery.Fanout? && q.delivery.pending - blocked != {}
  }

  /** Shrinking rows in place keeps their order and the books. */
  lemma ShrinkingKeeps(b: Box, c: Box, clock: u64)
    requires c == b.(queue := c.queue) && |c.queue| == |b.queue|
    requires forall k :: 0 <= k < |b.queue| ==> Shrunk(b.queue[k], c.queue[k]) && FanoutShape(c.queue[k].delivery)
    requires Ordered(b, clock) && Conserved(b)
    ensures Ordered(c, clock) && Conserved(c) && QueueFollows(b, c)
  {
    forall k | 0 <= k < |c.queue| ensures Inherited(b.queue, c.queue[k]) {
      assert Shrunk(b.queue[k], c.queue[k]);
    }
  }

  /**
   Selection keeps order, books and bindings, and afterwards every target still owed has the current
   generation of its interface bound to it.
   */
  lemma SelectKeeps(b: Box, c: Box, current: seq<nat>, after: u64, blocked: set<nat>, r: Option<Queued>,
                    ifs: Interfaces, depth: nat, clock: u64)
    requires ifs.WellFormed() && ifs.Endpoint?
    requires |current| == FANOUT && AllFanout(b.queue) && Selects(b, c, current, after, blocked, r)
    requires Ordered(b, clock) && Conserved(b)
    ensures Ordered(c, clock) && Conserved(c) && QueueFollows(b, c) && AllFanout(c.queue)
    ensures forall k :: 0 <= k < |c.queue| ==> Matches(c.queue[k], current) && c.queue[k].delivery.pending != {}
  {
    hide Interfaces.WellFormed, Ordered, Conserved, QueueFollows, Purged, Rebind;
    var m := b.(queue := Rebound(b.queue, current));
    RebindAll(b.queue, current);
    ShrinkingKeeps(b, m, clock);
    PurgeKeeps(m, Owed(), ifs, depth, clock);
    QueueFollowsTransitive(b, m, c);
    forall k | 0 <= k < |c.queue|
      ensures Owed()(c.queue[k]) && exists j :: 0 <= j < |m.queue| && m.queue[j] == c.queue[k]
    {
      assert c.queue[k] in c.queue;
    }
  }

  lemma RebindAll(queue: seq<Queued>, current: seq<nat>)
    requires |current| == FANOUT && AllFanout(queue)
    ensures forall k ::
      0 <= k < |queue| ==> Shrunk(queue[k], Rebind(queue[k], current)) && Matches(Rebind(queue[k], current), current)
  {
  }

  /**
   `retained_outbound_ack`: the row with this identity, and no other, owes less, and leaves once it
   owes nothing.
   */
  ghost predicate Acknowledges(b: Box, c: Box, identity: u64, completed: set<nat>, ok: bool) {
    if !ok then c == b
    else exists k :: 0 <= k < |b.queue| && b.queue[k].identity == identity && AcknowledgesAt(b, c, k, completed)
  }

  ghost predicate AcknowledgesAt(b: Box, c: Box, k: nat, completed: set<nat>) {
    && k < |b.queue| && b.queue[k].delivery.Fanout? && b.queue[k].delivery.initialized
    && var rest := b.queue[k].delivery.pending - completed;
       if rest == {} then c == b.(queue := Drop(b.queue, k), handed := b.handed + 1)
       else c == b.(queue := b.queue[k := b.queue[k].(delivery := b.queue[k].delivery.(pending := rest))])
  }

  lemma AckKeeps(b: Box, c: Box, identity: u64, completed: set<nat>, ok: bool, ifs: Interfaces, depth: nat, clock: u64)
    requires ifs.WellFormed() && ifs.Endpoint?
    requires Acknowledges(b, c, identity, completed, ok) && Ordered(b, clock) && Conserved(b)
    ensures Ordered(c, clock) && Conserved(c) && QueueFollows(b, c)
  {
    hide Interfaces.WellFormed, Ordered, Conserved, QueueFollows;
    if ok {
      var k :| 0 <= k < |b.queue| && b.queue[k].identity == identity && AcknowledgesAt(b, c, k, completed);
      if b.queue[k].delivery.pending - completed == {} {
        LeavingKeeps(b, c, ifs, depth, k, false, clock);
      } else {
        OneShrinks(b, c, k, clock);
      }
    } else {
      QueueFollowsReflexive(b);
    }
  }

  lemma OneShrinks(b: Box, c: Box, k: nat, clock: u64)
    requires k < |b.queue| == |c.queue| && Shrunk(b.queue[k], c.queue[k]) && c == b.(queue := b.queue[k := c.queue[k]])
    requires FanoutShape(b.queue[k].delivery) ==> FanoutShape(c.queue[k].delivery)
    requires Ordered(b, clock) && Conserved(b)
    ensures Ordered(c, clock) && Conserved(c) && QueueFollows(b, c)
  {
    forall j | 0 <= j < |b.queue| ensures Shrunk(b.queue[j], c.queue[j]) && FanoutShape(c.queue[j].delivery) {
    }
    ShrinkingKeeps(b, c, clock);
  }

  /** An acknowledgement touches no row but the one it names. */
  lemma AckTouchesOne(b: Box, c: Box, identity: u64, completed: set<nat>, ok: bool, j: nat)
    requires Acknowledges(b, c, identity, completed, ok) && j < |b.queue| && b.queue[j].identity != identity
    ensures b.queue[j] in c.queue
  {
    if ok {
      var k :| 0 <= k < |b.queue| && b.queue[k].identity == identity && AcknowledgesAt(b, c, k, completed);
      if b.queue[k].delivery.pending - completed == {} {
        assert c.queue[if j < k then j else j - 1] == b.queue[j];
      } else {
        assert c.queue[j] == b.queue[j];
      }
    }
  }

  function Retired(q: Queued, target: nat): (r: Queued)
    ensures Shrunk(q, r) && (FanoutShape(q.delivery) ==> FanoutShape(r.delivery))
    ensures r.delivery.Fanout? ==> target !in r.delivery.pending
  {
    if q.delivery.Fanout? then q.(delivery := q.delivery.(pending := q.delivery.pending - {target})) else q
  }
}
