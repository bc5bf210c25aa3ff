/**
 How often a scheduled announce is sent.

 A tally counts the sends of each destination's announce to each target since it was scheduled; the
 credit is what the schedule may still send. Every scheduler step keeps tally plus credit within two.
 */
module Rebroadcast {
  import opened Base
  import opened Rows
  import opened RowTables
  import opened Announces

  const SENDS: nat := 2

  type Tally = map<Hash, map<nat, nat>>

  function Sent(t: Tally, key: Hash, target: nat): nat {
    if key in t && target in t[key] then t[key][target] else 0
  }

  /** One more send of this announce to this target. */
  function Bump(t: Tally, key: Hash, target: nat): Tally {
    var counts := if key in t then t[key] else map[];
    t[key := counts[target := Sent(t, key, target) + 1]]
  }

  /** A newly scheduled announce has not been sent. */
  function Renewed(t: Tally, key: Hash): Tally {
    t[key := map[]]
  }

  /** Sends an entry may still bring about: one a round to come, and one owed. */
  function RowCredit(row: ScheduleRow, target: nat): nat {
    (if row.body.PendingOnly() || row.body.retries >= SENDS then 0 else SENDS - row.body.retries)
    + (if target in row.body.pending then 1 else 0)
  }

  function Credit(m: Schedule, key: Hash, target: nat): nat {
    if key in m then RowCredit(m[key], target) else 0
  }

  ghost predicate Thrifty(t: Tally, m: Schedule) {
    forall key, target :: Sent(t, key, target) + Credit(m, key, target) <= SENDS
  }

  /** An announce taken out of the schedule, with the credit it had there. */
  ghost predicate Backed(t: Tally, row: ScheduleRow) {
    forall target :: Sent(t, row.key, target) + RowCredit(row, target) <= SENDS
  }

  /** No destination gains credit. */
  ghost predicate Spends(m: Schedule, m': Schedule) {
    forall key, target :: Credit(m', key, target) <= Credit(m, key, target)
  }

  lemma SpendingKeeps(t: Tally, m: Schedule, m': Schedule)
    requires Thrifty(t, m) && Spends(m, m')
    ensures Thrifty(t, m')
  {
  }

  /** Entries that go, or stay with the same rounds and no more owed, gain no credit. */
  lemma KeptSpends(m: Schedule, m': Schedule)
    requires forall k :: k in m' ==>
      k in m && m'[k].body.due == m[k].body.due && m'[k].body.retries == m[k].body.retries
        && m'[k].body.pending <= m[k].body.pending
    ensures Spends(m, m')
  {
  }

  /** Scheduling an announce anew, after which nothing of it has been sent. */
  lemma SchedulingKeeps(t: Tally, m: Schedule, capacity: nat, row: ScheduleRow, now: u64, m': Schedule)
    requires Thrifty(t, m) && Schedules(m, capacity, row, now, m') && row.body.pending == {}
    ensures Thrifty(Renewed(t, row.key), m')
  {
    forall key, target ensures Sent(Renewed(t, row.key), key, target) + Credit(m', key, target) <= SENDS {
      assert Sent(t, key, target) + Credit(m, key, target) <= SENDS;
    }
  }

  /** A popped announce with credit for a round, put back with a round less and more owed. */
  lemma PopKeeps(t: Tally, m: Schedule, now: u64, row: ScheduleRow, m': Schedule)
    requires Thrifty(t, m) && Pops(m, now, Some(row), m')
    ensures Thrifty(t, m')
    ensures Backed(t, row) && row.key !in m'
  {
    forall key, target ensures Sent(t, key, target) + Credit(m', key, target) <= SENDS {
      assert Sent(t, key, target) + Credit(m, key, target) <= SENDS;
    }
    forall target ensures Sent(t, row.key, target) + RowCredit(row, target) <= SENDS {
      assert Sent(t, row.key, target) + Credit(m, row.key, target) <= SENDS;
    }
  }

  /** Putting an announce back within what is left of its credit. */
  lemma PutBackKeeps(t: Tally, m: Schedule, capacity: nat, row: ScheduleRow, now: u64, m': Schedule)
    requires Thrifty(t, m) && Schedules(m, capacity, row, now, m')
    requires Backed(t, row)
    ensures Thrifty(t, m')
  {
    forall key, target ensures Sent(t, key, target) + Credit(m', key, target) <= SENDS {
      assert Sent(t, key, target) + Credit(m, key, target) <= SENDS;
      assert Sent(t, row.key, target) + RowCredit(row, target) <= SENDS;
    }
  }

  /** A release costs the credit it is paid from. */
  lemma ReleaseKeeps(t: Tally, m: Schedule, slot: nat, now: u64, row: ScheduleRow, m': Schedule)
    requires Thrifty(t, m) && Releases(m, slot, now, Some(row), m')
    ensures Thrifty(Bump(t, row.key, slot), m') && Thrifty(t, m')
  {
    forall key, target
      ensures Sent(Bump(t, row.key, slot), key, target) + Credit(m', key, target) <= SENDS
      ensures Sent(t, key, target) + Credit(m', key, target) <= SENDS
    {
      assert Sent(t, key, target) + Credit(m, key, target) <= SENDS;
    }
  }

  /** The number of entries whose time has come. */
  ghost function Due(m: Schedule, now: u64): set<Hash> {
    set k | k in m && now >= m[k].body.due
  }

  /** Releases to one target, one after the other, with nothing scheduled in between. */
  ghost predicate Drains(m: Schedule, slot: nat, times: seq<u64>, rows: seq<ScheduleRow>) {
    && |times| == |rows|
    && (|rows| > 0 ==>
          exists m' :: Releases(m, slot, times[0], Some(rows[0]), m') && Drains(m', slot, times[1..], rows[1..]))
  }

  /** What a later release hands out was owed all along, and not ahead of the first. */
  lemma LaterRelease(m: Schedule, slot: nat, now: u64, row: ScheduleRow, m': Schedule, k: Hash)
    requires Releases(m, slot, now, Some(row), m') && k in m' && slot in m'[k].body.pending
    requires forall h :: h in m ==> m[h].key == h
    ensures k in m && slot in m[k].body.pending && m'[k] == m[k] && k != row.key && !Precedes(m'[k], row)
    ensures forall h :: h in m' ==> m'[h].key == h
  {
  }

  lemma {:induction false} OwedFirst(m: Schedule, slot: nat, times: seq<u64>, rows: seq<ScheduleRow>, j: nat)
      returns (k: Hash)
    requires Drains(m, slot, times, rows) && j < |rows| && forall h :: h in m ==> m[h].key == h
    ensures k in m && slot in m[k].body.pending && rows[j].body.hops == m[k].body.hops
    ensures rows[j].expires == m[k].expires
  {
    var m': Schedule :| Releases(m, slot, times[0], Some(rows[0]), m') && Drains(m', slot, times[1..], rows[1..]);
    if j == 0 {
      k := rows[0].key;
    } else {
      assert forall h :: h in m' ==> m'[h].key == h;
      k := OwedFirst(m', slot, times[1..], rows[1..], j - 1);
      LaterRelease(m, slot, times[0], rows[0], m', k);
    }
  }

  /**
   A target is drained in release order: nobody is handed out before someone with fewer hops or, at equal
   hops, an earlier deadline.
   */
  lemma {:induction false} DrainsInOrder(m: Schedule, slot: nat, times: seq<u64>, rows: seq<ScheduleRow>, i: nat,
                                         j: nat)
    requires Drains(m, slot, times, rows) && i < j < |rows| && forall h :: h in m ==> m[h].key == h
    ensures
      || rows[i].body.hops < rows[j].body.hops
      || (rows[i].body.hops == rows[j].body.hops && rows[i].expires <= rows[j].expires)
  {
    var m': Schedule :| Releases(m, slot, times[0], Some(rows[0]), m') && Drains(m', slot, times[1..], rows[1..]);
    assert forall h :: h in m' ==> m'[h].key == h;
    if i == 0 {
      var k := OwedFirst(m', slot, times[1..], rows[1..], j - 1);
      LaterRelease(m, slot, times[0], rows[0], m', k);
    } else {
      DrainsInOrder(m', slot, times[1..], rows[1..], i - 1, j - 1);
    }
  }
}
