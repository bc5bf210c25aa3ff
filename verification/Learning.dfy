/** What a node learns from announces and keeps from learning, and how often it passes one on. */
module Learning {
  import opened Base
  import opened Rows
  import opened Generations
  import opened RowTables
  import opened Wire
  import opened Paths
  import opened Announces
  import opened Interfaces
  import opened Discovery
  import opened Rebroadcast
  import opened NodeState
  import opened Outbound
  import opened Tables
  import opened NodeInvariants
  import opened NodeSteps
  import opened NodeEffects
  import opened Decisions
  import opened Ticking

  // --- Routes -----------------------------------------------------------------------------------

  const HOUR_MS: u64 := 3_600_000

  /** An announce that was heeded and led to a route. */
  ghost predicate Learns(v: View, w: View, p: Packet, hops: byte, id: byte, m: Mode, admitted: bool,
                         stored: Option<Hash>, row: PathRow, known: Option<Hash>, heard: Schedule, c: Capacities,
                         r: Action, now: u64)
    requires v.ifs.WellFormed()
  {
    && Heeds(v, w, p, hops, id, m, admitted, stored, row, known, heard, c, r, now)
    && r in {LearnedAnnounce, ScheduledAnnounce}
  }

  lemma Updated(m: Entries<PathBody>, last: u64, capacity: nat, row: PathRow, now: u64, m': Entries<PathBody>,
                last': u64)
    requires Updates(m, last, capacity, row, now, m', last', true)
    ensures exists h :: h in m' && m'[h] == row
  {
    hide SameRoute, Emitted;
    var live := LiveAt(m, now);
    if HasKey(live, row.key) {
      var h :| h in live && live[h].key == row.key &&
        if SameRoute(live[h], row) then m' == live[h := row] && last' == last
        else last < U64_MAX && last' == last + 1 && m' == (live - {h})[last' := row];
      assert m'[if SameRoute(live[h], row) then h else last'] == row;
    } else {
      assert last' in m' && m'[last'] == row;
    }
  }

  /**
   A route learned from an announce leads over the interface it came in on to the relay that sent it on, or
   straight to the destination, at the hop count it arrived with, for as long as the interface's mode allows.
   */
  lemma LearnedRoute(v: View, w: View, p: Packet, hops: byte, id: byte, m: Mode, admitted: bool, stored: Option<Hash>,
                     row: PathRow, known: Option<Hash>, heard: Schedule, c: Capacities, r: Action, now: u64)
    requires v.ifs.WellFormed()
    requires Learns(v, w, p, hops, id, m, admitted, stored, row, known, heard, c, r, now)
    ensures exists h :: h in w.tabs.paths && w.tabs.paths[h] == row
    ensures row.key == p.header.destination
    ensures row.expires == SatAdd(now, HOUR_MS * if m.AccessPoint? then 24 else if m.Roaming? then 6 else 7 * 24)
    ensures row.body.nextHop == p.header.transport && row.body.hops == hops && row.body.interface == id
    ensures row.body.packetHash == HashOf(v.env, p) && row.body.lastSeen == now
    ensures var a := v.env.announce(p, if stored.Some? then stored else known);
      a.Some? && row.body.publicKey == a.value.publicKey && row.body.random == a.value.random
    ensures p.header.destination in w.tabs.cache ==>
      w.tabs.cache[p.header.destination] == Row(row.key, row.expires, CacheBody(p, hops, row.body.bulk))
  {
    hide Interfaces.WellFormed, Updates, Settles, Schedules, Hears, BulkHere, HashOf, Jitter, KeyKnown, LiveRows,
      Retained, HasAny, Displaceable;
    Updated(v.tabs.paths, v.tabs.lastPath, c.paths, row, now, w.tabs.paths, w.tabs.lastPath);
  }

  /** A route after it was used at these times. */
  function Used(row: PathRow, times: seq<u64>): PathRow {
    if times == [] then row else Touched(Used(row, times[..|times| - 1]), times[|times| - 1])
  }

  /** A route lives on by use, after each use for as long as it was given when learned, and stays what it was. */
  lemma {:induction false} UsedRouteLivesOn(row: PathRow, times: seq<u64>, life: u64)
    requires row.expires == row.body.lastSeen + life
    requires forall i :: 0 <= i < |times| ==> times[i] + life <= U64_MAX
    ensures var u, last := Used(row, times), if times == [] then row.body.lastSeen else times[|times| - 1];
      u == row.(expires := last + life, body := row.body.(lastSeen := last))
  {
    if times != [] {
      UsedRouteLivesOn(row, times[..|times| - 1], life);
    }
  }

  /** A node does not learn ways to its own destinations, from too far, or what was not admitted. */
  lemma NotLearned(v: View, w: View, p: Packet, hops: byte, id: byte, m: Mode, admitted: bool, stored: Option<Hash>,
                   row: PathRow, known: Option<Hash>, heard: Schedule, c: Capacities, r: Action, now: u64)
    requires v.ifs.WellFormed() && Heeds(v, w, p, hops, id, m, admitted, stored, row, known, heard, c, r, now)
    requires Destination(p.header.destination) in v.own.local || hops >= PATHFINDER_M || !admitted
    ensures r in {Dropped, Failed} && LiveAt(w.tabs.paths, now) == LiveAt(v.tabs.paths, now)
    ensures w.tabs.schedule == v.tabs.schedule && w.tabs.cache == v.tabs.cache && w.box == v.box
  {
    hide Interfaces.WellFormed, Updates, Hears, BulkHere, HashOf, KeyKnown;
  }

  /** What authenticates announces holds on to a key it is given. */
  ghost predicate HoldsOn(env: Env) {
    forall p, k :: env.announce(p, Some(k)).Some? ==> env.announce(p, Some(k)).value.publicKey == k
  }

  /** The key of a destination is pinned: by what the host has stored, else by the route there is. */
  lemma KeyIsPinned(v: View, w: View, p: Packet, hops: byte, id: byte, m: Mode, admitted: bool, stored: Option<Hash>,
                    row: PathRow, known: Option<Hash>, heard: Schedule, c: Capacities, r: Action, now: u64)
    requires v.ifs.WellFormed() && HoldsOn(v.env)
    requires Learns(v, w, p, hops, id, m, admitted, stored, row, known, heard, c, r, now)
    ensures stored.Some? ==> row.body.publicKey == stored.value
    ensures stored.None? && HasKey(v.tabs.paths, p.header.destination) ==>
      exists g :: g in v.tabs.paths && v.tabs.paths[g].key == p.header.destination
        && v.tabs.paths[g].body.publicKey == row.body.publicKey
  {
    hide Interfaces.WellFormed, Updates, Caches, Settles, Schedules, Hears, BulkHere, HashOf, Jitter, PathLife;
    LearnedRoute(v, w, p, hops, id, m, admitted, stored, row, known, heard, c, r, now);
  }

  /** A route that somebody waits for is never one of those to be given up first. */
  lemma AwaitedIsNotBulk(v: View, w: View, p: Packet, hops: byte, id: byte, m: Mode, admitted: bool,
                         stored: Option<Hash>, row: PathRow, known: Option<Hash>, heard: Schedule, c: Capacities,
                         r: Action, now: u64)
    requires v.ifs.WellFormed()
    requires Learns(v, w, p, hops, id, m, admitted, stored, row, known, heard, c, r, now)
    ensures HasKey(LiveAt(v.tabs.disc, now), p.header.destination) ==> !row.body.bulk
    ensures row.body.bulk ==> v.ifs.Config(id).Some? && v.ifs.Config(id).value.bulk
  {
    hide Interfaces.WellFormed, Updates, Caches, Settles, Schedules, Hears, HashOf, Jitter, KeyKnown, PathLife;
  }

  // --- Passing on -------------------------------------------------------------------------------

  /** What is scheduled is passed on under this node's address, at the hop count it arrived with, in half a second. */
  lemma PassedOnFromHere(env: Env, transport: Hash, p: Packet, hops: byte, id: byte, now: u64)
    ensures var next := RebroadcastOf(env, transport, p, hops, id, now);
      && (next.Some? <==> p.header.context != CONTEXT_PATH_RESPONSE && HEADER_MAXSIZE + |p.payload| <= MTU)
      && (next.Some? ==>
            var b, h := next.value.body, next.value.body.packet.header;
            && next.value.key == h.destination == p.header.destination && b.packet.payload == p.payload
            && h.transport == Some(transport) && h.hops == b.hops == hops && h.context == CONTEXT_NONE
            && b.interface == id && b.retries == 0 && b.local == 0 && b.pending == {} && !b.block
            && b.due <= SatAdd(now, 500) && (now + 500 <= U64_MAX ==> now <= b.due < now + 500))
  {
    hide HashOf;
  }

  /** A retry that is still to come. */
  predicate Retrying(m: Schedule, key: Hash, hops: byte) {
    key in m && m[key].body.retries > 0 && m[key].body.hops == hops && m[key].body.local == 0
  }

  /** Two neighbours that pass an announce on as we did end our retry; one does not. */
  lemma TwoCopiesEndRetry(m: Schedule, key: Hash, hops: byte, now: u64, m1: Schedule, later: u64, m2: Schedule)
    requires Retrying(m, key, hops) && Hears(m, key, hops, now, m1) && Hears(m1, key, hops, later, m2)
    ensures key in m1 && m1[key].body.retries == m[key].body.retries && key !in m2 && m2 == m1 - {key}
  {
  }

  /** One that passes our own copy on ends it at once, if the retry is not due yet. */
  lemma CopyOfOursEndsRetry(m: Schedule, key: Hash, hops: byte, now: u64, m': Schedule)
    requires Retrying(m, key, hops) && hops < 255 && Hears(m, key, hops + 1, now, m')
    ensures key !in m' <==> now < m[key].body.due
  {
  }

  /** Copies from elsewhere, and any before the first send, change nothing. */
  lemma OtherCopiesDoNot(m: Schedule, key: Hash, wire: byte, now: u64, m': Schedule)
    requires Hears(m, key, wire, now, m')
    requires key in m ==> m[key].body.retries == 0 || wire !in {m[key].body.hops, Min(m[key].body.hops + 1, 255)}
    ensures m' == m
  {
  }

  /**
   An endpoint sends an announce twice: the first time it comes back five to five and a half seconds later, the
   second time it is done with.
   */
  lemma SentTwice(v: View, w: View, row: ScheduleRow, capacity: nat, now: u64)
    requires v.ifs.WellFormed() && v.ifs.Endpoint? && Processes(v, w, row, capacity, now)
    requires Stays(v, row, row.body.block, now) && !row.body.block && row.body.pending == {}
    ensures Offers(v, v.box, w.box, row.body.interface, row.body.packet, AnnounceRebroadcast)
    ensures row.body.retries > 0 ==> w.tabs.schedule == v.tabs.schedule
    ensures row.body.retries == 0 && capacity > 0 ==>
      && row.key in w.tabs.schedule
      && var b := w.tabs.schedule[row.key].body;
      && b.retries == 1 && b.packet == row.body.packet
      && (now + 5500 <= U64_MAX ==> now + 5000 <= b.due < now + 5500)
  {
    hide Interfaces.WellFormed, Offers, Stays, HashOf, ScheduleEvicts, Bump;
  }

  /**
   A router owes an announce whose time has come to every interface it may leave on, for a day; and once more a
   round later, to what it may leave on then.
   */
  lemma OwedForADay(v: View, w: View, row: ScheduleRow, capacity: nat, now: u64)
    requires v.ifs.WellFormed() && v.ifs.Router? && Processes(v, w, row, capacity, now) && capacity > 0
    requires Stays(v, row, row.body.block, now) && !row.body.block && row.body.pending == {} && row.body.retries == 0
    ensures w.box == v.box && row.key in w.tabs.schedule
    ensures var next := w.tabs.schedule[row.key];
      && next.expires == SatAdd(now, 86_400_000) && next.body.pending == v.ifs.Targets(row.body.interface)
      && next.body.retries == 1 && next.body.packet == row.body.packet
      && (now + 5500 <= U64_MAX ==> now + 5000 <= next.body.due < now + 5500)
  {
    hide Interfaces.WellFormed, Stays, HashOf, ScheduleEvicts, Bump, Interfaces.Targets;
  }
}
