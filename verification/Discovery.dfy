/**
 Recursive path discoveries: who asked for a destination, until when. An entry is keyed by the
 destination, its generation is the discovery's identity, and its body the requesting slots.
 */
module Discovery {
  import opened Base
  import opened Rows
  import opened Generations

  const REQUESTERS: nat := 8
  const REQUEST_GATE_MS: u64 := 15_000
  const MTU_BITS_MS: nat := 2 * 500 * 8 * 1000

  type Requesters = set<nat>
  type Ledger = Entries<Requesters>

  /** Canonical MTU round trip rounded up; a reported rate below 5 bps counts as 5. */
  function RoundTripMs(bitrate: nat): (ms: u64)
    ensures ms <= 1_600_000
    ensures bitrate != 0 ==>
      && ms > 0
      && (if bitrate < 5 then 5 else bitrate) * (ms - 1) < MTU_BITS_MS <= (if bitrate < 5 then 5 else bitrate) * ms
  {
    if bitrate == 0 then 0
    else
      var rate := if bitrate < 5 then 5 else bitrate;
      RoundedUp(MTU_BITS_MS, rate);
      (MTU_BITS_MS + rate - 1) / rate
  }

  lemma RoundedUp(a: nat, b: nat)
    requires a > 0 && b > 4
    ensures var q := (a + b - 1) / b; q > 0 && b * (q - 1) < a <= b * q && 5 * q <= a + 4
  {
    var x := a + b - 1;
    var q := x / b;
    assert x == b * q + x % b;
    assert q == 0 ==> b * q == 0;
    assert b * q == b * (q - 1) + b;
    Scale(q - 1, 5, b);
  }

  /** Establishment deadline of a forwarded link request. */
  function LinkDeadline(now: u64, hops: byte, bitrate: nat): (d: u64)
    ensures d > now || now == U64_MAX
  {
    SatAdd(SatAdd(now, 6_000 * (if hops == 0 then 1 else hops)), RoundTripMs(bitrate))
  }

  /** A link has six seconds for each hop of its route, and at least for one, beside the first hop's round trip. */
  lemma SixSecondsAHop(now: u64, hops: byte, bitrate: nat)
    requires now + 6_000 * 256 + 1_600_000 <= U64_MAX && hops < 255
    ensures LinkDeadline(now, 0, bitrate) == LinkDeadline(now, 1, bitrate) == now + 6_000 + RoundTripMs(bitrate)
    ensures hops > 0 ==> LinkDeadline(now, hops + 1, bitrate) == LinkDeadline(now, hops, bitrate) + 6_000
  {
    hide RoundTripMs;
  }

  /** A discovery waits for the slowest answer it may get, and at least for the request gate. */
  function DiscoveryTimeout(bitrate: nat): (ms: u64)
    ensures ms >= REQUEST_GATE_MS && ms >= 6_000 + RoundTripMs(bitrate)
    ensures ms in {REQUEST_GATE_MS, 6_000 + RoundTripMs(bitrate)}
  {
    var sampled := 6_000 + RoundTripMs(bitrate);
    if sampled > REQUEST_GATE_MS then sampled else REQUEST_GATE_MS
  }

  datatype Begun = New(identity: u64) | Joined | Refused

  /** Every recorded discovery has somebody waiting for it. */
  ghost predicate Awaited(m: Ledger) {
    forall g :: g in m ==> m[g].body != {}
  }

  /**
   `begin`: a live search is joined; a new one needs a slot, an identity and a deadline ahead, and is refused
   exactly when it lacks one of them.
   */
  ghost predicate Begins(m: Ledger, last: u64, capacity: nat, destination: Hash, slot: nat, now: u64, timeout: u64,
                         m': Ledger, last': u64, r: Begun)
  {
    var live := LiveAt(m, now);
    match r
    case Refused =>
      && last' == last
      && if slot >= REQUESTERS then m' == m
         else
           && m' == live && !HasKey(live, destination)
           && (|live| >= capacity || last == U64_MAX || SatAdd(now, timeout) <= now)
    case Joined =>
      && last' == last && slot < REQUESTERS
      && exists g :: g in live && live[g].key == destination &&
           m' == live[g := live[g].(body := live[g].body + {slot})]
    case New(identity) =>
      && last < U64_MAX && identity == last' == last + 1 && slot < REQUESTERS
      && !HasKey(live, destination) && |live| < capacity && now < SatAdd(now, timeout)
      && m' == live[identity := Row(destination, SatAdd(now, timeout), {slot})]
  }

  /** Wait with those who wait for a destination already searched for. */
  method Join(t: GenTable<Requesters>, destination: Hash, slot: nat) returns (joined: bool)
    requires t.Valid() && Awaited(t.entries)
    modifies t, t.rows, t.gens
    ensures t.Valid() && Awaited(t.entries) && t.last == old(t.last)
    ensures (joined <==> HasKey(old(t.entries), destination))
    ensures !joined ==> t.entries == old(t.entries)
    ensures var m := old(t.entries);
      joined ==> exists g :: g in m && m[g].key == destination && t.entries == m[g := m[g].(body := m[g].body + {slot})]
  {
    hide Holds;
    HoldsAt(t.rows[..], t.gens[..], t.last, t.entries, t.slot, t.owner);
    var i := FindKey(t.rows, destination);
    if i == t.rows.Length { return false; }
    assert t.rows[..][i] == t.rows[i] && t.gens[..][i] == t.gens[i];
    var row := t.rows[i].value;
    t.Write(i, row.(body := row.body + {slot}), t.gens[i]);
    return true;
  }

  /** Search for a destination nobody is searching for. */
  method Open(t: GenTable<Requesters>, destination: Hash, slot: nat, now: u64, timeout: u64) returns (r: Begun)
    requires t.Valid() && Awaited(t.entries) && !HasKey(t.entries, destination)
    modifies t, t.rows, t.gens
    ensures t.Valid() && Awaited(t.entries)
    ensures var m, last := old(t.entries), old(t.last);
      if |m| >= t.rows.Length || last == U64_MAX || SatAdd(now, timeout) <= now
      then r == Refused && t.entries == m && t.last == last
      else
        && r == New(last + 1) && t.last == last + 1
        && t.entries == m[last + 1 := Row(destination, SatAdd(now, timeout), {slot})]
  {
    hide Holds;
    HoldsAt(t.rows[..], t.gens[..], t.last, t.entries, t.slot, t.owner);
    var i := t.FreeSlot();
    if i == t.rows.Length || t.last == U64_MAX || SatAdd(now, timeout) <= now {
      return Refused;
    }
    t.Write(i, Row(destination, SatAdd(now, timeout), {slot}), t.last + 1);
    return New(t.last);
  }

  method Begin(t: GenTable<Requesters>, destination: Hash, slot: nat, now: u64, timeout: u64) returns (r: Begun)
    requires t.Valid() && Awaited(t.entries)
    modifies t, t.rows, t.gens
    ensures t.Valid() && Awaited(t.entries)
    ensures Begins(old(t.entries), old(t.last), t.rows.Length, destination, slot, now, timeout, t.entries, t.last, r)
  {
    hide Holds;
    if slot >= REQUESTERS { return Refused; }
    t.Expire(now);
    var joined := Join(t, destination, slot);
    if joined { return Joined; }
    r := Open(t, destination, slot, now, timeout);
  }

  /** Strike a requester off every discovery; one nobody waits for any more is forgotten. */
  function Struck(slot: nat): Row<Requesters> -> Option<Row<Requesters>> {
    (r: Row<Requesters>) => if r.body - {slot} == {} then None else Some(r.(body := r.body - {slot}))
  }

  method RetireRequester(t: GenTable<Requesters>, slot: nat)
    requires t.Valid() && Awaited(t.entries)
    modifies t`entries, t`slot, t.rows
    ensures t.Valid() && Awaited(t.entries)
    ensures t.entries == if slot < REQUESTERS then Transformed(old(t.entries), Struck(slot)) else old(t.entries)
  {
    hide Holds;
    if slot < REQUESTERS {
      t.Transform(Struck(slot));
    }
  }

  /** Close the discovery of a destination; an expired one is closed without an answer. */
  method Take(t: GenTable<Requesters>, destination: Hash, now: u64) returns (r: Option<Row<Requesters>>)
    requires t.Valid() && Awaited(t.entries)
    modifies t`entries, t`slot, t.rows
    ensures t.Valid() && Awaited(t.entries)
    ensures t.entries == Without(old(t.entries), (r: Row<Requesters>) => r.key == destination)
    ensures r.Some? ==>
      exists g :: g in old(t.entries) && r.value == old(t.entries)[g] && r.value.key == destination
        && now < r.value.expires
    ensures r.None? ==> !HasKey(LiveAt(old(t.entries), now), destination)
  {
    hide Holds;
    HoldsAt(t.rows[..], t.gens[..], t.last, t.entries, t.slot, t.owner);
    var i := FindKey(t.rows, destination);
    r := None;
    if i < t.rows.Length {
      assert t.rows[..][i] == t.rows[i] && t.gens[..][i] == t.gens[i];
      if now < t.rows[i].value.expires {
        r := t.rows[i];
      }
    } else {
      assert !HasKey(t.entries, destination);
    }
    assert r.None? ==> forall g :: g in LiveAt(t.entries, now) ==> t.entries[g].key != destination;
    t.RemoveWhere((r: Row<Requesters>) => r.key == destination);
  }
}
