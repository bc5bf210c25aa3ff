/** The ring of own ratchet keys: rotation policy, candidate blobs, and prepare/persist/commit. */
module Ratchet {
  import opened Base

  const RING_MAX: nat := 64
  const INTERVAL_SECS: u64 := 43_200
  const EXPIRY_SECS: u64 := 2_592_000
  const SLOT_LEN: nat := 41
  const VERSION: byte := 2
  const LEGACY_VERSION: byte := 1

  /** When a key was made, by a clock that may or may not mean anything later. */
  datatype Age = Unknown | Wall(secs: u64) | Uptime(secs: u64)

  datatype Clock = Clock(wall: Option<u64>, uptime: u64)
  {
    function Anchor(): Age {
      if wall.Some? then Wall(wall.value) else Uptime(uptime)
    }
  }

  /** A private key with its age. */
  datatype Slot = Slot(key: Hash, age: Age)

  /** Newest first. */
  type Ring = seq<Slot>

  predicate Comparable(a: Age, c: Clock) {
    match a
    case Unknown => false
    case Wall(made) => c.wall.Some? && c.wall.value >= made
    case Uptime(made) => c.uptime >= made
  }

  function Elapsed(a: Age, c: Clock): u64
    requires Comparable(a, c)
  {
    if a.Wall? then c.wall.value - a.secs else c.uptime - a.secs
  }

  predicate ElapsedAtLeast(a: Age, c: Clock, interval: u64) {
    Comparable(a, c) && Elapsed(a, c) >= interval
  }

  predicate Expired(a: Age, c: Clock) {
    Comparable(a, c) && Elapsed(a, c) > EXPIRY_SECS
  }

  /** `effective_age`: an age the clock cannot judge starts over. */
  function Effective(a: Age, c: Clock): (e: Age)
    ensures Comparable(e, c)
  {
    if Comparable(a, c) then a else c.Anchor()
  }

  datatype Action = Unchanged | PersistMetadata | Rotate | FullRingProtected

  predicate NeedsAnchor(r: Ring, c: Clock) {
    exists i :: 0 <= i < |r| && !Comparable(r[i].age, c)
  }

  /** `rotation_action`. */
  function RotationAction(r: Ring, c: Clock): Action {
    if r == [] then Rotate
    else if !ElapsedAtLeast(r[0].age, c, INTERVAL_SECS) then (if NeedsAnchor(r, c) then PersistMetadata else Unchanged)
    else if |r| < RING_MAX || Expired(r[|r| - 1].age, c) then Rotate
    else if NeedsAnchor(r, c) then PersistMetadata
    else FullRingProtected
  }

  function Reanchored(r: Ring, c: Clock): (s: Ring)
    ensures |s| == |r| && forall i :: 0 <= i < |r| ==> s[i] == Slot(r[i].key, Effective(r[i].age, c))
  {
    seq(|r|, i requires 0 <= i < |r| => Slot(r[i].key, Effective(r[i].age, c)))
  }

  function Front(r: Ring): Ring {
    if |r| < RING_MAX then r else r[..RING_MAX - 1]
  }

  datatype Preparation = NoChange | Metadata(candidate: Ring) | Rotated(candidate: Ring) | Protected

  /** `prepare_rotation_into`, as the ring its blob describes. */
  function Prepare(r: Ring, fresh_: Hash, c: Clock): Preparation {
    match RotationAction(r, c)
    case Unchanged => NoChange
    case FullRingProtected => Protected
    case PersistMetadata => Metadata(Reanchored(r, c))
    case Rotate => Rotated([Slot(fresh_, c.Anchor())] + Reanchored(Front(r), c))
  }

  function Keys(r: Ring): (k: seq<Hash>)
    ensures |k| == |r| && forall i :: 0 <= i < |r| ==> k[i] == r[i].key
  {
    seq(|r|, i requires 0 <= i < |r| => r[i].key)
  }

  /** `is_valid_candidate`: the same keys, or one new key in front of them. */
  predicate Compatible(r: Ring, candidate: Ring) {
    if r == [] then |candidate| == 1
    else
      || Keys(candidate) == Keys(r)
      || (|candidate| == Min(|r| + 1, RING_MAX) && forall i :: 1 <= i < |candidate| ==>
        candidate[i].key == r[i - 1].key)
  }

  // --- The policy -------------------------------------------------------------------------------

  /** An unmodified preparation commits, and keeps the keys newest first. */
  lemma PreparedCommits(r: Ring, fresh_: Hash, c: Clock)
    requires |r| <= RING_MAX
    ensures match Prepare(r, fresh_, c)
      case Rotated(s) => Compatible(r, s) && |s| <= RING_MAX && Keys(s) == [fresh_] + Keys(Front(r))
      case Metadata(s) => Compatible(r, s) && |s| <= RING_MAX && Keys(s) == Keys(r)
      case _ => true
  {
    hide Comparable, Effective, ElapsedAtLeast, Expired, NeedsAnchor;
    var p := Prepare(r, fresh_, c);
    if p.Rotated? {
      var s, f := p.candidate, Front(r);
      assert s == [Slot(fresh_, c.Anchor())] + Reanchored(f, c);
      assert forall i :: 1 <= i < |s| ==> s[i].key == f[i - 1].key == r[i - 1].key;
      assert Keys(s) == [fresh_] + Keys(f);
    } else if p.Metadata? {
      assert Keys(p.candidate) == Keys(r);
    }
  }

  /** Preparation drops no key but the last of a full ring. */
  lemma KeyStays(r: Ring, fresh_: Hash, c: Clock, i: nat)
    requires |r| <= RING_MAX && i < |r| && (Prepare(r, fresh_, c).Rotated? || Prepare(r, fresh_, c).Metadata?)
    ensures Prepare(r, fresh_, c).Metadata? || i < |Front(r)| ==> r[i].key in Keys(Prepare(r, fresh_, c).candidate)
  {
    PreparedCommits(r, fresh_, c);
    var p := Prepare(r, fresh_, c);
    if p.Metadata? {
      assert Keys(p.candidate)[i] == r[i].key;
    } else if i < |Front(r)| {
      assert Keys(p.candidate)[i + 1] == r[i].key;
    }
  }

  /** A key leaves with a rotation only from the end of a full ring, and only past its expiry. */
  lemma LeavesOnlyExpired(r: Ring, fresh_: Hash, c: Clock, i: nat)
    requires |r| <= RING_MAX && i < |r| && (Prepare(r, fresh_, c).Rotated? || Prepare(r, fresh_, c).Metadata?)
    requires r[i].key !in Keys(Prepare(r, fresh_, c).candidate)
    ensures |r| == RING_MAX && i == RING_MAX - 1 && Expired(r[i].age, c) && Prepare(r, fresh_, c).Rotated?
  {
    KeyStays(r, fresh_, c, i);
  }

  /** A second preparation at the same clock asks for no further write. */
  lemma PreparedIsSettled(r: Ring, fresh_: Hash, again: Hash, c: Clock)
    requires |r| <= RING_MAX && (Prepare(r, fresh_, c).Rotated? || Prepare(r, fresh_, c).Metadata?)
    ensures Prepare(Prepare(r, fresh_, c).candidate, again, c) in {NoChange, Protected}
  {
    var p := Prepare(r, fresh_, c);
    var s := p.candidate;
    forall i | 0 <= i < |s| ensures Comparable(s[i].age, c) {
    }
    assert !NeedsAnchor(s, c);
  }

  /** A rotation prepared before another one was committed is refused, as long as the other's key was new. */
  lemma StaleRotationIsRefused(r: Ring, fresh_: Hash, c: Clock, live: Ring)
    requires |r| <= RING_MAX && Prepare(r, fresh_, c).Rotated? && live != []
    requires live[0].key != fresh_ && live[0].key !in Keys(r)
    ensures !Compatible(live, Prepare(r, fresh_, c).candidate)
  {
    RotationShape(r, fresh_, c);
  }

  lemma RotationShape(r: Ring, fresh_: Hash, c: Clock)
    requires |r| <= RING_MAX && Prepare(r, fresh_, c).Rotated?
    ensures var s := Prepare(r, fresh_, c).candidate;
      && |s| == |Front(r)| + 1 && Keys(s)[0] == fresh_
      && (r != [] ==> |s| > 1 && s[1].key == Keys(r)[0] && Keys(r)[0] in Keys(r))
  {
  }

  // --- The policy, by the clock -----------------------------------------------------------------

  /** Every key was made at a known time of day, none of them ahead of the clock. */
  ghost predicate Dated(r: Ring, c: Clock) {
    c.wall.Some? && forall i :: 0 <= i < |r| ==> r[i].age.Wall? && r[i].age.secs <= c.wall.value
  }

  /** By the time of day: a new key twelve hours after the newest, with room for it or an oldest of thirty days. */
  lemma RotatesOnTime(r: Ring, fresh_: Hash, c: Clock)
    requires Dated(r, c)
    ensures var p := Prepare(r, fresh_, c);
      && (p.Rotated? <==>
            || r == []
            || (&& c.wall.value >= r[0].age.secs + 43_200
                && (|r| < 64 || c.wall.value > r[|r| - 1].age.secs + 2_592_000)))
      && (p.Protected? <==>
            && r != [] && c.wall.value >= r[0].age.secs + 43_200
            && |r| >= 64 && c.wall.value <= r[|r| - 1].age.secs + 2_592_000)
      && (p.NoChange? <==> r != [] && c.wall.value < r[0].age.secs + 43_200)
  {
  }

  /** The same by uptime, as long as the host has not been started again. */
  lemma RotatesByUptime(r: Ring, fresh_: Hash, c: Clock)
    requires forall i :: 0 <= i < |r| ==> r[i].age.Uptime? && r[i].age.secs <= c.uptime
    ensures Prepare(r, fresh_, c).Rotated? <==>
      || r == []
      || (c.uptime >= r[0].age.secs + 43_200 && (|r| < 64 || c.uptime > r[|r| - 1].age.secs + 2_592_000))
  {
  }

  /**
   A key whose age means nothing by this clock (unknown, ahead of it, or a time of day without one to compare) is
   not replaced: its twelve hours start over.
   */
  lemma UndatedWaits(r: Ring, fresh_: Hash, c: Clock)
    requires r != []
    requires var a := r[0].age;
      || a.Unknown? || (a.Wall? && (c.wall.None? || c.wall.value < a.secs)) || (a.Uptime? && c.uptime < a.secs)
    ensures Prepare(r, fresh_, c).Metadata? && Prepare(r, fresh_, c).candidate[0] == Slot(r[0].key, c.Anchor())
  {
  }

  /** After a rotation the next one is twelve hours off, by the time of day if it is known and by uptime if not. */
  lemma NextRotationWaits(r: Ring, f: Hash, c: Clock, g: Hash, d: Clock)
    requires |r| <= RING_MAX && Prepare(r, f, c).Rotated? && Prepare(Prepare(r, f, c).candidate, g, d).Rotated?
    ensures c.wall.Some? ==> d.wall.Some? && d.wall.value >= c.wall.value + 43_200
    ensures c.wall.None? ==> d.uptime >= c.uptime + 43_200
  {
    hide NeedsAnchor, Expired;
    RotationShape(r, f, c);
    assert Prepare(r, f, c).candidate[0] == Slot(f, c.Anchor());
  }

  // --- Blobs ------------------------------------------------------------------------------------

  datatype Failure = InvalidBlob | OutputTooSmall | InvalidCandidate
  datatype Result<+T> = Ok(value: T) | Err(error: Failure)

  function AgeKind(a: Age): byte {
    match a case Unknown => 0 case Wall(_) => 1 case Uptime(_) => 2
  }

  function AgeSecs(a: Age): u64 {
    match a case Unknown => 0 case Wall(t) => t case Uptime(t) => t
  }

  function SlotBytes(s: Slot): (b: Bytes)
    ensures |b| == SLOT_LEN
  {
    [AgeKind(s.age)] + ToBe(AgeSecs(s.age), 8) + ToBe(s.key, 32)
  }

  function SlotsBytes(r: Ring): (b: Bytes)
    ensures |b| == |r| * SLOT_LEN
  {
    if r == [] then [] else SlotsBytes(r[..|r| - 1]) + SlotBytes(r[|r| - 1])
  }

  /** `serialize_into`. */
  function Serialize(r: Ring): (b: Bytes)
    requires |r| <= RING_MAX
    ensures |b| == 2 + |r| * SLOT_LEN
  {
    [VERSION, |r|] + SlotsBytes(r)
  }

  function Piece(blob: Bytes, i: nat): (b: Bytes)
    requires 2 + (i + 1) * SLOT_LEN <= |blob|
    ensures |b| == SLOT_LEN
  {
    blob[2 + i * SLOT_LEN..2 + (i + 1) * SLOT_LEN]
  }

  /** A kind that exists, and no time for an unknown age. */
  predicate SlotValid(b: Bytes)
    requires |b| == SLOT_LEN
  {
    b[0] <= 2 && (b[0] == 0 ==> FromBe(b[1..9]) == 0)
  }

  /** `validate_ring_blob`. */
  predicate Shaped(blob: Bytes, legacy: bool) {
    && |blob| >= 2 && blob[1] <= RING_MAX
    && if blob[0] == VERSION then
         |blob| == 2 + (blob[1] as int) * SLOT_LEN && forall i: nat :: i < blob[1] ==> SlotAt(blob, i)
       else
         blob[0] == LEGACY_VERSION && legacy && |blob| == 10 + (blob[1] as int) * 32
  }

  predicate SlotAt(blob: Bytes, i: nat) {
    2 + (i + 1) * SLOT_LEN <= |blob| && SlotValid(Piece(blob, i))
  }

  function ToAge(kind: byte, secs: nat): Age {
    if secs > U64_MAX then Unknown else match kind case 1 => Wall(secs) case 2 => Uptime(secs) case _ => Unknown
  }

  /** Uptime means nothing after a restart. */
  function Restored(a: Age): Age {
    if a.Uptime? then Unknown else a
  }

  function ToSlot(b: Bytes, persisted: bool): Slot
    requires |b| == SLOT_LEN
  {
    var age := ToAge(b[0], FromBe(b[1..9]));
    Slot(FromBe(b[9..]), if persisted then Restored(age) else age)
  }

  /** `apply_blob`. */
  function Stored(blob: Bytes, persisted: bool): (r: Ring)
    requires Shaped(blob, true)
    ensures |r| == blob[1]
  {
    if blob[0] == VERSION then
      seq(blob[1], i requires 0 <= i < blob[1] => assert SlotAt(blob, i); ToSlot(Piece(blob, i), persisted))
    else
      var last := FromBe(blob[2..10]);
      seq(blob[1], i requires 0 <= i < blob[1] => LegacySlot(blob, i, last))
  }

  function LegacySlot(blob: Bytes, i: nat, last: nat): Slot
    requires |blob| >= 2 && |blob| == 10 + (blob[1] as int) * 32 && i < blob[1]
  {
    Slot(FromBe(blob[10 + i * 32..10 + (i + 1) * 32]), if i == 0 && last != 0 then ToAge(1, last) else Unknown)
  }

  /** `commit_prepared_blob`. */
  function Commit(r: Ring, blob: Bytes): Result<Ring> {
    if !Shaped(blob, false) then Err(InvalidBlob)
    else if !Compatible(r, Stored(blob, false)) then Err(InvalidCandidate)
    else Ok(Stored(blob, false))
  }

  /** `load_persisted`. */
  function Load(blob: Bytes): Result<Ring> {
    if Shaped(blob, true) then Ok(Stored(blob, true)) else Err(InvalidBlob)
  }

  function Forgotten(r: Ring): (s: Ring)
    ensures |s| == |r| && forall i :: 0 <= i < |r| ==> s[i] == Slot(r[i].key, Restored(r[i].age))
  {
    seq(|r|, i requires 0 <= i < |r| => Slot(r[i].key, Restored(r[i].age)))
  }

  ghost predicate KeysFit(r: Ring) {
    |r| <= RING_MAX && forall i :: 0 <= i < |r| ==> r[i].key < Pow256(32)
  }

  lemma SlotRoundTrip(s: Slot)
    requires s.key < Pow256(32)
    ensures SlotValid(SlotBytes(s))
    ensures ToSlot(SlotBytes(s), false) == s && ToSlot(SlotBytes(s), true) == Slot(s.key, Restored(s.age))
  {
    hide ToBe, FromBe, Pow256;
    U64Fits(AgeSecs(s.age));
    BeRoundTrip(AgeSecs(s.age), 8);
    BeRoundTrip(s.key, 32);
    var b := SlotBytes(s);
    assert b[1..9] == ToBe(AgeSecs(s.age), 8) && b[9..] == ToBe(s.key, 32);
  }

  lemma {:induction false} PieceOf(r: Ring, i: nat)
    requires i < |r|
    ensures (i + 1) * SLOT_LEN <= |r| * SLOT_LEN
    ensures SlotsBytes(r)[i * SLOT_LEN..(i + 1) * SLOT_LEN] == SlotBytes(r[i])
  {
    hide SlotBytes;
    var n := |r| - 1;
    SlotLength(r[n]);
    if i < n {
      PieceOf(r[..n], i);
      assert SlotsBytes(r)[i * SLOT_LEN..(i + 1) * SLOT_LEN] == SlotsBytes(r[..n])[i * SLOT_LEN..(i + 1) * SLOT_LEN];
    }
  }

  lemma SlotLength(s: Slot)
    ensures |SlotBytes(s)| == SLOT_LEN
  {
  }

  lemma SlotsLength(r: Ring)
    ensures |SlotsBytes(r)| == |r| * SLOT_LEN
  {
  }

  /** What is serialized is read back: exactly for a commit, without uptimes after a restart. */
  lemma SerializedIsStored(r: Ring)
    requires KeysFit(r)
    ensures Shaped(Serialize(r), false) && Shaped(Serialize(r), true)
    ensures Stored(Serialize(r), false) == r && Stored(Serialize(r), true) == Forgotten(r)
  {
    hide SlotBytes, SlotsBytes, ToSlot, SlotValid, Pow256;
    SlotsLength(r);
    var blob := Serialize(r);
    forall i: nat | i < |r|
      ensures 2 + (i + 1) * SLOT_LEN <= |blob| && Piece(blob, i) == SlotBytes(r[i]) && SlotAt(blob, i)
      ensures ToSlot(Piece(blob, i), false) == r[i]
      ensures ToSlot(Piece(blob, i), true) == Slot(r[i].key, Restored(r[i].age))
    {
      PieceOf(r, i);
      SlotRoundTrip(r[i]);
      SlotLength(r[i]);
      assert Piece(blob, i) == SlotsBytes(r)[i * SLOT_LEN..(i + 1) * SLOT_LEN];
    }
  }

  lemma SlotBack(b: Bytes)
    requires |b| == SLOT_LEN && SlotValid(b)
    ensures SlotBytes(ToSlot(b, false)) == b && ToSlot(b, false).key < Pow256(32)
  {
    hide ToBe, FromBe, Pow256;
    BytesRoundTrip(b[1..9]);
    BytesRoundTrip(b[9..]);
    Pow8();
    assert b == [b[0]] + b[1..9] + b[9..];
    var s := ToSlot(b, false);
    assert AgeKind(s.age) == b[0] && AgeSecs(s.age) == FromBe(b[1..9]);
  }

  lemma Pow8()
    ensures Pow256(8) == U64_MAX + 1
  {
    assert Pow256(2) == 256 * Pow256(1) == 65536;
    assert Pow256(4) == 256 * Pow256(3) && Pow256(3) == 256 * Pow256(2);
    assert Pow256(6) == 256 * Pow256(5) && Pow256(5) == 256 * Pow256(4);
    assert Pow256(8) == 256 * Pow256(7) && Pow256(7) == 256 * Pow256(6);
  }

  lemma {:induction false} SlotsBack(blob: Bytes, r: Ring, n: nat)
    requires 2 + n * SLOT_LEN <= |blob| && n <= |r|
    requires forall i: nat :: i < n ==> SlotAt(blob, i) && r[i] == ToSlot(Piece(blob, i), false)
    ensures SlotsBytes(r[..n]) == blob[2..2 + n * SLOT_LEN]
  {
    hide SlotBytes, ToSlot, SlotValid, SlotsBytes;
    if n == 0 {
      NoSlots();
    } else {
      SlotsBack(blob, r, n - 1);
      assert SlotAt(blob, n - 1);
      SlotBack(Piece(blob, n - 1));
      AppendSlot(r, n - 1);
      Joined(blob, 2, 2 + (n - 1) * SLOT_LEN, 2 + n * SLOT_LEN);
    }
  }

  lemma Joined(b: Bytes, i: nat, j: nat, k: nat)
    requires i <= j <= k <= |b|
    ensures b[i..k] == b[i..j] + b[j..k]
  {
  }

  /** A blob is acceptable to a commit exactly if it is what some ring is written as. */
  lemma AcceptableExactly(blob: Bytes)
    ensures Shaped(blob, false) <==> exists r :: KeysFit(r) && blob == Serialize(r)
  {
    hide SlotBytes, SlotsBytes, ToSlot, SlotValid, Pow256;
    if Shaped(blob, false) {
      var r := Stored(blob, false);
      forall i: nat | i < |r|
        ensures SlotAt(blob, i) && r[i] == ToSlot(Piece(blob, i), false) && r[i].key < Pow256(32)
      {
        assert SlotAt(blob, i);
        SlotBack(Piece(blob, i));
      }
      SlotsBack(blob, r, |r|);
      assert r[..|r|] == r;
      assert KeysFit(r) && blob == Serialize(r);
    }
    if r :| KeysFit(r) && blob == Serialize(r) {
      SerializedIsStored(r);
    }
  }

  /** The same keys, of which there are some, or one more in front of them, with the last of a full ring gone. */
  ghost predicate Grows(r: Ring, s: Ring) {
    || (r != [] && Keys(s) == Keys(r))
    || (s != [] && Keys(s)[1..] == Keys(Front(r)))
  }

  lemma CompatibleExactly(r: Ring, s: Ring)
    requires |r| <= RING_MAX
    ensures Compatible(r, s) <==> Grows(r, s)
  {
    var f := Front(r);
    if r != [] && |s| == |f| + 1 {
      if forall i :: 1 <= i < |s| ==> s[i].key == r[i - 1].key {
        assert Keys(s)[1..] == Keys(f);
      }
      if Keys(s)[1..] == Keys(f) {
        forall i | 1 <= i < |s| ensures s[i].key == r[i - 1].key {
          assert Keys(s)[1..][i - 1] == Keys(f)[i - 1];
        }
      }
    }
  }

  /** A commit takes a blob exactly if some ring is written as it that has the live keys, or one more in front. */
  lemma CommitExactly(live: Ring, blob: Bytes)
    requires |live| <= RING_MAX
    ensures Commit(live, blob).Ok? <==> exists r :: KeysFit(r) && blob == Serialize(r) && Grows(live, r)
    ensures Commit(live, blob).Ok? ==> Grows(live, Commit(live, blob).value)
  {
    hide Serialize, Pow256, Compatible, Grows, Shaped, Stored;
    AcceptableExactly(blob);
    if r :| KeysFit(r) && blob == Serialize(r) {
      SerializedIsStored(r);
      CompatibleExactly(live, r);
      forall s | KeysFit(s) && blob == Serialize(s) ensures s == r {
        SerializedIsStored(s);
      }
    }
  }

  /** A restart keeps keys and times of day, and forgets uptimes. */
  lemma RestartForgetsUptimes(r: Ring, i: nat)
    requires KeysFit(r) && i < |r|
    ensures Load(Serialize(r)).Ok? && |Load(Serialize(r)).value| == |r|
    ensures var s := Load(Serialize(r)).value[i];
      s.key == r[i].key && (r[i].age.Wall? ==> s.age == r[i].age) && (!r[i].age.Wall? ==> s.age == Unknown)
  {
    hide Serialize, Shaped, Stored, Pow256;
    SerializedIsStored(r);
  }

  // --- The legacy form --------------------------------------------------------------------------

  function KeysBytes(keys: seq<Hash>): (b: Bytes)
    ensures |b| == |keys| * 32
  {
    if keys == [] then [] else KeysBytes(keys[..|keys| - 1]) + ToBe(keys[|keys| - 1], 32)
  }

  /** How rings were stored before ages were: one time, of the newest key, and the keys. */
  function LegacyBlob(keys: seq<Hash>, last: u64): Bytes
    requires |keys| <= RING_MAX
  {
    [LEGACY_VERSION, |keys|] + ToBe(last, 8) + KeysBytes(keys)
  }

  lemma {:induction false} KeyPiece(keys: seq<Hash>, i: nat)
    requires i < |keys|
    ensures (i + 1) * 32 <= |keys| * 32 && KeysBytes(keys)[i * 32..(i + 1) * 32] == ToBe(keys[i], 32)
  {
    hide ToBe;
    var n := |keys| - 1;
    if i < n {
      KeyPiece(keys[..n], i);
      assert KeysBytes(keys)[i * 32..(i + 1) * 32] == KeysBytes(keys[..n])[i * 32..(i + 1) * 32];
    }
  }

  /** Such a blob is still read: all keys in order, the newest with its time unless that is zero; no commit takes it. */
  lemma LegacyLoads(keys: seq<Hash>, last: u64, live: Ring)
    requires |keys| <= RING_MAX && forall i :: 0 <= i < |keys| ==> keys[i] < Pow256(32)
    ensures var r := Load(LegacyBlob(keys, last));
      && r.Ok? && |r.value| == |keys|
      && forall i :: 0 <= i < |keys| ==>
           r.value[i] == Slot(keys[i], if i == 0 && last != 0 then Wall(last) else Unknown)
    ensures Commit(live, LegacyBlob(keys, last)) == Err(InvalidBlob)
  {
    hide ToBe, FromBe, Pow256, KeysBytes;
    var blob := LegacyBlob(keys, last);
    U64Fits(last);
    BeRoundTrip(last, 8);
    assert |blob| == 10 + |keys| * 32;
    assert blob[2..10] == ToBe(last, 8);
    forall i: nat | i < |keys|
      ensures 10 + (i + 1) * 32 <= |blob| && FromBe(blob[10 + i * 32..10 + (i + 1) * 32]) == keys[i]
    {
      KeyPiece(keys, i);
      BeRoundTrip(keys[i], 32);
      assert blob[10 + i * 32..10 + (i + 1) * 32] == KeysBytes(keys)[i * 32..(i + 1) * 32];
    }
  }

  // --- Runs of prepare, persist, commit and restart ---------------------------------------------

  /** A preparation that was made: the ring and clock it was made for, and the key it was given. */
  datatype Made = Made(base: Ring, key: Hash, clock: Clock)
  {
    predicate Writes() {
      Prepare(base, key, clock).Rotated? || Prepare(base, key, clock).Metadata?
    }

    predicate Rotates() {
      Prepare(base, key, clock).Rotated?
    }

    function Candidate(): Ring
      requires Writes()
    {
      Prepare(base, key, clock).candidate
    }
  }

  /** The ring in memory, the blob in durable storage, and every preparation made so far. */
  datatype Machine = Machine(live: Ring, store: Bytes, made: seq<Made>)

  /** A key that no ring of this machine, since it had the keys `origin`, was ever given. */
  predicate NewKey(s: Machine, origin: seq<Hash>, key: Hash) {
    key !in origin && forall i :: 0 <= i < |s.made| && s.made[i].Rotates() ==> s.made[i].key != key
  }

  /** A candidate prepared against the live ring is written to storage; a rotation is given a new key. */
  ghost predicate Persists(s: Machine, t: Machine, origin: seq<Hash>, m: Made) {
    && m.base == s.live && m.Writes() && m.key < Pow256(32) && |m.Candidate()| <= RING_MAX
    && (m.Rotates() ==> NewKey(s, origin, m.key))
    && t == Machine(s.live, Serialize(m.Candidate()), s.made + [m])
  }

  /** Any preparation made so far, however long ago, is committed. */
  ghost predicate Commits(s: Machine, t: Machine, i: nat) {
    && i < |s.made| && s.made[i].Writes() && |s.made[i].Candidate()| <= RING_MAX
    && var r := Commit(s.live, Serialize(s.made[i].Candidate()));
    r.Ok? && t == s.(live := r.value)
  }

  /** Storage holds the live keys, or a candidate prepared for them. */
  ghost predicate Current(s: Machine) {
    exists r :: Holds(s, r)
  }

  ghost predicate Holds(s: Machine, r: Ring) {
    && KeysFit(r) && s.store == Serialize(r)
    && (Keys(r) == Keys(s.live) || exists i :: PreparedFor(s, i, r))
  }

  ghost predicate PreparedFor(s: Machine, i: int, r: Ring) {
    0 <= i < |s.made| && s.made[i].Writes() && Keys(s.made[i].base) == Keys(s.live) && r == s.made[i].Candidate()
  }

  /** The host restarts, and loads what it finds stored. */
  ghost predicate Restarts(s: Machine, t: Machine) {
    Load(s.store).Ok? && t == s.(live := Load(s.store).value)
  }

  ghost predicate Steps(s: Machine, t: Machine, origin: seq<Hash>) {
    || (exists m :: Persists(s, t, origin, m))
    || (exists i: nat :: Commits(s, t, i))
    || Restarts(s, t)
  }

  /** A ring's keys are those the machine started with, or those of a rotation that was made. */
  ghost predicate Rooted(s: Machine, origin: seq<Hash>, x: Ring) {
    Keys(x) == origin || exists i :: RootedAt(s, x, i)
  }

  ghost predicate RootedAt(s: Machine, x: Ring, i: int) {
    0 <= i < |s.made| && s.made[i].Rotates() && Keys(x) == Keys(s.made[i].Candidate())
  }

  /** Every ring the machine has known is rooted, and every rotation brought a key of its own. */
  ghost predicate Lineage(s: Machine, origin: seq<Hash>) {
    && Distinct(origin) && KeysFit(s.live) && Rooted(s, origin, s.live)
    && (forall i :: 0 <= i < |s.made| ==> s.made[i].Writes() && KeysFit(s.made[i].base) && s.made[i].key < Pow256(32))
    && (forall i :: 0 <= i < |s.made| ==> Rooted(s, origin, s.made[i].base))
    && (forall i :: 0 <= i < |s.made| && s.made[i].Rotates() ==> s.made[i].key !in origin)
    && (forall i, j :: 0 <= i < j < |s.made| && s.made[i].Rotates() && s.made[j].Rotates() ==>
      s.made[i].key != s.made[j].key)
    && exists r :: StoredRing(s, origin, r)
  }

  ghost predicate StoredRing(s: Machine, origin: seq<Hash>, r: Ring) {
    KeysFit(r) && s.store == Serialize(r) && Rooted(s, origin, r)
  }

  lemma CandidateFits(m: Made)
    requires KeysFit(m.base) && m.key < Pow256(32) && m.Writes()
    ensures KeysFit(m.Candidate())
  {
    hide Pow256;
  }

  /** Two rings with the same newest key have the same keys. */
  lemma NewestDecides(s: Machine, origin: seq<Hash>, x: Ring, y: Ring)
    requires Lineage(s, origin) && Rooted(s, origin, x) && Rooted(s, origin, y) && x != [] && y != []
    requires x[0].key == y[0].key
    ensures Keys(x) == Keys(y)
  {
    hide Prepare, Pow256;
    assert Keys(x)[0] == x[0].key && Keys(y)[0] == y[0].key;
    if i, j :| RootedAt(s, x, i) && RootedAt(s, y, j) {
      FirstIsNew(s.made[i]);
      FirstIsNew(s.made[j]);
    } else if Keys(x) == origin && Keys(y) != origin {
      var j :| RootedAt(s, y, j);
      FirstIsNew(s.made[j]);
    } else if Keys(y) == origin && Keys(x) != origin {
      var i :| RootedAt(s, x, i);
      FirstIsNew(s.made[i]);
    }
  }

  lemma FirstIsNew(m: Made)
    requires m.Rotates() && |m.base| <= RING_MAX
    ensures m.Candidate() != [] && Keys(m.Candidate())[0] == m.key
  {
    RotationShape(m.base, m.key, m.clock);
  }

  /** The candidate of a preparation is rooted as soon as the preparation is made. */
  lemma CandidateRooted(s: Machine, origin: seq<Hash>, i: nat)
    requires i < |s.made| && s.made[i].Writes() && |s.made[i].base| <= RING_MAX && Rooted(s, origin, s.made[i].base)
    ensures Rooted(s, origin, s.made[i].Candidate())
  {
    hide Prepare;
    var m := s.made[i];
    if m.Rotates() {
      assert RootedAt(s, m.Candidate(), i);
    } else {
      SameKeys(m);
      if Keys(m.base) != origin {
        var j :| RootedAt(s, m.base, j);
        assert RootedAt(s, m.Candidate(), j);
      }
    }
  }

  lemma SameKeys(m: Made)
    requires m.Writes() && !m.Rotates() && |m.base| <= RING_MAX
    ensures Keys(m.Candidate()) == Keys(m.base)
  {
    PreparedCommits(m.base, m.key, m.clock);
  }

  lemma RootedStays(s: Machine, t: Machine, origin: seq<Hash>, x: Ring)
    requires Rooted(s, origin, x) && |s.made| <= |t.made| && t.made[..|s.made|] == s.made
    ensures Rooted(t, origin, x)
  {
    hide Prepare;
    if Keys(x) != origin {
      var i :| RootedAt(s, x, i);
      assert t.made[i] == t.made[..|s.made|][i];
      assert RootedAt(t, x, i);
    }
  }

  lemma TakesStore(live: Ring, r: Ring)
    requires KeysFit(r)
    ensures Commit(live, Serialize(r)).Ok? ==> Commit(live, Serialize(r)).value == r && Compatible(live, r)
    ensures Compatible(live, r) ==> Commit(live, Serialize(r)).Ok?
    ensures Load(Serialize(r)) == Ok(Forgotten(r))
    ensures KeysFit(Forgotten(r)) && Keys(Forgotten(r)) == Keys(r)
  {
    SerializedIsStored(r);
  }

  lemma PersistKeeps(s: Machine, t: Machine, origin: seq<Hash>, m: Made)
    requires Lineage(s, origin) && Persists(s, t, origin, m)
    ensures Lineage(t, origin) && Current(t)
  {
    hide Prepare, Serialize, Pow256, Compatible, Rooted;
    assert t.made[..|s.made|] == s.made;
    CandidateFits(m);
    RootedStays(s, t, origin, s.live);
    forall i | 0 <= i < |t.made| ensures Rooted(t, origin, t.made[i].base) {
      RootedStays(s, t, origin, t.made[i].base);
    }
    var n := |s.made|;
    assert t.made[n] == m;
    assert Rooted(t, origin, m.Candidate()) by { CandidateRooted(t, origin, n); }
    assert StoredRing(t, origin, m.Candidate());
    assert PreparedFor(t, n, m.Candidate());
    assert Holds(t, m.Candidate());
  }

  lemma LiveChanges(s: Machine, t: Machine, origin: seq<Hash>, r: Ring)
    requires Lineage(s, origin) && t == s.(live := t.live) && KeysFit(t.live) && Keys(t.live) == Keys(r)
    requires Rooted(s, origin, r)
    ensures Lineage(t, origin)
  {
    hide Prepare, Serialize, Pow256;
    RootedStays(s, t, origin, r);
    forall i | 0 <= i < |t.made| ensures Rooted(t, origin, t.made[i].base) {
      RootedStays(s, t, origin, t.made[i].base);
    }
    if Keys(r) != origin {
      var i :| RootedAt(t, r, i);
      assert RootedAt(t, t.live, i);
    }
    var x :| StoredRing(s, origin, x);
    RootedStays(s, t, origin, x);
    assert StoredRing(t, origin, x);
  }

  /** Every step keeps the lineage of keys. */
  lemma StepKeepsLineage(s: Machine, t: Machine, origin: seq<Hash>)
    requires Lineage(s, origin) && Steps(s, t, origin)
    ensures Lineage(t, origin)
  {
    hide Prepare, Serialize, Pow256, Lineage, Load, Commit, Rooted;
    if m :| Persists(s, t, origin, m) {
      PersistKeeps(s, t, origin, m);
    } else if i: nat :| Commits(s, t, i) {
      CommitTakes(s, t, origin, i);
      LiveChanges(s, t, origin, s.made[i].Candidate());
    } else {
      var r := RestartTakes(s, t, origin);
      LiveChanges(s, t, origin, r);
    }
  }

  lemma CommitTakes(s: Machine, t: Machine, origin: seq<Hash>, i: nat)
    requires Lineage(s, origin) && Commits(s, t, i)
    ensures t.live == s.made[i].Candidate() && KeysFit(t.live) && Compatible(s.live, t.live)
    ensures Rooted(s, origin, t.live)
  {
    hide Prepare, Serialize, Pow256, Compatible, Load, Commit;
    CandidateFits(s.made[i]);
    TakesStore(s.live, s.made[i].Candidate());
    CandidateRooted(s, origin, i);
  }

  lemma RestartTakes(s: Machine, t: Machine, origin: seq<Hash>) returns (r: Ring)
    requires Lineage(s, origin) && Restarts(s, t)
    ensures StoredRing(s, origin, r) && Keys(t.live) == Keys(r) && KeysFit(t.live)
  {
    hide Prepare, Serialize, Pow256, Compatible, Load, Commit, Rooted;
    r :| StoredRing(s, origin, r);
    TakesStore(s.live, r);
  }

  /** The last key of a full ring, past its expiry by the clock and ages of a rotation that was made for its keys. */
  ghost predicate Outlived(s: Machine, key: Hash) {
    && |s.live| == RING_MAX && s.live[RING_MAX - 1].key == key
    && exists i :: Outlives(s, i)
  }

  ghost predicate Outlives(s: Machine, i: int) {
    && 0 <= i < |s.made| && s.made[i].Rotates() && Keys(s.made[i].base) == Keys(s.live)
    && |s.made[i].base| == RING_MAX && Expired(s.made[i].base[RING_MAX - 1].age, s.made[i].clock)
  }

  /** A rotation made for these keys drops none but the expired last of a full ring. */
  lemma RotationOutlives(s: Machine, i: nat, k: nat)
    requires i < |s.made| && s.made[i].Writes() && Keys(s.made[i].base) == Keys(s.live) && |s.live| <= RING_MAX
    requires k < |s.live|
    requires s.live[k].key !in Keys(s.made[i].Candidate())
    ensures Outlived(s, s.live[k].key)
  {
    hide Prepare, Expired;
    var m := s.made[i];
    assert Keys(m.base)[k] == m.base[k].key == Keys(s.live)[k] == s.live[k].key;
    LeavesOnlyExpired(m.base, m.key, m.clock, k);
    assert Outlives(s, i);
  }

  /** What a stale preparation that is accepted was made for: the live keys, or the ring before the one it holds. */
  lemma CommitLosesOnlyExpired(s: Machine, t: Machine, origin: seq<Hash>, i: nat, k: nat)
    requires Lineage(s, origin) && Commits(s, t, i) && k < |s.live| && s.live[k].key !in Keys(t.live)
    ensures Outlived(s, s.live[k].key)
  {
    hide Prepare, Serialize, Pow256, Load, Commit, Outlived;
    CommitTakes(s, t, origin, i);
    var m, b := s.made[i], s.made[i].Candidate();
    assert Keys(s.live)[k] == s.live[k].key;
    assert k == RING_MAX - 1 && |s.live| == |b| == RING_MAX by { OnlyLast(s.live, b, k); }
    assert b[1].key == s.live[0].key;
    if m.Rotates() {
      SecondIsBase(m);
      NewestDecides(s, origin, m.base, s.live);
      RotationOutlives(s, i, k);
    } else {
      SameKeys(m);
      assert Keys(b)[1] == b[1].key && Keys(m.base)[1] == m.base[1].key;
      var j := BaseOf(s, origin, m.base);
      SecondIsBase(s.made[j]);
      NewestDecides(s, origin, s.made[j].base, s.live);
      assert Keys(s.made[j].Candidate()) == Keys(b);
      RotationOutlives(s, j, k);
    }
  }

  /** A compatible candidate drops none but the last key of a full ring. */
  lemma OnlyLast(r: Ring, b: Ring, k: nat)
    requires Compatible(r, b) && |b| <= RING_MAX && |r| <= RING_MAX && k < |r| && r[k].key !in Keys(b)
    ensures k == RING_MAX - 1 && |r| == |b| == RING_MAX && b[1].key == r[0].key
  {
    assert Keys(r)[k] == r[k].key;
    KeyAt(b, k + 1);
  }

  lemma KeyAt(r: Ring, i: nat)
    ensures i < |r| ==> r[i].key in Keys(r)
  {
    assert i < |r| ==> Keys(r)[i] == r[i].key;
  }

  lemma SecondIsBase(m: Made)
    requires m.Rotates() && |m.base| <= RING_MAX && |m.Candidate()| > 1
    ensures m.base != [] && m.Candidate()[1].key == m.base[0].key
  {
    RotationShape(m.base, m.key, m.clock);
  }

  /** No ring is the one the machine started with, less its newest key. */
  lemma NotOrigin(s: Machine, origin: seq<Hash>)
    requires Lineage(s, origin) && s.live != []
    ensures |origin| > 1 ==> origin[1] != s.live[0].key
  {
    hide Prepare, Pow256;
    assert Keys(s.live)[0] == s.live[0].key;
    if i :| RootedAt(s, s.live, i) {
      FirstIsNew(s.made[i]);
    }
  }

  /** A ring that shares its second key with the newest of a known ring was made by a rotation. */
  lemma BaseOf(s: Machine, origin: seq<Hash>, x: Ring) returns (j: nat)
    requires Lineage(s, origin) && Rooted(s, origin, x) && |x| > 1 && s.live != [] && x[1].key == s.live[0].key
    ensures j < |s.made| && s.made[j].Rotates() && Keys(s.made[j].Candidate()) == Keys(x)
    ensures |s.made[j].Candidate()| > 1 && s.made[j].Candidate()[1].key == s.live[0].key
  {
    hide Prepare, Pow256;
    assert Keys(x)[1] == x[1].key && Keys(s.live)[0] == s.live[0].key;
    assert Keys(x) != origin by { NotOrigin(s, origin); }
    var i :| RootedAt(s, x, i);
    j := i;
    assert Keys(s.made[j].Candidate())[1] == s.made[j].Candidate()[1].key;
  }

  /** A restart from current storage loses only the expired last key of a full ring. */
  lemma RestartLosesOnlyExpired(s: Machine, t: Machine, origin: seq<Hash>, k: nat)
    requires Lineage(s, origin) && Restarts(s, t) && Current(s) && k < |s.live| && s.live[k].key !in Keys(t.live)
    ensures Outlived(s, s.live[k].key)
  {
    hide Prepare, Serialize, Pow256, Load, Outlived, Lineage;
    assert Keys(s.live)[k] == s.live[k].key;
    var r :| Holds(s, r);
    TakesStore(s.live, r);
    var i :| PreparedFor(s, i, r);
    assert |s.live| <= RING_MAX by { LiveFits(s, origin); }
    RotationOutlives(s, i, k);
  }

  /** The host restarts and finds storage that is not current. */
  ghost predicate RestartsStale(s: Machine, t: Machine) {
    Restarts(s, t) && !Current(s)
  }

  /** A key leaves the live ring in one step only as the expired last key of a full ring, or by a stale restart. */
  lemma StepLosesOnlyExpired(s: Machine, t: Machine, origin: seq<Hash>, k: nat)
    requires Lineage(s, origin) && Steps(s, t, origin) && k < |s.live| && s.live[k].key !in Keys(t.live)
    ensures Outlived(s, s.live[k].key) || RestartsStale(s, t)
  {
    hide Prepare, Serialize, Pow256, Load, Commit, Outlived, Lineage, Rooted, Compatible, Current, Restarts;
    assert Keys(s.live)[k] == s.live[k].key;
    if i: nat :| Commits(s, t, i) {
      CommitLosesOnlyExpired(s, t, origin, i, k);
    } else if Current(s) {
      RestartLosesOnlyExpired(s, t, origin, k);
    }
  }

  lemma LiveFits(s: Machine, origin: seq<Hash>)
    requires Lineage(s, origin)
    ensures |s.live| <= RING_MAX
  {
    hide Prepare, Serialize, Pow256, Rooted;
  }

  /** A machine starts with a ring of distinct keys, stored, and nothing prepared. */
  ghost predicate Starts(s: Machine) {
    KeysFit(s.live) && Distinct(Keys(s.live)) && s.store == Serialize(s.live) && s.made == []
  }

  ghost predicate Run(states: seq<Machine>) {
    && states != [] && Starts(states[0])
    && forall i :: 0 <= i < |states| - 1 ==> Steps(states[i], states[i + 1], Keys(states[0].live))
  }

  lemma {:induction false} RunKeepsLineage(states: seq<Machine>, i: nat)
    requires Run(states) && i < |states|
    ensures Lineage(states[i], Keys(states[0].live))
  {
    hide Steps, Prepare, Serialize, Pow256;
    if i > 0 {
      RunKeepsLineage(states, i - 1);
      StepKeepsLineage(states[i - 1], states[i], Keys(states[0].live));
    } else {
      assert StoredRing(states[0], Keys(states[0].live), states[0].live);
    }
  }

  /**
   The ring never loses a usable key: over any run of preparations, commits of any preparation made so
   far, and restarts, under any clocks, a key that was live and no longer is was dropped at some step
   from the end of a full ring, when a rotation made for its keys had found it past its expiry, or by
   a restart that found storage not current.
   */
  lemma {:induction false} UsableKeysStay(states: seq<Machine>, i: nat, j: nat, key: Hash) returns (n: nat)
    requires Run(states) && i < j < |states| && key in Keys(states[i].live) && key !in Keys(states[j].live)
    ensures i <= n < j && (Outlived(states[n], key) || RestartsStale(states[n], states[n + 1]))
    decreases j
  {
    hide Lineage, Steps, Outlived, Starts, RestartsStale;
    if key in Keys(states[j - 1].live) {
      n := j - 1;
      RunKeepsLineage(states, n);
      var k :| 0 <= k < |Keys(states[n].live)| && Keys(states[n].live)[k] == key;
      StepLosesOnlyExpired(states[n], states[j], Keys(states[0].live), k);
    } else {
      n := UsableKeysStay(states, i, j - 1, key);
    }
  }

  /** As documented: what was just prepared and stored is current, and commits. */
  lemma PersistedCommits(s: Machine, t: Machine, origin: seq<Hash>, m: Made)
    requires Lineage(s, origin) && Persists(s, t, origin, m)
    ensures Current(t) && Commit(t.live, t.store) == Ok(m.Candidate())
  {
    hide Prepare, Serialize, Pow256, Compatible, Load, Commit, Current;
    PersistKeeps(s, t, origin, m);
    CandidateFits(m);
    assert Compatible(m.base, m.Candidate()) by { PreparedCommits(m.base, m.key, m.clock); }
    TakesStore(t.live, m.Candidate());
  }

  // --- When storage is current ------------------------------------------------------------------

  /** Which rotation brought a ring its newest key, and so all its keys; -1 for the keys of the start. */
  ghost predicate Ranked(s: Machine, origin: seq<Hash>, x: Ring, k: int) {
    (k == -1 && Keys(x) == origin) || RootedAt(s, x, k)
  }

  lemma RankExists(s: Machine, origin: seq<Hash>, x: Ring) returns (k: int)
    requires Rooted(s, origin, x)
    ensures Ranked(s, origin, x, k)
  {
    hide Prepare;
    if Keys(x) == origin {
      k := -1;
    } else {
      k :| RootedAt(s, x, k);
    }
  }

  lemma RankUnique(s: Machine, origin: seq<Hash>, x: Ring, j: int, k: int)
    requires Lineage(s, origin) && Ranked(s, origin, x, j) && Ranked(s, origin, x, k)
    ensures j == k
  {
    hide Prepare, Pow256;
    if j != -1 { FirstIsNew(s.made[j]); }
    if k != -1 { FirstIsNew(s.made[k]); }
  }

  /** Every preparation was made for a ring older than itself. */
  ghost predicate Older(s: Machine, origin: seq<Hash>, i: nat)
    requires i < |s.made|
  {
    exists k :: k < i && Ranked(s, origin, s.made[i].base, k)
  }

  /** The live ring is no older than the one the last preparation was made for, and storage holds its candidate. */
  ghost predicate Descends(s: Machine, origin: seq<Hash>) {
    && (forall i: nat :: i < |s.made| ==> Older(s, origin, i))
    && (s.made != [] ==>
      var m := s.made[|s.made| - 1];
      && m.Writes() && |m.Candidate()| <= RING_MAX && s.store == Serialize(m.Candidate())
      && exists a, b :: b <= a && Ranked(s, origin, s.live, a) && Ranked(s, origin, m.base, b))
  }

  /** The newest key of a ring is not one of the older keys of a ring ranked no higher. */
  lemma {:induction false} NotAmongOlder(s: Machine, origin: seq<Hash>, x: Ring, k: int, n: nat, y: Ring, a: int)
    requires Lineage(s, origin) && Descends(s, origin)
    requires Ranked(s, origin, x, k) && Ranked(s, origin, y, a) && k <= a && 1 <= n < |x| && y != []
    ensures x[n].key != y[0].key
    decreases k + 1
  {
    hide Prepare, Pow256, Serialize;
    assert Keys(x)[n] == x[n].key && Keys(y)[0] == y[0].key;
    if a != -1 { FirstIsNew(s.made[a]); }
    if k != -1 {
      var m := s.made[k];
      BaseKeys(m, n);
      var i: nat := k;
      assert Older(s, origin, i);
      var j :| j < k && Ranked(s, origin, m.base, j);
      if n > 1 {
        NotAmongOlder(s, origin, m.base, j, n - 1, y, a);
      } else if m.base[0].key == y[0].key {
        SameRank(s, origin, m.base, j, y, a);
      }
    }
  }

  lemma BaseKeys(m: Made, n: nat)
    requires m.Rotates() && |m.base| <= RING_MAX && 1 <= n < |Keys(m.Candidate())|
    ensures n - 1 < |m.base| && Keys(m.Candidate())[n] == m.base[n - 1].key
  {
    hide Prepare;
    PreparedCommits(m.base, m.key, m.clock);
  }

  lemma SameRank(s: Machine, origin: seq<Hash>, x: Ring, j: int, y: Ring, k: int)
    requires Lineage(s, origin) && Ranked(s, origin, x, j) && Ranked(s, origin, y, k) && x != [] && y != []
    requires x[0].key == y[0].key
    ensures j == k
  {
    hide Prepare, Pow256, Lineage;
    NewestDecides(s, origin, x, y);
    RankUnique(s, origin, x, j, k);
  }

  lemma RankStays(s: Machine, t: Machine, origin: seq<Hash>, x: Ring, k: int)
    requires Ranked(s, origin, x, k) && |s.made| <= |t.made| && t.made[..|s.made|] == s.made
    ensures Ranked(t, origin, x, k)
  {
    hide Prepare;
    assert k >= 0 ==> t.made[k] == t.made[..|s.made|][k];
  }

  lemma PersistDescends(s: Machine, t: Machine, origin: seq<Hash>, m: Made)
    requires Lineage(s, origin) && Descends(s, origin) && Persists(s, t, origin, m)
    ensures Descends(t, origin)
  {
    hide Prepare, Serialize, Pow256, Rooted, RootedAt, Ranked;
    assert t.made[..|s.made|] == s.made;
    var a := RankExists(s, origin, s.live);
    assert a < |s.made| by { RankBelow(s, origin, s.live, a); }
    RankStays(s, t, origin, s.live, a);
    forall i: nat | i < |t.made| ensures Older(t, origin, i) {
      if i < |s.made| {
        assert Older(s, origin, i);
        var k :| k < i && Ranked(s, origin, s.made[i].base, k);
        RankStays(s, t, origin, s.made[i].base, k);
        assert t.made[i] == s.made[i];
      } else {
        assert t.made[i].base == s.live;
      }
    }
  }

  lemma RankBelow(s: Machine, origin: seq<Hash>, x: Ring, k: int)
    requires Ranked(s, origin, x, k)
    ensures -1 <= k < |s.made|
  {
    hide Prepare;
  }

  /** The live ring changes for one no older than what the last preparation was made for. */
  lemma LiveDescends(s: Machine, t: Machine, origin: seq<Hash>, b: int, c: int)
    requires Lineage(s, origin) && Descends(s, origin) && t == s.(live := t.live) && s.made != []
    requires Ranked(s, origin, s.made[|s.made| - 1].base, b) && b <= c && Ranked(s, origin, t.live, c)
    ensures Descends(t, origin)
  {
    hide Prepare, Serialize, Pow256, Rooted, RootedAt, Ranked, Lineage;
    RankStays(s, t, origin, t.live, c);
    RankStays(s, t, origin, s.made[|s.made| - 1].base, b);
    forall i: nat | i < |t.made| ensures Older(t, origin, i) {
      assert Older(s, origin, i);
      var k :| k < i && Ranked(s, origin, s.made[i].base, k);
      RankStays(s, t, origin, s.made[i].base, k);
    }
  }

  /** A rotation accepted by a commit is made for the live keys, and so is younger. */
  lemma RotationIsYounger(s: Machine, origin: seq<Hash>, j: nat, a: int)
    requires Lineage(s, origin) && Descends(s, origin) && Ranked(s, origin, s.live, a) && s.live != []
    requires j < |s.made| && s.made[j].Rotates()
    requires |s.made[j].Candidate()| > 1 && s.made[j].Candidate()[1].key == s.live[0].key
    ensures a < j
  {
    hide Prepare, Serialize, Pow256, Rooted, RootedAt, Ranked;
    SecondIsBase(s.made[j]);
    assert Older(s, origin, j);
    var k :| k < j && Ranked(s, origin, s.made[j].base, k);
    SameRank(s, origin, s.made[j].base, k, s.live, a);
  }

  lemma CommitRises(s: Machine, t: Machine, origin: seq<Hash>, i: nat, a: int) returns (c: int)
    requires Lineage(s, origin) && Descends(s, origin) && Commits(s, t, i) && Ranked(s, origin, s.live, a)
    ensures a <= c && Ranked(s, origin, t.live, c)
  {
    hide Prepare, Serialize, Pow256, Load, Commit, Lineage, Descends, Rooted;
    CommitTakes(s, t, origin, i);
    c := RankExists(s, origin, t.live);
    RankBelow(s, origin, t.live, c);
    if s.live == [] {
      EmptyIsOrigin(s, origin, a);
    } else if Keys(t.live) == Keys(s.live) {
      RankUnique(s, origin, t.live, a, c);
    } else {
      assert |t.live| > 1 && t.live[1].key == s.live[0].key;
      var j := BaseOf(s, origin, t.live);
      RotationIsYounger(s, origin, j, a);
      assert RootedAt(s, t.live, j);
      RankUnique(s, origin, t.live, j, c);
    }
  }

  lemma EmptyIsOrigin(s: Machine, origin: seq<Hash>, a: int)
    requires Lineage(s, origin) && Ranked(s, origin, s.live, a) && s.live == []
    ensures a == -1
  {
    hide Prepare, Serialize, Pow256;
    if a != -1 { FirstIsNew(s.made[a]); }
  }

  /** What is stored is no older than the ring the last preparation was made for. */
  lemma StoredRank(s: Machine, origin: seq<Hash>, r: Ring, b: int) returns (c: int)
    requires Lineage(s, origin) && Descends(s, origin) && s.made != [] && StoredRing(s, origin, r)
    requires Ranked(s, origin, s.made[|s.made| - 1].base, b)
    ensures b <= c && Ranked(s, origin, r, c)
  {
    hide Prepare, Serialize, Pow256, Rooted;
    var n := |s.made| - 1;
    var m := s.made[n];
    CandidateFits(m);
    TakesStore(r, r);
    TakesStore(m.Candidate(), m.Candidate());
    if m.Rotates() {
      c := n;
      RankBelow(s, origin, m.base, b);
    } else {
      SameKeys(m);
      c := b;
    }
  }

  lemma StepDescends(s: Machine, t: Machine, origin: seq<Hash>)
    requires Lineage(s, origin) && Descends(s, origin) && Steps(s, t, origin)
    ensures Descends(t, origin)
  {
    hide Prepare, Serialize, Pow256, Load, Commit, Rooted, Ranked, RootedAt, Lineage, Older;
    if m :| Persists(s, t, origin, m) {
      PersistDescends(s, t, origin, m);
    } else if s.made != [] {
      var a, b :| b <= a && Ranked(s, origin, s.live, a) && Ranked(s, origin, s.made[|s.made| - 1].base, b);
      if i: nat :| Commits(s, t, i) {
        var c := CommitRises(s, t, origin, i, a);
        LiveDescends(s, t, origin, b, c);
      } else {
        var r := RestartTakes(s, t, origin);
        var c := StoredRank(s, origin, r, b);
        SameKeysSameRank(s, origin, r, t.live, c);
        LiveDescends(s, t, origin, b, c);
      }
    }
  }

  lemma SameKeysSameRank(s: Machine, origin: seq<Hash>, x: Ring, y: Ring, c: int)
    requires Ranked(s, origin, x, c) && Keys(x) == Keys(y)
    ensures Ranked(s, origin, y, c)
  {
    hide Prepare;
  }

  lemma {:induction false} RunDescends(states: seq<Machine>, i: nat)
    requires Run(states) && i < |states|
    ensures Lineage(states[i], Keys(states[0].live)) && Descends(states[i], Keys(states[0].live))
  {
    hide Steps, Prepare, Serialize, Pow256, Lineage, Older;
    RunKeepsLineage(states, i);
    if i > 0 {
      RunDescends(states, i - 1);
      StepDescends(states[i - 1], states[i], Keys(states[0].live));
    }
  }

  /** The keys storage holds. */
  ghost predicate StoredKey(s: Machine, key: Hash) {
    Load(s.store).Ok? && key in Keys(Load(s.store).value)
  }

  lemma StoredKeys(s: Machine, r: Ring, key: Hash)
    requires KeysFit(r) && s.store == Serialize(r)
    ensures StoredKey(s, key) <==> key in Keys(r)
  {
    hide Serialize, Pow256, Load;
    TakesStore(r, r);
  }

  /** Current storage holds the newest key. */
  lemma CurrentHoldsNewest(s: Machine, origin: seq<Hash>)
    requires Lineage(s, origin) && Current(s) && s.live != []
    ensures StoredKey(s, s.live[0].key)
  {
    hide Prepare, Serialize, Pow256, Rooted, StoredKey;
    assert Keys(s.live)[0] == s.live[0].key;
    var r :| Holds(s, r);
    StoredKeys(s, r, s.live[0].key);
    if i :| PreparedFor(s, i, r) {
      var m := s.made[i];
      assert Keys(m.base)[0] == s.live[0].key;
      if m.Rotates() {
        RotationShape(m.base, m.key, m.clock);
        KeyAt(r, 1);
      } else {
        SameKeys(m);
      }
    }
  }

  /** Storage that holds the newest key, or a live ring without keys, is current. */
  lemma NewestHeldIsCurrent(s: Machine, origin: seq<Hash>)
    requires Lineage(s, origin) && Descends(s, origin) && (s.live == [] || StoredKey(s, s.live[0].key))
    ensures Current(s)
  {
    hide Prepare, Serialize, Pow256, StoredKey, Ranked;
    var r :| StoredRing(s, origin, r);
    if s.live != [] { StoredKeys(s, r, s.live[0].key); }
    if s.made == [] {
      assert Holds(s, r);
    } else {
      var n := |s.made| - 1;
      var m := s.made[n];
      CandidateFits(m);
      TakesStore(r, r);
      TakesStore(m.Candidate(), m.Candidate());
      if s.live == [] {
        EmptyIsCurrent(s, origin);
      } else {
        NewestHeldByLast(s, origin);
      }
      assert PreparedFor(s, n, m.Candidate()) || Keys(m.Candidate()) == Keys(s.live);
      assert Holds(s, m.Candidate());
    }
  }

  lemma EmptyIsCurrent(s: Machine, origin: seq<Hash>)
    requires Lineage(s, origin) && Descends(s, origin) && s.live == [] && s.made != []
    ensures Keys(s.made[|s.made| - 1].base) == Keys(s.live)
  {
    hide Prepare, Serialize, Pow256, Rooted;
    var a, b :| b <= a && Ranked(s, origin, s.live, a) && Ranked(s, origin, s.made[|s.made| - 1].base, b);
    EmptyIsOrigin(s, origin, a);
  }

  lemma NewestHeldByLast(s: Machine, origin: seq<Hash>)
    requires Lineage(s, origin) && Descends(s, origin) && s.live != [] && s.made != []
    requires s.live[0].key in Keys(s.made[|s.made| - 1].Candidate())
    ensures var m := s.made[|s.made| - 1];
      Keys(m.base) == Keys(s.live) || Keys(m.Candidate()) == Keys(s.live)
  {
    hide Prepare, Serialize, Pow256, Rooted, Ranked;
    var i: nat := |s.made| - 1;
    var m := s.made[i];
    var key := s.live[0].key;
    var a, b :| b <= a && Ranked(s, origin, s.live, a) && Ranked(s, origin, m.base, b);
    var n :| 0 <= n < |Keys(m.Candidate())| && Keys(m.Candidate())[n] == key;
    if m.Rotates() {
      CandidateRooted(s, origin, i);
      if n == 0 {
        NewestDecides(s, origin, m.Candidate(), s.live);
      } else {
        BaseKeys(m, n);
        NewestOfBase(s, origin, m.base, b, n - 1, a);
      }
    } else {
      SameKeys(m);
      assert Keys(m.base)[n] == m.base[n].key;
      NewestOfBase(s, origin, m.base, b, n, a);
    }
  }

  lemma NewestOfBase(s: Machine, origin: seq<Hash>, x: Ring, k: int, n: nat, a: int)
    requires Lineage(s, origin) && Descends(s, origin) && s.live != [] && k <= a
    requires Ranked(s, origin, x, k) && Ranked(s, origin, s.live, a) && n < |x| && x[n].key == s.live[0].key
    ensures Keys(x) == Keys(s.live)
  {
    hide Prepare, Serialize, Pow256, Lineage, Descends;
    if n > 0 {
      NotAmongOlder(s, origin, x, k, n, s.live, a);
    } else {
      NewestDecides(s, origin, x, s.live);
    }
  }

  /** In every state of every run, storage is current exactly when it holds the newest key, if there is one. */
  lemma CurrentExactly(states: seq<Machine>, i: nat)
    requires Run(states) && i < |states|
    ensures Load(states[i].store).Ok?
    ensures Current(states[i]) <==> states[i].live == [] || states[i].live[0].key in Keys(Load(states[i].store).value)
  {
    hide Lineage, Descends, Run, Current, Load;
    var s, origin := states[i], Keys(states[0].live);
    RunDescends(states, i);
    Loads(s, origin);
    if Current(s) {
      if s.live != [] { CurrentHoldsNewest(s, origin); }
    } else if s.live == [] || StoredKey(s, s.live[0].key) {
      NewestHeldIsCurrent(s, origin);
    }
  }

  lemma Loads(s: Machine, origin: seq<Hash>)
    requires Lineage(s, origin)
    ensures Load(s.store).Ok?
  {
    hide Load, Pow256, Prepare, Serialize, Rooted;
    var r :| StoredRing(s, origin, r);
    TakesStore(r, r);
  }

  /** A live key that is not the outlived last of a full ring. */
  ghost predicate Usable(s: Machine, key: Hash) {
    key in Keys(s.live) && !Outlived(s, key)
  }

  lemma LiveRooted(s: Machine, origin: seq<Hash>)
    requires Lineage(s, origin)
    ensures Rooted(s, origin, s.live)
  {
  }

  lemma NewestUsable(s: Machine, origin: seq<Hash>)
    requires Lineage(s, origin) && Descends(s, origin) && s.live != []
    ensures Usable(s, s.live[0].key)
  {
    hide Prepare, Serialize, Pow256, Lineage, Descends, Rooted, Ranked;
    KeyAt(s.live, 0);
    if |s.live| == RING_MAX {
      assert Rooted(s, origin, s.live) by { LiveRooted(s, origin); }
      var a := RankExists(s, origin, s.live);
      NotAmongOlder(s, origin, s.live, a, RING_MAX - 1, s.live, a);
    }
  }

  /** In every state of every run, a restart loses a usable key exactly when storage is not current. */
  lemma RestartLosesExactly(states: seq<Machine>, i: nat, t: Machine)
    requires Run(states) && i < |states| && Restarts(states[i], t)
    ensures (exists key :: Usable(states[i], key) && key !in Keys(t.live)) <==> !Current(states[i])
  {
    hide Lineage, Descends, Run, Current, Load, Outlived;
    var s, origin := states[i], Keys(states[0].live);
    RunDescends(states, i);
    CurrentExactly(states, i);
    if Current(s) {
      forall key | Usable(s, key) ensures key in Keys(t.live) {
        var k :| 0 <= k < |Keys(s.live)| && Keys(s.live)[k] == key;
        if s.live[k].key !in Keys(t.live) {
          RestartLosesOnlyExpired(s, t, origin, k);
        }
      }
    } else {
      NewestUsable(s, origin);
    }
  }

  /** What a restart finds stored is all it keeps. */
  lemma RestartKeepsWhatIsStored(r: Ring, key: Hash)
    requires KeysFit(r)
    ensures Load(Serialize(r)).Ok? && (key in Keys(Load(Serialize(r)).value) <==> key in Keys(r))
  {
    hide Serialize, Pow256, Load;
    TakesStore(r, r);
  }

  /**
   Storage must be current: two rotations prepared one after the other, of which the earlier is
   committed while the later is stored, leave a restart without the key that was live.
   */
  lemma StaleStoreLoses(a: Hash, f: Hash, g: Hash)
    requires a != f && a != g && f != g && a < Pow256(32) && f < Pow256(32) && g < Pow256(32)
    ensures
      var c := Clock(Some(INTERVAL_SECS), 0);
      var ring := [Slot(a, Wall(0))];
      var s := Machine(ring, Serialize(ring), []);
      var m, n := Made(ring, f, c), Made(ring, g, c);
      && Starts(s) && m.Writes() && n.Writes()
      && var t := Machine(ring, Serialize(m.Candidate()), [m]);
      var u := Machine(ring, Serialize(n.Candidate()), [m, n]);
      var w := Machine(m.Candidate(), u.store, u.made);
      && Persists(s, t, [a], m) && Persists(t, u, [a], n) && Commits(u, w, 0)
      && f in Keys(w.live) && Load(w.store).Ok? && f !in Keys(Load(w.store).value) && !Current(w)
  {
    hide Serialize, Pow256, Commit, Load;
    var c := Clock(Some(INTERVAL_SECS), 0);
    var ring := [Slot(a, Wall(0))];
    var m, n := Made(ring, f, c), Made(ring, g, c);
    assert m.Candidate() == [Slot(f, Wall(INTERVAL_SECS)), Slot(a, Wall(0))];
    assert n.Candidate() == [Slot(g, Wall(INTERVAL_SECS)), Slot(a, Wall(0))];
    var u := Machine(ring, Serialize(n.Candidate()), [m, n]);
    var w := Machine(m.Candidate(), u.store, u.made);
    TakesStore(ring, m.Candidate());
    TakesStore(ring, n.Candidate());
    assert Keys(w.live)[0] == f;
    NotCurrent(w, n.Candidate(), f);
  }

  /** Storage is not current if it lacks a live key that no preparation for the live ring would drop. */
  lemma NotCurrent(s: Machine, r: Ring, key: Hash)
    requires KeysFit(r) && s.store == Serialize(r) && key in Keys(s.live) && key !in Keys(r)
    requires forall i :: 0 <= i < |s.made| && s.made[i].Writes() ==> Keys(s.made[i].base) != Keys(s.live)
    ensures !Current(s)
  {
    hide Serialize, Prepare, Pow256;
    if x :| Holds(s, x) {
      SerializedIsStored(x);
      SerializedIsStored(r);
    }
  }

  // --- The ring in place ------------------------------------------------------------------------

  datatype Prepared = NothingToDo | Refused | Wrote(length: nat, rotated: bool)

  class RatchetRing {
    const slots: array<Slot>
    var len: nat

    ghost predicate Valid()
      reads this, slots
    {
      len <= slots.Length == RING_MAX
    }

    ghost function Contents(): Ring
      requires Valid()
      reads this, slots
    {
      slots[..len]
    }

    constructor ()
      ensures Valid() && Contents() == [] && fresh(slots)
    {
      slots := new Slot[RING_MAX](_ => Slot(0, Unknown));
      len := 0;
    }

    method AnyUnanchored(c: Clock) returns (any: bool)
      requires Valid()
      ensures any == NeedsAnchor(Contents(), c)
    {
      for i := 0 to len
        invariant forall k :: 0 <= k < i ==> Comparable(slots[k].age, c)
      {
        if !Comparable(slots[i].age, c) {
          assert !Comparable(Contents()[i].age, c);
          return true;
        }
      }
      return false;
    }

    method NextAction(c: Clock) returns (a: Action)
      requires Valid()
      ensures a == RotationAction(Contents(), c)
    {
      if len == 0 { return Rotate; }
      var unanchored := AnyUnanchored(c);
      if !ElapsedAtLeast(slots[0].age, c, INTERVAL_SECS) { return if unanchored then PersistMetadata else Unchanged; }
      if len < RING_MAX || Expired(slots[len - 1].age, c) { return Rotate; }
      return if unanchored then PersistMetadata else FullRingProtected;
    }

    /** `prepare_rotation_into`: the candidate's blob at the front of the caller's buffer; the ring itself stays. */
    method PrepareInto(fresh_: Hash, c: Clock, out: array<byte>) returns (r: Result<Prepared>)
      requires Valid()
      modifies out
      ensures Valid() && Contents() == old(Contents())
      ensures match Prepare(Contents(), fresh_, c)
        case NoChange => r == Ok(NothingToDo) && out[..] == old(out[..])
        case Protected => r == Ok(Refused) && out[..] == old(out[..])
        case Metadata(s) => Written(out[..], s, r, false)
        case Rotated(s) => Written(out[..], s, r, true)
    {
      hide Serialize, RotationAction, Reanchored;
      var action := NextAction(c);
      if action == Unchanged { return Ok(NothingToDo); }
      if action == FullRingProtected { return Ok(Refused); }
      var rotating := action == Rotate;
      var n := if rotating then Min(len + 1, RING_MAX) else len;
      ghost var s := Prepare(Contents(), fresh_, c).candidate;
      CandidateShape(Contents(), fresh_, c);
      if out.Length < 2 + n * SLOT_LEN { return Err(OutputTooSmall); }
      WriteCandidate(fresh_, c, rotating, n, s, out);
      r := Ok(Wrote(2 + n * SLOT_LEN, rotating));
    }

    method WriteCandidate(fresh_: Hash, c: Clock, rotating: bool, n: nat, ghost s: Ring, out: array<byte>)
      requires Valid() && |s| == n <= RING_MAX && 2 + n * SLOT_LEN <= out.Length
      requires n <= len + (if rotating then 1 else 0)
      requires forall i :: 0 <= i < n ==> s[i] == CandidateSlot(Contents(), fresh_, c, rotating, i)
      modifies out
      ensures out[..2 + n * SLOT_LEN] == Serialize(s)
    {
      hide SlotBytes, SlotsBytes, Serialize, Effective;
      out[0], out[1] := VERSION, n;
      NoSlots();
      assert s[..0] == [];
      for i := 0 to n
        invariant out[..2] == [VERSION, n]
        invariant out[2..2 + i * SLOT_LEN] == SlotsBytes(s[..i])
      {
        Fits(n, i);
        var slot := CandidateSlot(slots[..len], fresh_, c, rotating, i);
        SlotLength(slot);
        CopyInto(out, 2 + i * SLOT_LEN, SlotBytes(slot));
        AppendSlot(s, i);
      }
      assert s[..n] == s;
      IsSerialized(s);
      assert out[..2 + n * SLOT_LEN] == out[..2] + out[2..2 + n * SLOT_LEN];
    }

    /** `commit_prepared_blob`: a refused blob changes nothing. */
    method CommitBlob(blob: Bytes) returns (r: Result<()>)
      requires Valid()
      modifies this`len, slots
      ensures Valid()
      ensures match Commit(old(Contents()), blob)
        case Ok(s) => r == Ok(()) && Contents() == s
        case Err(f) => r == Err(f) && Contents() == old(Contents())
    {
      hide Shaped, Compatible, Stored;
      if !Shaped(blob, false) { return Err(InvalidBlob); }
      ShapeBound(blob, false);
      var s := Stored(blob, false);
      if !Compatible(slots[..len], s) { return Err(InvalidCandidate); }
      Replace(s);
      r := Ok(());
    }

    /** `load_persisted`. */
    method LoadBlob(blob: Bytes) returns (r: Result<()>)
      requires Valid()
      modifies this`len, slots
      ensures Valid()
      ensures match Load(blob)
        case Ok(s) => r == Ok(()) && Contents() == s
        case Err(f) => r == Err(f) && Contents() == old(Contents())
    {
      hide Shaped, Stored;
      if !Shaped(blob, true) { return Err(InvalidBlob); }
      ShapeBound(blob, true);
      Replace(Stored(blob, true));
      r := Ok(());
    }

    method Replace(s: Ring)
      requires Valid() && |s| <= RING_MAX
      modifies this`len, slots
      ensures Valid() && Contents() == s
    {
      len := |s|;
      for i := 0 to |s|
        modifies slots
        invariant forall k :: 0 <= k < i ==> slots[k] == s[k]
      {
        slots[i] := s[i];
      }
    }
  }

  /** The slot a candidate has at `i`: the new key in front of the old ones, their ages brought up to date. */
  function CandidateSlot(r: Ring, fresh_: Hash, c: Clock, rotating: bool, i: nat): Slot
    requires i < |r| + (if rotating then 1 else 0)
  {
    if rotating && i == 0 then Slot(fresh_, c.Anchor())
    else
      var j := if rotating then i - 1 else i;
      Slot(r[j].key, Effective(r[j].age, c))
  }

  lemma CandidateShape(r: Ring, fresh_: Hash, c: Clock)
    requires |r| <= RING_MAX && RotationAction(r, c) in {Rotate, PersistMetadata}
    ensures var rotating := RotationAction(r, c) == Rotate;
      var p := Prepare(r, fresh_, c);
      && (if rotating then p.Rotated? else p.Metadata?)
      && |p.candidate| == (if rotating then Min(|r| + 1, RING_MAX) else |r|)
      && forall i :: 0 <= i < |p.candidate| ==> p.candidate[i] == CandidateSlot(r, fresh_, c, rotating, i)
  {
    hide Effective;
  }

  /** The buffer starts with the blob of `s`, or was too small for it. */
  ghost predicate Written(out: Bytes, s: Ring, r: Result<Prepared>, rotated: bool) {
    && |s| <= RING_MAX
    && if |out| < 2 + |s| * SLOT_LEN then r == Err(OutputTooSmall)
       else r == Ok(Wrote(2 + |s| * SLOT_LEN, rotated)) && out[..2 + |s| * SLOT_LEN] == Serialize(s)
  }

  lemma ShapeBound(blob: Bytes, legacy: bool)
    requires Shaped(blob, legacy)
    ensures |blob| >= 2 && blob[1] <= RING_MAX && Shaped(blob, true)
    ensures |Stored(blob, !legacy)| <= RING_MAX && |Stored(blob, legacy)| <= RING_MAX
  {
  }

  lemma IsSerialized(r: Ring)
    requires |r| <= RING_MAX
    ensures Serialize(r) == [VERSION, |r|] + SlotsBytes(r)
  {
  }

  lemma NoSlots()
    ensures SlotsBytes([]) == []
  {
  }

  lemma AppendSlot(r: Ring, i: nat)
    requires i < |r|
    ensures SlotsBytes(r[..i + 1]) == SlotsBytes(r[..i]) + SlotBytes(r[i])
  {
    assert r[..i + 1][..i] == r[..i];
  }

  lemma Fits(n: nat, i: nat)
    requires i < n
    ensures (i + 1) * SLOT_LEN <= n * SLOT_LEN && (i + 1) * SLOT_LEN == i * SLOT_LEN + SLOT_LEN
  {
  }
}
