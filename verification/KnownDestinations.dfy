/**
 The table of known delivery destinations: a bounded map from destination to public key that forgets
 its least recently learned or recalled entry, with a persistent form.
 */
module KnownDestinations {
  import opened Base

  const HEADER_LEN: nat := 7
  const ENTRY_LEN: nat := 88
  const COUNT_LIMIT: nat := 65536
  /** "RKD1" and the version. */
  const MAGIC: Bytes := [82, 75, 68, 49]
  const VERSION: byte := 1

  datatype Known = Known(destination: Hash, key: Hash, lastSeen: u64)

  datatype Failure =
    | EmptyCapacity | KeyConflict | OutputTooSmall | InvalidHeader | UnsupportedVersion
    | CountTooLarge | InvalidLength | DestinationHashMismatch | DuplicateDestination

  datatype Result<+T> = Ok(value: T) | Err(error: Failure)

  // --- The table as a sequence ------------------------------------------------------------------

  function Find(s: seq<Known>, destination: Hash): (i: nat)
    ensures i <= |s| && (i < |s| ==> s[i].destination == destination)
    ensures forall k :: 0 <= k < i ==> s[k].destination != destination
  {
    First(s, (e: Known) => e.destination == destination)
  }

  /** The latest recency in the table; zero when it is empty. */
  function Top(s: seq<Known>): (t: u64)
    ensures forall i :: 0 <= i < |s| ==> s[i].lastSeen <= t
    ensures s == [] ==> t == 0
    ensures s != [] ==> exists i :: 0 <= i < |s| && s[i].lastSeen == t
  {
    if s == [] then 0
    else
      var rest, x := Top(s[..|s| - 1]), s[|s| - 1].lastSeen;
      if |s| > 1 && rest >= x then
        assert forall i :: 0 <= i < |s| - 1 ==> s[i] == s[..|s| - 1][i];
        rest
      else
        assert forall i :: 0 <= i < |s| - 1 ==> s[i] == s[..|s| - 1][i];
        x
  }

  /** `next_recency`. */
  function NextRecency(s: seq<Known>): u64 {
    SatAdd(Top(s), 1)
  }

  /** First entry of least recency. */
  function Oldest(s: seq<Known>): (i: nat)
    requires s != []
    ensures i < |s| && forall k :: 0 <= k < |s| ==> s[i].lastSeen <= s[k].lastSeen
  {
    if |s| == 1 then 0
    else
      var init := s[..|s| - 1];
      var rest := Oldest(init);
      assert forall k :: 0 <= k < |s| - 1 ==> s[k] == init[k];
      if s[|s| - 1].lastSeen < s[rest].lastSeen then |s| - 1 else rest
  }

  /** `recall`. */
  function Recall(s: seq<Known>, destination: Hash): (seq<Known>, Option<Hash>) {
    var i := Find(s, destination);
    if i < |s| then (s[i := s[i].(lastSeen := NextRecency(s))], Some(s[i].key)) else (s, None)
  }

  function Entry(s: seq<Known>, destination: Hash, key: Hash, now: u64): Known {
    Known(destination, key, if now >= NextRecency(s) then now else NextRecency(s))
  }

  /** `learn`, over a capacity and the function that derives a destination from its key. */
  function Learn(s: seq<Known>, capacity: nat, derive: Hash -> Hash, destination: Hash, key: Hash,
                 now: u64): (r: (seq<Known>, Result<bool>))
    ensures r.1.Err? || r.1 == Ok(false) ==> r.0 == s
  {
    if capacity == 0 then (s, Err(EmptyCapacity))
    else
      var i := Find(s, destination);
      if i < |s| then (s, if s[i].key == key then Ok(false) else Err(KeyConflict))
      else if derive(key) != destination then (s, Err(DestinationHashMismatch))
      else
        var e := Entry(s, destination, key, now);
        if |s| < capacity || s == [] then (s + [e], Ok(true)) else (s[Oldest(s) := e], Ok(true))
  }

  /** Destinations are unique and follow from their keys. */
  ghost predicate Sound(s: seq<Known>, derive: Hash -> Hash) {
    && (forall i, j :: 0 <= i < j < |s| ==> s[i].destination != s[j].destination)
    && (forall i :: 0 <= i < |s| ==> derive(s[i].key) == s[i].destination)
  }

  lemma LearnIsSound(s: seq<Known>, capacity: nat, derive: Hash -> Hash, destination: Hash, key: Hash, now: u64)
    requires Sound(s, derive) && |s| <= capacity
    ensures Sound(Learn(s, capacity, derive, destination, key, now).0, derive)
    ensures |Learn(s, capacity, derive, destination, key, now).0| <= capacity
  {
    hide Oldest, Top;
    if s != [] {
      OldestWithin(s);
    }
  }

  lemma OldestWithin(s: seq<Known>)
    requires s != []
    ensures Oldest(s) < |s|
  {
  }

  lemma RecallIsSound(s: seq<Known>, derive: Hash -> Hash, destination: Hash)
    requires Sound(s, derive)
    ensures Sound(Recall(s, destination).0, derive) && |Recall(s, destination).0| == |s|
  {
  }

  /** A retained key is never overwritten. */
  lemma RetainedKeyStays(s: seq<Known>, capacity: nat, derive: Hash -> Hash, destination: Hash, key: Hash, now: u64,
                         i: nat, j: nat)
    requires Sound(s, derive) && |s| <= capacity && i < |s|
    requires var t := Learn(s, capacity, derive, destination, key, now).0;
      j < |t| && t[j].destination == s[i].destination
    ensures Learn(s, capacity, derive, destination, key, now).0[j].key == s[i].key
  {
    hide Oldest, Top;
    if s != [] {
      OldestWithin(s);
    }
  }

  // --- Refinement of an LRU map -----------------------------------------------------------------

  /** The entries of the table, least recent first, no two equally recent. */
  ghost predicate IsLru(s: seq<Known>, l: seq<Known>) {
    && multiset(s) == multiset(l)
    && forall i, j :: 0 <= i < j < |l| ==> l[i].lastSeen < l[j].lastSeen
  }

  function Pairs(l: seq<Known>): (p: seq<(Hash, Hash)>)
    ensures |p| == |l| && forall i :: 0 <= i < |l| ==> p[i] == (l[i].destination, l[i].key)
  {
    seq(|l|, i requires 0 <= i < |l| => (l[i].destination, l[i].key))
  }

  /** Reference: an LRU list of destinations and keys, least recent first. */
  function LruFind(l: seq<(Hash, Hash)>, destination: Hash): (i: nat)
    ensures i <= |l| && (i < |l| ==> l[i].0 == destination)
    ensures forall k :: 0 <= k < i ==> l[k].0 != destination
  {
    First(l, (p: (Hash, Hash)) => p.0 == destination)
  }

  function LruRecall(l: seq<(Hash, Hash)>, destination: Hash): seq<(Hash, Hash)> {
    var i := LruFind(l, destination);
    if i < |l| then l[..i] + l[i + 1..] + [l[i]] else l
  }

  function LruLearn(l: seq<(Hash, Hash)>, capacity: nat, derive: Hash -> Hash, destination: Hash,
                    key: Hash): seq<(Hash, Hash)> {
    if capacity == 0 || LruFind(l, destination) < |l| || derive(key) != destination then l
    else (if |l| < capacity || l == [] then l else l[1..]) + [(destination, key)]
  }

  lemma UpdateCount(s: seq<Known>, i: nat, x: Known)
    requires i < |s|
    ensures multiset(s[i := x]) == multiset(s) - multiset{s[i]} + multiset{x}
  {
    assert s == s[..i] + [s[i]] + s[i + 1..];
    assert s[i := x] == s[..i] + [x] + s[i + 1..];
  }

  lemma DropCount(l: seq<Known>, i: nat)
    requires i < |l|
    ensures multiset(l[..i] + l[i + 1..]) == multiset(l) - multiset{l[i]}
  {
    assert l == l[..i] + [l[i]] + l[i + 1..];
  }

  lemma SameMembers(s: seq<Known>, l: seq<Known>)
    requires multiset(s) == multiset(l)
    ensures |s| == |l| && (forall e :: e in s <==> e in l)
  {
    assert forall e :: e in s <==> e in multiset(s);
    assert forall e :: e in l <==> e in multiset(l);
    assert |s| == |multiset(s)| && |l| == |multiset(l)|;
  }

  /** Replacing an entry by a more recent one than all moves it to the end. */
  lemma MovesToEnd(s: seq<Known>, l: seq<Known>, i: nat, k: nat, x: Known)
    requires IsLru(s, l) && i < |s| && k < |l| && l[k] == s[i] && x.lastSeen > Top(s)
    ensures IsLru(s[i := x], l[..k] + l[k + 1..] + [x])
  {
    hide Top;
    UpdateCount(s, i, x);
    DropCount(l, k);
    AllBelowTop(s, l);
    var rest := l[..k] + l[k + 1..];
    assert multiset(rest + [x]) == multiset(rest) + multiset{x};
    StaysSorted(l, k, x);
  }

  lemma StaysSorted(l: seq<Known>, k: nat, x: Known)
    requires k < |l| && (forall i, j :: 0 <= i < j < |l| ==> l[i].lastSeen < l[j].lastSeen)
    requires forall i :: 0 <= i < |l| ==> l[i].lastSeen < x.lastSeen
    ensures var r := l[..k] + l[k + 1..] + [x]; forall i, j :: 0 <= i < j < |r| ==> r[i].lastSeen < r[j].lastSeen
  {
  }

  lemma AllBelowTop(s: seq<Known>, l: seq<Known>)
    requires multiset(s) == multiset(l)
    ensures forall i :: 0 <= i < |l| ==> l[i].lastSeen <= Top(s)
  {
    SameMembers(s, l);
    forall i | 0 <= i < |l| ensures l[i].lastSeen <= Top(s) {
      assert l[i] in s;
    }
  }

  lemma SameFind(s: seq<Known>, l: seq<Known>, derive: Hash -> Hash, destination: Hash)
    requires IsLru(s, l) && Sound(s, derive)
    ensures Find(s, destination) < |s| <==> LruFind(Pairs(l), destination) < |l|
    ensures Find(s, destination) < |s| ==> l[LruFind(Pairs(l), destination)] == s[Find(s, destination)]
  {
    SameMembers(s, l);
    var i, k := Find(s, destination), LruFind(Pairs(l), destination);
    if i < |s| {
      assert s[i] in l;
      var n :| 0 <= n < |l| && l[n] == s[i];
      assert Pairs(l)[n].0 == destination;
      assert Pairs(l)[k].0 == l[k].destination == destination;
      assert l[k] in s;
    }
    if k < |l| {
      assert Pairs(l)[k].0 == l[k].destination == destination;
      assert l[k] in s;
    }
  }

  lemma RecallRefines(s: seq<Known>, l: seq<Known>, derive: Hash -> Hash, destination: Hash) returns (l': seq<Known>)
    requires IsLru(s, l) && Sound(s, derive) && Top(s) < U64_MAX
    ensures IsLru(Recall(s, destination).0, l') && Pairs(l') == LruRecall(Pairs(l), destination)
  {
    hide Top;
    SameMembers(s, l);
    SameFind(s, l, derive, destination);
    var i, k := Find(s, destination), LruFind(Pairs(l), destination);
    l' := l;
    if i < |s| {
      var x := s[i].(lastSeen := NextRecency(s));
      l' := l[..k] + l[k + 1..] + [x];
      MovesToEnd(s, l, i, k, x);
      assert Pairs(l') == Pairs(l)[..k] + Pairs(l)[k + 1..] + [Pairs(l)[k]];
    }
  }

  lemma LearnRefines(s: seq<Known>, l: seq<Known>, capacity: nat, derive: Hash -> Hash, destination: Hash, key: Hash,
                     now: u64)
      returns (l': seq<Known>)
    requires IsLru(s, l) && Sound(s, derive) && |s| <= capacity && Top(s) < U64_MAX
    ensures IsLru(Learn(s, capacity, derive, destination, key, now).0, l')
    ensures Pairs(l') == LruLearn(Pairs(l), capacity, derive, destination, key)
  {
    hide Top, Oldest;
    SameMembers(s, l);
    SameFind(s, l, derive, destination);
    l' := l;
    if capacity != 0 && Find(s, destination) == |s| && derive(key) == destination {
      var e := Entry(s, destination, key, now);
      AllBelowTop(s, l);
      if |s| < capacity || s == [] {
        l' := l + [e];
        assert multiset(s + [e]) == multiset(s) + multiset{e} && multiset(l + [e]) == multiset(l) + multiset{e};
        assert Pairs(l') == Pairs(l) + [(destination, key)];
      } else {
        OldestIsFirst(s, l);
        l' := l[..0] + l[1..] + [e];
        MovesToEnd(s, l, Oldest(s), 0, e);
        assert Pairs(l') == Pairs(l)[1..] + [(destination, key)];
      }
    }
  }

  /** The entry the table evicts is the least recent one. */
  lemma OldestIsFirst(s: seq<Known>, l: seq<Known>)
    requires IsLru(s, l) && s != []
    ensures |l| > 0 && Oldest(s) < |s| && s[Oldest(s)] == l[0]
  {
    SameMembers(s, l);
    var o := Oldest(s);
    assert s[o] in l && l[0] in s;
    var n :| 0 <= n < |l| && l[n] == s[o];
    var m :| 0 <= m < |s| && s[m] == l[0];
  }

  datatype Op = DoLearn(destination: Hash, key: Hash, now: u64) | DoRecall(destination: Hash)

  function Apply(s: seq<Known>, capacity: nat, derive: Hash -> Hash, op: Op): seq<Known> {
    match op
    case DoLearn(d, k, now) => Learn(s, capacity, derive, d, k, now).0
    case DoRecall(d) => Recall(s, d).0
  }

  function LruApply(l: seq<(Hash, Hash)>, capacity: nat, derive: Hash -> Hash, op: Op): seq<(Hash, Hash)> {
    match op
    case DoLearn(d, k, _) => LruLearn(l, capacity, derive, d, k)
    case DoRecall(d) => LruRecall(l, d)
  }

  /** The table after these operations on an empty one. */
  function Table(ops: seq<Op>, capacity: nat, derive: Hash -> Hash): seq<Known> {
    if ops == [] then [] else Apply(Table(ops[..|ops| - 1], capacity, derive), capacity, derive, ops[|ops| - 1])
  }

  function LruTable(ops: seq<Op>, capacity: nat, derive: Hash -> Hash): seq<(Hash, Hash)> {
    if ops == [] then [] else LruApply(LruTable(ops[..|ops| - 1], capacity, derive), capacity, derive, ops[|ops| - 1])
  }

  /**
   The table refines an LRU map: after any operations on an empty table, as long as no recency has
   reached the largest number, it holds what the LRU list holds, in the same order of recency.
   */
  lemma {:induction false} RefinesLru(ops: seq<Op>, capacity: nat, derive: Hash -> Hash) returns (l: seq<Known>)
    requires forall n :: 0 <= n < |ops| ==> Top(Table(ops[..n], capacity, derive)) < U64_MAX
    ensures Sound(Table(ops, capacity, derive), derive) && |Table(ops, capacity, derive)| <= capacity
    ensures IsLru(Table(ops, capacity, derive), l) && Pairs(l) == LruTable(ops, capacity, derive)
  {
    hide Top, IsLru, Sound, Learn, Recall, LruLearn, LruRecall;
    if ops == [] {
      l := [];
      EmptyTable(derive);
    } else {
      var init, op := ops[..|ops| - 1], ops[|ops| - 1];
      var s := Table(init, capacity, derive);
      assert forall n :: 0 <= n < |init| ==> init[..n] == ops[..n];
      var l0 := RefinesLru(init, capacity, derive);
      assert Top(s) < U64_MAX;
      match op {
        case DoLearn(d, k, now) =>
          LearnIsSound(s, capacity, derive, d, k, now);
          l := LearnRefines(s, l0, capacity, derive, d, k, now);
        case DoRecall(d) =>
          RecallIsSound(s, derive, d);
          l := RecallRefines(s, l0, derive, d);
      }
    }
  }

  // --- What the table answers -------------------------------------------------------------------

  /** A destination is known under this key. */
  ghost predicate Knows(l: seq<(Hash, Hash)>, destination: Hash, key: Hash) {
    (destination, key) in l
  }

  ghost predicate Unknown(l: seq<(Hash, Hash)>, destination: Hash) {
    forall k :: !Knows(l, destination, k)
  }

  /** The one key the list has for a destination, found. */
  lemma FoundKey(s: seq<Known>, l: seq<Known>, derive: Hash -> Hash, destination: Hash)
    requires IsLru(s, l) && Sound(s, derive)
    ensures var i := Find(s, destination);
      && (i == |s| <==> Unknown(Pairs(l), destination))
      && (i < |s| ==> forall k :: Knows(Pairs(l), destination, k) <==> k == s[i].key)
  {
    hide Top;
    SameMembers(s, l);
    var i := Find(s, destination);
    forall k | Knows(Pairs(l), destination, k) ensures i < |s| && s[i].key == k {
      var n :| 0 <= n < |l| && Pairs(l)[n] == (destination, k);
      assert l[n] in s;
      var j :| 0 <= j < |s| && s[j] == l[n];
    }
    if i < |s| {
      assert s[i] in l;
      var n :| 0 <= n < |l| && l[n] == s[i];
      assert Pairs(l)[n] == (destination, s[i].key);
      assert Knows(Pairs(l), destination, s[i].key);
    }
  }

  /** A recall answers with a key exactly if the LRU list has that key for the destination, which it derives. */
  lemma RecallAnswers(s: seq<Known>, l: seq<Known>, derive: Hash -> Hash, destination: Hash, key: Hash)
    requires IsLru(s, l) && Sound(s, derive)
    ensures Recall(s, destination).1 == Some(key) <==> Knows(Pairs(l), destination, key)
    ensures Recall(s, destination).1 == Some(key) ==> derive(key) == destination
    ensures Recall(s, destination).1 == None <==> Unknown(Pairs(l), destination)
  {
    hide IsLru;
    FoundKey(s, l, derive, destination);
  }

  /** What learning answers, by what the LRU list has for the destination. */
  lemma LearnAnswers(s: seq<Known>, l: seq<Known>, capacity: nat, derive: Hash -> Hash, destination: Hash, key: Hash,
                     now: u64)
    requires IsLru(s, l) && Sound(s, derive)
    ensures var r := Learn(s, capacity, derive, destination, key, now).1;
      && (r == Err(EmptyCapacity) <==> capacity == 0)
      && (r == Ok(true) <==> capacity > 0 && Unknown(Pairs(l), destination) && derive(key) == destination)
      && (r == Ok(false) <==> capacity > 0 && Knows(Pairs(l), destination, key))
      && (r == Err(KeyConflict) <==> capacity > 0 && exists k :: k != key && Knows(Pairs(l), destination, k))
      && (r == Err(DestinationHashMismatch) <==>
            capacity > 0 && Unknown(Pairs(l), destination) && derive(key) != destination)
  {
    hide IsLru, Top, Oldest, Unknown, Knows;
    FoundKey(s, l, derive, destination);
    var i := Find(s, destination);
    if i < |s| {
      assert Knows(Pairs(l), destination, s[i].key);
      assert !Unknown(Pairs(l), destination);
    } else {
      assert forall k :: !Knows(Pairs(l), destination, k) by { Nowhere(Pairs(l), destination); }
    }
  }

  lemma Nowhere(l: seq<(Hash, Hash)>, destination: Hash)
    requires Unknown(l, destination)
    ensures forall k :: !Knows(l, destination, k)
  {
  }

  /**
   After any operations on an empty table a recall answers with a key exactly if the LRU list has it, and
   then the key derives the destination.
   */
  lemma RecallsWhatIsRetained(ops: seq<Op>, capacity: nat, derive: Hash -> Hash, destination: Hash, key: Hash)
    requires forall n :: 0 <= n < |ops| ==> Top(Table(ops[..n], capacity, derive)) < U64_MAX
    ensures Recall(Table(ops, capacity, derive), destination).1 == Some(key) <==>
      Knows(LruTable(ops, capacity, derive), destination, key)
    ensures Knows(LruTable(ops, capacity, derive), destination, key) ==> derive(key) == destination
  {
    hide Top, IsLru, Sound, Recall, Table, LruTable;
    var l := RefinesLru(ops, capacity, derive);
    RecallAnswers(Table(ops, capacity, derive), l, derive, destination, key);
  }

  ghost predicate Retains(s: seq<Known>, destination: Hash) {
    Find(s, destination) < |s|
  }

  lemma {:induction false} TableIsSound(ops: seq<Op>, capacity: nat, derive: Hash -> Hash)
    ensures Sound(Table(ops, capacity, derive), derive) && |Table(ops, capacity, derive)| <= capacity
  {
    hide Sound, Learn, Recall;
    if ops == [] {
      EmptyTable(derive);
    } else {
      var init, op := ops[..|ops| - 1], ops[|ops| - 1];
      TableIsSound(init, capacity, derive);
      var s := Table(init, capacity, derive);
      match op {
        case DoLearn(d, k, now) => LearnIsSound(s, capacity, derive, d, k, now);
        case DoRecall(d) => RecallIsSound(s, derive, d);
      }
    }
  }

  /** A destination that stays keeps its key through an operation. */
  lemma StaysKeyed(s: seq<Known>, capacity: nat, derive: Hash -> Hash, op: Op, destination: Hash)
    requires Sound(s, derive) && |s| <= capacity && Retains(s, destination)
    requires Retains(Apply(s, capacity, derive, op), destination)
    ensures var t := Apply(s, capacity, derive, op);
      Recall(t, destination).1 == Recall(s, destination).1
  {
    hide Top, Oldest;
    var t := Apply(s, capacity, derive, op);
    var i, j := Find(s, destination), Find(t, destination);
    match op {
      case DoLearn(d, k, now) => RetainedKeyStays(s, capacity, derive, d, k, now, i, j);
      case DoRecall(d) =>
        assert t[i].destination == s[i].destination && t[i].key == s[i].key;
    }
  }

  /** A key that was learned is what is recalled, for as long as its destination has not been evicted. */
  lemma {:induction false} LearnedIsRecalled(ops: seq<Op>, capacity: nat, derive: Hash -> Hash, n: nat)
    requires n < |ops| && ops[n].DoLearn?
    requires var op := ops[n]; Learn(Table(ops[..n], capacity, derive), capacity, derive, op.destination, op.key,
                                     op.now).1 == Ok(true)
    requires forall m :: n < m <= |ops| ==> Retains(Table(ops[..m], capacity, derive), ops[n].destination)
    ensures Recall(Table(ops, capacity, derive), ops[n].destination).1 == Some(ops[n].key)
  {
    hide Recall, Learn, Sound, Retains;
    var last := |ops| - 1;
    var init := ops[..last];
    var s := Table(init, capacity, derive);
    TableIsSound(init, capacity, derive);
    assert ops[..|ops|] == ops;
    if n == last {
      LearnedNow(s, capacity, derive, ops[n].destination, ops[n].key, ops[n].now);
    } else {
      assert init[..n] == ops[..n] && init[n] == ops[n];
      assert forall m :: n < m <= |init| ==> init[..m] == ops[..m];
      assert Retains(Table(ops[..last], capacity, derive), ops[n].destination);
      hide Apply;
      LearnedIsRecalled(init, capacity, derive, n);
      StaysKeyed(s, capacity, derive, ops[last], ops[n].destination);
    }
  }

  lemma LearnedNow(s: seq<Known>, capacity: nat, derive: Hash -> Hash, destination: Hash, key: Hash, now: u64)
    requires Sound(s, derive) && |s| <= capacity
    requires Learn(s, capacity, derive, destination, key, now).1 == Ok(true)
    ensures Recall(Learn(s, capacity, derive, destination, key, now).0, destination).1 == Some(key)
    ensures forall e :: e in Learn(s, capacity, derive, destination, key, now).0 && e.destination == destination ==>
      e.lastSeen >= now
  {
    hide Top, Oldest;
    var t := Learn(s, capacity, derive, destination, key, now).0;
    var e := Entry(s, destination, key, now);
    var k := |s|;
    if s != [] && |s| == capacity {
      OldestWithin(s);
      k := Oldest(s);
    }
    assert k < |t| && t[k] == e;
    assert forall j :: 0 <= j < |t| && t[j].destination == destination ==> t[j].key == key;
    assert Find(t, destination) <= k;
  }

  lemma EmptyTable(derive: Hash -> Hash)
    ensures IsLru([], []) && Sound([], derive)
  {
  }

  // --- Persistent form --------------------------------------------------------------------------

  function EntryBytes(e: Known): (b: Bytes)
    ensures |b| == ENTRY_LEN
  {
    ToBe(e.destination, 16) + ToBe(e.key, 64) + ToBe(e.lastSeen, 8)
  }

  function EntriesBytes(s: seq<Known>): (b: Bytes)
    ensures |b| == |s| * ENTRY_LEN
  {
    if s == [] then [] else EntriesBytes(s[..|s| - 1]) + EntryBytes(s[|s| - 1])
  }

  /** `export_into`: the count field keeps only sixteen bits. */
  function Header(count: nat): (b: Bytes)
    ensures |b| == HEADER_LEN
  {
    MAGIC + [VERSION] + ToBe(count % COUNT_LIMIT, 2)
  }

  function Blob(s: seq<Known>): Bytes {
    Header(|s|) + EntriesBytes(s)
  }

  /** `decode_entry`: a recency from the future counts as now. */
  function Decode(b: Bytes, now: u64): Known
    requires |b| == ENTRY_LEN
  {
    Known(FromBe(b[..16]), FromBe(b[16..80]), Min(FromBe(b[80..]), now))
  }

  function Piece(blob: Bytes, i: nat): (b: Bytes)
    requires HEADER_LEN + (i + 1) * ENTRY_LEN <= |blob|
    ensures |b| == ENTRY_LEN
  {
    blob[HEADER_LEN + i * ENTRY_LEN..HEADER_LEN + (i + 1) * ENTRY_LEN]
  }

  function Decoded(blob: Bytes, count: nat, now: u64): (s: seq<Known>)
    requires |blob| == HEADER_LEN + count * ENTRY_LEN
    ensures |s| == count
  {
    seq(count, i requires 0 <= i < count => Within(count, i); Decode(Piece(blob, i), now))
  }

  lemma Within(count: nat, i: nat)
    requires i < count
    ensures (i + 1) * ENTRY_LEN <= count * ENTRY_LEN
  {
  }

  /** The first fault of the entries from `i` on, checked one by one against those before. */
  function Fault(s: seq<Known>, derive: Hash -> Hash, i: nat): Option<Failure>
    requires i <= |s|
    decreases |s| - i
  {
    if i == |s| then None
    else if derive(s[i].key) != s[i].destination then Some(DestinationHashMismatch)
    else if Find(s[..i], s[i].destination) < i then Some(DuplicateDestination)
    else Fault(s, derive, i + 1)
  }

  /** `import`. */
  function Import(blob: Bytes, capacity: nat, derive: Hash -> Hash, now: u64): Result<seq<Known>> {
    if |blob| < HEADER_LEN || blob[..4] != MAGIC then Err(InvalidHeader)
    else if blob[4] != VERSION then Err(UnsupportedVersion)
    else
      var count := FromBe(blob[5..7]);
      if count > capacity then Err(CountTooLarge)
      else if |blob| != HEADER_LEN + count * ENTRY_LEN then Err(InvalidLength)
      else
        var s := Decoded(blob, count, now);
        match Fault(s, derive, 0) case Some(f) => Err(f) case None => Ok(s)
  }

  lemma {:induction false} FaultFree(s: seq<Known>, derive: Hash -> Hash, i: nat)
    requires i <= |s| && Sound(s[..i], derive)
    ensures Fault(s, derive, i) == None <==> Sound(s, derive)
    decreases |s| - i
  {
    hide Find;
    if i == |s| {
      assert s[..i] == s;
    } else {
      FindsFirst(s[..i], s[i].destination);
      if derive(s[i].key) == s[i].destination && Find(s[..i], s[i].destination) == i {
        assert Sound(s[..i + 1], derive);
        FaultFree(s, derive, i + 1);
      }
    }
  }

  lemma FindsFirst(s: seq<Known>, destination: Hash)
    ensures Find(s, destination) <= |s|
    ensures Find(s, destination) < |s| ==> s[Find(s, destination)].destination == destination
    ensures Find(s, destination) == |s| ==> forall k :: 0 <= k < |s| ==> s[k].destination != destination
  {
  }

  /** What an import lets in is sound, and no larger than the table. */
  lemma ImportIsSound(blob: Bytes, capacity: nat, derive: Hash -> Hash, now: u64)
    requires Import(blob, capacity, derive, now).Ok?
    ensures Sound(Import(blob, capacity, derive, now).value, derive)
    ensures |Import(blob, capacity, derive, now).value| <= capacity
    ensures forall e :: e in Import(blob, capacity, derive, now).value ==> e.lastSeen <= now
  {
    hide FromBe, Fault, Sound;
    var s := Import(blob, capacity, derive, now).value;
    assert Sound(s[..0], derive) by { assert s[..0] == []; EmptyTable(derive); }
    FaultFree(s, derive, 0);
  }

  /** Fields wide enough for what is in them, and nothing seen after `now`. */
  ghost predicate Fits(s: seq<Known>, now: u64) {
    forall i :: 0 <= i < |s| ==> s[i].destination < Pow256(16) && s[i].key < Pow256(64) && s[i].lastSeen <= now
  }

  lemma EntryRoundTrip(e: Known, now: u64)
    requires e.destination < Pow256(16) && e.key < Pow256(64) && e.lastSeen <= now
    ensures Decode(EntryBytes(e), now) == e
  {
    hide ToBe, FromBe, Pow256;
    BeRoundTrip(e.destination, 16);
    BeRoundTrip(e.key, 64);
    U64Fits(e.lastSeen);
    BeRoundTrip(e.lastSeen, 8);
    var b := EntryBytes(e);
    assert b[..16] == ToBe(e.destination, 16) && b[16..80] == ToBe(e.key, 64) && b[80..] == ToBe(e.lastSeen, 8);
  }

  lemma {:induction false} PieceAt(s: seq<Known>, i: nat)
    requires i < |s|
    ensures (i + 1) * ENTRY_LEN <= |EntriesBytes(s)|
    ensures EntriesBytes(s)[i * ENTRY_LEN..(i + 1) * ENTRY_LEN] == EntryBytes(s[i])
  {
    hide ToBe, EntryBytes;
    var n := |s| - 1;
    var init := EntriesBytes(s[..n]);
    EntryLength(s[n]);
    if i == n {
      assert |init| == i * ENTRY_LEN;
    } else {
      PieceAt(s[..n], i);
      assert EntriesBytes(s)[i * ENTRY_LEN..(i + 1) * ENTRY_LEN] == init[i * ENTRY_LEN..(i + 1) * ENTRY_LEN];
    }
  }

  lemma EntryLength(e: Known)
    ensures |EntryBytes(e)| == ENTRY_LEN
  {
  }

  lemma HeaderParts(s: seq<Known>)
    ensures |Blob(s)| == HEADER_LEN + |s| * ENTRY_LEN
    ensures Blob(s)[..4] == MAGIC && Blob(s)[4] == VERSION && FromBe(Blob(s)[5..7]) == |s| % COUNT_LIMIT
  {
    hide EntriesBytes;
    BlobLength(s);
    assert Blob(s)[5..7] == ToBe(|s| % COUNT_LIMIT, 2);
    assert Pow256(2) == 256 * Pow256(1) == 65536;
    BeRoundTrip(|s| % COUNT_LIMIT, 2);
  }

  lemma BlobLength(s: seq<Known>)
    ensures |EntriesBytes(s)| == |s| * ENTRY_LEN
  {
  }

  lemma BlobPieces(s: seq<Known>, now: u64)
    requires Fits(s, now)
    ensures |Blob(s)| == HEADER_LEN + |s| * ENTRY_LEN && Decoded(Blob(s), |s|, now) == s
  {
    hide EntriesBytes, EntryBytes, Decode, Pow256, ToBe, FromBe;
    BlobLength(s);
    forall i | 0 <= i < |s| ensures Decoded(Blob(s), |s|, now)[i] == s[i] {
      Within(|s|, i);
      PieceAt(s, i);
      EntryRoundTrip(s[i], now);
      assert Piece(Blob(s), i) == EntriesBytes(s)[i * ENTRY_LEN..(i + 1) * ENTRY_LEN];
    }
  }

  /**
   Export then import restores the table, exactly when the table is small enough for the count field:
   a larger one exports a blob that import refuses.
   */
  lemma ExportImport(s: seq<Known>, capacity: nat, derive: Hash -> Hash, now: u64)
    requires Sound(s, derive) && |s| <= capacity && Fits(s, now)
    ensures Import(Blob(s), capacity, derive, now) == Ok(s) <==> |s| < COUNT_LIMIT
  {
    hide Blob, Decoded, Fault, Fits, FromBe, Sound;
    HeaderParts(s);
    if |s| < COUNT_LIMIT {
      BlobPieces(s, now);
      assert Sound(s[..0], derive) by { assert s[..0] == []; EmptyTable(derive); }
      FaultFree(s, derive, 0);
    } else {
      assert |s| % COUNT_LIMIT < COUNT_LIMIT <= |s|;
    }
  }

  // --- The table in place -----------------------------------------------------------------------

  class Destinations {
    const derive: Hash -> Hash
    const entries: array<Known>
    var len: nat

    ghost predicate Valid()
      reads this, entries
    {
      len <= entries.Length && Sound(entries[..len], derive)
    }

    ghost function Contents(): seq<Known>
      requires len <= entries.Length
      reads this, entries
    {
      entries[..len]
    }

    constructor (capacity: nat, derive: Hash -> Hash)
      ensures Valid() && Contents() == [] && entries.Length == capacity && fresh(entries) && this.derive == derive
    {
      this.derive := derive;
      entries := new Known[capacity](_ => Known(0, 0, 0));
      len := 0;
      new;
      EmptyTable(derive);
    }

    method Position(destination: Hash) returns (i: nat)
      requires Valid()
      ensures i == Find(Contents(), destination)
    {
      i := 0;
      while i < len && entries[i].destination != destination
        invariant i <= len && forall k :: 0 <= k < i ==> entries[k].destination != destination
      {
        i := i + 1;
      }
      assert forall k :: 0 <= k < len ==> Contents()[k] == entries[k];
    }

    method Recency() returns (t: u64)
      requires Valid()
      ensures t == NextRecency(Contents())
    {
      hide Sound;
      var top: u64 := 0;
      for i := 0 to len
        invariant top == Top(entries[..i])
      {
        assert entries[..i + 1][..i] == entries[..i] && entries[..i + 1][i] == entries[i];
        if i == 0 || top < entries[i].lastSeen {
          top := entries[i].lastSeen;
        }
      }
      t := SatAdd(top, 1);
    }

    method LeastRecent() returns (o: nat)
      requires Valid() && len > 0
      ensures o == Oldest(Contents())
    {
      hide Sound;
      o := 0;
      for i := 1 to len
        invariant o < i && o == Oldest(entries[..i])
      {
        assert entries[..i + 1][..i] == entries[..i] && entries[..i + 1][i] == entries[i]
          && entries[..i + 1][o] == entries[o];
        if entries[i].lastSeen < entries[o].lastSeen {
          o := i;
        }
      }
    }

    method DoRecall(destination: Hash) returns (key: Option<Hash>)
      requires Valid()
      modifies entries
      ensures Valid() && (Contents(), key) == Recall(old(Contents()), destination)
    {
      hide Top, NextRecency;
      RecallIsSound(Contents(), derive, destination);
      var i := Position(destination);
      if i == len { return None; }
      var t := Recency();
      key := Some(entries[i].key);
      entries[i] := entries[i].(lastSeen := t);
      assert entries[..len] == old(entries[..len])[i := entries[i]];
    }

    method DoLearn(destination: Hash, key: Hash, now: u64) returns (r: Result<bool>)
      requires Valid()
      modifies this`len, entries
      ensures Valid() && (Contents(), r) == Learn(old(Contents()), entries.Length, derive, destination, key, now)
    {
      hide Top, NextRecency, Oldest, Sound;
      LearnIsSound(Contents(), entries.Length, derive, destination, key, now);
      if entries.Length == 0 { return Err(EmptyCapacity); }
      var i := Position(destination);
      if i < len {
        return if entries[i].key == key then Ok(false) else Err(KeyConflict);
      }
      if derive(key) != destination { return Err(DestinationHashMismatch); }
      var t := Recency();
      var e := Known(destination, key, if now >= t then now else t);
      if len < entries.Length {
        entries[len] := e;
        len := len + 1;
        assert entries[..len] == old(entries[..len]) + [e];
      } else {
        var o := LeastRecent();
        OldestWithin(Contents());
        entries[o] := e;
        assert entries[..len] == old(entries[..len])[o := e];
      }
      r := Ok(true);
    }

    method ExportEntry(out: array<byte>, i: nat)
      requires i < len <= entries.Length && HEADER_LEN + (i + 1) * ENTRY_LEN <= out.Length
      requires out[..HEADER_LEN + i * ENTRY_LEN] == Header(len) + EntriesBytes(entries[..i])
      modifies out
      ensures out[..HEADER_LEN + (i + 1) * ENTRY_LEN] == Header(len) + EntriesBytes(entries[..i + 1])
    {
      hide EntriesBytes, EntryBytes, Header;
      EntryLength(entries[i]);
      CopyInto(out, HEADER_LEN + i * ENTRY_LEN, EntryBytes(entries[i]));
      NextEntry(entries[..i + 1]);
      assert entries[..i + 1][..i] == entries[..i];
    }

    /** `export_into`: fill the front of the caller's buffer. */
    method ExportInto(out: array<byte>) returns (r: Result<nat>)
      requires Valid()
      modifies out
      ensures r == if out.Length < HEADER_LEN + |Contents()| * ENTRY_LEN then Err(OutputTooSmall)
        else Ok(HEADER_LEN + |Contents()| * ENTRY_LEN)
      ensures r.Err? ==> out[..] == old(out[..])
      ensures r.Ok? ==> out[..r.value] == Blob(Contents())
    {
      hide EntriesBytes, EntryBytes, Sound, Header;
      var needed := HEADER_LEN + len * ENTRY_LEN;
      if out.Length < needed { return Err(OutputTooSmall); }
      HeaderLength(len);
      CopyInto(out, 0, Header(len));
      NoEntries();
      for i := 0 to len
        invariant out[..HEADER_LEN + i * ENTRY_LEN] == Header(len) + EntriesBytes(entries[..i])
      {
        Within(len, i);
        ExportEntry(out, i);
      }
      r := Ok(needed);
    }

    /** `import`: a blob that is refused changes nothing. */
    method DoImport(blob: Bytes, now: u64) returns (r: Result<()>)
      requires Valid()
      modifies this`len, entries
      ensures Valid()
      ensures match Import(blob, entries.Length, derive, now)
        case Ok(s) => r == Ok(()) && Contents() == s
        case Err(f) => r == Err(f) && Contents() == old(Contents())
    {
      hide FromBe, Fault, Sound, Decode, Decoded;
      if |blob| < HEADER_LEN || blob[..4] != MAGIC { return Err(InvalidHeader); }
      if blob[4] != VERSION { return Err(UnsupportedVersion); }
      var count := FromBe(blob[5..7]);
      if count > entries.Length { return Err(CountTooLarge); }
      if |blob| != HEADER_LEN + count * ENTRY_LEN { return Err(InvalidLength); }
      var s := Decoded(blob, count, now);
      DecodedLength(blob, count, now);
      var f := FindFault(s);
      if f.Some? { return Err(f.value); }
      ImportIsSound(blob, entries.Length, derive, now);
      len := count;
      for i := 0 to count
        modifies entries
        invariant forall k :: 0 <= k < i ==> entries[k] == s[k]
      {
        entries[i] := s[i];
      }
      assert entries[..len] == s;
      r := Ok(());
    }

    /** The checks of `import`, one entry after the other, each against those before it. */
    method FindFault(s: seq<Known>) returns (f: Option<Failure>)
      ensures f == Fault(s, derive, 0)
    {
      hide Find;
      for i := 0 to |s|
        invariant Fault(s, derive, 0) == Fault(s, derive, i)
      {
        if derive(s[i].key) != s[i].destination { return Some(DestinationHashMismatch); }
        FindsFirst(s[..i], s[i].destination);
        for j := 0 to i
          invariant forall k :: 0 <= k < j ==> s[k].destination != s[i].destination
        {
          if s[j].destination == s[i].destination {
            assert s[..i][j].destination == s[i].destination;
            return Some(DuplicateDestination);
          }
        }
      }
      return None;
    }
  }

  lemma HeaderLength(count: nat)
    ensures |Header(count)| == HEADER_LEN
  {
  }

  lemma NoEntries()
    ensures EntriesBytes([]) == []
  {
  }

  lemma NextEntry(s: seq<Known>)
    requires s != []
    ensures EntriesBytes(s) == EntriesBytes(s[..|s| - 1]) + EntryBytes(s[|s| - 1])
  {
  }

  lemma DecodedLength(blob: Bytes, count: nat, now: u64)
    requires |blob| == HEADER_LEN + count * ENTRY_LEN
    ensures |Decoded(blob, count, now)| == count
  {
  }
}
