/** The resource advertisement: a MessagePack map of eleven one-letter keys, in any order. */
module Advertisement {
  import opened Base
  import opened MessagePack

  const PACKED_MAX: nat := 192
  const HASHMAP_MAX: nat := 32
  const REQUEST_ID_MAX: nat := 32
  const MAPHASH_LEN: nat := 4
  const FIELDS: nat := 11

  datatype Flags = Flags(encrypted: bool, compressed: bool, split: bool, isRequest: bool, isResponse: bool,
    hasMetadata: bool)
  {
    function ToByte(): (b: byte)
      ensures b < 64
    {
      (if encrypted then 1 else 0) + (if compressed then 2 else 0) + (if split then 4 else 0)
      + (if isRequest then 8 else 0) + (if isResponse then 16 else 0) + (if hasMetadata then 32 else 0)
    }
  }

  /** The two high bits are ignored. */
  function ToFlags(b: byte): Flags {
    Flags(b % 2 != 0, b / 2 % 2 != 0, b / 4 % 2 != 0, b / 8 % 2 != 0, b / 16 % 2 != 0, b / 32 % 2 != 0)
  }

  lemma FlagsBack(f: Flags)
    ensures ToFlags(f.ToByte()) == f
  {
    var a, b, c, d, e, g := if f.encrypted then 1 else 0, if f.compressed then 1 else 0, if f.split then 1 else 0,
      if f.isRequest then 1 else 0, if f.isResponse then 1 else 0, if f.hasMetadata then 1 else 0;
    var n: int := f.ToByte();
    assert n == a + 2 * b + 4 * c + 8 * d + 16 * e + 32 * g;
    assert n / 2 == b + 2 * c + 4 * d + 8 * e + 16 * g && n / 4 == c + 2 * d + 4 * e + 8 * g;
    assert n / 8 == d + 2 * e + 4 * g && n / 16 == e + 2 * g && n / 32 == g;
  }

  /** An advertisement; an empty request identifier is a nil on the wire. */
  datatype Adv = Adv(
    transferSize: nat, dataSize: nat, parts: nat,
    hash: Bytes, random: Bytes, original: Bytes,
    segment: nat, segments: nat, request: Bytes, flags: Flags, hashmap: Bytes)

  const BLANK := Adv(0, 0, 0, [], [], [], 0, 0, [], Flags(false, false, false, false, false, false), [])

  /** What the fixed-size struct can hold. */
  predicate Fits(a: Adv) {
    && a.transferSize <= U32_MAX && a.dataSize <= U32_MAX && a.parts <= U32_MAX && a.segment <= U32_MAX
    && a.segments <= U32_MAX
    && |a.hash| == 32 && |a.random| == 4 && |a.original| == 32
    && |a.request| <= REQUEST_ID_MAX && |a.hashmap| <= HASHMAP_MAX
  }

  datatype Key = T | D | N | H | R | O | I | L | Q | F | M
  {
    function Letter(): (b: byte)
      ensures KeyOf(b) == Some(this)
    {
      match this
      case T => 116 case D => 100 case N => 110 case H => 104 case R => 114 case O => 111
      case I => 105 case L => 108 case Q => 113 case F => 102 case M => 109
    }
  }

  const ORDER: seq<Key> := [T, D, N, H, R, O, I, L, Q, F, M]
  const ALL: set<Key> := {T, D, N, H, R, O, I, L, Q, F, M}

  function KeyOf(b: byte): Option<Key> {
    match b
    case 116 => Some(T) case 100 => Some(D) case 110 => Some(N) case 104 => Some(H) case 114 => Some(R)
    case 111 => Some(O) case 105 => Some(I) case 108 => Some(L) case 113 => Some(Q)
    case 102 => Some(F) case 109 => Some(M)
    case _ => None
  }

  // --- Writing ----------------------------------------------------------------------------------

  function Value(a: Adv, k: Key): Bytes
    requires Fits(a)
  {
    match k
    case T => Uint(a.transferSize) case D => Uint(a.dataSize) case N => Uint(a.parts)
    case H => Bin(a.hash) case R => Bin(a.random) case O => Bin(a.original)
    case I => Uint(a.segment) case L => Uint(a.segments)
    case Q => if a.request == [] then [0xC0] else Bin(a.request)
    case F => Uint(a.flags.ToByte())
    case M => Bin(a.hashmap)
  }

  function Entry(a: Adv, k: Key): Bytes
    requires Fits(a)
  {
    [0xA1, k.Letter()] + Value(a, k)
  }

  function Entries(a: Adv, keys: seq<Key>): Bytes
    requires Fits(a)
  {
    if keys == [] then [] else Entry(a, keys[0]) + Entries(a, keys[1..])
  }

  /** The map with its entries in this order. */
  function PackAs(a: Adv, keys: seq<Key>): Bytes
    requires Fits(a)
  {
    [0x8B] + Entries(a, keys)
  }

  /** `ResourceAdv::pack`. */
  function Pack(a: Adv): Bytes
    requires Fits(a)
  {
    PackAs(a, ORDER)
  }

  /** The most bytes the value of a key takes. */
  function Width(k: Key): nat {
    match k case H => 34 case O => 34 case R => 6 case Q => 34 case M => 34 case F => 1 case _ => 5
  }

  lemma ValueWidth(a: Adv, k: Key)
    requires Fits(a)
    ensures |Value(a, k)| <= Width(k)
  {
  }

  function Widths(keys: seq<Key>): nat {
    if keys == [] then 0 else 2 + Width(keys[0]) + Widths(keys[1..])
  }

  lemma {:induction false} EntriesWidth(a: Adv, keys: seq<Key>)
    requires Fits(a)
    ensures |Entries(a, keys)| <= Widths(keys)
  {
    hide Value, Width;
    if keys != [] {
      ValueWidth(a, keys[0]);
      EntriesWidth(a, keys[1..]);
    }
  }

  /** An advertisement packs into its buffer bound. */
  lemma PackedWithinBound(a: Adv)
    requires Fits(a)
    ensures |Pack(a)| <= PACKED_MAX - 1
  {
    EntriesWidth(a, ORDER);
    OrderWidth();
  }

  lemma WidthsStep(k: Key, rest: seq<Key>)
    ensures Widths([k] + rest) == 2 + Width(k) + Widths(rest)
  {
    assert ([k] + rest)[1..] == rest;
  }

  lemma OrderWidth()
    ensures Widths(ORDER) == 190
  {
    hide Widths;
    NoWidth();
    var m := [M] + [];
    WidthsStep(M, []);
    var f := [F] + m;
    WidthsStep(F, m);
    var q := [Q] + f;
    WidthsStep(Q, f);
    var l := [L] + q;
    WidthsStep(L, q);
    var i := [I] + l;
    WidthsStep(I, l);
    var o := [O] + i;
    WidthsStep(O, i);
    var r := [R] + o;
    WidthsStep(R, o);
    var h := [H] + r;
    WidthsStep(H, r);
    var n := [N] + h;
    WidthsStep(N, h);
    var d := [D] + n;
    WidthsStep(D, n);
    WidthsStep(T, d);
    assert ORDER == [T] + d;
  }

  lemma NoWidth()
    ensures Widths([]) == 0
  {
  }

  // --- Reading ----------------------------------------------------------------------------------

  function ReadBytes(s: Bytes, n: nat): Read<Bytes> {
    match ReadBin(s)
    case Bad(e) => Bad(e)
    case Got(b, rest) => if |b| != n then Bad(Invalid) else Got(b, rest)
  }

  /** The value of one key, put into the advertisement read so far. */
  function ReadValue(s: Bytes, k: Key, a: Adv): Read<Adv> {
    match k
    case T => (match ReadUint(s) case Bad(e) => Bad(e) case Got(v, r) => Got(a.(transferSize := v), r))
    case D => (match ReadUint(s) case Bad(e) => Bad(e) case Got(v, r) => Got(a.(dataSize := v), r))
    case N => (match ReadUint(s) case Bad(e) => Bad(e) case Got(v, r) => Got(a.(parts := v), r))
    case I => (match ReadUint(s) case Bad(e) => Bad(e) case Got(v, r) => Got(a.(segment := v), r))
    case L => (match ReadUint(s) case Bad(e) => Bad(e) case Got(v, r) => Got(a.(segments := v), r))
    case H => (match ReadBytes(s, 32) case Bad(e) => Bad(e) case Got(v, r) => Got(a.(hash := v), r))
    case R => (match ReadBytes(s, 4) case Bad(e) => Bad(e) case Got(v, r) => Got(a.(random := v), r))
    case O => (match ReadBytes(s, 32) case Bad(e) => Bad(e) case Got(v, r) => Got(a.(original := v), r))
    case Q => ReadRequest(s, a)
    case F => (match ReadUint(s) case Bad(e) => Bad(e) case Got(v, r) => if v > 0xFF then Bad(Invalid)
      else Got(a.(flags := ToFlags(v)), r))
    case M =>
      (match ReadBin(s) case Bad(e) => Bad(e) case Got(v, r) => if |v| % MAPHASH_LEN != 0 then Bad(Invalid)
        else Got(a.(hashmap := v), r))
  }

  function ReadRequest(s: Bytes, a: Adv): Read<Adv> {
    if s != [] && s[0] == 0xC0 then Got(a, s[1..])
    else
      match ReadBin(s)
      case Bad(e) => Bad(e)
      case Got(v, r) => if |v| > REQUEST_ID_MAX then Bad(Invalid) else Got(a.(request := v), r)
  }

  /** One key that has not been seen. */
  function ReadKey(s: Bytes, seen: seq<Key>): Read<Key> {
    match ReadByte(s)
    case Bad(e) => Bad(e)
    case Got(tag, r) =>
      if tag != 0xA1 then Bad(Invalid)
      else
        match ReadByte(r)
        case Bad(e) => Bad(e)
        case Got(letter, r') => if KeyOf(letter).None? || KeyOf(letter).value in seen then Bad(Invalid)
          else Got(KeyOf(letter).value, r')
  }

  /** `n` entries with keys not seen before, with the keys in the order they came. */
  function ReadEntries(s: Bytes, n: nat, seen: seq<Key>, a: Adv): Read<(Adv, seq<Key>)>
    decreases n
  {
    if n == 0 then Got((a, seen), s)
    else
      match ReadKey(s, seen)
      case Bad(e) => Bad(e)
      case Got(k, r) =>
        match ReadValue(r, k, a)
        case Bad(e) => Bad(e)
        case Got(a', r') => ReadEntries(r', n - 1, seen + [k], a')
  }

  /** `parse_bounded`, with the keys it saw. */
  function ReadMap(s: Bytes): Read<(Adv, seq<Key>)> {
    match ReadByte(s)
    case Bad(e) => Bad(e)
    case Got(head, r) => if head != 0x8B then Bad(Invalid) else ReadEntries(r, FIELDS, [], BLANK)
  }

  datatype Result<+T> = Ok(value: T) | Err(error: Failure)

  /** `ResourceAdv::parse`. */
  function Parse(s: Bytes): Result<Adv> {
    match ReadMap(s)
    case Bad(e) => Err(e)
    case Got(v, _) => if |v.0.hashmap| > HASHMAP_MAX then Err(TooLarge) else Ok(v.0)
  }

  // --- Round trip, in every order ---------------------------------------------------------------

  /** A field known once its key is seen. */
  function Pick<V>(seen: seq<Key>, k: Key, value: V, blank: V): V {
    if k in seen then value else blank
  }

  /** The advertisement as far as these keys tell. */
  function Partial(a: Adv, seen: seq<Key>): Adv {
    Adv(Pick(seen, T, a.transferSize, 0), Pick(seen, D, a.dataSize, 0), Pick(seen, N, a.parts, 0),
        Pick(seen, H, a.hash, []), Pick(seen, R, a.random, []), Pick(seen, O, a.original, []),
        Pick(seen, I, a.segment, 0), Pick(seen, L, a.segments, 0), Pick(seen, Q, a.request, []),
        Pick(seen, F, a.flags, BLANK.flags), Pick(seen, M, a.hashmap, []))
  }

  /** One more field taken over from `a`. */
  function Taking(b: Adv, a: Adv, k: Key): Adv {
    match k
    case T => b.(transferSize := a.transferSize) case D => b.(dataSize := a.dataSize) case N => b.(parts := a.parts)
    case H => b.(hash := a.hash) case R => b.(random := a.random) case O => b.(original := a.original)
    case I => b.(segment := a.segment) case L => b.(segments := a.segments) case Q => b.(request := a.request)
    case F => b.(flags := a.flags) case M => b.(hashmap := a.hashmap)
  }

  lemma PartialTakes(a: Adv, k: Key, seen: seq<Key>)
    ensures Partial(a, seen + [k]) == Taking(Partial(a, seen), a, k)
    ensures Q !in seen ==> Partial(a, seen).request == []
  {
    hide Pick;
    PickMore(seen, k, T, a.transferSize, 0); PickMore(seen, k, D, a.dataSize, 0); PickMore(seen, k, N, a.parts, 0);
    PickMore(seen, k, H, a.hash, []); PickMore(seen, k, R, a.random, []); PickMore(seen, k, O, a.original, []);
    PickMore(seen, k, I, a.segment, 0); PickMore(seen, k, L, a.segments, 0); PickMore(seen, k, Q, a.request, []);
    PickMore(seen, k, F, a.flags, BLANK.flags); PickMore(seen, k, M, a.hashmap, []);
  }

  lemma PickMore<V>(seen: seq<Key>, k: Key, x: Key, value: V, blank: V)
    ensures Pick(seen + [k], x, value, blank) == if x == k then value else Pick(seen, x, value, blank)
    ensures x !in seen ==> Pick(seen, x, value, blank) == blank
  {
  }

  lemma ValueBack(a: Adv, k: Key, b: Adv, t: Bytes)
    requires Fits(a) && |a.hashmap| % MAPHASH_LEN == 0 && (k == Q ==> b.request == [])
    ensures ReadValue(Value(a, k) + t, k, b) == Got(Taking(b, a, k), t)
  {
    hide ReadUint, ReadBin, Uint, Bin, ToFlags, Flags.ToByte;
    match k {
      case T => UintBack(a.transferSize, t);
      case D => UintBack(a.dataSize, t);
      case N => UintBack(a.parts, t);
      case I => UintBack(a.segment, t);
      case L => UintBack(a.segments, t);
      case H => BinBack(a.hash, t);
      case R => BinBack(a.random, t);
      case O => BinBack(a.original, t);
      case F =>
        FlagsFit(a.flags);
        UintBack(a.flags.ToByte(), t);
        FlagsBack(a.flags);
      case M => BinBack(a.hashmap, t);
      case Q => RequestBack(a, b, t);
    }
  }

  lemma FlagsFit(f: Flags)
    ensures f.ToByte() < 64
  {
  }

  lemma RequestBack(a: Adv, b: Adv, t: Bytes)
    requires Fits(a) && b.request == []
    ensures ReadRequest(Value(a, Q) + t, b) == Got(b.(request := a.request), t)
  {
    hide ReadBin, Bin;
    if a.request != [] {
      BinBack(a.request, t);
      BinStart(a.request, t);
    } else {
      assert ([0xC0] + t)[1..] == t;
    }
  }

  lemma BinStart(data: Bytes, t: Bytes)
    requires |data| <= 0xFF
    ensures Bin(data) + t != [] && (Bin(data) + t)[0] == 0xC4
  {
  }

  lemma KeyBack(k: Key, seen: seq<Key>, t: Bytes)
    requires k !in seen
    ensures ReadKey([0xA1, k.Letter()] + t, seen) == Got(k, t)
  {
    var s := [0xA1, k.Letter()] + t;
    assert s[1..] == [k.Letter()] + t && ([k.Letter()] + t)[1..] == t;
  }

  lemma {:induction false} EntriesBack(a: Adv, keys: seq<Key>, seen: seq<Key>, t: Bytes)
    requires Fits(a) && |a.hashmap| % MAPHASH_LEN == 0
    requires forall i, j :: 0 <= i < j < |seen + keys| ==> (seen + keys)[i] != (seen + keys)[j]
    ensures ReadEntries(Entries(a, keys) + t, |keys|, seen,
      Partial(a, seen)) == Got((Partial(a, seen + keys), seen + keys), t)
    decreases |keys|
  {
    hide Partial, ReadValue, Value, ReadKey, Key.Letter, Taking;
    if keys == [] {
      assert Entries(a, keys) + t == t && seen + keys == seen;
    } else {
      var k, rest := keys[0], keys[1..];
      assert k == (seen + keys)[|seen|];
      forall i | 0 <= i < |seen| ensures seen[i] != k {
        assert (seen + keys)[i] == seen[i];
      }
      var more := Value(a, k) + (Entries(a, rest) + t);
      assert Entries(a, keys) + t == [0xA1, k.Letter()] + more;
      KeyBack(k, seen, more);
      PartialTakes(a, k, seen);
      ValueBack(a, k, Partial(a, seen), Entries(a, rest) + t);
      assert (seen + [k]) + rest == seen + keys;
      EntriesBack(a, rest, seen + [k], t);
    }
  }

  /** Eleven different keys are all of them. */
  lemma ElevenKeys(keys: seq<Key>)
    requires |keys| == FIELDS && forall i, j :: 0 <= i < j < |keys| ==> keys[i] != keys[j]
    ensures forall k :: k in keys
  {
    var s := set k | k in keys;
    DistinctCount(keys);
    AllKeys();
    Exhausts(s, ALL);
    forall k: Key ensures k in keys {
      assert k in s;
    }
  }

  lemma Exhausts(s: set<Key>, all: set<Key>)
    requires |s| == |all| && forall k: Key :: k in all
    ensures forall k: Key :: k in s
  {
    assert s <= all;
    SubsetSize(s, all);
  }

  lemma AllKeys()
    ensures |ALL| == FIELDS && forall k: Key :: k in ALL
  {
    forall k: Key ensures k in ALL {
      match k {
        case T => case D => case N => case H => case R => case O => case I => case L => case Q => case F => case M =>
      }
    }
  }

  lemma {:induction false} DistinctCount(keys: seq<Key>)
    requires forall i, j :: 0 <= i < j < |keys| ==> keys[i] != keys[j]
    ensures |set k | k in keys| == |keys|
  {
    if keys != [] {
      var n := |keys| - 1;
      DistinctCount(keys[..n]);
      assert (set k | k in keys) == (set k | k in keys[..n]) + {keys[n]};
      assert keys[n] !in keys[..n];
    }
  }

  lemma PartialAll(a: Adv, keys: seq<Key>)
    requires forall k :: k in keys
    ensures Partial(a, keys) == a && Partial(a, []) == BLANK
  {
  }

  lemma AllEntriesBack(a: Adv, keys: seq<Key>, t: Bytes)
    requires Fits(a) && |a.hashmap| % MAPHASH_LEN == 0
    requires |keys| == FIELDS && forall i, j :: 0 <= i < j < |keys| ==> keys[i] != keys[j]
    ensures ReadEntries(Entries(a, keys) + t, FIELDS, [], BLANK) == Got((a, keys), t)
  {
    hide Entries, Partial, ReadEntries;
    ElevenKeys(keys);
    PartialAll(a, keys);
    assert [] + keys == keys;
    EntriesBack(a, keys, [], t);
  }

  /** Every order of the eleven fields parses to the same advertisement, with nothing left over. */
  lemma AnyOrderParses(a: Adv, keys: seq<Key>, t: Bytes)
    requires Fits(a) && |a.hashmap| % MAPHASH_LEN == 0
    requires |keys| == FIELDS && forall i, j :: 0 <= i < j < |keys| ==> keys[i] != keys[j]
    ensures Parse(PackAs(a, keys) + t) == Ok(a) && ReadMap(PackAs(a, keys) + t) == Got((a, keys), t)
  {
    hide Entries, ReadEntries;
    AllEntriesBack(a, keys, t);
    var s := PackAs(a, keys) + t;
    assert s[0] == 0x8B && s[1..] == Entries(a, keys) + t;
  }

  lemma OrderIsOne()
    ensures |ORDER| == FIELDS && forall i, j :: 0 <= i < j < |ORDER| ==> ORDER[i] != ORDER[j]
  {
  }

  /** Parsing undoes packing exactly for hashmaps of whole entries. */
  lemma ParsePack(a: Adv)
    requires Fits(a)
    ensures Parse(Pack(a)) == Ok(a) <==> |a.hashmap| % MAPHASH_LEN == 0
  {
    hide ReadMap, PackAs;
    if |a.hashmap| % MAPHASH_LEN == 0 {
      OrderIsOne();
      AnyOrderParses(a, ORDER, []);
      assert Pack(a) + [] == Pack(a);
    } else {
      ParsedIsWhole(Pack(a));
    }
  }

  // --- What a successful parse has seen ---------------------------------------------------------

  lemma {:induction false} EntriesSeen(s: Bytes, n: nat, seen: seq<Key>, a: Adv)
    requires (forall i, j :: 0 <= i < j < |seen| ==> seen[i] != seen[j]) && |a.hashmap| % MAPHASH_LEN == 0
    requires ReadEntries(s, n, seen, a).Got?
    ensures var (b, keys) := ReadEntries(s, n, seen, a).value;
      && |keys| == |seen| + n && (forall i, j :: 0 <= i < j < |keys| ==> keys[i] != keys[j])
      && |b.hashmap| % MAPHASH_LEN == 0
    decreases n
  {
    hide ReadUint, ReadBin, ReadByte, KeyOf, ToFlags;
    if n > 0 {
      var k := ReadKey(s, seen);
      var v := ReadValue(k.rest, k.value, a);
      EntriesSeen(v.rest, n - 1, seen + [k.value], v.value);
    }
  }

  /** A successful parse has seen each of the eleven keys exactly once, and a hashmap of whole entries. */
  lemma ParsedIsWhole(s: Bytes)
    ensures ReadMap(s).Got? ==>
      var (a, keys) := ReadMap(s).value;
      && |keys| == FIELDS && (forall i, j :: 0 <= i < j < |keys| ==> keys[i] != keys[j]) && (forall k :: k in keys)
      && |a.hashmap| % MAPHASH_LEN == 0
  {
    hide ReadEntries;
    if ReadMap(s).Got? {
      EntriesSeen(s[1..], FIELDS, [], BLANK);
      ElevenKeys(ReadMap(s).value.1);
    }
  }

  // --- Truncation -------------------------------------------------------------------------------

  lemma KeyMore(s: Bytes, seen: seq<Key>, t: Bytes)
    requires ReadKey(s, seen).Got?
    ensures ReadKey(s + t, seen) == ReadKey(s, seen).With(t)
  {
    hide KeyOf;
    ByteMore(s, t);
    ByteMore(s[1..], t);
  }

  lemma ValueMore(s: Bytes, k: Key, a: Adv, t: Bytes)
    requires ReadValue(s, k, a).Got?
    ensures ReadValue(s + t, k, a) == ReadValue(s, k, a).With(t)
  {
    hide ReadUint, ReadBin, ToFlags;
    match k {
      case T => UintMore(s, t);
      case D => UintMore(s, t);
      case N => UintMore(s, t);
      case I => UintMore(s, t);
      case L => UintMore(s, t);
      case F => UintMore(s, t);
      case H => BinMore(s, t);
      case R => BinMore(s, t);
      case O => BinMore(s, t);
      case M => BinMore(s, t);
      case Q =>
        if s != [] && s[0] == 0xC0 {
          assert (s + t)[1..] == s[1..] + t;
        } else {
          BinMore(s, t);
          BinNotEmpty(s);
        }
    }
  }

  lemma BinNotEmpty(s: Bytes)
    requires ReadBin(s).Got?
    ensures s != []
  {
  }

  lemma {:induction false} EntriesMore(s: Bytes, n: nat, seen: seq<Key>, a: Adv, t: Bytes)
    requires ReadEntries(s, n, seen, a).Got?
    ensures ReadEntries(s + t, n, seen, a) == ReadEntries(s, n, seen, a).With(t)
    decreases n
  {
    hide ReadKey, ReadValue;
    if n > 0 {
      KeyMore(s, seen, t);
      var k := ReadKey(s, seen);
      ValueMore(k.rest, k.value, a, t);
      var v := ReadValue(k.rest, k.value, a);
      EntriesMore(v.rest, n - 1, seen + [k.value], v.value, t);
    }
  }

  lemma MapMore(s: Bytes, t: Bytes)
    requires ReadMap(s).Got?
    ensures ReadMap(s + t) == ReadMap(s).With(t)
  {
    hide ReadEntries;
    ByteMore(s, t);
    EntriesMore(s[1..], FIELDS, [], BLANK, t);
  }

  /** A packed advertisement cut short anywhere is refused. */
  lemma PrefixIsRejected(a: Adv, keys: seq<Key>, n: nat)
    requires Fits(a) && |a.hashmap| % MAPHASH_LEN == 0 && n < |PackAs(a, keys)|
    requires |keys| == FIELDS && forall i, j :: 0 <= i < j < |keys| ==> keys[i] != keys[j]
    ensures Parse(PackAs(a, keys)[..n]).Err?
  {
    hide ReadMap, PackAs;
    var s := PackAs(a, keys);
    AnyOrderParses(a, keys, []);
    assert s + [] == s && s == s[..n] + s[n..];
    if ReadMap(s[..n]).Got? {
      MapMore(s[..n], s[n..]);
    }
  }

  // --- In place ---------------------------------------------------------------------------------

  /** `ResourceAdv::pack`: field after field into the caller's buffer, as far as it has room. */
  method PackInto(a: Adv, out: array<byte>) returns (r: Result<nat>)
    requires Fits(a)
    modifies out
    ensures r == if |Pack(a)| <= out.Length then Ok(|Pack(a)|) else Err(OutputTooSmall)
    ensures r.Ok? ==> out[..r.value] == Pack(a)
  {
    hide Value, Key.Letter, Entries;
    var w := new Writer(out);
    w.Put([0x8B]);
    NoEntries(a);
    assert ORDER[..0] == [];
    for i := 0 to |ORDER|
      invariant w.out == out && fresh(w) && w.Valid()
      invariant w.Wrote([0x8B] + Entries(a, ORDER[..i]))
    {
      w.Put([0xA1, ORDER[i].Letter()]);
      w.Put(Value(a, ORDER[i]));
      NextEntry(a, ORDER, i);
      assert [0x8B] + Entries(a, ORDER[..i]) + [0xA1, ORDER[i].Letter()] + Value(a, ORDER[i]) == [0x8B] + Entries(a,
        ORDER[..i + 1]);
    }
    assert ORDER[..|ORDER|] == ORDER;
    if w.full { return Err(OutputTooSmall); }
    r := Ok(w.pos);
  }

  lemma NoEntries(a: Adv)
    requires Fits(a)
    ensures Entries(a, []) == []
  {
  }

  lemma {:induction false} NextEntry(a: Adv, keys: seq<Key>, i: nat)
    requires Fits(a) && i < |keys|
    ensures Entries(a, keys[..i + 1]) == Entries(a, keys[..i]) + ([0xA1, keys[i].Letter()] + Value(a, keys[i]))
    decreases i
  {
    hide Value, Key.Letter;
    assert keys[..i + 1][1..] == keys[1..][..i];
    if i > 0 {
      NextEntry(a, keys[1..], i - 1);
      assert keys[..i][1..] == keys[1..][..i - 1] && keys[..i][0] == keys[0];
    } else {
      assert Entries(a, keys[..1][1..]) == [];
    }
  }

  /** `MpWriter`: bytes put one after the other, until one lot does not fit. */
  class Writer {
    const out: array<byte>
    var pos: nat
    var full: bool
    /** Everything put so far, written or not. */
    ghost var text: Bytes

    ghost predicate Valid()
      reads this, out
    {
      pos <= out.Length && if full then |text| > out.Length else out[..pos] == text
    }

    ghost predicate Wrote(s: Bytes)
      reads this
    {
      text == s
    }

    constructor (out: array<byte>)
      ensures Valid() && Wrote([]) && this.out == out && !full
    {
      this.out := out;
      pos, full, text := 0, false, [];
    }

    method Put(b: Bytes)
      requires Valid()
      modifies this, out
      ensures Valid() && Wrote(old(text) + b)
    {
      text := text + b;
      if full { return; }
      if pos + |b| > out.Length {
        full := true;
        return;
      }
      for i := 0 to |b|
        modifies out
        invariant out[..pos] == old(out[..pos]) && out[pos..pos + i] == b[..i]
      {
        out[pos + i] := b[i];
      }
      assert out[..pos + |b|] == out[..pos] + out[pos..pos + |b|];
      pos := pos + |b|;
    }
  }

  /** `parse_bounded`: eleven entries, each key once. */
  method ParseMap(data: Bytes) returns (r: Read<(Adv, seq<Key>)>)
    ensures r == ReadMap(data)
  {
    hide ReadKey, ReadValue;
    var head := ReadByte(data);
    if head.Bad? { return Bad(head.error); }
    if head.value != 0x8B { return Bad(Invalid); }
    var a, seen, s := BLANK, [], head.rest;
    for i := 0 to FIELDS
      invariant ReadMap(data) == ReadEntries(s, FIELDS - i, seen, a)
    {
      var k := ReadKey(s, seen);
      if k.Bad? { return Bad(k.error); }
      var v := ReadValue(k.rest, k.value, a);
      if v.Bad? { return Bad(v.error); }
      a, seen, s := v.value, seen + [k.value], v.rest;
    }
    r := Got((a, seen), s);
  }
}
