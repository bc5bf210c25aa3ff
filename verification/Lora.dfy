/** LoRa framing: a packet travels in one physical frame or two, and a single slot reassembles it. */
module Lora {
  import opened Base

  const FRAME_PAYLOAD: nat := 254
  const PACKET_MAX: nat := 508
  const NIBBLES: nat := 16

  /** The first half of a split packet, waiting for the second. */
  datatype Pending = Pending(sequence: nat, first: Bytes, expires: u64)

  datatype Outcome = Nothing | Packet(bytes: Bytes) | FrameTooShort | BufferTooSmall

  /** `LoraFramer::encode`: none for a packet that needs more than two frames. */
  function Encode(packet: Bytes, nibble: nat): (frames: Option<seq<Bytes>>)
    ensures frames.Some? ==> 1 <= |frames.value| <= 2
    ensures frames.Some? ==> forall i :: 0 <= i < |frames.value| ==> 1 <= |frames.value[i]| <= FRAME_PAYLOAD + 1
    ensures frames.Some? <==> |packet| <= PACKET_MAX
  {
    var sequence := nibble % NIBBLES * 16;
    if |packet| > PACKET_MAX then None
    else if |packet| <= FRAME_PAYLOAD then Some([[sequence] + packet])
    else Some([[sequence + 1] + packet[..FRAME_PAYLOAD], [sequence + 1] + packet[FRAME_PAYLOAD..]])
  }

  /** `expire`. */
  function Expired(pending: Option<Pending>, now: u64): Option<Pending> {
    if pending.Some? && now >= pending.value.expires then None else pending
  }

  function Fit(bytes: Bytes): Outcome {
    if |bytes| > PACKET_MAX then BufferTooSmall else Packet(bytes)
  }

  /** `ingest_frame`: the slot afterwards, and what came of the frame. */
  function Received(pending: Option<Pending>, timeout: u64, frame: Bytes, now: u64): (Option<Pending>, Outcome) {
    var slot := Expired(pending, now);
    if frame == [] then (slot, FrameTooShort)
    else
      var sequence, split, payload := frame[0] / 16, frame[0] % 2 == 1, frame[1..];
      if !split then (None, Fit(payload))
      else if slot.Some? && slot.value.sequence == sequence then (None, Fit(slot.value.first + payload))
      else if |payload| > PACKET_MAX then (None, BufferTooSmall)
      else (Some(Pending(sequence, payload, SatAdd(now, timeout))), Nothing)
  }

  class Framer {
    var pending: Option<Pending>
    const timeout: u64

    constructor (timeout: u64)
      ensures pending == None && this.timeout == timeout
    {
      pending := None;
      this.timeout := timeout;
    }

    method Expire(now: u64)
      modifies this
      ensures pending == Expired(old(pending), now)
    {
      if pending.Some? && now >= pending.value.expires {
        pending := None;
      }
    }

    method IngestFrame(frame: Bytes, now: u64) returns (r: Outcome)
      modifies this
      ensures (pending, r) == Received(old(pending), timeout, frame, now)
    {
      Expire(now);
      if frame == [] { return FrameTooShort; }
      var sequence, payload := frame[0] / 16, frame[1..];
      if frame[0] % 2 == 0 {
        pending := None;
        return Fit(payload);
      }
      var slot := pending;
      pending := None;
      if slot.Some? && slot.value.sequence == sequence { return Fit(slot.value.first + payload); }
      if |payload| > PACKET_MAX { return BufferTooSmall; }
      pending := Some(Pending(sequence, payload, SatAdd(now, timeout)));
      r := Nothing;
    }
  }

  // --- Runs of a receiver -----------------------------------------------------------------------

  /** A packet that was sent, under the sequence nibble its sender chose. */
  datatype Sending = Sending(bytes: Bytes, nibble: nat)
  {
    predicate Split() {
      |bytes| > FRAME_PAYLOAD
    }
  }

  /** A frame that arrived: which packet's, which of its frames, and when. */
  datatype Arrival = Arrival(packet: nat, part: nat, time: u64)

  predicate Genuine(sent: seq<Sending>, a: Arrival) {
    a.packet < |sent| && |sent[a.packet].bytes| <= PACKET_MAX && a.part < if sent[a.packet].Split() then 2 else 1
  }

  function FrameOf(sent: seq<Sending>, a: Arrival): Bytes
    requires Genuine(sent, a)
  {
    Encode(sent[a.packet].bytes, sent[a.packet].nibble).value[a.part]
  }

  predicate Before(a: Arrival, b: Arrival) {
    a.time <= b.time && (a.packet < b.packet || (a.packet == b.packet && a.part < b.part))
  }

  predicate SameSequence(sent: seq<Sending>, a: Arrival, b: Arrival)
    requires a.packet < |sent| && b.packet < |sent|
  {
    sent[a.packet].Split() && sent[b.packet].Split()
      && sent[a.packet].nibble % NIBBLES == sent[b.packet].nibble % NIBBLES
  }

  /** Arrivals on a channel that loses frames but neither duplicates nor reorders them. */
  ghost predicate InOrder(sent: seq<Sending>, arrivals: seq<Arrival>) {
    && (forall i :: 0 <= i < |arrivals| ==> Genuine(sent, arrivals[i]))
    && (forall i, j :: 0 <= i < j < |arrivals| ==> Before(arrivals[i], arrivals[j]))
  }

  /** In-order arrivals in which different split packets under one sequence nibble are a timeout apart. */
  ghost predicate Heard(sent: seq<Sending>, timeout: u64, arrivals: seq<Arrival>) {
    && InOrder(sent, arrivals)
    && (forall i, j ::
          0 <= i < j < |arrivals| && arrivals[i].packet != arrivals[j].packet &&
          SameSequence(sent, arrivals[i], arrivals[j]) ==>
            arrivals[i].time + timeout <= arrivals[j].time)
  }

  /** The slot after these arrivals. */
  function SlotAfter(sent: seq<Sending>, timeout: u64, arrivals: seq<Arrival>): Option<Pending>
    requires forall i :: 0 <= i < |arrivals| ==> Genuine(sent, arrivals[i])
  {
    if arrivals == [] then None
    else
      var n := |arrivals| - 1;
      Received(SlotAfter(sent, timeout, arrivals[..n]), timeout, FrameOf(sent, arrivals[n]), arrivals[n].time).0
  }

  /** What the arrival at `k` emitted. */
  function EmittedAt(sent: seq<Sending>, timeout: u64, arrivals: seq<Arrival>, k: nat): Outcome
    requires k < |arrivals| && forall i :: 0 <= i < |arrivals| ==> Genuine(sent, arrivals[i])
  {
    Received(SlotAfter(sent, timeout, arrivals[..k]), timeout, FrameOf(sent, arrivals[k]), arrivals[k].time).1
  }

  /** Header and payload of an honest frame. */
  lemma FrameParts(sent: seq<Sending>, a: Arrival)
    requires Genuine(sent, a)
    ensures var f, s := FrameOf(sent, a), sent[a.packet];
      && |f| > 0 && f[0] / 16 == s.nibble % NIBBLES && (f[0] % 2 == 1 <==> s.Split())
      && f[1..] == (if !s.Split() then s.bytes else if a.part == 0 then s.bytes[..FRAME_PAYLOAD]
        else s.bytes[FRAME_PAYLOAD..])
  {
    var s := sent[a.packet];
    var n := s.nibble % NIBBLES;
    assert (n * 16) / 16 == n && (n * 16 + 1) / 16 == n && (n * 16) % 2 == 0 && (n * 16 + 1) % 2 == 1;
  }

  /** The slot holds the payload of the last arrival, a frame of a split packet. */
  ghost predicate Holds(sent: seq<Sending>, timeout: u64, slot: Option<Pending>, a: Arrival)
    requires Genuine(sent, a)
  {
    slot.Some? ==>
      && sent[a.packet].Split()
      && slot.value == Pending(sent[a.packet].nibble % NIBBLES, FrameOf(sent, a)[1..], SatAdd(a.time, timeout))
  }

  lemma SlotHoldsLast(sent: seq<Sending>, timeout: u64, arrivals: seq<Arrival>)
    requires InOrder(sent, arrivals) && arrivals != []
    ensures Holds(sent, timeout, SlotAfter(sent, timeout, arrivals), arrivals[|arrivals| - 1])
  {
    hide FrameOf;
    var n := |arrivals| - 1;
    FrameParts(sent, arrivals[n]);
  }

  lemma HeardPrefix(sent: seq<Sending>, timeout: u64, arrivals: seq<Arrival>, k: nat)
    requires Heard(sent, timeout, arrivals) && k <= |arrivals|
    ensures Heard(sent, timeout, arrivals[..k])
  {
  }

  /** A frame that completes the slot is the second frame of the packet the slot is from. */
  lemma Completes(sent: seq<Sending>, timeout: u64, arrivals: seq<Arrival>, k: nat)
    requires Heard(sent, timeout, arrivals) && k < |arrivals| && sent[arrivals[k].packet].Split()
    ensures var slot := Expired(SlotAfter(sent, timeout, arrivals[..k]), arrivals[k].time);
      slot.Some? && slot.value.sequence == sent[arrivals[k].packet].nibble % NIBBLES ==>
        k > 0 && arrivals[k - 1].packet == arrivals[k].packet && arrivals[k - 1].part == 0 && arrivals[k].part == 1
        && slot.value.first == sent[arrivals[k].packet].bytes[..FRAME_PAYLOAD]
  {
    hide FrameOf, SlotAfter;
    if k == 0 {
      assert SlotAfter(sent, timeout, arrivals[..0]) == None by { NothingYet(sent, timeout, arrivals); }
    } else {
      HeardPrefix(sent, timeout, arrivals, k);
      SlotHoldsLast(sent, timeout, arrivals[..k]);
      assert arrivals[..k][k - 1] == arrivals[k - 1];
      assert Before(arrivals[k - 1], arrivals[k]);
      FrameParts(sent, arrivals[k - 1]);
    }
  }

  lemma NothingYet(sent: seq<Sending>, timeout: u64, arrivals: seq<Arrival>)
    ensures arrivals[..0] == [] && SlotAfter(sent, timeout, arrivals[..0]) == None
  {
  }

  /** A packet whose frames arrive next to each other and in time is emitted whole. */
  lemma BothFramesArrive(sent: seq<Sending>, timeout: u64, arrivals: seq<Arrival>, k: nat)
    requires Heard(sent, timeout, arrivals) && k + 1 < |arrivals| && arrivals[k].packet == arrivals[k + 1].packet
    requires arrivals[k + 1].time < SatAdd(arrivals[k].time, timeout)
    ensures EmittedAt(sent, timeout, arrivals, k + 1) == Packet(sent[arrivals[k].packet].bytes)
  {
    hide FrameOf;
    var a, s := arrivals[k], sent[arrivals[k].packet];
    assert Before(a, arrivals[k + 1]);
    FrameParts(sent, a);
    FrameParts(sent, arrivals[k + 1]);
    assert arrivals[..k + 1][..k] == arrivals[..k] && arrivals[..k + 1][k] == a;
    hide SlotAfter;
    StepsTo(sent, timeout, arrivals, k);
    Completes(sent, timeout, arrivals, k);
    assert s.bytes[..FRAME_PAYLOAD] + s.bytes[FRAME_PAYLOAD..] == s.bytes;
  }

  lemma StepsTo(sent: seq<Sending>, timeout: u64, arrivals: seq<Arrival>, k: nat)
    requires k < |arrivals| && forall i :: 0 <= i < |arrivals| ==> Genuine(sent, arrivals[i])
    ensures SlotAfter(sent, timeout, arrivals[..k + 1]) == Received(SlotAfter(sent, timeout, arrivals[..k]), timeout,
      FrameOf(sent, arrivals[k]), arrivals[k].time).0
  {
    assert arrivals[..k + 1][..k] == arrivals[..k] && arrivals[..k + 1][k] == arrivals[k];
  }

  /** An unsplit packet is emitted whenever its frame arrives. */
  lemma SingleFrameArrives(sent: seq<Sending>, timeout: u64, arrivals: seq<Arrival>, k: nat)
    requires Heard(sent, timeout, arrivals) && k < |arrivals| && !sent[arrivals[k].packet].Split()
    ensures EmittedAt(sent, timeout, arrivals, k) == Packet(sent[arrivals[k].packet].bytes)
  {
    hide FrameOf, SlotAfter;
    FrameParts(sent, arrivals[k]);
  }

  // --- What the spacing is for ------------------------------------------------------------------

  /** The second frame finds the first in the slot, and the two payloads joined are not the second's packet. */
  predicate Clash(sent: seq<Sending>, timeout: u64, p: Arrival, q: Arrival) {
    && Genuine(sent, p) && Genuine(sent, q) && Before(p, q)
    && p.packet != q.packet && SameSequence(sent, p, q) && q.time < SatAdd(p.time, timeout)
    && FrameOf(sent, p)[1..] + FrameOf(sent, q)[1..] != sent[q.packet].bytes
  }

  /** What is left of `heard` when any of its frames are lost. */
  ghost predicate Part(sent: seq<Sending>, heard: seq<Arrival>, arrivals: seq<Arrival>) {
    InOrder(sent, arrivals) && forall i :: 0 <= i < |arrivals| ==> arrivals[i] in heard
  }

  /** Whichever frames are lost, only packets that were sent come out. */
  ghost predicate OnlySent(sent: seq<Sending>, timeout: u64, heard: seq<Arrival>) {
    forall arrivals: seq<Arrival>, k | Part(sent, heard, arrivals) && 0 <= k < |arrivals| ::
      EmittedAt(sent, timeout, arrivals, k) in {Nothing, Packet(sent[arrivals[k].packet].bytes)}
  }

  ghost predicate NoClash(sent: seq<Sending>, timeout: u64, heard: seq<Arrival>) {
    forall p, q :: p in heard && q in heard ==> !Clash(sent, timeout, p, q)
  }

  /** An arrival emits its own packet or nothing, unless it clashes with the arrival before it. */
  lemma EmitsOrClashes(sent: seq<Sending>, timeout: u64, arrivals: seq<Arrival>, k: nat)
    requires InOrder(sent, arrivals) && k < |arrivals|
    ensures EmittedAt(sent, timeout, arrivals, k) in {Nothing, Packet(sent[arrivals[k].packet].bytes)}
      || (k > 0 && Clash(sent, timeout, arrivals[k - 1], arrivals[k]))
  {
    hide FrameOf, SlotAfter;
    var s := sent[arrivals[k].packet];
    FrameParts(sent, arrivals[k]);
    if s.Split() {
      if k == 0 {
        NothingYet(sent, timeout, arrivals);
      } else {
        var p := arrivals[k - 1];
        SlotHoldsLast(sent, timeout, arrivals[..k]);
        assert arrivals[..k][k - 1] == p;
        assert Before(p, arrivals[k]);
        FrameParts(sent, p);
        assert s.bytes[..FRAME_PAYLOAD] + s.bytes[FRAME_PAYLOAD..] == s.bytes;
      }
    }
  }

  /** With nothing else heard, a clash emits what the second frame's packet is not. */
  lemma ClashEmits(sent: seq<Sending>, timeout: u64, p: Arrival, q: Arrival)
    requires Clash(sent, timeout, p, q)
    ensures InOrder(sent, [p, q])
    ensures EmittedAt(sent, timeout, [p, q], 1) == Packet(FrameOf(sent, p)[1..] + FrameOf(sent, q)[1..])
  {
    hide FrameOf, SlotAfter;
    FrameParts(sent, p);
    FrameParts(sent, q);
    StepsTo(sent, timeout, [p, q], 0);
    NothingYet(sent, timeout, [p, q]);
  }

  lemma ClashBreaks(sent: seq<Sending>, timeout: u64, heard: seq<Arrival>, p: Arrival, q: Arrival)
    requires Clash(sent, timeout, p, q) && p in heard && q in heard
    ensures !OnlySent(sent, timeout, heard)
  {
    hide FrameOf, SlotAfter, EmittedAt, Received;
    ClashEmits(sent, timeout, p, q);
    var arrivals := [p, q];
    assert Part(sent, heard, arrivals);
    assert EmittedAt(sent, timeout, arrivals, 1) !in {Nothing, Packet(sent[arrivals[1].packet].bytes)};
  }

  /** Only packets that were sent come out, whatever is lost, exactly when no two frames clash. */
  lemma OnlySentExactly(sent: seq<Sending>, timeout: u64, heard: seq<Arrival>)
    requires InOrder(sent, heard)
    ensures OnlySent(sent, timeout, heard) <==> NoClash(sent, timeout, heard)
  {
    hide FrameOf, SlotAfter, EmittedAt, Received;
    if OnlySent(sent, timeout, heard) {
      forall p, q | p in heard && q in heard ensures !Clash(sent, timeout, p, q) {
        if Clash(sent, timeout, p, q) {
          ClashBreaks(sent, timeout, heard, p, q);
        }
      }
    }
    if NoClash(sent, timeout, heard) {
      forall arrivals: seq<Arrival>, k | Part(sent, heard, arrivals) && 0 <= k < |arrivals|
        ensures EmittedAt(sent, timeout, arrivals, k) in {Nothing, Packet(sent[arrivals[k].packet].bytes)}
      {
        EmitsOrClashes(sent, timeout, arrivals, k);
      }
    }
  }

  /** The spacing is enough. */
  lemma SpacedNeverClash(sent: seq<Sending>, timeout: u64, heard: seq<Arrival>)
    requires Heard(sent, timeout, heard)
    ensures NoClash(sent, timeout, heard)
  {
    hide FrameOf;
    forall p, q | p in heard && q in heard ensures !Clash(sent, timeout, p, q) {
      var i :| 0 <= i < |heard| && heard[i] == p;
      var j :| 0 <= j < |heard| && heard[j] == q;
      if j <= i {
        assert j == i || Before(heard[j], heard[i]);
      }
    }
  }

  /** Every packet the receiver emits is the one that was sent; honest frames never fail. */
  lemma EmittedWasSent(sent: seq<Sending>, timeout: u64, arrivals: seq<Arrival>, k: nat)
    requires Heard(sent, timeout, arrivals) && k < |arrivals|
    ensures EmittedAt(sent, timeout, arrivals, k) in {Nothing, Packet(sent[arrivals[k].packet].bytes)}
  {
    hide FrameOf, SlotAfter, EmittedAt, Received, Clash;
    SpacedNeverClash(sent, timeout, arrivals);
    EmitsOrClashes(sent, timeout, arrivals, k);
  }

  /** Two split packets under one nibble, too close, are emitted as one that neither was. */
  lemma TooCloseMixes(a: Sending, b: Sending, timeout: u64)
    requires a.Split() && b.Split() && |a.bytes| <= PACKET_MAX && |b.bytes| <= PACKET_MAX && timeout > 1
    requires a.nibble % NIBBLES == b.nibble % NIBBLES && a.bytes[..FRAME_PAYLOAD] != b.bytes[..FRAME_PAYLOAD]
    requires a.bytes[FRAME_PAYLOAD..] != b.bytes[FRAME_PAYLOAD..]
    ensures var arrivals := [Arrival(0, 0, 0), Arrival(1, 1, 1)];
      var mixed := a.bytes[..FRAME_PAYLOAD] + b.bytes[FRAME_PAYLOAD..];
      && InOrder([a, b], arrivals) && EmittedAt([a, b], timeout, arrivals, 1) == Packet(mixed)
      && mixed !in {a.bytes, b.bytes}
  {
    hide FrameOf, SlotAfter;
    var sent, p, q := [a, b], Arrival(0, 0, 0), Arrival(1, 1, 1);
    FrameParts(sent, p);
    FrameParts(sent, q);
    var mixed := a.bytes[..FRAME_PAYLOAD] + b.bytes[FRAME_PAYLOAD..];
    assert mixed[..FRAME_PAYLOAD] == a.bytes[..FRAME_PAYLOAD];
    assert mixed[FRAME_PAYLOAD..] == b.bytes[FRAME_PAYLOAD..];
    ClashEmits(sent, timeout, p, q);
  }
}
