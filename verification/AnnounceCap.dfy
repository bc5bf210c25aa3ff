/** The per-interface announce cap: spacing after a release, and the airtime it leaves. */
module AnnounceCap {
  import opened Base

  type u32 = x: int | 0 <= x <= U32_MAX

  /** A cap of zero counts as one permille. */
  function CapFloor(cap: nat): (c: nat)
    ensures c >= 1
  {
    if cap == 0 then 1 else cap
  }

  function DivCeil(a: nat, b: nat): (q: nat)
    requires b > 0
    ensures a <= q * b && (q > 0 ==> (q - 1) * b < a)
  {
    Ceil(a, b);
    (a + b - 1) / b
  }

  lemma Ceil(a: nat, b: nat)
    requires b > 0
    ensures var q := (a + b - 1) / b; a <= q * b && (q > 0 ==> (q - 1) * b < a)
  {
    var q, r := (a + b - 1) / b, (a + b - 1) % b;
    assert a + b - 1 == q * b + r;
    assert (q - 1) * b == q * b - b;
  }

  function SatMul(a: u64, b: nat): (r: u64)
    ensures r <= a * b
  {
    if a * b <= U64_MAX then a * b else U64_MAX
  }

  /**
   A release that keeps its interface busy for `work / (1000 * unit)` milliseconds: with a modem the
   unit is one and the work a thousand times the airtime; otherwise the unit is the bit rate and the
   work eight million per byte, saturating at 64 bits.
   */
  datatype Release = Release(time: u64, work: nat)

  /** What an interface charges for: its modem's airtime, or a bit rate. */
  datatype Pace = Modem(airtime: nat -> u32) | Bits(rate: u64)
  {
    function Unit(): nat {
      if Modem? then 1 else rate
    }

    function Work(size: nat): nat {
      if Modem? then airtime(size) * 1000 else SatMul(8_000_000, size)
    }

    /** `lora_spacing_ms` and `bitrate_spacing_ms`; without a bit rate nothing is charged. */
    function Spacing(size: nat, cap: nat): (s: u64)
      ensures Unit() > 0 ==> Work(size) <= s * (CapFloor(cap) * Unit())
    {
      match this
      case Modem(f) =>
        var tx := f(size) * 1000;
        QuotientBound(tx, CapFloor(cap));
        DivCeil(tx, CapFloor(cap))
      case Bits(rate) =>
        if rate == 0 then 0
        else
          var work, d := SatMul(8_000_000, size), SatMul(rate, CapFloor(cap));
          Divides(rate, cap, work);
          QuotientBound(work, d);
          DivCeil(work, d)
    }
  }

  /**
   Work is airtime, a thousandfold and in the unit: a modem's own milliseconds, else eight bits a byte at the bit
   rate, as long as that fits 64 bits.
   */
  lemma WorkIsAirtime(pace: Pace, size: nat, ms: nat)
    requires match pace
      case Modem(f) => ms == f(size)
      case Bits(rate) => ms * rate == 8 * size * 1000 && 8 * size * 1_000_000 <= U64_MAX
    ensures pace.Work(size) == 1000 * (ms * pace.Unit())
  {
  }

  /** The spacing is no longer than the cap asks for: a millisecond less would not pay for the work. */
  lemma SpacingIsTight(pace: Pace, size: nat, cap: nat)
    requires pace.Bits? ==> pace.rate * CapFloor(cap) <= U64_MAX && pace.rate > 0
    ensures var s := pace.Spacing(size, cap); s > 0 ==> (s - 1) * (CapFloor(cap) * pace.Unit()) < pace.Work(size)
  {
    hide DivCeil;
    var d := CapFloor(cap) * pace.Unit();
    if pace.Bits? {
      assert d == pace.rate * CapFloor(cap);
      assert d >= pace.rate;
    }
    Ceil(pace.Work(size), d);
  }

  lemma IsCeil(a: nat, b: nat)
    requires b > 0
    ensures DivCeil(a, b) == (a + b - 1) / b
  {
  }

  lemma QuotientBound(a: nat, b: nat)
    requires b > 0
    ensures DivCeil(a, b) <= a
  {
    hide DivCeil;
    Ceil(a, b);
    var q := (a + b - 1) / b;
    if q > 0 {
      Scale(q - 1, 1, b);
    }
    IsCeil(a, b);
  }

  lemma Divides(rate: u64, cap: nat, work: u64)
    requires rate > 0
    ensures var d := SatMul(rate, CapFloor(cap)); d > 0 && work <= DivCeil(work, d) * (CapFloor(cap) * rate)
  {
    assert rate * CapFloor(cap) >= rate;
    var d, q := SatMul(rate, CapFloor(cap)), DivCeil(work, SatMul(rate, CapFloor(cap)));
    assert q * d <= q * (CapFloor(cap) * rate) by { Scale(q, d, CapFloor(cap) * rate); }
  }

  /**
   Releases of one interface since its registration, with the gate as the last one left it: each was
   let through no earlier than the one before it had paid for. `rate` is cap times unit.
   */
  ghost predicate InStep(run: seq<Release>, gate: u64, rate: nat) {
    && (forall i :: 0 <= i < |run| - 1 ==> Paid(run[i], run[i + 1].time, rate))
    && (|run| > 0 ==> gate == U64_MAX || Paid(run[|run| - 1], gate, rate))
  }

  predicate Paid(r: Release, until: u64, rate: nat) {
    r.time <= until && r.work <= rate * (until - r.time)
  }

  /** A release through an open gate, charged for, keeps the run in step, unless time has run out. */
  lemma ReleaseInStep(run: seq<Release>, gate: u64, rate: nat, r: Release, spacing: u64)
    requires InStep(run, gate, rate) && gate <= r.time < U64_MAX && r.work <= spacing * rate
    ensures InStep(run + [r], SatAdd(r.time, spacing), rate)
  {
    var next := run + [r];
    if |run| > 0 {
      var last := run[|run| - 1];
      assert Paid(last, gate, rate);
      Scale(rate, gate - last.time, r.time - last.time);
      assert Paid(last, r.time, rate);
    }
    forall i | 0 <= i < |next| - 1 ensures Paid(next[i], next[i + 1].time, rate) {
      if i < |run| - 1 {
        assert Paid(run[i], run[i + 1].time, rate);
      }
    }
    if SatAdd(r.time, spacing) != U64_MAX {
      assert rate * spacing == spacing * rate;
    }
  }

  ghost function TotalWork(run: seq<Release>): nat {
    if run == [] then 0 else TotalWork(run[..|run| - 1]) + run[|run| - 1].work
  }

  /**
   The announce cap: the airtime of all releases but the last, a thousandfold, is at most the cap in
   permille times the time between the first and the last.
   */
  lemma {:induction false} AirtimeCapped(run: seq<Release>, gate: u64, cap: nat, unit: nat)
    requires InStep(run, gate, CapFloor(cap) * unit) && |run| > 0
    ensures run[0].time <= run[|run| - 1].time
    ensures TotalWork(run[..|run| - 1]) <= CapFloor(cap) * unit * (run[|run| - 1].time - run[0].time)
  {
    hide CapFloor;
    var n, rate := |run| - 1, CapFloor(cap) * unit;
    if n > 0 {
      var init := run[..n];
      forall i | 0 <= i < |init| - 1 ensures Paid(init[i], init[i + 1].time, rate) {
        assert Paid(run[i], run[i + 1].time, rate);
      }
      assert Paid(run[n - 1], run[n].time, rate);
      AirtimeCapped(init, run[n].time, cap, unit);
      assert init[..n - 1] == run[..n - 1];
      assert TotalWork(run[..n]) == TotalWork(init[..n - 1]) + run[n - 1].work;
      Spread(rate, run[n - 1].time - run[0].time, run[n].time - run[n - 1].time);
    }
  }

  lemma Spread(rate: nat, a: nat, b: nat)
    ensures rate * a + rate * b == rate * (a + b)
  {
  }

  /** Any stretch of releases is in step by itself. */
  lemma StretchInStep(run: seq<Release>, gate: u64, rate: nat, i: nat, j: nat)
    requires InStep(run, gate, rate) && i <= j < |run|
    ensures InStep(run[i..j + 1], U64_MAX, rate)
  {
    var part := run[i..j + 1];
    forall k | 0 <= k < |part| - 1 ensures Paid(part[k], part[k + 1].time, rate) {
      assert Paid(run[i + k], run[i + k + 1].time, rate);
    }
  }

  /** The cap holds over every stretch of releases, from any of them to any later one. */
  lemma StretchCapped(run: seq<Release>, gate: u64, cap: nat, unit: nat, i: nat, j: nat)
    requires InStep(run, gate, CapFloor(cap) * unit) && i <= j < |run|
    ensures run[i].time <= run[j].time
    ensures TotalWork(run[i..j]) <= CapFloor(cap) * unit * (run[j].time - run[i].time)
  {
    hide InStep, TotalWork;
    var part := run[i..j + 1];
    StretchInStep(run, gate, CapFloor(cap) * unit, i, j);
    AirtimeCapped(part, U64_MAX, cap, unit);
    assert part[..|part| - 1] == run[i..j];
  }
}
