/** Wrapping OA hardware counters turned into 64-bit totals (lib/gputop-oa-counters.c, .h).

    A report is 64 words of 32 bits.  Two report layouts exist; each accumulator slot is fed from
    one report word, and on the newer layout 32 of the slots take 8 more bits from a byte table.
 */
module OaCounters {
  import opened Common

  const U32: nat := 0x1_0000_0000
  const U40: nat := 0x100_0000_0000
  const U64: nat := 0x1_0000_0000_0000_0000
  const NS_PER_SECOND: nat := 1_000_000_000
  const MAX_RAW_OA_COUNTERS: nat := 62

  type Word = w: nat | w < U32
  type Report = r: seq<Word> | |r| == 64 witness seq(64, _ => 0)

  /** A45 is I915_OA_FORMAT_A45_B8_C8 (Haswell), A32u40 is I915_OA_FORMAT_A32u40_A4u32_B8_C8. */
  datatype Format = A45 | A32u40

  /** What is left of a value in a 64-bit (32-bit) unsigned variable. */
  function Wrap64(x: int): nat {
    x % U64
  }

  function Wrap32(x: int): Word {
    x % U32
  }

  // ---------------------------------------------------------------- layouts

  function SlotCount(f: Format): nat {
    match f case A45 => 62 case A32u40 => 54
  }

  /** The report word whose growth ends up in an accumulator slot. */
  function SourceWord(f: Format, slot: nat): nat
    requires slot < SlotCount(f)
  {
    match f
    case A45 => if slot == 0 then 1 else slot + 2
    case A32u40 =>
      if slot == 0 then 1
      else if slot == 1 then 3
      else if slot < 38 then slot + 2
      else slot + 10
  }

  predicate Is40Bit(f: Format, slot: nat) {
    f == A32u40 && 2 <= slot < 34
  }

  function Width(f: Format, slot: nat): nat {
    if Is40Bit(f, slot) then U40 else U32
  }

  /** Byte i of the table of high bytes that starts at word 40 (little endian). */
  function HighByte(r: Report, i: nat): (b: nat)
    requires i < 32
    ensures b < 256
  {
    var w := r[40 + i / 4];
    var shifted := if i % 4 == 0 then w else if i % 4 == 1 then w / 0x100
                   else if i % 4 == 2 then w / 0x1_0000 else w / 0x100_0000;
    shifted % 256
  }

  /** What the hardware counter behind a slot shows in a report. */
  function Raw(f: Format, slot: nat, r: Report): (v: nat)
    requires slot < SlotCount(f)
    ensures v < Width(f, slot)
  {
    var low := r[SourceWord(f, slot)];
    if Is40Bit(f, slot) then HighByte(r, slot - 2) * U32 + low else low
  }

  /** Growth of a wrapping counter between two reports. */
  function Delta(f: Format, slot: nat, r0: Report, r1: Report): (d: nat)
    requires slot < SlotCount(f)
    ensures d < Width(f, slot)
  {
    (Raw(f, slot, r1) - Raw(f, slot, r0)) % Width(f, slot)
  }

  // ------------------------------------------------------------ the 32-bit clock

  /** gputop_timebase_scale_ns: the product is taken in 64 bits. */
  function ScaleNs(freq: nat, ticks: nat): nat
    requires freq > 0
  {
    Wrap64(ticks * NS_PER_SECOND) / freq
  }

  datatype Clock = Clock(start: nat, timestamp: nat, lastU32: Word, count: nat)

  function ClockInit(freq: nat, u32: Word): Clock
    requires freq > 0
  {
    Clock(ScaleNs(freq, u32), ScaleNs(freq, u32), u32, 0)
  }

  function ClockProgress(freq: nat, c: Clock, u32Start: Word, u32End: Word): Clock
    requires freq > 0
  {
    Clock(c.start,
          Wrap64(c.timestamp + ScaleNs(freq, Wrap32(u32End - c.lastU32))),
          u32End,
          Wrap64(c.count + Wrap32(u32End - u32Start)))
  }

  // ------------------------------------------------------------ the accumulator

  datatype Accumulator = Accumulator(deltas: seq<nat>, first: nat, last: nat, clock: Clock, clockSet: bool)

  predicate WellFormed(a: Accumulator) {
    |a.deltas| == MAX_RAW_OA_COUNTERS
  }

  function Zeroes(): seq<nat> {
    seq(MAX_RAW_OA_COUNTERS, _ => 0)
  }

  /** gputop_cc_oa_accumulator_init with a first report. */
  function Init(freq: nat, firstReport: Report): (a: Accumulator)
    requires freq > 0
    ensures WellFormed(a)
  {
    var c := ClockInit(freq, firstReport[1]);
    Accumulator(Zeroes(), c.timestamp, 0, c, true)
  }

  /** gputop_cc_oa_accumulator_init with a NULL first report. */
  function InitBlank(): Accumulator {
    Accumulator(Zeroes(), 0, 0, Clock(0, 0, 0, 0), false)
  }

  /** Reports with a zero timestamp are taken as spurious. */
  predicate Usable(r0: Report, r1: Report) {
    r0[1] != 0 && r1[1] != 0
  }

  function AddDeltas(f: Format, deltas: seq<nat>, r0: Report, r1: Report): (d: seq<nat>)
    requires |deltas| == MAX_RAW_OA_COUNTERS
  {
    seq(MAX_RAW_OA_COUNTERS, s requires 0 <= s < MAX_RAW_OA_COUNTERS =>
      if s < SlotCount(f) then Wrap64(deltas[s] + Delta(f, s, r0, r1)) else deltas[s])
  }

  /** What one pair of reports does to an accumulator. */
  function Accumulate(f: Format, freq: nat, a: Accumulator, r0: Report, r1: Report): (b: Accumulator)
    requires freq > 0 && WellFormed(a)
    ensures WellFormed(b)
  {
    if !Usable(r0, r1) then a else
      var clock := if a.clockSet then a.clock else ClockInit(freq, r0[1]);
      var first := if a.first == 0 then clock.timestamp else a.first;
      var clock' := ClockProgress(freq, clock, r0[1], r1[1]);
      Accumulator(AddDeltas(f, a.deltas, r0, r1), first, clock'.timestamp, clock', true)
  }

  // ------------------------------------------------------------ the code, in place

  class U32Clock {
    var start: nat
    var timestamp: nat
    var lastU32: Word
    var clockCount: nat
    var initialised: bool

    ghost function State(): Clock
      reads this
    {
      Clock(start, timestamp, lastU32, clockCount)
    }

    constructor ()
      ensures !initialised && State() == Clock(0, 0, 0, 0)
    {
      start, timestamp, lastU32, clockCount, initialised := 0, 0, 0, 0, false;
    }

    method Init(freq: nat, u32Start: Word)
      requires freq > 0
      modifies this
      ensures initialised && State() == ClockInit(freq, u32Start)
    {
      timestamp := Wrap64(u32Start * NS_PER_SECOND) / freq;
      start := timestamp;
      lastU32 := u32Start;
      clockCount := 0;
      initialised := true;
    }

    method Progress(freq: nat, u32StartTimestamp: Word, u32EndTimestamp: Word)
      requires freq > 0
      modifies this
      ensures initialised == old(initialised)
      ensures State() == ClockProgress(freq, old(State()), u32StartTimestamp, u32EndTimestamp)
    {
      var delta: nat := Wrap32(u32EndTimestamp - lastU32);
      timestamp := Wrap64(timestamp + Wrap64(delta * NS_PER_SECOND) / freq);
      lastU32 := u32EndTimestamp;
      clockCount := Wrap64(clockCount + Wrap32(u32EndTimestamp - u32StartTimestamp));
    }
  }

  class OaAccumulator {
    const format: Format
    const freq: nat
    const clock: U32Clock
    const deltas: array<nat>
    var firstTimestamp: nat
    var lastTimestamp: nat

    ghost predicate Valid()
      reads this
    {
      freq > 0 && deltas.Length == MAX_RAW_OA_COUNTERS
    }

    ghost function State(): Accumulator
      reads this, clock, deltas
    {
      Accumulator(deltas[..], firstTimestamp, lastTimestamp, clock.State(), clock.initialised)
    }

    constructor (format: Format, freq: nat)
      requires freq > 0
      ensures Valid() && fresh(clock) && fresh(deltas)
      ensures this.format == format && this.freq == freq && State() == InitBlank()
    {
      this.format, this.freq := format, freq;
      clock := new U32Clock();
      deltas := new nat[MAX_RAW_OA_COUNTERS](_ => 0);
      firstTimestamp, lastTimestamp := 0, 0;
      new;
      assert deltas[..] == Zeroes();
    }

    method AccumulateUint32(word: nat, r0: Report, r1: Report, slot: nat)
      requires Valid() && slot < SlotCount(format)
      requires !Is40Bit(format, slot) && word == SourceWord(format, slot)
      modifies deltas
      ensures deltas[..] == old(deltas[..])[slot := Wrap64(old(deltas[slot]) + Delta(format, slot, r0, r1))]
    {
      deltas[slot] := Wrap64(deltas[slot] + Wrap32(r1[word] as int - r0[word]));
    }

    /** The 40-bit form takes the wrap with a comparison instead of a truncation. */
    method AccumulateUint40(aIndex: nat, r0: Report, r1: Report, slot: nat)
      requires Valid() && format == A32u40 && aIndex < 32 && slot == aIndex + 2
      modifies deltas
      ensures deltas[..] == old(deltas[..])[slot := Wrap64(old(deltas[slot]) + Delta(format, slot, r0, r1))]
    {
      var value0 := r0[aIndex + 4] + HighByte(r0, aIndex) * U32;
      var value1 := r1[aIndex + 4] + HighByte(r1, aIndex) * U32;
      var delta: nat;
      if value0 > value1 {
        delta := U40 + value1 - value0;
      } else {
        delta := value1 - value0;
      }
      assert value0 == Raw(format, slot, r0) && value1 == Raw(format, slot, r1);
      WrapOnce(value0, value1, U40);
      deltas[slot] := Wrap64(deltas[slot] + delta);
    }

    /** The first n slots have taken their growth, the others are as they were. */
    ghost predicate Done(before: seq<nat>, n: nat, r0: Report, r1: Report)
      requires |before| == MAX_RAW_OA_COUNTERS == deltas.Length
      reads this, deltas
    {
      && (forall s :: 0 <= s < n && s < SlotCount(format) ==> deltas[s] == Wrap64(before[s] + Delta(format, s, r0, r1)))
      && (forall s :: n <= s < MAX_RAW_OA_COUNTERS ==> deltas[s] == before[s])
    }

    /** A run of 32-bit counters in consecutive words. */
    method AccumulateRun(ghost before: seq<nat>, word: nat, slot: nat, count: nat, r0: Report, r1: Report)
      requires Valid() && |before| == MAX_RAW_OA_COUNTERS && slot + count <= SlotCount(format)
      requires forall s :: slot <= s < slot + count ==>
                 !Is40Bit(format, s) && SourceWord(format, s) == word + (s - slot)
      requires Done(before, slot, r0, r1)
      modifies deltas
      ensures Done(before, slot + count, r0, r1)
    {
      hide Delta, Raw, HighByte, Wrap64;
      for i := 0 to count
        invariant Done(before, slot + i, r0, r1)
      {
        AccumulateUint32(word + i, r0, r1, slot + i);
      }
    }

    method AccumulateA32u40(r0: Report, r1: Report)
      requires Valid() && format == A32u40
      modifies deltas
      ensures deltas[..] == AddDeltas(format, old(deltas[..]), r0, r1)
    {
      hide Delta, Raw, HighByte, Wrap64;
      ghost var before := deltas[..];
      AccumulateUint32(1, r0, r1, 0);
      AccumulateUint32(3, r0, r1, 1);
      var idx := 2;
      for i := 0 to 32
        invariant idx == 2 + i && Done(before, idx, r0, r1)
      {
        AccumulateUint40(i, r0, r1, idx);
        idx := idx + 1;
      }
      AccumulateRun(before, 36, 34, 4, r0, r1);
      AccumulateRun(before, 48, 38, 16, r0, r1);
    }

    method AccumulateA45(r0: Report, r1: Report)
      requires Valid() && format == A45
      modifies deltas
      ensures deltas[..] == AddDeltas(format, old(deltas[..]), r0, r1)
    {
      hide Delta, Raw, HighByte, Wrap64;
      ghost var before := deltas[..];
      AccumulateUint32(1, r0, r1, 0);
      AccumulateRun(before, 3, 1, 61, r0, r1);
    }

    method AccumulateReports(r0: Report, r1: Report) returns (ok: bool)
      requires Valid()
      modifies this, clock, deltas
      ensures Valid()
      ensures ok == Usable(r0, r1)
      ensures State() == Accumulate(format, freq, old(State()), r0, r1)
    {
      if r0[1] == 0 || r1[1] == 0 {
        return false;
      }
      if !clock.initialised {
        clock.Init(freq, r0[1]);
      }
      if firstTimestamp == 0 {
        firstTimestamp := clock.timestamp;
      }
      match format {
        case A32u40 => AccumulateA32u40(r0, r1);
        case A45 => AccumulateA45(r0, r1);
      }
      clock.Progress(freq, r0[1], r1[1]);
      lastTimestamp := clock.timestamp;
      return true;
    }
  }

  lemma WrapOnce(v0: nat, v1: nat, w: nat)
    requires v0 < w && v1 < w
    ensures (v1 - v0) % w == if v0 > v1 then w + v1 - v0 else v1 - v0
  {
    if v0 > v1 {
      ModUnique(v1 - v0, w, -1, w + v1 - v0);
    } else {
      ModUnique(v1 - v0, w, 0, v1 - v0);
    }
  }

  // ------------------------------------------------------------ what the totals mean

  /** The eight words from word 40 on are made of the 32 high bytes, the lowest byte of a word first. */
  lemma HighBytesOfWord(r: Report, j: nat)
    requires j < 8
    ensures r[40 + j] == HighByte(r, 4 * j) + 0x100 * HighByte(r, 4 * j + 1) + 0x1_0000 * HighByte(r, 4 * j + 2)
                         + 0x100_0000 * HighByte(r, 4 * j + 3)
  {
    FourBytes(r[40 + j]);
    assert HighByte(r, 4 * j) == r[40 + j] % 256;
  }

  lemma FourBytes(w: Word)
    ensures w == w % 256 + 0x100 * (w / 0x100 % 256) + 0x1_0000 * (w / 0x1_0000 % 256) + 0x100_0000 * (w / 0x100_0000)
    ensures w / 0x100_0000 < 256
  {
  }

  /** What is seen of a counter: its word, and for the 32 counters that have one its high byte above it. */
  lemma RawParts(f: Format, slot: nat, r: Report)
    requires slot < SlotCount(f)
    ensures Raw(f, slot, r) % U32 == r[SourceWord(f, slot)]
    ensures Raw(f, slot, r) / U32 == if f == A32u40 && 2 <= slot < 34 then HighByte(r, slot - 2) else 0
  {
    hide HighByte;
    var low := r[SourceWord(f, slot)];
    var high := if Is40Bit(f, slot) then HighByte(r, slot - 2) else 0;
    ModUnique(Raw(f, slot, r), U32, high, low);
  }

  /** A pair of reports counts unless one of them has a zero stamp: then nothing changes at all. */
  lemma ZeroStampSkipped(f: Format, freq: nat, a: Accumulator, r0: Report, r1: Report)
    requires freq > 0 && WellFormed(a)
    ensures r0[1] == 0 || r1[1] == 0 ==> Accumulate(f, freq, a, r0, r1) == a
    ensures r0[1] != 0 && r1[1] != 0 ==>
              var b := Accumulate(f, freq, a, r0, r1);
              && b.clock.lastU32 == r1[1] && b.last == b.clock.timestamp
              && (a.first != 0 ==> b.first == a.first) && (a.first == 0 && a.clockSet ==> b.first == a.clock.timestamp)
              && (forall slot :: 0 <= slot < SlotCount(f) ==>
                    b.deltas[slot] == Wrap64(a.deltas[slot] + Delta(f, slot, r0, r1)))
  {
    hide Delta, Wrap64, Wrap32, ScaleNs;
  }

  /** Pairwise accumulation of a run of reports. */
  function AccumulateAll(f: Format, freq: nat, a: Accumulator, reports: seq<Report>): (b: Accumulator)
    requires freq > 0 && WellFormed(a) && |reports| > 0
    ensures WellFormed(b)
  {
    var n := |reports|;
    if n == 1 then a
    else Accumulate(f, freq, AccumulateAll(f, freq, a, reports[..n - 1]), reports[n - 2], reports[n - 1])
  }

  /** The reports show unbounded counters `truth[k][slot]` through their narrow registers, and no
      counter grows by a full register width between two neighbours. */
  ghost predicate Sampled(f: Format, reports: seq<Report>, truth: seq<seq<nat>>) {
    && |reports| == |truth|
    && (forall k :: 0 <= k < |truth| ==> |truth[k]| == SlotCount(f) && reports[k][1] != 0)
    && (forall k, s :: 0 <= k < |truth| && 0 <= s < SlotCount(f) ==>
          Raw(f, s, reports[k]) == truth[k][s] % Width(f, s))
    && (forall k :: 0 < k < |truth| ==> Grows(f, truth[k - 1], truth[k]))
  }

  ghost predicate Grows(f: Format, t0: seq<nat>, t1: seq<nat>) {
    |t0| == |t1| == SlotCount(f) && forall s :: 0 <= s < |t1| ==> t0[s] <= t1[s] < t0[s] + Width(f, s)
  }

  lemma NarrowDifference(t0: nat, t1: nat, w: nat)
    requires w > 0 && t0 <= t1 < t0 + w
    ensures (t1 % w - t0 % w) % w == t1 - t0
  {
    var d := t1 - t0;
    var r0, r1 := t0 % w, t1 % w;
    if r0 + d < w {
      ModUnique(t1, w, t0 / w, r0 + d);
    } else {
      ModUnique(t1, w, t0 / w + 1, r0 + d - w);
    }
    WrapOnce(r0, r1, w);
  }

  /** No growth is lost or counted twice, whatever wraps on the way. */
  lemma SampledParts(f: Format, reports: seq<Report>, truth: seq<seq<nat>>)
    requires Sampled(f, reports, truth) && |reports| > 0
    ensures |truth| == |reports| && (forall k :: 0 <= k < |truth| ==> |truth[k]| == SlotCount(f))
    ensures |reports| > 1 ==>
              var n := |reports|; Usable(reports[n - 2], reports[n - 1]) && Sampled(f, reports[..n - 1], truth[..n - 1])
  {
    hide Raw, Width, Grows;
    if |reports| > 1 {
      var n := |reports|;
      var r, t := reports[..n - 1], truth[..n - 1];
      forall k | 0 < k < |t| ensures Grows(f, t[k - 1], t[k]) {
        assert Grows(f, truth[k - 1], truth[k]);
      }
      assert reports[n - 2][1] != 0 by { assert truth[n - 2] == truth[n - 2]; }
    }
  }

  lemma {:induction false} TotalsAreTrueGrowth(f: Format, freq: nat, a: Accumulator, reports: seq<Report>,
                                               truth: seq<seq<nat>>, slot: nat)
    requires freq > 0 && WellFormed(a) && |reports| > 0 && slot < SlotCount(f)
    requires Sampled(f, reports, truth) && a.deltas[slot] < U64
    ensures truth[|truth| - 1][slot] >= truth[0][slot]
    ensures AccumulateAll(f, freq, a, reports).deltas[slot]
         == Wrap64(a.deltas[slot] + (truth[|truth| - 1][slot] - truth[0][slot]))
  {
    hide Accumulate, Delta, Sampled, Wrap64;
    var n := |reports|;
    SampledParts(f, reports, truth);
    if n == 1 {
      WrapSmall(a.deltas[slot]);
    } else {
      TotalsAreTrueGrowth(f, freq, a, reports[..n - 1], truth[..n - 1], slot);
      var before := AccumulateAll(f, freq, a, reports[..n - 1]);
      DeltaIsTrueStep(f, reports, truth, n - 1, slot);
      var step := truth[n - 1][slot] - truth[n - 2][slot];
      AccumulateSlot(f, freq, before, reports[n - 2], reports[n - 1], slot);
      ModSum(a.deltas[slot] + (truth[n - 2][slot] - truth[0][slot]), step);
    }
  }

  lemma AccumulateSlot(f: Format, freq: nat, a: Accumulator, r0: Report, r1: Report, slot: nat)
    requires freq > 0 && WellFormed(a) && slot < SlotCount(f) && Usable(r0, r1)
    ensures Accumulate(f, freq, a, r0, r1).deltas[slot] == Wrap64(a.deltas[slot] + Delta(f, slot, r0, r1))
  {
    hide ClockProgress, ClockInit, Delta;
  }

  lemma DeltaIsTrueStep(f: Format, reports: seq<Report>, truth: seq<seq<nat>>, k: nat, slot: nat)
    requires Sampled(f, reports, truth) && slot < SlotCount(f) && 0 < k < |reports|
    ensures truth[k - 1][slot] <= truth[k][slot]
    ensures Delta(f, slot, reports[k - 1], reports[k]) == truth[k][slot] - truth[k - 1][slot]
  {
    hide Raw, Width;
    assert Grows(f, truth[k - 1], truth[k]);
    NarrowDifference(truth[k - 1][slot], truth[k][slot], Width(f, slot));
    assert Raw(f, slot, reports[k]) == truth[k][slot] % Width(f, slot);
    assert Raw(f, slot, reports[k - 1]) == truth[k - 1][slot] % Width(f, slot);
  }

  lemma WrapSmall(x: nat)
    requires x < U64
    ensures Wrap64(x) == x
  {
    ModUnique(x, U64, 0, x);
  }

  lemma ModSum(x: int, y: int)
    ensures Wrap64(Wrap64(x) + y) == Wrap64(x + y)
  {
    ModUnique(x + y, U64, x / U64 + (x % U64 + y) / U64, (x % U64 + y) % U64);
  }

  /** The clock's tick count and the timestamp slot are the same number. */
  lemma {:induction false} ClockCountIsTimestampSlot(f: Format, freq: nat, first: Report, reports: seq<Report>)
    requires freq > 0 && |reports| > 0
    ensures var a := AccumulateAll(f, freq, Init(freq, first), reports); a.clockSet && a.clock.count == a.deltas[0]
  {
    hide Accumulate;
    var n := |reports|;
    if n > 1 {
      ClockCountIsTimestampSlot(f, freq, first, reports[..n - 1]);
      CountStep(f, freq, AccumulateAll(f, freq, Init(freq, first), reports[..n - 1]), reports[n - 2], reports[n - 1]);
    }
  }

  lemma CountStep(f: Format, freq: nat, a: Accumulator, r0: Report, r1: Report)
    requires freq > 0 && WellFormed(a) && a.clockSet && a.clock.count == a.deltas[0]
    ensures var b := Accumulate(f, freq, a, r0, r1); b.clockSet && b.clock.count == b.deltas[0]
  {
    if Usable(r0, r1) {
      AccumulateSlot(f, freq, a, r0, r1, 0);
      assert Delta(f, 0, r0, r1) == Wrap32(r1[1] as int - r0[1]);
    }
  }

  // ------------------------------------------------------------ accuracy of the clock

  function Sum(d: seq<nat>): nat {
    if d == [] then 0 else Sum(d[..|d| - 1]) + d[|d| - 1]
  }

  /** The time that a number of ticks really takes, in whole nanoseconds. */
  function Nanos(freq: nat, ticks: nat): nat
    requires freq > 0
  {
    ticks * NS_PER_SECOND / freq
  }

  lemma NanosZero(freq: nat)
    requires freq > 0
    ensures Nanos(freq, 0) == 0
  {
  }

  lemma NanosSum(freq: nat, x: nat, y: nat)
    requires freq > 0
    ensures Nanos(freq, x) + Nanos(freq, y) <= Nanos(freq, x + y) <= Nanos(freq, x) + Nanos(freq, y) + 1
  {
    FloorSum(x * NS_PER_SECOND, y * NS_PER_SECOND, freq);
    assert (x + y) * NS_PER_SECOND == x * NS_PER_SECOND + y * NS_PER_SECOND;
  }

  /** The clock after the hardware counter advanced by each of the given tick counts. */
  function RunClock(freq: nat, c: Clock, ticks: seq<nat>): Clock
    requires freq > 0
  {
    if ticks == [] then c
    else
      var before := RunClock(freq, c, ticks[..|ticks| - 1]);
      ClockProgress(freq, before, before.lastU32, Wrap32(before.lastU32 + ticks[|ticks| - 1]))
  }

  /** The product that the clock takes in step i, before it is cut to 64 bits. */
  function ScaledProduct(freq: nat, c: Clock, ticks: seq<nat>, i: nat): nat
    requires freq > 0 && i < |ticks|
  {
    var before := RunClock(freq, c, ticks[..i]);
    Wrap32(Wrap32(before.lastU32 + ticks[i]) - before.lastU32) * NS_PER_SECOND
  }

  ghost predicate Ticks32(ticks: seq<nat>) {
    forall k :: 0 <= k < |ticks| ==> ticks[k] < U32
  }

  lemma StepScales(freq: nat, c: Clock, d: nat)
    requires freq > 0 && d < U32
    ensures Wrap32(Wrap32(c.lastU32 + d) - c.lastU32) == d && d * NS_PER_SECOND < U64
    ensures ClockProgress(freq, c, c.lastU32, Wrap32(c.lastU32 + d)).timestamp
         == Wrap64(c.timestamp + Nanos(freq, d))
  {
    assert Wrap32(Wrap32(c.lastU32 + d) - c.lastU32) == d by {
      NarrowDifference(c.lastU32, c.lastU32 + d, U32);
      ModUnique(c.lastU32, U32, 0, c.lastU32);
    }
    assert d * NS_PER_SECOND < U64;
    WrapSmall(d * NS_PER_SECOND);
  }

  lemma FloorSum(x: nat, y: nat, f: nat)
    requires f > 0
    ensures x / f + y / f <= (x + y) / f <= x / f + y / f + 1
  {
    var rx, ry := x % f, y % f;
    var q := x / f + y / f;
    assert x + y == q * f + (rx + ry) by {
      assert x == x / f * f + rx && y == y / f * f + ry;
      assert q * f == x / f * f + y / f * f;
    }
    if rx + ry < f {
      ModUnique(x + y, f, q, rx + ry);
    } else {
      assert (q + 1) * f == q * f + f;
      ModUnique(x + y, f, q + 1, rx + ry - f);
    }
  }

  /** Each step rounds down once, so n steps lag the exact time by at most n - 1 nanoseconds; the
      clock never runs backwards while its own 64 bits last. */
  lemma {:induction false} ClockAccuracy(freq: nat, c: Clock, ticks: seq<nat>)
    requires freq > 0 && |ticks| > 0 && Ticks32(ticks)
    requires c.timestamp + Nanos(freq, Sum(ticks)) < U64
    ensures var exact := Nanos(freq, Sum(ticks));
            var t := RunClock(freq, c, ticks).timestamp;
            exact - (|ticks| - 1) <= t - c.timestamp <= exact
    ensures RunClock(freq, c, ticks).timestamp >= RunClock(freq, c, ticks[..|ticks| - 1]).timestamp
    ensures forall i :: 0 <= i < |ticks| ==> ScaledProduct(freq, c, ticks, i) == ticks[i] * NS_PER_SECOND < U64
  {
    hide ClockProgress, Wrap64, Wrap32, Nanos, ScaledProduct;
    var n := |ticks|;
    var d := ticks[n - 1];
    var rest := ticks[..n - 1];
    var before := RunClock(freq, c, rest);
    assert Sum(ticks) == Sum(rest) + d;
    assert RunClock(freq, c, ticks) == ClockProgress(freq, before, before.lastU32, Wrap32(before.lastU32 + d));
    StepScales(freq, before, d);
    NanosSum(freq, Sum(rest), d);
    if n == 1 {
      assert rest == [];
      NanosZero(freq);
    } else {
      hide RunClock, Sum;
      ClockAccuracy(freq, c, rest);
    }
    WrapSmall(before.timestamp + Nanos(freq, d));
    forall i | 0 <= i < n ensures ScaledProduct(freq, c, ticks, i) == ticks[i] * NS_PER_SECOND < U64 {
      ProductFits(freq, c, ticks, i);
    }
  }

  lemma ProductFits(freq: nat, c: Clock, ticks: seq<nat>, i: nat)
    requires freq > 0 && Ticks32(ticks) && i < |ticks|
    ensures ScaledProduct(freq, c, ticks, i) == ticks[i] * NS_PER_SECOND < U64
  {
    hide Wrap32, RunClock;
    StepScales(freq, RunClock(freq, c, ticks[..i]), ticks[i]);
  }
}
