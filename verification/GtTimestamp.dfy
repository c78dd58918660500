/** gputop_client_context_convert_gt_timestamp: from a 32-bit GPU stamp to a time on the timeline. */
module GtTimestamp {
  import opened Common
  import opened OaCounters
  import opened ClientState
  import opened ClientInvariants
  import opened ClientSteps
  import opened Segmentation
  import opened ClientHistory
  import opened ClientRuns

  /** A listed segment: the GPU stamps of its first and last record, and its times. */
  datatype Segment = Segment(startGt: Word, endGt: Word, start: nat, end: nat)

  function Times(a: nat, b: nat): nat {
    a * b
  }

  function Over(n: nat, d: nat): nat
    requires d > 0
  {
    n / d
  }

  /** The linear interpolation inside one segment, in 64-bit arithmetic; None is the division by zero. */
  function Interpolate(x: Segment, gt: Word): Option<nat>
    requires x.startGt <= gt <= x.endGt
  {
    if x.startGt == x.endGt then None
    else
      var product := Wrap64(Times(gt - x.startGt, Wrap64(x.end as int - x.start)));
      Some(Wrap64(x.start + Over(product, x.endGt - x.startGt)))
  }

  predicate Covers(x: Segment, gt: Word) {
    x.startGt <= gt <= x.endGt
  }

  /** The conversion: the first segment that has not ended before the stamp decides. */
  function Conversion(timelines: seq<Segment>, gt: Word): Option<nat> {
    if timelines == [] then Some(0)
    else if timelines[0].endGt < gt then Conversion(timelines[1..], gt)
    else if timelines[0].startGt > gt then Some(0)
    else Interpolate(timelines[0], gt)
  }

  method Convert(timelines: seq<Segment>, gt: Word) returns (time: Option<nat>)
    ensures time == Conversion(timelines, gt)
    ensures forall j: nat :: IsFirst(timelines, gt, j) ==> time == Interpolate(timelines[j], gt)
    ensures (forall j: nat :: !IsFirst(timelines, gt, j)) ==> time == Some(0)
  {
    hide Interpolate;
    ConversionIs(timelines, gt);
    var i := 0;
    while i < |timelines|
      invariant i <= |timelines| && Conversion(timelines[i..], gt) == Conversion(timelines, gt)
    {
      var x := timelines[i];
      if x.endGt >= gt {
        if x.startGt > gt {
          return Some(0);
        }
        return Interpolate(x, gt);
      }
      assert timelines[i..][1..] == timelines[i + 1..];
      i := i + 1;
    }
    return Some(0);
  }

  /** Segment j covers gt and all before it have ended. */
  ghost predicate IsFirst(timelines: seq<Segment>, gt: Word, j: nat) {
    && j < |timelines| && Covers(timelines[j], gt)
    && forall i :: 0 <= i < j ==> timelines[i].endGt < gt
  }

  lemma {:induction false} ConversionIs(timelines: seq<Segment>, gt: Word)
    ensures forall j: nat :: IsFirst(timelines, gt, j) ==> Conversion(timelines, gt) == Interpolate(timelines[j], gt)
    ensures (forall j: nat :: !IsFirst(timelines, gt, j)) ==> Conversion(timelines, gt) == Some(0)
  {
    hide Interpolate;
    if timelines != [] && timelines[0].endGt < gt {
      var rest := timelines[1..];
      ConversionIs(rest, gt);
      forall j: nat | IsFirst(timelines, gt, j) ensures j > 0 && IsFirst(rest, gt, j - 1) {
        assert timelines[j] == rest[j - 1];
      }
      if j: nat :| IsFirst(rest, gt, j) {
        FirstLater(timelines, gt, j);
      }
    } else if timelines != [] {
      assert IsFirst(timelines, gt, 0) <==> timelines[0].startGt <= gt;
    }
  }

  lemma FirstLater(timelines: seq<Segment>, gt: Word, j: nat)
    requires timelines != [] && timelines[0].endGt < gt && IsFirst(timelines[1..], gt, j)
    ensures IsFirst(timelines, gt, j + 1)
  {
    forall i | 0 <= i < j + 1 ensures timelines[i].endGt < gt {
      if i > 0 { assert timelines[i] == timelines[1..][i - 1]; }
    }
  }

  /** The conversion divides by zero if and only if the segment that decides starts and ends with the stamp
      itself. */
  lemma FaultsExact(timelines: seq<Segment>, gt: Word)
    ensures Conversion(timelines, gt).None? <==>
              exists j: nat :: IsFirst(timelines, gt, j) && timelines[j].startGt == timelines[j].endGt
  {
    ConversionIs(timelines, gt);
  }

  // ---------------------------------------------------------------- on an orderly timeline

  /** A segment over which neither clock goes back. */
  predicate Upright(x: Segment) {
    x.startGt <= x.endGt && x.start <= x.end < U64
  }

  /** And over which the GPU clock advances. */
  predicate Proper(x: Segment) {
    x.startGt < x.endGt && x.start <= x.end < U64
  }

  ghost predicate Orderly(timelines: seq<Segment>) {
    && (forall i :: 0 <= i < |timelines| ==> Upright(timelines[i]))
    && (forall i, j :: 0 <= i < j < |timelines| ==>
          timelines[i].endGt <= timelines[j].startGt && timelines[i].end <= timelines[j].start)
  }

  /** g parts of w / d, rounded down. */
  function Share(g: nat, w: nat, d: nat): nat
    requires d > 0
  {
    g * w / d
  }

  lemma ShareBounds(g: nat, w: nat, d: nat)
    requires 0 < d && g <= d
    ensures Share(g, w, d) <= w && Share(0, w, d) == 0 && Share(d, w, d) == w
    ensures Share(g, w, d) * d <= g * w < (Share(g, w, d) + 1) * d
    ensures g * w <= d * w
  {
    MulMono(g, d, w);
    DivBounds(g * w, d);
    ShareOfAll(w, d);
    DivMono(g * w, d * w, d);
    DivBounds(0, d);
    assert 0 * w == 0;
  }

  lemma ShareOfAll(w: nat, d: nat)
    requires 0 < d
    ensures Share(d, w, d) == w
  {
    DivBounds(d * w, d);
    SameQuotient(Share(d, w, d), w, d);
  }

  lemma SameQuotient(q: nat, w: nat, d: nat)
    requires d > 0 && q * d <= d * w < (q + 1) * d
    ensures q == w
  {
    assert d * w == w * d;
    if q < w { MulMono(q + 1, w, d); } else { MulMono(w, q, d); }
    if w < q { MulMono(w + 1, q, d); }
  }

  /** The interpolated time without any wrap. */
  function Exact(x: Segment, gt: Word): nat
    requires x.startGt < x.endGt && x.start <= x.end && Covers(x, gt)
  {
    x.start + Share(gt - x.startGt, x.end - x.start, x.endGt - x.startGt)
  }

  /** The true interpolation, rounded down: it stays within the segment's times and meets them at its ends. */
  lemma ExactBounds(x: Segment, gt: Word)
    requires Proper(x) && Covers(x, gt)
    ensures x.start <= Exact(x, gt) <= x.end
    ensures gt == x.startGt ==> Exact(x, gt) == x.start
    ensures gt == x.endGt ==> Exact(x, gt) == x.end
    ensures var t := Exact(x, gt) - x.start;
            t * (x.endGt - x.startGt) <= (gt - x.startGt) * (x.end - x.start) < (t + 1) * (x.endGt - x.startGt)
  {
    hide Share;
    ShareBounds(gt - x.startGt, x.end - x.start, x.endGt - x.startGt);
  }

  /** The product that the code takes in 64 bits. */
  function Scaled(x: Segment, gt: Word): nat
    requires Proper(x) && Covers(x, gt)
  {
    Times(gt - x.startGt, x.end - x.start)
  }

  lemma WrapTakes(p: nat)
    ensures Wrap64(p) <= p
    ensures p >= U64 ==> Wrap64(p) <= p - U64
    ensures U64 <= p < 2 * U64 ==> Wrap64(p) == p - U64
  {
    assert p == p / U64 * U64 + Wrap64(p);
    if U64 <= p < 2 * U64 { ModUnique(p, U64, 1, p - U64); }
  }

  lemma ExactIs(x: Segment, gt: Word)
    requires Proper(x) && Covers(x, gt)
    ensures Exact(x, gt) == x.start + Over(Scaled(x, gt), x.endGt - x.startGt)
  {
  }

  lemma OverMono(a: nat, b: nat, d: nat)
    requires a <= b && d > 0
    ensures Over(a, d) <= Over(b, d)
  {
    DivMono(a, b, d);
  }

  lemma OverDiffers(a: nat, b: nat, d: nat)
    requires d > 0 && a + d <= b
    ensures Over(a, d) < Over(b, d)
  {
    QuotientsDiffer(a, b, d);
  }

  lemma InterpolateWraps(x: Segment, gt: Word)
    requires Proper(x) && Covers(x, gt)
    ensures Interpolate(x, gt) == Some(Wrap64(x.start + Over(Wrap64(Scaled(x, gt)), x.endGt - x.startGt)))
  {
    hide Wrap64, Times, Over;
    WrapSmall(x.end - x.start);
  }

  lemma InterpolateIs(x: Segment, gt: Word)
    requires Proper(x) && Covers(x, gt)
    ensures Interpolate(x, gt) == Some(x.start + Over(Wrap64(Scaled(x, gt)), x.endGt - x.startGt))
    ensures x.start + Over(Wrap64(Scaled(x, gt)), x.endGt - x.startGt) <= Exact(x, gt) <= x.end
  {
    hide Wrap64, Exact, Interpolate, Scaled, Over;
    var p, d: nat := Scaled(x, gt), x.endGt - x.startGt;
    InterpolateWraps(x, gt);
    WrapTakes(p);
    OverMono(Wrap64(p), p, d);
    ExactBounds(x, gt);
    ExactIs(x, gt);
    WrapSmall(x.start + Over(Wrap64(p), d));
  }

  /** Whatever the product, the result is a time within the segment. */
  lemma InterpolationInSegment(x: Segment, gt: Word)
    requires Proper(x) && Covers(x, gt)
    ensures Interpolate(x, gt).Some? && x.start <= Interpolate(x, gt).value <= x.end
  {
    hide Wrap64, Exact, Interpolate, Over;
    InterpolateIs(x, gt);
  }

  lemma ScaledNext(x: Segment, g: Word)
    requires Proper(x) && Covers(x, g) && g > x.startGt
    ensures Scaled(x, g) == Scaled(x, g - 1) + (x.end - x.start)
  {
  }

  /** And it is the true interpolation if and only if the product fits 64 bits. */
  lemma InterpolationExact(x: Segment, gt: Word)
    requires Proper(x) && Covers(x, gt)
    ensures Interpolate(x, gt) == Some(Exact(x, gt)) <==> (gt - x.startGt) * (x.end - x.start) < U64
  {
    hide Wrap64, Interpolate, Exact, Over;
    var p, d: nat := Scaled(x, gt), x.endGt - x.startGt;
    InterpolateIs(x, gt);
    ExactIs(x, gt);
    if p < U64 {
      WrapSmall(p);
    } else {
      WrapTakes(p);
      OverDiffers(Wrap64(p), p, d);
    }
  }

  lemma ExactMono(x: Segment, gt1: Word, gt2: Word)
    requires Proper(x) && Covers(x, gt1) && Covers(x, gt2) && gt1 <= gt2
    ensures Exact(x, gt1) <= Exact(x, gt2)
  {
    var w: nat := x.end - x.start;
    MulMono(gt1 - x.startGt, gt2 - x.startGt, w);
    DivMono((gt1 - x.startGt) * w, (gt2 - x.startGt) * w, x.endGt - x.startGt);
  }

  /** All products of the segment fit 64 bits. */
  predicate Fits(x: Segment)
    requires Proper(x)
  {
    Scaled(x, x.endGt) < U64
  }

  lemma FitsAll(x: Segment, gt: Word)
    requires Proper(x) && Fits(x) && Covers(x, gt)
    ensures Interpolate(x, gt) == Some(Exact(x, gt)) && x.start <= Exact(x, gt) <= x.end
  {
    hide Exact, Interpolate;
    MulMono(gt - x.startGt, x.endGt - x.startGt, x.end - x.start);
    InterpolationExact(x, gt);
    ExactBounds(x, gt);
  }

  /** Over all stamps of an orderly timeline whose products fit, a later stamp never gets an earlier time. */
  lemma ConversionMonotone(timelines: seq<Segment>, gt1: Word, gt2: Word, i: nat, j: nat)
    requires Orderly(timelines) && gt1 <= gt2 && IsFirst(timelines, gt1, i) && IsFirst(timelines, gt2, j)
    requires Proper(timelines[i]) && Proper(timelines[j]) && (i == j ==> Fits(timelines[i]))
    ensures Interpolate(timelines[i], gt1).Some? && Interpolate(timelines[j], gt2).Some?
    ensures Interpolate(timelines[i], gt1).value <= Interpolate(timelines[j], gt2).value
  {
    hide Exact, Interpolate;
    InterpolationInSegment(timelines[i], gt1);
    InterpolationInSegment(timelines[j], gt2);
    if i == j {
      FitsAll(timelines[i], gt1);
      FitsAll(timelines[i], gt2);
      ExactMono(timelines[i], gt1, gt2);
    } else {
      assert i < j;
    }
  }

  ghost predicate Monotone(x: Segment)
    requires Proper(x)
  {
    forall g: Word, g': Word :: Covers(x, g) && Covers(x, g') && g <= g' ==> NotAfter(x, g, g')
  }

  predicate NotAfter(x: Segment, g: Word, g': Word)
    requires Covers(x, g) && Covers(x, g')
  {
    Interpolate(x, g).Some? && Interpolate(x, g').Some? ==> Interpolate(x, g).value <= Interpolate(x, g').value
  }

  /** The first stamp whose product does not fit. */
  function FirstOverflow(x: Segment, gt: Word): (g: Word)
    requires Proper(x) && Covers(x, gt) && Scaled(x, gt) >= U64
    ensures x.startGt < g <= gt && Scaled(x, g) >= U64 && Scaled(x, g - 1) < U64
    decreases gt
  {
    assert Scaled(x, x.startGt) == 0;
    if Scaled(x, gt - 1) < U64 then gt else FirstOverflow(x, gt - 1)
  }

  /** Within a segment of less than 2^64 - 2^32 nanoseconds the conversion is monotone if and only if all
      products fit: at the first one that does not, time goes back. */
  lemma MonotoneExact(x: Segment)
    requires Proper(x) && x.end - x.start <= U64 - U32
    ensures Monotone(x) <==> Fits(x)
  {
    hide Exact, Interpolate, Wrap64, Times, Over;
    if Fits(x) {
      forall g: Word, g': Word | Covers(x, g) && Covers(x, g') && g <= g'
        ensures NotAfter(x, g, g')
      {
        FitsAll(x, g);
        FitsAll(x, g');
        ExactMono(x, g, g');
      }
    } else {
      var g := FirstOverflow(x, x.endGt);
      var p, d: nat := Scaled(x, g), x.endGt - x.startGt;
      ScaledNext(x, g);
      WrapTakes(p);
      WrapSmall(Scaled(x, g - 1));
      OverDiffers(p - U64, Scaled(x, g - 1), d);
      InterpolateIs(x, g - 1);
      InterpolateIs(x, g);
      assert !NotAfter(x, g - 1, g);
    }
  }

  /** On an orderly timeline the segment that is found is the one that covers the stamp, or an earlier one
      that ends with the stamp where this one starts. */
  lemma {:induction false} CoveredIsFound(timelines: seq<Segment>, gt: Word, j: nat) returns (i: nat)
    requires Orderly(timelines) && j < |timelines| && Covers(timelines[j], gt)
    ensures i <= j && IsFirst(timelines, gt, i)
    ensures i < j ==> timelines[i].endGt == gt == timelines[j].startGt
    decreases j
  {
    if j > 0 && timelines[j - 1].endGt >= gt {
      assert timelines[j - 1].endGt <= timelines[j].startGt;
      i := CoveredIsFound(timelines, gt, j - 1);
    } else {
      i := j;
      forall a | 0 <= a < i ensures timelines[a].endGt < gt {
        if a < j - 1 { assert timelines[a].endGt <= timelines[j - 1].startGt <= timelines[j - 1].endGt; }
      }
    }
  }

  /** Beyond 64 bits the result is a wrong time of the segment: its start or a third of the way at its end. */
  lemma OverflowIsWrong()
    ensures var x := Segment(0, 0x8000_0000, 0, 0x2_0000_0000);
            Proper(x) && Interpolate(x, 0x8000_0000) == Some(0) && Exact(x, 0x8000_0000) == 0x2_0000_0000
    ensures var x := Segment(0, 0x8000_0000, 5, 5 + 0x3_0000_0000);
            && Proper(x) && Interpolate(x, 0x8000_0000) == Some(5 + 0x1_0000_0000)
            && Exact(x, 0x8000_0000) == 5 + 0x3_0000_0000
  {
    hide Interpolate, Exact;
    AtEnd(Segment(0, 0x8000_0000, 0, 0x2_0000_0000), 1, 0);
    AtEnd(Segment(0, 0x8000_0000, 5, 5 + 0x3_0000_0000), 1, 0x8000_0000 * 0x1_0000_0000);
  }

  lemma AtEnd(x: Segment, q: nat, r: nat)
    requires Proper(x) && Scaled(x, x.endGt) == q * U64 + r && r < U64
    ensures Interpolate(x, x.endGt) == Some(x.start + r / (x.endGt - x.startGt)) && Exact(x, x.endGt) == x.end
  {
    hide Wrap64, Times, Exact;
    InterpolateIs(x, x.endGt);
    ExactBounds(x, x.endGt);
    assert Wrap64(Scaled(x, x.endGt)) == r by { ModIs(Scaled(x, x.endGt), q, r); }
  }

  lemma ModIs(x: nat, q: nat, r: nat)
    requires x == q * U64 + r && r < U64
    ensures Wrap64(x) == r
  {
    ModUnique(x, U64, q, r);
  }

  // ---------------------------------------------------------------- the timelines of a run

  /** A listed segment, as the conversion reads it. */
  function SegmentAt(s: State, id: SampleId): Segment {
    if id in s.samples && s.samples[id].end.Some? && Deref(s.chunks, s.samples[id].start).Some?
       && Deref(s.chunks, s.samples[id].end.value).Some?
    then
      var m := s.samples[id];
      Segment(Deref(s.chunks, m.start).value.report[1], Deref(s.chunks, m.end.value).value.report[1],
              m.timestampStart, m.timestampEnd)
    else Segment(0, 0, 0, 0)
  }

  function ListedSegments(s: State): seq<Segment> {
    seq(|s.timelines|, j requires 0 <= j < |s.timelines| => SegmentAt(s, s.timelines[j]))
  }

  lemma SegmentIs(k: Config, s: State, h: seq<Item>, j: nat)
    requires ValidConfig(k) && Good(s, multiset{}) && Hist(k, s, h) && j < |s.timelines|
    ensures j < |Timeline(k, h, |h|)|
    ensures var w := Timeline(k, h, |h|)[j];
            && w.first <= w.last < |h|
            && SegmentAt(s, s.timelines[j])
               == Segment(h[w.first].report[1], h[w.last].report[1], h[w.first].time, h[w.last].time)
  {
    hide Good, Hist, Timeline, Deref, CtxId, AllFaithful;
    HistSpans(k, s, h);
    HistStore(k, s, h);
    var m, w := s.samples[s.timelines[j]], Timeline(k, h, |h|)[j];
    ReportsAreHere(s, s.timelines[j]);
    SomeIsHere(s.chunks, m.start);
    SomeIsHere(s.chunks, m.end.value);
    FaithfulAt(k, s, h, w.first);
    FaithfulAt(k, s, h, w.last);
  }

  lemma ReportsAreHere(s: State, id: SampleId)
    requires Good(s, multiset{}) && id in s.samples
    ensures Deref(s.chunks, s.samples[id].start).Some?
    ensures s.samples[id].end.Some? ==> Deref(s.chunks, s.samples[id].end.value).Some?
  {
    hide Mem, Allocated, Placed, Tabled, Rows, Counted, Filed, Deref;
    assert Sound(s.chunks, s.samples[id]);
  }

  lemma FaithfulAt(k: Config, s: State, h: seq<Item>, i: nat)
    requires AllFaithful(k, s, h) && i < |h| && h[i].ref.chunk in s.chunks
    ensures Deref(s.chunks, h[i].ref).Some? && Deref(s.chunks, h[i].ref).value.report == h[i].report
  {
    hide Deref, CtxId;
    assert Faithful(k, s.chunks, h[i]);
  }

  lemma BelowWrap(t: nat)
    requires t <= Wrap64(t)
    ensures t < U64
  {
  }

  /** The listed segments are those of the history. */
  lemma ListedAre(k: Config, events: seq<Event>)
    requires ValidConfig(k)
    ensures Run(k, InitialState(k), events).Some?
    ensures var h := HistoryOf(k, events);
            ListedSegments(Run(k, InitialState(k), events).value) == SegmentsOf(h, Timeline(k, h, |h|))
  {
    hide Good, Hist, HistoryOf, Run, Timeline, SegmentAt;
    EveryRunKeepsToHistory(k, events);
    var s, h := Run(k, InitialState(k), events).value, HistoryOf(k, events);
    var l, w := ListedSegments(s), Timeline(k, h, |h|);
    HistSpans(k, s, h);
    forall j | 0 <= j < |l| ensures l[j] == SegmentsOf(h, w)[j] {
      SegmentIs(k, s, h, j);
    }
  }

  /** Spans of a history, as the conversion reads them. */
  function SegmentsOf(h: seq<Item>, w: seq<Span>): (l: seq<Segment>)
    ensures |l| == |w|
  {
    seq(|w|, j requires 0 <= j < |w| => SegmentFor(h, w[j]))
  }

  function SegmentFor(h: seq<Item>, x: Span): Segment {
    if x.first < |h| && x.last < |h| then
      Segment(h[x.first].report[1], h[x.last].report[1], h[x.first].time, h[x.last].time)
    else Segment(0, 0, 0, 0)
  }

  // ---------------------------------------------------------------- division by zero

  /** Segment j of those that are kept starts and ends with stamp gt, and all before it have ended. */
  ghost predicate StandsStill(k: Config, h: seq<Item>, gt: Word, j: nat)
    requires ValidConfig(k)
  {
    var w := Timeline(k, h, |h|);
    && j < |w| && w[j].first < |h| && w[j].last < |h|
    && h[w[j].first].report[1] == gt == h[w[j].last].report[1]
    && forall i :: 0 <= i < j ==> w[i].last < |h| && h[w[i].last].report[1] < gt
  }

  ghost predicate AllInside(h: seq<Item>, w: seq<Span>) {
    forall j :: 0 <= j < |w| ==> w[j].first < w[j].last < |h|
  }

  lemma KeptInside(k: Config, h: seq<Item>)
    requires ValidConfig(k)
    ensures AllInside(h, Timeline(k, h, |h|))
  {
    hide Timeline, Segments, Ordered;
    TimelineIsSuffix(k, h, |h|);
    var v, w := Segments(k, h, |h|), Timeline(k, h, |h|);
    if h != [] { SegmentsOrdered(k, h, |h|); } else { NoSegments(k, h); }
    forall j | 0 <= j < |w| ensures w[j].first < w[j].last < |h| {
      SpanInOrder(v, |h| - 1, |v| - |w| + j);
    }
  }

  /** After any run, converting a stamp divides by zero if and only if a segment that is kept starts and ends
      with this stamp and all before it end with earlier ones. */
  lemma RunFaultsExact(k: Config, events: seq<Event>, gt: Word)
    requires ValidConfig(k)
    ensures Run(k, InitialState(k), events).Some?
    ensures Conversion(ListedSegments(Run(k, InitialState(k), events).value), gt).None? <==>
              exists j: nat :: StandsStill(k, HistoryOf(k, events), gt, j)
  {
    hide HistoryOf, Run, Timeline, Conversion, ListedSegments;
    ListedAre(k, events);
    var h := HistoryOf(k, events);
    var l := SegmentsOf(h, Timeline(k, h, |h|));
    FaultsExact(l, gt);
    KeptInside(k, h);
    forall j: nat ensures StandsStill(k, h, gt, j) <==> IsFirst(l, gt, j) && l[j].startGt == l[j].endGt {
      FaultAt(k, h, gt, j);
    }
  }

  lemma FaultAt(k: Config, h: seq<Item>, gt: Word, j: nat)
    requires ValidConfig(k)
    requires AllInside(h, Timeline(k, h, |h|))
    ensures var l := SegmentsOf(h, Timeline(k, h, |h|));
            StandsStill(k, h, gt, j) <==> IsFirst(l, gt, j) && l[j].startGt == l[j].endGt
  {
    hide Timeline;
    StampsOfSegments(h, Timeline(k, h, |h|));
  }

  lemma StampsOfSegments(h: seq<Item>, w: seq<Span>)
    requires AllInside(h, w)
    ensures |SegmentsOf(h, w)| == |w|
    ensures forall i :: 0 <= i < |w| ==>
              && SegmentsOf(h, w)[i].startGt == h[w[i].first].report[1]
              && SegmentsOf(h, w)[i].endGt == h[w[i].last].report[1]
  {
  }

  /** Two reports with one stamp, of two contexts: converting that stamp divides by zero. */
  lemma EqualStampsFault(k: Config)
    requires ValidConfig(k) && k.gen >= 9
    ensures var r := Run(k, InitialState(k), [Data([SampleOf(5, 7), SampleOf(5, 8)])]);
            r.Some? && Conversion(ListedSegments(r.value), 5).None?
  {
    hide HistoryOf, Run, Timeline, Conversion, ListedSegments, InitialState;
    TwoRecords(k, 5, 5);
    assert StandsStill(k, HistoryOf(k, [Data([SampleOf(5, 7), SampleOf(5, 8)])]), 5, 0);
    RunFaultsExact(k, [Data([SampleOf(5, 7), SampleOf(5, 8)])], 5);
  }

  /** A record of context 7 and one of context 8 make one segment. */
  lemma TwoRecords(k: Config, a: Word, b: Word)
    requires ValidConfig(k) && k.gen >= 9 && a != 0 && b != 0
    ensures var h := HistoryOf(k, [Data([SampleOf(a, 7), SampleOf(b, 8)])]);
            |h| == 2 && h[0].report[1] == a && h[1].report[1] == b && Timeline(k, h, 2) == [Span(0, 1)]
  {
    hide Stamp, SegmentAcc, Elapsed, HistoryOf, ChunkHistory, Timeline;
    var records := [SampleOf(a, 7), SampleOf(b, 8)];
    OneChunk(k, records);
    NextSample(k, [], 0, records, 0);
    var h1 := Append(k, [], Ref(0, 0), records[0]);
    NextSample(k, h1, 0, records, 1);
    ChunkDone(k, Append(k, h1, Ref(0, 1), records[1]), 0, records);
    var h := Append(k, h1, Ref(0, 1), records[1]);
    assert h[0].hwId == 7 && h[1].hwId == 8;
    OneSegment(k, h);
  }

  lemma OneSegment(k: Config, h: seq<Item>)
    requires ValidConfig(k) && |h| == 2 && h[0].hwId == 7 && h[1].hwId == 8
    requires h[0].report[1] != 0 && h[1].report[1] != 0
    ensures Timeline(k, h, 2) == [Span(0, 1)]
  {
    hide SegmentAcc, Elapsed;
    assert Opened(k, h, 1) == Some(0);
    assert SegmentCloses(k, h, 0, 1);
    assert Timeline(k, h, 1) == [];
  }

  // ---------------------------------------------------------------- a stamp that wraps

  /** A stamp that the 32-bit counter shows between the start and the end of the segment. */
  predicate Passes(x: Segment, gt: Word) {
    Wrap32(gt - x.startGt) <= Wrap32(x.endGt - x.startGt)
  }

  ghost predicate IsFound(timelines: seq<Segment>, gt: Word) {
    exists j: nat :: IsFirst(timelines, gt, j)
  }

  /** Every stamp of every segment is found. */
  ghost predicate FindsAll(timelines: seq<Segment>) {
    forall j, gt: Word {:trigger Passes(timelines[j], gt)} ::
      0 <= j < |timelines| && Passes(timelines[j], gt) ==> IsFound(timelines, gt)
  }

  /** How many ticks of the 32-bit counter there are from record a to record b. */
  function TicksBetween(h: seq<Item>, a: nat, b: nat): nat
    requires b < |h|
  {
    if b <= a then 0 else TicksBetween(h, a, b - 1) + Wrap32(h[b].report[1] as int - h[b - 1].report[1])
  }

  /** Stamps come from an unwrapped position; `base` is the record it is counted from. */
  function Position(h: seq<Item>, base: nat, i: nat): nat
    requires base <= i < |h|
  {
    h[base].report[1] + TicksBetween(h, base, i)
  }

  lemma {:induction false} PositionShows(h: seq<Item>, base: nat, i: nat)
    requires base <= i < |h|
    ensures Wrap32(Position(h, base, i)) == h[i].report[1]
    decreases i
  {
    if i == base {
      ModUnique(h[i].report[1], U32, 0, h[i].report[1]);
    } else {
      PositionShows(h, base, i - 1);
      ModSum32(Position(h, base, i - 1), h[i].report[1] as int - h[i - 1].report[1]);
      ModUnique(h[i].report[1], U32, 0, h[i].report[1]);
    }
  }

  /** Adding a difference that has been cut to 32 bits. */
  lemma ModSum32(p: nat, d: int)
    ensures Wrap32(p + Wrap32(d)) == Wrap32(Wrap32(p) + d)
  {
    var a, b := p / U32, d / U32;
    var q, r := (p + Wrap32(d)) / U32, Wrap32(p + Wrap32(d));
    assert p == a * U32 + Wrap32(p) && d == b * U32 + Wrap32(d) && p + Wrap32(d) == q * U32 + r;
    ModUnique(Wrap32(p) + d, U32, q - a + b, r);
  }

  lemma {:induction false} PositionGrows(h: seq<Item>, base: nat, i: nat, j: nat)
    requires base <= i <= j < |h|
    ensures Position(h, base, i) <= Position(h, base, j)
    decreases j
  {
    hide Wrap32;
    if i < j { PositionGrows(h, base, i, j - 1); }
  }

  /** Before the first wrap a position is the stamp, after it 2^32 more. */
  lemma PositionIs(h: seq<Item>, base: nat, i: nat)
    requires base <= i < |h| && Position(h, base, i) < 2 * U32
    ensures Position(h, base, i) == h[i].report[1] + if Position(h, base, i) < U32 then 0 else U32
  {
    hide TicksBetween;
    PositionShows(h, base, i);
    var p := Position(h, base, i);
    if p < U32 { ModUnique(p, U32, 0, p); } else { ModUnique(p, U32, 1, p - U32); }
  }

  /** Spans in order, each of two records or more, over less than 2^32 ticks in all. */
  ghost predicate Brief(h: seq<Item>, w: seq<Span>) {
    && w != [] && (forall j :: 0 <= j < |w| ==> w[j].first < w[j].last < |h|)
    && (forall i, j :: 0 <= i < j < |w| ==> w[i].last <= w[j].first)
    && TicksBetween(h, w[0].first, w[|w| - 1].last) < U32
  }

  /** The first listed stamp is not later than the last. */
  predicate Ascends(timelines: seq<Segment>) {
    timelines == [] || timelines[0].startGt <= timelines[|timelines| - 1].endGt
  }

  lemma NotEmpty(h: seq<Item>, w: seq<Span>)
    requires Brief(h, w)
    ensures w != []
  {
  }

  lemma SpanPositions(h: seq<Item>, w: seq<Span>, j: nat)
    requires Brief(h, w) && j < |w|
    ensures w[0].first <= w[j].first < w[j].last <= w[|w| - 1].last < |h|
    ensures var base, last := w[0].first, w[|w| - 1].last;
            && Position(h, base, base) == h[base].report[1] < U32
            && Position(h, base, base) <= Position(h, base, w[j].first) <= Position(h, base, w[j].last)
            && Position(h, base, w[j].last) <= Position(h, base, last) < h[base].report[1] + U32
  {
    var base, last := w[0].first, w[|w| - 1].last;
    assert w[0].first < w[0].last && w[|w| - 1].first < w[|w| - 1].last;
    if j > 0 { assert w[0].last <= w[j].first; }
    if j < |w| - 1 { assert w[j].last <= w[|w| - 1].first; }
    PositionGrows(h, base, base, w[j].first);
    PositionGrows(h, base, w[j].first, w[j].last);
    PositionGrows(h, base, w[j].last, last);
  }

  /** Where segment j starts and ends, and whether the counter has wrapped by then. */
  lemma SpanStamps(h: seq<Item>, w: seq<Span>, j: nat)
    requires Brief(h, w) && j < |w|
    ensures w[0].first <= w[j].first < w[j].last < |h|
    ensures var x, base := SegmentsOf(h, w)[j], w[0].first;
            && Position(h, base, w[j].first) == x.startGt + (if Position(h, base, w[j].first) < U32 then 0 else U32)
            && Position(h, base, w[j].last) == x.endGt + (if Position(h, base, w[j].last) < U32 then 0 else U32)
  {
    hide Position, Brief;
    SpanPositions(h, w, j);
    PositionIs(h, w[0].first, w[j].first);
    PositionIs(h, w[0].first, w[j].last);
  }

  /** Without a wrap the stamps of the segments are in order. */
  lemma StampsInOrder(h: seq<Item>, w: seq<Span>)
    requires Brief(h, w) && Ascends(SegmentsOf(h, w))
    ensures var l := SegmentsOf(h, w);
            && (forall j :: 0 <= j < |l| ==> l[j].startGt <= l[j].endGt)
            && (forall i, j :: 0 <= i < j < |l| ==> l[i].endGt <= l[j].startGt)
  {
    hide Position, SegmentsOf, Brief;
    NotEmpty(h, w);
    var l, n := SegmentsOf(h, w), |w| - 1;
    SpanPositions(h, w, n);
    SpanStamps(h, w, n);
    SpanStamps(h, w, 0);
    forall j | 0 <= j < |l| ensures l[j].startGt <= l[j].endGt {
      SpanPositions(h, w, j);
      SpanStamps(h, w, j);
    }
    forall i, j | 0 <= i < j < |l| ensures l[i].endGt <= l[j].startGt {
      SpanPositions(h, w, i);
      SpanPositions(h, w, j);
      SpanStamps(h, w, i);
      SpanStamps(h, w, j);
      SpansApart(h, w, i, j);
    }
  }

  lemma SpansApart(h: seq<Item>, w: seq<Span>, i: nat, j: nat)
    requires Brief(h, w) && i < j < |w|
    ensures w[0].first <= w[i].last <= w[j].first < |h|
    ensures Position(h, w[0].first, w[i].last) <= Position(h, w[0].first, w[j].first)
  {
    hide Position;
    assert w[i].first < w[i].last && w[j].first < w[j].last;
    if i > 0 { assert w[0].first < w[0].last <= w[i].first; }
    PositionGrows(h, w[0].first, w[i].last, w[j].first);
  }

  lemma PassesIsCovers(x: Segment, gt: Word)
    requires x.startGt <= x.endGt
    ensures Passes(x, gt) <==> Covers(x, gt)
  {
    ModUnique(x.endGt - x.startGt, U32, 0, x.endGt - x.startGt);
    if gt < x.startGt {
      ModUnique(gt - x.startGt, U32, -1, gt - x.startGt + U32);
    } else {
      ModUnique(gt - x.startGt, U32, 0, gt - x.startGt);
    }
  }

  lemma FoundIn(timelines: seq<Segment>, gt: Word, j: nat)
    requires (forall i :: 0 <= i < |timelines| ==> timelines[i].startGt <= timelines[i].endGt)
    requires (forall i, i' :: 0 <= i < i' < |timelines| ==> timelines[i].endGt <= timelines[i'].startGt)
    requires j < |timelines| && Covers(timelines[j], gt)
    ensures IsFound(timelines, gt)
    decreases j
  {
    if j > 0 && timelines[j - 1].endGt >= gt {
      assert timelines[j - 1].endGt <= timelines[j].startGt;
      FoundIn(timelines, gt, j - 1);
    } else {
      forall a | 0 <= a < j ensures timelines[a].endGt < gt {
        if a < j - 1 { assert timelines[a].endGt <= timelines[j - 1].startGt <= timelines[j - 1].endGt; }
      }
      assert IsFirst(timelines, gt, j);
    }
  }

  /** A stamp that is not found if the counter wraps within or before the last segment: the first segment
      decides, and starts later. */
  lemma LostByFirst(timelines: seq<Segment>, gt: Word)
    requires timelines != [] && gt <= timelines[0].endGt && gt < timelines[0].startGt
    ensures !IsFound(timelines, gt)
  {
  }

  lemma ZeroPasses(x: Segment)
    requires x.endGt < x.startGt
    ensures Passes(x, 0)
  {
    ModUnique(0 - x.startGt, U32, -1, U32 - x.startGt);
    ModUnique(x.endGt - x.startGt, U32, -1, U32 + x.endGt - x.startGt);
  }

  lemma StartPasses(x: Segment)
    ensures Passes(x, x.startGt)
  {
  }

  lemma WrapLoses(h: seq<Item>, w: seq<Span>)
    requires Brief(h, w) && !Ascends(SegmentsOf(h, w))
    ensures !FindsAll(SegmentsOf(h, w))
  {
    hide Position, SegmentsOf, Brief, Passes, IsFound;
    NotEmpty(h, w);
    var l, n := SegmentsOf(h, w), |w| - 1;
    SpanPositions(h, w, 0);
    SpanStamps(h, w, 0);
    SpanPositions(h, w, n);
    SpanStamps(h, w, n);
    if l[0].endGt < l[0].startGt {
      ZeroPasses(l[0]);
      LostByFirst(l, 0);
    } else if l[n].endGt < l[n].startGt {
      ZeroPasses(l[n]);
      LostByFirst(l, 0);
    } else {
      StartPasses(l[n]);
      LostByFirst(l, l[n].startGt);
    }
  }

  /** Over less than 2^32 ticks: every stamp of every segment is found if and only if the first stamp of the
      first segment is not later than the last stamp of the last one. */
  lemma FindsAllExact(h: seq<Item>, w: seq<Span>)
    requires Brief(h, w)
    ensures FindsAll(SegmentsOf(h, w)) <==> Ascends(SegmentsOf(h, w))
  {
    hide SegmentsOf, Passes, IsFound;
    var l := SegmentsOf(h, w);
    if Ascends(l) {
      StampsInOrder(h, w);
      forall j, gt: Word | 0 <= j < |l| && Passes(l[j], gt) ensures IsFound(l, gt) {
        PassesIsCovers(l[j], gt);
        FoundIn(l, gt, j);
      }
    } else {
      WrapLoses(h, w);
    }
  }

  /** What is kept of the history goes over less than 2^32 ticks. */
  predicate KeptBriefly(k: Config, h: seq<Item>)
    requires ValidConfig(k)
  {
    var w := Timeline(k, h, |h|);
    w == [] || (w[|w| - 1].last < |h| && TicksBetween(h, w[0].first, w[|w| - 1].last) < U32)
  }

  lemma KeptInTurn(k: Config, h: seq<Item>)
    requires ValidConfig(k)
    ensures var w := Timeline(k, h, |h|); forall i, j :: 0 <= i < j < |w| ==> w[i].last <= w[j].first
  {
    hide Timeline, Segments, Ordered;
    TimelineIsSuffix(k, h, |h|);
    var v, w := Segments(k, h, |h|), Timeline(k, h, |h|);
    if h != [] { SegmentsOrdered(k, h, |h|); } else { NoSegments(k, h); }
    forall i, j | 0 <= i < j < |w| ensures w[i].last <= w[j].first {
      OrderedStarts(v, |h| - 1, |v| - |w| + i, |v| - |w| + j);
    }
  }

  lemma KeptIsBrief(k: Config, h: seq<Item>)
    requires ValidConfig(k) && KeptBriefly(k, h) && Timeline(k, h, |h|) != []
    ensures Brief(h, Timeline(k, h, |h|))
  {
    hide Timeline;
    KeptInside(k, h);
    KeptInTurn(k, h);
  }

  /** After any run whose listed segments go over less than 2^32 ticks: every stamp of a listed segment is
      found if and only if the counter has not wrapped from the first of them to the last. */
  lemma RunFindsAllExact(k: Config, events: seq<Event>)
    requires ValidConfig(k) && KeptBriefly(k, HistoryOf(k, events))
    ensures Run(k, InitialState(k), events).Some?
    ensures var l := ListedSegments(Run(k, InitialState(k), events).value); FindsAll(l) <==> Ascends(l)
  {
    hide HistoryOf, Run, Timeline, ListedSegments, SegmentsOf, Brief, KeptBriefly, Passes, IsFound;
    ListedAre(k, events);
    var h := HistoryOf(k, events);
    if Timeline(k, h, |h|) != [] {
      KeptIsBrief(k, h);
      FindsAllExact(h, Timeline(k, h, |h|));
    }
  }

  /** If times do not go back either, the listed segments are an orderly timeline under the same condition. */
  lemma RunIsOrderly(k: Config, events: seq<Event>)
    requires ValidConfig(k) && KeptBriefly(k, HistoryOf(k, events)) && TimesGrow(HistoryOf(k, events))
    ensures Run(k, InitialState(k), events).Some?
    ensures var l := ListedSegments(Run(k, InitialState(k), events).value); Orderly(l) <==> Ascends(l)
  {
    hide HistoryOf, Run, Timeline, ListedSegments, Brief, KeptBriefly, TimesGrow, Wrap64;
    ListedAre(k, events);
    var h := HistoryOf(k, events);
    var w := Timeline(k, h, |h|);
    var l := SegmentsOf(h, w);
    KeptInside(k, h);
    KeptInTurn(k, h);
    if w != [] && Ascends(l) {
      KeptIsBrief(k, h);
      StampsInOrder(h, w);
      forall j | 0 <= j < |l| ensures Upright(l[j]) {
        TimesInOrder(h, w[j].first, w[j].last);
        assert l[j] == SegmentFor(h, w[j]);
      }
      forall i, j | 0 <= i < j < |l| ensures l[i].endGt <= l[j].startGt && l[i].end <= l[j].start {
        assert w[i].first < w[i].last && w[j].first < w[j].last;
        TimesInOrder(h, w[i].last, w[j].first);
        assert l[i] == SegmentFor(h, w[i]) && l[j] == SegmentFor(h, w[j]);
      }
    }
    if Orderly(l) { OrderlyAscends(l); }
  }

  lemma OrderlyAscends(timelines: seq<Segment>)
    requires Orderly(timelines)
    ensures Ascends(timelines)
  {
    if |timelines| > 1 {
      assert Upright(timelines[0]) && Upright(timelines[|timelines| - 1]);
    }
  }

  lemma TimesInOrder(h: seq<Item>, i: nat, j: nat)
    requires TimesGrow(h) && i <= j < |h|
    ensures h[i].time <= h[j].time < U64
  {
    hide Wrap64;
    BelowWrap(h[j].time);
  }

  /** So the stamps of listed segments are converted to times of listed segments - but for those that divide
      by zero. */
  lemma RunConverts(k: Config, events: seq<Event>, gt: Word, j: nat) returns (i: nat)
    requires ValidConfig(k) && KeptBriefly(k, HistoryOf(k, events)) && TimesGrow(HistoryOf(k, events))
    requires Run(k, InitialState(k), events).Some?
    requires var l := ListedSegments(Run(k, InitialState(k), events).value);
             Ascends(l) && j < |l| && Passes(l[j], gt)
    ensures var l := ListedSegments(Run(k, InitialState(k), events).value);
            && i <= j && IsFirst(l, gt, i) && (i < j ==> gt == l[i].endGt == l[j].startGt)
            && (Conversion(l, gt).None? <==> l[i].startGt == l[i].endGt)
            && (Conversion(l, gt).Some? ==> l[i].start <= Conversion(l, gt).value <= l[i].end)
  {
    hide HistoryOf, Run, ListedSegments, Conversion, KeptBriefly, TimesGrow, Passes;
    var l := ListedSegments(Run(k, InitialState(k), events).value);
    RunIsOrderly(k, events);
    assert Upright(l[j]);
    PassesIsCovers(l[j], gt);
    i := CoveredIsFound(l, gt, j);
    ConversionIs(l, gt);
    assert Upright(l[i]);
    if Proper(l[i]) { hide Interpolate; InterpolationInSegment(l[i], gt); }
  }

  /** A segment over which the counter wraps: of its stamps not one before the wrap and not one after it is
      found. */
  lemma WrappedSegmentIsLost(k: Config)
    requires ValidConfig(k) && k.gen >= 9
    ensures var r := Run(k, InitialState(k), [Data([SampleOf(0xffff_fff0, 7), SampleOf(0x10, 8)])]);
            && KeptBriefly(k, HistoryOf(k, [Data([SampleOf(0xffff_fff0, 7), SampleOf(0x10, 8)])]))
            && r.Some? && |ListedSegments(r.value)| == 1
            && (var l := ListedSegments(r.value);
                && l[0].startGt > l[0].endGt
                && Passes(l[0], 0xffff_fff8) && !IsFound(l, 0xffff_fff8) && Conversion(l, 0xffff_fff8) == Some(0)
                && Passes(l[0], 5) && !IsFound(l, 5) && Conversion(l, 5) == Some(0))
  {
    hide HistoryOf, Run, Timeline, ListedSegments, InitialState, Interpolate;
    var events := [Data([SampleOf(0xffff_fff0, 7), SampleOf(0x10, 8)])];
    TwoRecords(k, 0xffff_fff0, 0x10);
    ListedAre(k, events);
    var h := HistoryOf(k, events);
    assert TicksBetween(h, 0, 0) == 0;
    assert TicksBetween(h, 0, 1) == 0x20;
  }
}
