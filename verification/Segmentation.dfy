/** How a stream of reports is meant to be cut up, as functions of the history of sample records alone:
    windows that follow one another without a gap, and one segment after the other for whichever context
    was running.  Neither pointers nor reference counts exist here.
 */
module Segmentation {
  import opened Common
  import opened OaCounters
  import opened ClientState

  /** A processed sample record: where it is, what it says, and its time in nanoseconds. */
  datatype Item = Item(ref: Ref, report: Report, hwId: Word, time: nat)

  /** From record `first` to record `last`, both included. */
  datatype Span = Span(first: nat, last: nat)

  /** Pair i is records i - 1 and i. */
  predicate UsablePair(h: seq<Item>, i: nat)
    requires 0 < i < |h|
  {
    Usable(h[i - 1].report, h[i].report)
  }

  function AddPair(k: Config, h: seq<Item>, i: nat, a: Accumulator): (b: Accumulator)
    requires ValidConfig(k) && 0 < i < |h| && WellFormed(a)
    ensures WellFormed(b)
  {
    Accumulate(k.format, k.freq, a, h[i - 1].report, h[i].report)
  }

  // ---------------------------------------------------------------- windows

  /** The totals of a window that starts at record s, over pairs s to n - 1. */
  function WindowAcc(k: Config, h: seq<Item>, s: nat, n: nat): (a: Accumulator)
    requires ValidConfig(k) && s < |h| && n <= |h|
    ensures WellFormed(a)
  {
    if n <= s || n <= 1 then Init(k.freq, h[s].report)
    else AddPair(k, h, n - 1, WindowAcc(k, h, s, n - 1))
  }

  predicate WindowCloses(k: Config, h: seq<Item>, s: nat, i: nat)
    requires ValidConfig(k) && s <= i < |h|
  {
    i > 0 && UsablePair(h, i) && Elapsed(WindowAcc(k, h, s, i + 1)) > k.aggregationPeriod
  }

  /** Where the window of record n starts; n itself if the window before has just been closed. */
  function WindowStart(k: Config, h: seq<Item>, n: nat): (s: nat)
    requires ValidConfig(k) && n <= |h|
    ensures s <= n
  {
    if n == 0 then 0
    else
      var s := WindowStart(k, h, n - 1);
      if WindowCloses(k, h, s, n - 1) then n else s
  }

  /** The windows closed by the first n records. */
  function Windows(k: Config, h: seq<Item>, n: nat): seq<Span>
    requires ValidConfig(k) && n <= |h|
  {
    if n == 0 then []
    else
      var s := WindowStart(k, h, n - 1);
      if WindowCloses(k, h, s, n - 1) then Windows(k, h, n - 1) + [Span(s, n - 1)] else Windows(k, h, n - 1)
  }

  /** No window is closed by the record it starts at: the clock has not moved since then. */
  lemma NotClosedAtStart(k: Config, h: seq<Item>, s: nat)
    requires ValidConfig(k) && s < |h|
    ensures !WindowCloses(k, h, s, s)
  {
    if s > 0 && UsablePair(h, s) {
      hide AddDeltas;
      var a := Init(k.freq, h[s].report);
      assert WindowAcc(k, h, s, s + 1) == AddPair(k, h, s, a);
      NoTicksNoTime(k.freq, a.clock.timestamp);
    }
  }

  lemma NoTicksNoTime(freq: nat, t: nat)
    requires freq > 0 && t < U64
    ensures Wrap64(t + ScaleNs(freq, Wrap32(0))) == t
  {
    WrapSmall(t);
  }

  /** Windows of two records or more follow one another and the open one follows them. */
  ghost predicate Tile(w: seq<Span>, open: nat) {
    && (forall j :: 0 <= j < |w| ==> w[j].first < w[j].last)
    && (forall j {:trigger w[j]} :: 0 < j < |w| ==> w[j].first == w[j - 1].last + 1)
    && (if w == [] then open == 0 else w[0].first == 0 && w[|w| - 1].last + 1 == open)
  }

  lemma NoTiles()
    ensures Tile([], 0)
  {
  }

  lemma TileMore(w: seq<Span>, x: Span)
    requires Tile(w, x.first) && x.first < x.last
    ensures Tile(w + [x], x.last + 1)
  {
  }

  lemma {:induction false} WindowsTile(k: Config, h: seq<Item>, n: nat)
    requires ValidConfig(k) && n <= |h|
    ensures Tile(Windows(k, h, n), WindowStart(k, h, n))
  {
    hide WindowCloses, Tile;
    if n > 0 {
      WindowsTile(k, h, n - 1);
      NotClosedAtStart(k, h, n - 1);
      var s := WindowStart(k, h, n - 1);
      if s < n - 1 { TileMore(Windows(k, h, n - 1), Span(s, n - 1)); }
    } else {
      NoTiles();
    }
  }

  predicate Covers(w: Span, i: nat) {
    w.first <= i <= w.last
  }

  lemma TileEnd(w: seq<Span>, open: nat)
    requires Tile(w, open)
    ensures w == [] ==> open == 0
    ensures w != [] ==> var x := w[|w| - 1]; x.first < x.last && x.last + 1 == open && Tile(w[..|w| - 1], x.first)
  {
    if w != [] {
      var v := w[..|w| - 1];
      forall j {:trigger v[j]} | 0 < j < |v| ensures v[j].first == v[j - 1].last + 1 {
        assert w[j].first == w[j - 1].last + 1;
      }
      assert w[|w| - 1] == w[|w| - 1];
    }
  }

  lemma {:induction false} TileCovers(w: seq<Span>, open: nat, i: nat) returns (j: nat)
    requires Tile(w, open) && i < open
    ensures j < |w| && Covers(w[j], i)
  {
    hide Tile;
    TileEnd(w, open);
    j := |w| - 1;
    if i < w[j].first {
      j := TileCovers(w[..j], w[j].first, i);
    }
  }

  lemma {:induction false} TileOrder(w: seq<Span>, open: nat, i: nat, j: nat)
    requires Tile(w, open) && i < j < |w|
    ensures w[i].last < w[j].first
    decreases j
  {
    assert w[j].first == w[j - 1].last + 1;
    if i < j - 1 {
      TileOrder(w, open, i, j - 1);
    }
  }

  /** Window j is the only one that covers pair i. */
  ghost predicate OnlyCovers(w: seq<Span>, j: nat, i: nat)
    requires j < |w|
  {
    Covers(w[j], i) && forall j' :: 0 <= j' < |w| && j' != j ==> !Covers(w[j'], i)
  }

  /** Every pair lies in exactly one window: the open one, or one that has been closed. */
  lemma EachPairInOneWindow(k: Config, h: seq<Item>, n: nat, i: nat)
    requires ValidConfig(k) && i < n <= |h|
    ensures var w := Windows(k, h, n);
            if i >= WindowStart(k, h, n) then forall j :: 0 <= j < |w| ==> !Covers(w[j], i)
            else
              exists j :: 0 <= j < |w| && OnlyCovers(w, j, i)
  {
    hide Windows, WindowStart, Tile;
    var w, open := Windows(k, h, n), WindowStart(k, h, n);
    WindowsTile(k, h, n);
    if i < open {
      var j := TileCovers(w, open, i);
      forall j' | 0 <= j' < |w| && j' != j ensures !Covers(w[j'], i) {
        if j' < j { TileOrder(w, open, j', j); } else { TileOrder(w, open, j, j'); }
      }
      assert OnlyCovers(w, j, i);
    } else {
      forall j | 0 <= j < |w| ensures !Covers(w[j], i) {
        TileEnd(w, open);
        if j < |w| - 1 { TileOrder(w, open, j, |w| - 1); }
      }
    }
  }

  // ---------------------------------------------------------------- segments

  /** The totals of a segment that starts at record s, over pairs s + 1 to n - 1. */
  function SegmentAcc(k: Config, h: seq<Item>, s: nat, n: nat): (a: Accumulator)
    requires ValidConfig(k) && s < |h| && n <= |h|
    ensures WellFormed(a)
  {
    if n <= s + 1 then Init(k.freq, h[s].report)
    else AddPair(k, h, n - 1, SegmentAcc(k, h, s, n - 1))
  }

  predicate SegmentCloses(k: Config, h: seq<Item>, s: nat, i: nat)
    requires ValidConfig(k) && s < i < |h|
  {
    UsablePair(h, i)
    && (h[i - 1].hwId != h[i].hwId || Elapsed(SegmentAcc(k, h, s, i + 1)) > k.aggregationPeriod)
  }

  /** Where the segment that takes pair i starts, if there is one. */
  function Opened(k: Config, h: seq<Item>, i: nat): (o: Option<nat>)
    requires ValidConfig(k) && i < |h|
    ensures o.Some? ==> o.value < i
    decreases i, 1
  {
    if i == 0 then None
    else
      var o := SegmentStart(k, h, i);
      if o.None? && h[i - 1].hwId != INVALID_CTX_ID then Some(i - 1) else o
  }

  /** Where the segment starts that is open after n records, if one is. */
  function SegmentStart(k: Config, h: seq<Item>, n: nat): (o: Option<nat>)
    requires ValidConfig(k) && n <= |h|
    ensures o.Some? ==> o.value + 1 < n
    decreases n, 0
  {
    if n == 0 then None
    else
      var o := Opened(k, h, n - 1);
      if o.Some? && SegmentCloses(k, h, o.value, n - 1) then None else o
  }

  /** The segments closed by the first n records. */
  function Segments(k: Config, h: seq<Item>, n: nat): seq<Span>
    requires ValidConfig(k) && n <= |h|
  {
    if n == 0 then []
    else
      var o := Opened(k, h, n - 1);
      if o.Some? && SegmentCloses(k, h, o.value, n - 1) then Segments(k, h, n - 1) + [Span(o.value, n - 1)]
      else Segments(k, h, n - 1)
  }

  /** What is left of w once everything that starts too long before `end` has gone from its front. */
  function Visible(k: Config, h: seq<Item>, w: seq<Span>, end: nat): seq<Span> {
    if w == [] || w[0].first >= |h| || Wrap64(end - h[w[0].first].time) <= k.visiblePeriod then w
    else Visible(k, h, w[1..], end)
  }

  /** What goes are the spans from the front that start longer before `end` than can be seen, up to the first
      one that does not. */
  lemma {:induction false} VisibleExact(k: Config, h: seq<Item>, w: seq<Span>, end: nat) returns (n: nat)
    requires forall i :: 0 <= i < |w| ==> w[i].first < |h|
    ensures n <= |w| && Visible(k, h, w, end) == w[n..]
    ensures forall i :: 0 <= i < n ==> Wrap64(end - h[w[i].first].time) > k.visiblePeriod
    ensures n < |w| ==> Wrap64(end - h[w[n].first].time) <= k.visiblePeriod
  {
    hide Wrap64;
    n := 0;
    if w != [] && Wrap64(end - h[w[0].first].time) > k.visiblePeriod {
      n := VisibleExact(k, h, w[1..], end);
      n := n + 1;
      assert w[1..][n - 1..] == w[n..];
      forall i | 0 <= i < n ensures Wrap64(end - h[w[i].first].time) > k.visiblePeriod {
        if i > 0 { assert w[i] == w[1..][i - 1]; }
      }
    }
  }

  /** The segments that are kept after n records: each new one drives out those no longer in sight. */
  function Timeline(k: Config, h: seq<Item>, n: nat): seq<Span>
    requires ValidConfig(k) && n <= |h|
  {
    if n == 0 then []
    else
      var o := Opened(k, h, n - 1);
      if o.Some? && SegmentCloses(k, h, o.value, n - 1)
      then Visible(k, h, Timeline(k, h, n - 1), h[n - 1].time) + [Span(o.value, n - 1)]
      else Timeline(k, h, n - 1)
  }

  /** Segments are in order and share at most an end point. */
  ghost predicate Ordered(w: seq<Span>, bound: nat) {
    && (forall j :: 0 <= j < |w| ==> w[j].first < w[j].last)
    && (forall j {:trigger w[j]} :: 0 < j < |w| ==> w[j - 1].last <= w[j].first)
    && (w != [] ==> w[|w| - 1].last <= bound)
  }

  lemma {:induction false} SegmentsOrdered(k: Config, h: seq<Item>, n: nat)
    requires ValidConfig(k) && 0 < n <= |h|
    ensures Ordered(Segments(k, h, n), n - 1)
    ensures SegmentStart(k, h, n).Some? ==> Ordered(Segments(k, h, n), SegmentStart(k, h, n).value)
    ensures n < |h| && Opened(k, h, n).Some? ==> Ordered(Segments(k, h, n), Opened(k, h, n).value)
  {
    hide SegmentCloses, Ordered;
    if n == 1 {
      assert Ordered([], 0) by { OrderedNone(0); }
      OrderedNone(n - 1);
    } else {
      SegmentsOrdered(k, h, n - 1);
      var w := Segments(k, h, n - 1);
      var o := Opened(k, h, n - 1);
      if o.Some? && SegmentCloses(k, h, o.value, n - 1) {
        OrderedAppend(w, Span(o.value, n - 1));
      } else {
        OrderedLater(w, n - 2, n - 1);
      }
    }
  }

  lemma OrderedNone(bound: nat)
    ensures Ordered([], bound)
  {
  }

  lemma OrderedLater(w: seq<Span>, bound: nat, later: nat)
    requires Ordered(w, bound) && bound <= later
    ensures Ordered(w, later)
  {
  }

  lemma OrderedAppend(w: seq<Span>, x: Span)
    requires Ordered(w, x.first) && x.first < x.last
    ensures Ordered(w + [x], x.last)
  {
  }

  ghost predicate Suffix(v: seq<Span>, w: seq<Span>) {
    |v| <= |w| && v == w[|w| - |v|..]
  }

  lemma {:induction false} VisibleIsSuffix(k: Config, h: seq<Item>, w: seq<Span>, end: nat)
    ensures Suffix(Visible(k, h, w, end), w)
  {
    hide Wrap64;
    if w != [] {
      VisibleIsSuffix(k, h, w[1..], end);
    }
  }

  /** What is kept are the latest segments. */
  lemma {:induction false} TimelineIsSuffix(k: Config, h: seq<Item>, n: nat)
    requires ValidConfig(k) && n <= |h|
    ensures Suffix(Timeline(k, h, n), Segments(k, h, n))
  {
    hide SegmentCloses, Opened, Suffix, Visible;
    if n == 0 {
      assert Suffix([], []) by { EmptySuffix(); }
    } else {
      TimelineIsSuffix(k, h, n - 1);
      var w := Timeline(k, h, n - 1);
      VisibleIsSuffix(k, h, w, h[n - 1].time);
      var o := Opened(k, h, n - 1);
      if o.Some? {
        SuffixAppend(Visible(k, h, w, h[n - 1].time), w, Segments(k, h, n - 1), Span(o.value, n - 1));
      }
    }
  }

  lemma EmptySuffix()
    ensures Suffix([], [])
  {
  }

  lemma SuffixAppend(v: seq<Span>, u: seq<Span>, w: seq<Span>, x: Span)
    requires Suffix(v, u) && Suffix(u, w)
    ensures Suffix(v + [x], w + [x])
  {
  }

  ghost predicate TimesGrow(h: seq<Item>) {
    forall i, j :: 0 <= i <= j < |h| ==> h[i].time <= h[j].time <= Wrap64(h[j].time)
  }

  ghost predicate InSight(k: Config, h: seq<Item>, w: seq<Span>, end: nat) {
    forall j :: 0 <= j < |w| && w[j].first < |h| ==> end - h[w[j].first].time <= k.visiblePeriod
  }

  lemma {:induction false} VisibleInSight(k: Config, h: seq<Item>, w: seq<Span>, n: nat)
    requires TimesGrow(h) && 0 < n <= |h|
    requires forall i, j :: 0 <= i <= j < |w| ==> w[i].first <= w[j].first
    requires forall j :: 0 <= j < |w| ==> w[j].first < n
    ensures InSight(k, h, Visible(k, h, w, h[n - 1].time), h[n - 1].time)
  {
    if w != [] {
      var first, end := h[w[0].first].time, h[n - 1].time;
      assert first <= end;
      SmallWrap64(end, end - first);
      VisibleInSight(k, h, w[1..], n);
    }
  }

  lemma SmallWrap64(x: nat, y: nat)
    requires x <= Wrap64(x) && y <= x
    ensures Wrap64(y) == y
  {
  }

  lemma {:induction false} OrderedStarts(w: seq<Span>, bound: nat, i: nat, j: nat)
    requires Ordered(w, bound) && i <= j < |w|
    ensures w[i].first <= w[j].first <= w[j].last <= bound
    ensures i < j ==> w[i].last <= w[j].first
    decreases |w|
  {
    hide Ordered;
    var n := |w| - 1;
    OrderedEnd(w, bound);
    if j < n {
      OrderedStarts(w[..n], w[n].first, i, j);
    } else if i < j {
      OrderedStarts(w[..n], w[n].first, i, n - 1);
    }
  }

  lemma OrderedEnd(w: seq<Span>, bound: nat)
    requires Ordered(w, bound) && w != []
    ensures var x := w[|w| - 1]; x.first < x.last <= bound && Ordered(w[..|w| - 1], x.first)
  {
    var n := |w| - 1;
    var v := w[..n];
    assert n > 0 ==> w[n - 1].last <= w[n].first;
    forall j {:trigger v[j]} | 0 < j < |v| ensures v[j - 1].last <= v[j].first {
      assert w[j - 1].last <= w[j].first;
    }
  }

  /** For times that never go back: when a segment is added, all older ones that are kept start within
      the visible period of its end. */
  lemma TimelineInSight(k: Config, h: seq<Item>, n: nat)
    requires ValidConfig(k) && 1 < n <= |h| && TimesGrow(h)
    requires Opened(k, h, n - 1).Some? && SegmentCloses(k, h, Opened(k, h, n - 1).value, n - 1)
    ensures var w := Timeline(k, h, n);
            && w != [] && w[|w| - 1].last == n - 1
            && forall j :: 0 <= j < |w| - 1 ==>
                 w[j].first < |h| && h[n - 1].time - h[w[j].first].time <= k.visiblePeriod
  {
    hide Segments, Ordered, Wrap64, SegmentCloses, Opened, Visible;
    var v, w := Segments(k, h, n - 1), Timeline(k, h, n - 1);
    TimelineIsSuffix(k, h, n - 1);
    SegmentsOrdered(k, h, n - 1);
    forall i, j | 0 <= i <= j < |w| ensures w[i].first <= w[j].first < n {
      OrderedStarts(v, n - 2, |v| - |w| + i, |v| - |w| + j);
    }
    forall j | 0 <= j < |w| ensures w[j].first < n {
      assert w[j].first <= w[j].first;
    }
    VisibleInSight(k, h, w, n);
    VisibleIsSuffix(k, h, w, h[n - 1].time);
  }

  /** For times that never go back: what is kept is in order of time and without overlap. */
  lemma TimelineInOrder(k: Config, h: seq<Item>, n: nat)
    requires ValidConfig(k) && n <= |h| && TimesGrow(h)
    ensures var w := Timeline(k, h, n);
            && (forall j :: 0 <= j < |w| ==> w[j].first < w[j].last < n)
            && (forall i, j :: 0 <= i < j < |w| ==> h[w[i].last].time <= h[w[j].first].time)
  {
    hide Segments, Timeline, Ordered, Wrap64;
    TimelineIsSuffix(k, h, n);
    var v, w := Segments(k, h, n), Timeline(k, h, n);
    if n == 0 {
      assert w == [] by { assert Segments(k, h, 0) == [] by { NoSegments(k, h); } }
    } else {
      SegmentsOrdered(k, h, n);
      forall j | 0 <= j < |w| ensures w[j].first < w[j].last < n {
        SpanInOrder(v, n - 1, |v| - |w| + j);
      }
      forall i, j | 0 <= i < j < |w| ensures h[w[i].last].time <= h[w[j].first].time {
        OrderedStarts(v, n - 1, |v| - |w| + i, |v| - |w| + j);
      }
    }
  }

  lemma NoSegments(k: Config, h: seq<Item>)
    requires ValidConfig(k)
    ensures Segments(k, h, 0) == []
  {
  }

  lemma SpanInOrder(w: seq<Span>, bound: nat, j: nat)
    requires Ordered(w, bound) && j < |w|
    ensures w[j].first < w[j].last <= bound
  {
    OrderedStarts(w, bound, j, j);
  }

  // ---------------------------------------------------------------- attribution

  /** The hardware id whose segment and window take pair i. */
  function Attributed(k: Config, h: seq<Item>, i: nat): Option<Word>
    requires ValidConfig(k) && i < |h|
  {
    if Opened(k, h, i).None? then None else Some(h[Opened(k, h, i).value].hwId)
  }

  /** The hardware id that was running between the two records, as the earlier one says. */
  function Running(h: seq<Item>, i: nat): Option<Word>
    requires i < |h|
  {
    if i == 0 || h[i - 1].hwId == INVALID_CTX_ID then None else Some(h[i - 1].hwId)
  }

  /** Each switch away from a context - but for one between the last two records - has usable stamps. */
  ghost predicate SwitchesUsable(h: seq<Item>, n: nat)
    requires n <= |h|
  {
    forall i :: 0 < i < n - 1 && h[i - 1].hwId != INVALID_CTX_ID && h[i - 1].hwId != h[i].hwId ==> UsablePair(h, i)
  }

  ghost predicate AttributedRight(k: Config, h: seq<Item>, n: nat)
    requires ValidConfig(k) && n <= |h|
  {
    forall i :: 0 <= i < n ==> Attributed(k, h, i) == Running(h, i)
  }

  /** Segments and windows are credited to the context that was running exactly if switches have
      usable stamps: otherwise a segment stays open into the time of another context. */
  lemma AttributionExact(k: Config, h: seq<Item>, n: nat)
    requires ValidConfig(k) && n <= |h|
    ensures AttributedRight(k, h, n) <==> SwitchesUsable(h, n)
  {
    if SwitchesUsable(h, n) {
      UsableGivesRight(k, h, n);
    }
    if AttributedRight(k, h, n) {
      RightNeedsUsable(k, h, n);
    }
  }

  lemma {:induction false} UsableGivesRight(k: Config, h: seq<Item>, n: nat)
    requires ValidConfig(k) && n <= |h| && SwitchesUsable(h, n)
    ensures AttributedRight(k, h, n)
  {
    hide UsablePair, SegmentAcc, Elapsed;
    if n > 1 {
      UsableGivesRight(k, h, n - 1);
      assert Attributed(k, h, n - 2) == Running(h, n - 2);
      if SegmentStart(k, h, n - 1).Some? {
        assert Opened(k, h, n - 2) == SegmentStart(k, h, n - 1);
      }
    }
  }

  lemma RightNeedsUsable(k: Config, h: seq<Item>, n: nat)
    requires ValidConfig(k) && n <= |h| && AttributedRight(k, h, n)
    ensures SwitchesUsable(h, n)
  {
    hide UsablePair, SegmentAcc, Elapsed;
    forall i | 0 < i < n - 1 && h[i - 1].hwId != INVALID_CTX_ID && h[i - 1].hwId != h[i].hwId ensures UsablePair(h, i) {
      assert Attributed(k, h, i) == Running(h, i);
      assert Attributed(k, h, i + 1) == Running(h, i + 1);
      assert SegmentStart(k, h, i + 1).None? ==> UsablePair(h, i);
    }
  }

  // ---------------------------------------------------------------- lives of contexts

  /** One of the segments is that of hardware id hw. */
  ghost predicate HasSegment(h: seq<Item>, w: seq<Span>, hw: Word) {
    exists j :: 0 <= j < |w| && w[j].first < |h| && h[w[j].first].hwId == hw
  }

  /** After n records a segment of hw is kept, or is under way. */
  ghost predicate Present(k: Config, h: seq<Item>, n: nat, hw: Word)
    requires ValidConfig(k) && n <= |h|
  {
    HasSegment(h, Timeline(k, h, n), hw) || (SegmentStart(k, h, n).Some? && h[SegmentStart(k, h, n).value].hwId == hw)
  }

  /** Since which pair there is a context for hw, after n records: one lives as long as there are segments
      of it. */
  ghost function Born(k: Config, h: seq<Item>, hw: Word, n: nat): (birth: Option<nat>)
    requires ValidConfig(k) && n <= |h|
    ensures birth.Some? ==> birth.value < n
    ensures birth.Some? <==> n > 0 && Present(k, h, n, hw)
  {
    if n == 0 || !Present(k, h, n, hw) then None
    else
      var before := Born(k, h, hw, n - 1);
      if before.Some? then before else Some(n - 1)
  }

  /** The start time of the window that starts at record s, for a context that exists since pair `birth`.
      For one that appears in the middle of the window the record is stamped again, from the record before
      the pair: that is a difference of stamps with the wrong sign. */
  function ContextStart(k: Config, h: seq<Item>, birth: nat, s: nat): nat
    requires ValidConfig(k) && s < |h|
  {
    if k.cpuTimestamps || birth <= s || birth > |h| then h[s].time
    else Wrap64(h[birth - 1].time + ScaleNs(k.freq, Wrap64(h[s].report[1] as int - h[birth - 1].report[1])))
  }

  // ---------------------------------------------------------------- windows of contexts

  /** What a context with hardware id hw that exists since pair `birth` gathers of the window that
      starts at record s, from the pairs below n. */
  function ContextAcc(k: Config, h: seq<Item>, hw: Word, birth: nat, s: nat, n: nat): (a: Accumulator)
    requires ValidConfig(k) && s < |h| && n <= |h|
    ensures WellFormed(a)
  {
    if n <= s || n <= 1 then Init(k.freq, h[s].report)
    else
      var before := ContextAcc(k, h, hw, birth, s, n - 1);
      if birth <= n - 1 && Attributed(k, h, n - 1) == Some(hw) then AddPair(k, h, n - 1, before) else before
  }

  /** The ticks that pair i adds to a clock count. */
  function PairTicks(h: seq<Item>, i: nat): nat
    requires 0 < i < |h|
  {
    if UsablePair(h, i) then Wrap32(h[i].report[1] as int - h[i - 1].report[1]) else 0
  }

  function WindowTicks(h: seq<Item>, s: nat, n: nat): nat
    requires n <= |h|
  {
    if n <= s || n <= 1 then 0 else WindowTicks(h, s, n - 1) + PairTicks(h, n - 1)
  }

  function ContextTicks(k: Config, h: seq<Item>, hw: Word, birth: nat, s: nat, n: nat): nat
    requires ValidConfig(k) && n <= |h|
  {
    if n <= s || n <= 1 then 0
    else ContextTicks(k, h, hw, birth, s, n - 1)
         + if birth <= n - 1 && Attributed(k, h, n - 1) == Some(hw) then PairTicks(h, n - 1) else 0
  }

  lemma AddPairCount(k: Config, h: seq<Item>, i: nat, a: Accumulator, ticks: nat)
    requires ValidConfig(k) && 0 < i < |h| && WellFormed(a) && a.clockSet && a.clock.count == Wrap64(ticks)
    ensures AddPair(k, h, i, a).clockSet && AddPair(k, h, i, a).clock.count == Wrap64(ticks + PairTicks(h, i))
  {
    hide Wrap64, Wrap32, AddDeltas, ScaleNs;
    if UsablePair(h, i) {
      ModSum(ticks, PairTicks(h, i));
    }
  }

  lemma {:induction false} WindowCount(k: Config, h: seq<Item>, s: nat, n: nat)
    requires ValidConfig(k) && s < |h| && n <= |h|
    ensures var a := WindowAcc(k, h, s, n); a.clockSet && a.clock.count == Wrap64(WindowTicks(h, s, n))
  {
    hide AddPair, PairTicks;
    if n <= s || n <= 1 {
      assert Wrap64(0) == 0;
    } else {
      hide Wrap64;
      WindowCount(k, h, s, n - 1);
      AddPairCount(k, h, n - 1, WindowAcc(k, h, s, n - 1), WindowTicks(h, s, n - 1));
    }
  }

  lemma {:induction false} ContextCount(k: Config, h: seq<Item>, hw: Word, birth: nat, s: nat, n: nat)
    requires ValidConfig(k) && s < |h| && n <= |h|
    ensures var a := ContextAcc(k, h, hw, birth, s, n);
            a.clockSet && a.clock.count == Wrap64(ContextTicks(k, h, hw, birth, s, n))
  {
    hide AddPair, PairTicks, Attributed;
    if n <= s || n <= 1 {
      assert Wrap64(0) == 0;
    } else {
      hide Wrap64;
      ContextCount(k, h, hw, birth, s, n - 1);
      AddPairCount(k, h, n - 1, ContextAcc(k, h, hw, birth, s, n - 1), ContextTicks(k, h, hw, birth, s, n - 1));
    }
  }

  /** A context as far as its windows are concerned. */
  datatype Client = Client(hw: Word, birth: nat)

  function AllTicks(k: Config, h: seq<Item>, clients: seq<Client>, s: nat, n: nat): nat
    requires ValidConfig(k) && n <= |h|
  {
    if clients == [] then 0
    else ContextTicks(k, h, clients[0].hw, clients[0].birth, s, n) + AllTicks(k, h, clients[1..], s, n)
  }

  ghost predicate DistinctIds(clients: seq<Client>) {
    forall i, j :: 0 <= i < j < |clients| ==> clients[i].hw != clients[j].hw
  }

  /** How much of a pair's ticks the contexts get together: all of it or nothing. */
  lemma {:induction false} OnePayee(k: Config, h: seq<Item>, clients: seq<Client>, s: nat, n: nat)
    requires ValidConfig(k) && s < n <= |h| && n > 1 && DistinctIds(clients)
    ensures AllTicks(k, h, clients, s, n) <= AllTicks(k, h, clients, s, n - 1) + PairTicks(h, n - 1)
    ensures (forall i :: 0 <= i < |clients| ==> Attributed(k, h, n - 1) != Some(clients[i].hw)) ==>
              AllTicks(k, h, clients, s, n) == AllTicks(k, h, clients, s, n - 1)
    decreases |clients|
  {
    hide PairTicks, Attributed;
    if clients != [] {
      OnePayee(k, h, clients[1..], s, n);
      if Attributed(k, h, n - 1) == Some(clients[0].hw) {
        forall i | 0 <= i < |clients[1..]| ensures Attributed(k, h, n - 1) != Some(clients[1..][i].hw) {
          assert clients[1..][i] == clients[i + 1];
        }
      }
    }
  }

  lemma NoTicks(k: Config, h: seq<Item>, clients: seq<Client>, s: nat, n: nat)
    requires ValidConfig(k) && n <= |h| && (n <= s || n <= 1)
    ensures AllTicks(k, h, clients, s, n) == 0
  {
  }

  /** Of any window the contexts together get at most what there is. */
  lemma {:induction false} ContextsWithinWindow(k: Config, h: seq<Item>, clients: seq<Client>, s: nat, n: nat)
    requires ValidConfig(k) && n <= |h| && DistinctIds(clients)
    ensures AllTicks(k, h, clients, s, n) <= WindowTicks(h, s, n)
    decreases n
  {
    hide PairTicks, AllTicks, DistinctIds;
    if n <= s || n <= 1 {
      NoTicks(k, h, clients, s, n);
    } else {
      ContextsWithinWindow(k, h, clients, s, n - 1);
      OnePayee(k, h, clients, s, n);
    }
  }

  // ---------------------------------------------------------------- how long windows can be

  /** A clock of at most one tick per nanosecond, and windows of less than a century. */
  predicate Moderate(k: Config) {
    0 < k.freq <= NS_PER_SECOND && k.aggregationPeriod < U64 / 4
  }

  ghost predicate StampsNonzero(h: seq<Item>) {
    forall i :: 0 <= i < |h| ==> h[i].report[1] != 0
  }

  ghost predicate OpenUntil(k: Config, h: seq<Item>, s: nat, n: nat)
    requires ValidConfig(k) && n <= |h|
  {
    forall i :: s <= i < n ==> !WindowCloses(k, h, s, i)
  }

  lemma {:induction false} StartIsOpen(k: Config, h: seq<Item>, n: nat)
    requires ValidConfig(k) && n <= |h|
    ensures OpenUntil(k, h, WindowStart(k, h, n), n)
  {
    hide WindowCloses;
    if n > 0 {
      StartIsOpen(k, h, n - 1);
    }
  }

  lemma {:induction false} ClosedWasOpen(k: Config, h: seq<Item>, n: nat, p: nat)
    requires ValidConfig(k) && n <= |h| && p < |Windows(k, h, n)|
    ensures var w := Windows(k, h, n)[p]; w.first <= w.last < n && OpenUntil(k, h, w.first, w.last)
  {
    hide WindowCloses, OpenUntil;
    var s := WindowStart(k, h, n - 1);
    if WindowCloses(k, h, s, n - 1) && p == |Windows(k, h, n - 1)| {
      StartIsOpen(k, h, n - 1);
    } else {
      ClosedWasOpen(k, h, n - 1, p);
    }
  }

  /** Scaling a 32-bit number of ticks gives no less and at most 2^62. */
  lemma ScaleBounds(freq: nat, d: nat)
    requires 0 < freq <= NS_PER_SECOND && d < U32
    ensures d <= ScaleNs(freq, d) < U64 / 4
  {
    WrapSmall(d * NS_PER_SECOND);
    MulMono(freq, NS_PER_SECOND, d);
    QuotientBounds(d * NS_PER_SECOND, d, freq);
  }

  lemma QuotientBounds(p: nat, d: nat, f: nat)
    requires f > 0 && d * f <= p
    ensures d <= p / f <= p
  {
    var q := p / f;
    assert p == q * f + p % f;
    assert (d - q) * f == d * f - q * f;
    if q < d {
      MulAtLeast(d - q, f);
    }
    if q > 0 {
      MulAtLeast(f, q);
    }
  }

  /** What is known of the totals of a window that has not been closed before the last of its n records. */
  ghost predicate Timed(k: Config, h: seq<Item>, s: nat, n: nat)
    requires ValidConfig(k) && s < n <= |h|
  {
    var a, start := WindowAcc(k, h, s, n), ScaleNs(k.freq, h[s].report[1]);
    && a.clockSet && a.first == start && a.clock.lastU32 == h[n - 1].report[1]
    && (n > 1 ==> a.last == a.clock.timestamp)
    && start <= a.clock.timestamp <= start + (if n == s + 1 then 0 else k.aggregationPeriod + U64 / 4)
    && WindowTicks(h, s, n) < U32 + (a.clock.timestamp - start)
  }

  /** While stamps are not zero a window that is open has not taken longer than the aggregation period, up to
      its last pair, and has at most one tick per nanosecond, but for its first pair. */
  lemma {:induction false} WindowTime(k: Config, h: seq<Item>, s: nat, n: nat)
    requires ValidConfig(k) && Moderate(k) && StampsNonzero(h) && s < n <= |h| && OpenUntil(k, h, s, n - 1)
    ensures Timed(k, h, s, n)
  {
    hide OpenUntil, AddDeltas, ScaleNs, Wrap64, Wrap32;
    var start := ScaleNs(k.freq, h[s].report[1]);
    ScaleBounds(k.freq, h[s].report[1]);
    if n == s + 1 {
      FirstPair(k, h, s);
    } else {
      OpenLess(k, h, s, n - 1);
      WindowTime(k, h, s, n - 1);
      var a := WindowAcc(k, h, s, n - 1);
      assert a.clock.timestamp <= start + k.aggregationPeriod by { NotYet(k, h, s, n - 1); }
      OnePair(k, h, s, n);
    }
  }

  lemma OpenLess(k: Config, h: seq<Item>, s: nat, n: nat)
    requires ValidConfig(k) && 0 < n <= |h| && OpenUntil(k, h, s, n)
    ensures OpenUntil(k, h, s, n - 1) && (s < n ==> !WindowCloses(k, h, s, n - 1))
  {
    hide WindowCloses;
  }

  lemma FirstPair(k: Config, h: seq<Item>, s: nat)
    requires ValidConfig(k) && Moderate(k) && StampsNonzero(h) && s < |h|
    ensures Timed(k, h, s, s + 1)
  {
    hide AddDeltas;
    if s > 0 {
      var a := Init(k.freq, h[s].report);
      assert WindowAcc(k, h, s, s + 1) == AddPair(k, h, s, a);
      ScaleBounds(k.freq, h[s].report[1]);
      NoTicksNoTime(k.freq, a.clock.timestamp);
      assert WindowTicks(h, s, s + 1) == PairTicks(h, s);
    }
  }

  lemma NotYet(k: Config, h: seq<Item>, s: nat, n: nat)
    requires ValidConfig(k) && Moderate(k) && StampsNonzero(h) && s < n <= |h| && Timed(k, h, s, n)
    requires !WindowCloses(k, h, s, n - 1)
    ensures WindowAcc(k, h, s, n).clock.timestamp <= ScaleNs(k.freq, h[s].report[1]) + k.aggregationPeriod
  {
    hide WindowAcc, Wrap64, ScaleNs;
    var a := WindowAcc(k, h, s, n);
    if n > s + 1 {
      WrapSmall(a.clock.timestamp - a.first);
    }
  }

  lemma OnePair(k: Config, h: seq<Item>, s: nat, n: nat)
    requires ValidConfig(k) && Moderate(k) && StampsNonzero(h) && s < n - 1 && n <= |h| && Timed(k, h, s, n - 1)
    requires WindowAcc(k, h, s, n - 1).clock.timestamp <= ScaleNs(k.freq, h[s].report[1]) + k.aggregationPeriod
    ensures Timed(k, h, s, n)
  {
    hide AddDeltas, ScaleNs, Wrap64, Wrap32;
    var a, start := WindowAcc(k, h, s, n - 1), ScaleNs(k.freq, h[s].report[1]);
    ScaleBounds(k.freq, h[s].report[1]);
    var d := Wrap32(h[n - 1].report[1] as int - h[n - 2].report[1]);
    ScaleBounds(k.freq, d);
    assert WindowAcc(k, h, s, n) == AddPair(k, h, n - 1, a);
    assert Usable(h[n - 2].report, h[n - 1].report);
    WrapSmall(a.clock.timestamp + ScaleNs(k.freq, d));
    assert WindowTicks(h, s, n) == WindowTicks(h, s, n - 1) + d;
  }

  /** So it has less than 2^64 ticks: the one under way, and those that have been closed. */
  lemma OpenTicksFit(k: Config, h: seq<Item>)
    requires ValidConfig(k) && Moderate(k) && StampsNonzero(h)
    ensures WindowTicks(h, WindowStart(k, h, |h|), |h|) < U64
  {
    hide WindowStart, WindowAcc, OpenUntil, ScaleNs;
    var s := WindowStart(k, h, |h|);
    StartIsOpen(k, h, |h|);
    if s < |h| {
      OpenLess(k, h, s, |h|);
      WindowTime(k, h, s, |h|);
    }
  }

  lemma ClosedTicksFit(k: Config, h: seq<Item>, n: nat, p: nat)
    requires ValidConfig(k) && Moderate(k) && StampsNonzero(h) && n <= |h| && p < |Windows(k, h, n)|
    ensures var w := Windows(k, h, n)[p]; w.last < n && WindowTicks(h, w.first, w.last + 1) < U64
  {
    hide Windows, WindowAcc, OpenUntil, ScaleNs;
    ClosedWasOpen(k, h, n, p);
    var w := Windows(k, h, n)[p];
    WindowTime(k, h, w.first, w.last + 1);
  }

  // ---------------------------------------------------------------- more records change nothing before them

  lemma {:induction false} WindowAccPrefix(k: Config, h: seq<Item>, x: Item, s: nat, n: nat)
    requires ValidConfig(k) && s < |h| && n <= |h|
    ensures WindowAcc(k, h + [x], s, n) == WindowAcc(k, h, s, n)
  {
    hide Accumulate, Init;
    if n > s && n > 1 {
      WindowAccPrefix(k, h, x, s, n - 1);
    }
  }

  lemma {:induction false} WindowsPrefix(k: Config, h: seq<Item>, x: Item, n: nat)
    requires ValidConfig(k) && n <= |h|
    ensures WindowStart(k, h + [x], n) == WindowStart(k, h, n)
    ensures Windows(k, h + [x], n) == Windows(k, h, n)
  {
    hide WindowAcc, Elapsed, Usable;
    if n > 0 {
      WindowsPrefix(k, h, x, n - 1);
      WindowAccPrefix(k, h, x, WindowStart(k, h, n - 1), n);
    }
  }

  lemma {:induction false} SegmentAccPrefix(k: Config, h: seq<Item>, x: Item, s: nat, n: nat)
    requires ValidConfig(k) && s < |h| && n <= |h|
    ensures SegmentAcc(k, h + [x], s, n) == SegmentAcc(k, h, s, n)
  {
    hide Accumulate, Init;
    if n > s + 1 {
      SegmentAccPrefix(k, h, x, s, n - 1);
    }
  }

  lemma {:induction false} SegmentsPrefix(k: Config, h: seq<Item>, x: Item, n: nat)
    requires ValidConfig(k) && n <= |h|
    ensures SegmentStart(k, h + [x], n) == SegmentStart(k, h, n)
    ensures Segments(k, h + [x], n) == Segments(k, h, n)
    ensures n < |h| ==> Opened(k, h + [x], n) == Opened(k, h, n)
  {
    hide SegmentCloses;
    if n > 0 {
      SegmentsPrefix(k, h, x, n - 1);
      if Opened(k, h, n - 1).Some? { ClosesPrefix(k, h, x, Opened(k, h, n - 1).value, n - 1); }
    }
  }

  lemma {:induction false} VisiblePrefix(k: Config, h: seq<Item>, x: Item, w: seq<Span>, end: nat)
    requires forall j :: 0 <= j < |w| ==> w[j].first < |h|
    ensures Visible(k, h + [x], w, end) == Visible(k, h, w, end)
  {
    hide Wrap64;
    if w != [] {
      VisiblePrefix(k, h, x, w[1..], end);
    }
  }

  lemma {:induction false} TimelineInside(k: Config, h: seq<Item>, n: nat)
    requires ValidConfig(k) && n <= |h|
    ensures forall j :: 0 <= j < |Timeline(k, h, n)| ==> Timeline(k, h, n)[j].first < n
  {
    hide SegmentCloses, Opened, Visible;
    if n > 0 {
      TimelineInside(k, h, n - 1);
      VisibleIsSuffix(k, h, Timeline(k, h, n - 1), h[n - 1].time);
    }
  }

  lemma ClosesPrefix(k: Config, h: seq<Item>, x: Item, s: nat, i: nat)
    requires ValidConfig(k) && s < i < |h|
    ensures SegmentCloses(k, h + [x], s, i) == SegmentCloses(k, h, s, i)
  {
    hide SegmentAcc, Elapsed, Usable;
    SegmentAccPrefix(k, h, x, s, i + 1);
  }

  lemma {:induction false} TimelinePrefix(k: Config, h: seq<Item>, x: Item, n: nat)
    requires ValidConfig(k) && n <= |h|
    ensures Timeline(k, h + [x], n) == Timeline(k, h, n)
  {
    hide SegmentCloses, Opened, Visible;
    if n > 0 {
      TimelinePrefix(k, h, x, n - 1);
      SegmentsPrefix(k, h, x, n - 1);
      var o := Opened(k, h, n - 1);
      if o.Some? { ClosesPrefix(k, h, x, o.value, n - 1); }
      TimelineInside(k, h, n - 1);
      VisiblePrefix(k, h, x, Timeline(k, h, n - 1), h[n - 1].time);
    }
  }

  lemma PresentPrefix(k: Config, h: seq<Item>, x: Item, hw: Word, n: nat)
    requires ValidConfig(k) && n <= |h|
    ensures Present(k, h + [x], n, hw) == Present(k, h, n, hw)
  {
    hide Timeline, SegmentStart, HasSegment;
    TimelinePrefix(k, h, x, n);
    SegmentsPrefix(k, h, x, n);
    TimelineInside(k, h, n);
    HasSegmentPrefix(h, x, Timeline(k, h, n), hw);
  }

  lemma {:induction false} BornPrefix(k: Config, h: seq<Item>, x: Item, hw: Word, n: nat)
    requires ValidConfig(k) && n <= |h|
    ensures Born(k, h + [x], hw, n) == Born(k, h, hw, n)
  {
    hide Present;
    if n > 0 {
      BornPrefix(k, h, x, hw, n - 1);
      PresentPrefix(k, h, x, hw, n);
    }
  }

  lemma HasSegmentPrefix(h: seq<Item>, x: Item, w: seq<Span>, hw: Word)
    requires forall j :: 0 <= j < |w| ==> w[j].first < |h|
    ensures HasSegment(h + [x], w, hw) <==> HasSegment(h, w, hw)
  {
  }

  lemma {:induction false} ContextAccPrefix(k: Config, h: seq<Item>, x: Item, hw: Word, birth: nat, s: nat, n: nat)
    requires ValidConfig(k) && s < |h| && n <= |h|
    ensures ContextAcc(k, h + [x], hw, birth, s, n) == ContextAcc(k, h, hw, birth, s, n)
  {
    hide Accumulate, Init, Opened;
    if n > s && n > 1 {
      ContextAccPrefix(k, h, x, hw, birth, s, n - 1);
      SegmentsPrefix(k, h, x, n - 1);
    }
  }
}
