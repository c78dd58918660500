/** The client computes what Segmentation defines: at any time its graph list is the tail of the windows
    of the history so far, its timeline the tail of the segments, each context's list the tail of the
    windows with the context's share - and every accumulator holds exactly the pairs of its span.
 */
module ClientHistory {
  import opened Common
  import opened OaCounters
  import opened ClientState
  import opened ClientInvariants
  import opened ClientSteps
  import opened Segmentation

  // ---------------------------------------------------------------- samples and spans

  predicate SpanOf(h: seq<Item>, m: AccumulatedSamples, w: Span) {
    w.first <= w.last < |h| && m.start == h[w.first].ref && m.end == Some(h[w.last].ref)
  }

  predicate TimesOf(h: seq<Item>, m: AccumulatedSamples, w: Span)
    requires SpanOf(h, m, w)
  {
    m.timestampStart == h[w.first].time && m.timestampEnd == h[w.last].time
  }

  predicate IsWindow(k: Config, h: seq<Item>, m: AccumulatedSamples, w: Span)
    requires ValidConfig(k)
  {
    SpanOf(h, m, w) && TimesOf(h, m, w) && m.accumulator == WindowAcc(k, h, w.first, w.last + 1)
  }

  predicate IsContextWindow(k: Config, h: seq<Item>, hw: Word, birth: nat, m: AccumulatedSamples, w: Span)
    requires ValidConfig(k)
  {
    && SpanOf(h, m, w) && m.accumulator == ContextAcc(k, h, hw, birth, w.first, w.last + 1)
    && m.timestampStart == ContextStart(k, h, birth, w.first)
    && m.timestampEnd == if k.cpuTimestamps then h[w.last].time else m.accumulator.last
  }

  predicate OfContext(contexts: map<ContextId, HwContext>, m: AccumulatedSamples, hw: Word) {
    m.context.Some? && m.context.value in contexts && contexts[m.context.value].hwId == hw
  }

  predicate IsSegment(k: Config, h: seq<Item>, contexts: map<ContextId, HwContext>, m: AccumulatedSamples, w: Span)
    requires ValidConfig(k)
  {
    SpanOf(h, m, w) && TimesOf(h, m, w) && m.accumulator == SegmentAcc(k, h, w.first, w.last + 1)
    && OfContext(contexts, m, h[w.first].hwId)
  }

  /** Entry j of a list that is the tail of w. */
  function TailAt(w: seq<Span>, l: seq<SampleId>, j: nat): Span
    requires |l| <= |w| && j < |l|
  {
    w[|w| - |l| + j]
  }

  /** The latest windows, as many as are kept. */
  ghost predicate GraphList(k: Config, s: State, h: seq<Item>, w: seq<Span>)
    requires ValidConfig(k)
  {
    |s.graphs| == AtMost(|w|, k.maxGraphs + 1)
    && forall j :: 0 <= j < |s.graphs| ==>
         s.graphs[j] in s.samples && IsWindow(k, h, s.samples[s.graphs[j]], TailAt(w, s.graphs, j))
  }

  /** The global window under way: it started at record `start` and has the pairs below n. */
  ghost predicate OpenGraph(k: Config, s: State, h: seq<Item>, start: nat, n: nat)
    requires ValidConfig(k) && n <= |h|
  {
    s.currentGraph.Some? ==>
      && start < |h| && s.currentGraph.value in s.samples
      && (var m := s.samples[s.currentGraph.value];
          m.start == h[start].ref && m.timestampStart == h[start].time && m.accumulator == WindowAcc(k, h, start, n))
  }

  /** Windows are those of the first nw records, the open one has the pairs below n. */
  ghost predicate GraphPart(k: Config, s: State, h: seq<Item>, nw: nat, n: nat)
    requires ValidConfig(k) && nw <= |h| && n <= |h|
  {
    GraphList(k, s, h, Windows(k, h, nw)) && OpenGraph(k, s, h, WindowStart(k, h, nw), n)
  }

  /** How many windows were closed by pair `birth` or later. */
  function Since(w: seq<Span>, birth: nat): (n: nat)
    ensures n <= |w|
  {
    if w == [] then 0 else Since(w[..|w| - 1], birth) + if w[|w| - 1].last >= birth then 1 else 0
  }

  /** The latest windows that were closed since there is the context, as many as are kept. */
  ghost predicate ContextList(k: Config, s: State, h: seq<Item>, x: HwContext, birth: nat, w: seq<Span>)
    requires ValidConfig(k)
  {
    |x.graphs| == AtMost(Since(w, birth), k.maxGraphs + 1)
    && forall j :: 0 <= j < |x.graphs| ==>
         x.graphs[j] in s.samples
         && IsContextWindow(k, h, x.hwId, birth, s.samples[x.graphs[j]], TailAt(w, x.graphs, j))
  }

  ghost predicate OpenContextWindow(k: Config, s: State, h: seq<Item>, x: HwContext, birth: nat, start: nat, n: nat)
    requires ValidConfig(k) && n <= |h|
  {
    x.current.Some? ==>
      && start < |h| && x.current.value in s.samples
      && (var m := s.samples[x.current.value];
          && m.start == h[start].ref && m.timestampStart == ContextStart(k, h, birth, start)
          && m.accumulator == ContextAcc(k, h, x.hwId, birth, start, n))
  }

  type Births = map<ContextId, nat>

  ghost predicate ContextPart(k: Config, s: State, h: seq<Item>, nw: nat, n: nat, births: Births, c: ContextId)
    requires ValidConfig(k) && nw <= |h| && n <= |h| && c in s.contexts
  {
    c in births && births[c] <= nw && ContextList(k, s, h, s.contexts[c], births[c], Windows(k, h, nw))
    && OpenContextWindow(k, s, h, s.contexts[c], births[c], WindowStart(k, h, nw), n)
  }

  ghost predicate ContextsPart(k: Config, s: State, h: seq<Item>, nw: nat, n: nat, births: Births)
    requires ValidConfig(k) && nw <= |h| && n <= |h|
  {
    forall c :: c in s.contexts ==> ContextPart(k, s, h, nw, n, births, c)
  }

  ghost predicate SegmentList(k: Config, s: State, h: seq<Item>, w: seq<Span>)
    requires ValidConfig(k)
  {
    |s.timelines| == |w|
    && forall j :: 0 <= j < |s.timelines| ==>
         s.timelines[j] in s.samples && IsSegment(k, h, s.contexts, s.samples[s.timelines[j]], w[j])
  }

  ghost predicate OpenSegment(k: Config, s: State, h: seq<Item>, open: Option<nat>, n: nat)
    requires ValidConfig(k) && n <= |h|
  {
    && s.currentTimeline.Some? == open.Some?
    && (open.Some? ==>
          && open.value < |h| && s.currentTimeline.value in s.samples
          && (var m := s.samples[s.currentTimeline.value];
              && m.start == h[open.value].ref && m.timestampStart == h[open.value].time
              && m.accumulator == SegmentAcc(k, h, open.value, n) && OfContext(s.contexts, m, h[open.value].hwId)))
  }

  ghost predicate SegmentPart(k: Config, s: State, h: seq<Item>, ns: nat, open: Option<nat>, n: nat)
    requires ValidConfig(k) && ns <= |h| && n <= |h|
  {
    SegmentList(k, s, h, Timeline(k, h, ns)) && OpenSegment(k, s, h, open, n)
  }

  // ---------------------------------------------------------------- the stream

  /** A record that is still in memory is what the history says. */
  predicate Faithful(k: Config, chunks: map<ChunkId, Chunk>, x: Item) {
    && x.hwId == CtxId(k.gen, x.report)
    && (x.ref.chunk in chunks ==>
          && Deref(chunks, x.ref).Some? && Deref(chunks, x.ref).value.report == x.report
          && (k.cpuTimestamps ==> Deref(chunks, x.ref).value.cpuTimestamp == x.time))
  }

  ghost predicate AllFaithful(k: Config, s: State, h: seq<Item>) {
    forall i :: 0 <= i < |h| ==> Faithful(k, s.chunks, h[i]) && h[i].ref.chunk < s.nextChunk
  }

  /** The client stands after the first n records. */
  predicate StandsAt(k: Config, s: State, h: seq<Item>, n: nat)
    requires n <= |h|
  {
    if n == 0 then s.last.None? && s.lastOaTimestamp == Wrap64(k.visiblePeriod)
    else s.last == Some(h[n - 1].ref) && s.lastHwId == h[n - 1].hwId && s.lastOaTimestamp == h[n - 1].time
  }

  /** Asked again, the last record still has the time it had. */
  predicate Restamps(k: Config, s: State)
    requires ValidConfig(k)
  {
    s.last.Some? ==> Timestamp(k, s, s.last.value) == Some(s.lastOaTimestamp)
  }

  /** All that the client has is what the history calls for, if contexts exist since these pairs. */
  ghost predicate HistWith(k: Config, s: State, h: seq<Item>, births: Births)
    requires ValidConfig(k)
  {
    var n := |h|;
    && AllFaithful(k, s, h) && StandsAt(k, s, h, n) && Restamps(k, s)
    && GraphPart(k, s, h, n, n) && ContextsPart(k, s, h, n, n, births)
    && SegmentPart(k, s, h, n, SegmentStart(k, h, n), n)
    && (s.currentGraph.Some? <==> WindowStart(k, h, n) < n)
  }

  ghost predicate RightBirths(k: Config, s: State, h: seq<Item>, births: Births)
    requires ValidConfig(k)
  {
    forall c :: c in s.contexts ==> c in births && Born(k, h, s.contexts[c].hwId, |h|) == Some(births[c])
  }

  /** Since when the history says that there are these contexts. */
  ghost function BirthsOf(k: Config, s: State, h: seq<Item>): Births
    requires ValidConfig(k)
  {
    map c | c in s.contexts && Born(k, h, s.contexts[c].hwId, |h|).Some? :: Born(k, h, s.contexts[c].hwId, |h|).value
  }

  /** All that the client has is what the history calls for. */
  ghost predicate Hist(k: Config, s: State, h: seq<Item>)
    requires ValidConfig(k)
  {
    HistWith(k, s, h, BirthsOf(k, s, h)) && RightBirths(k, s, h, BirthsOf(k, s, h))
  }

  // ---------------------------------------------------------------- what does not touch a part, keeps it

  predicate Unchanged(s: State, t: State, id: SampleId) {
    id in s.samples ==> id in t.samples && t.samples[id] == s.samples[id]
  }

  lemma GraphPartFrame(k: Config, s: State, t: State, h: seq<Item>, nw: nat, n: nat)
    requires ValidConfig(k) && nw <= |h| && n <= |h| && GraphPart(k, s, h, nw, n)
    requires t.graphs == s.graphs && t.currentGraph == s.currentGraph
    requires forall id :: id in s.graphs ==> Unchanged(s, t, id)
    requires s.currentGraph.Some? ==> Unchanged(s, t, s.currentGraph.value)
    ensures GraphPart(k, t, h, nw, n)
  {
    hide IsWindow, WindowAcc, Windows, WindowStart;
    forall j | 0 <= j < |t.graphs|
      ensures t.graphs[j] in t.samples && IsWindow(k, h, t.samples[t.graphs[j]], TailAt(Windows(k, h, nw), t.graphs, j))
    {
      assert s.graphs[j] in s.graphs;
    }
  }

  lemma ContextPartFrame(k: Config, s: State, t: State, h: seq<Item>, nw: nat, n: nat, births: Births, c: ContextId)
    requires ValidConfig(k) && nw <= |h| && n <= |h| && c in s.contexts && c in t.contexts
    requires ContextPart(k, s, h, nw, n, births, c) && Owns(s.contexts[c], t.contexts[c])
    requires forall id :: id in s.contexts[c].graphs ==> Unchanged(s, t, id)
    requires s.contexts[c].current.Some? ==> Unchanged(s, t, s.contexts[c].current.value)
    ensures ContextPart(k, t, h, nw, n, births, c)
  {
    hide IsContextWindow, ContextAcc, Windows, WindowStart;
    var x, w := s.contexts[c], Windows(k, h, nw);
    forall j | 0 <= j < |x.graphs|
      ensures x.graphs[j] in t.samples
              && IsContextWindow(k, h, x.hwId, births[c], t.samples[x.graphs[j]], TailAt(w, x.graphs, j))
    {
      assert x.graphs[j] in x.graphs;
    }
  }

  /** Contexts may have gone or have new counts, but not a new id. */
  ghost predicate SameIds(s: State, t: State) {
    forall id :: id in t.samples && t.samples[id].context.Some? && t.samples[id].context.value in s.contexts
      ==> OfContext(t.contexts, t.samples[id], s.contexts[t.samples[id].context.value].hwId)
  }

  lemma SegmentPartFrame(k: Config, s: State, t: State, h: seq<Item>, ns: nat, open: Option<nat>, n: nat)
    requires ValidConfig(k) && ns <= |h| && n <= |h| && SegmentPart(k, s, h, ns, open, n)
    requires t.timelines == s.timelines && t.currentTimeline == s.currentTimeline && SameIds(s, t)
    requires forall id :: id in s.timelines ==> Unchanged(s, t, id)
    requires s.currentTimeline.Some? ==> Unchanged(s, t, s.currentTimeline.value)
    ensures SegmentPart(k, t, h, ns, open, n)
  {
    hide SegmentAcc, Timeline, SameIds;
    forall j | 0 <= j < |t.timelines|
      ensures t.timelines[j] in t.samples
              && IsSegment(k, h, t.contexts, t.samples[t.timelines[j]], Timeline(k, h, ns)[j])
    {
      assert s.timelines[j] in s.timelines;
      KeptId(s, t, s.timelines[j]);
    }
    if s.currentTimeline.Some? {
      KeptId(s, t, s.currentTimeline.value);
    }
  }

  lemma KeptId(s: State, t: State, id: SampleId)
    requires SameIds(s, t) && id in s.samples && Unchanged(s, t, id) && s.samples[id].context.Some?
    requires s.samples[id].context.value in s.contexts
    ensures OfContext(t.contexts, t.samples[id], s.contexts[s.samples[id].context.value].hwId)
  {
  }

  // ---------------------------------------------------------------- one more record in the history

  lemma GraphLift(k: Config, s: State, h: seq<Item>, x: Item)
    requires ValidConfig(k) && GraphPart(k, s, h, |h|, |h|)
    requires s.currentGraph.Some? ==> WindowStart(k, h, |h|) < |h|
    ensures GraphPart(k, s, h + [x], |h|, |h|)
  {
    hide WindowAcc, Windows, WindowStart;
    var n := |h|;
    WindowsPrefix(k, h, x, n);
    var w := Windows(k, h, n);
    forall j | 0 <= j < |s.graphs| ensures IsWindow(k, h + [x], s.samples[s.graphs[j]], TailAt(w, s.graphs, j)) {
      var v := TailAt(w, s.graphs, j);
      assert IsWindow(k, h, s.samples[s.graphs[j]], v);
      WindowAccPrefix(k, h, x, v.first, v.last + 1);
    }
    if s.currentGraph.Some? {
      WindowAccPrefix(k, h, x, WindowStart(k, h, n), n);
    }
  }

  lemma ContextsLift(k: Config, s: State, h: seq<Item>, x: Item, births: Births)
    requires ValidConfig(k) && ContextsPart(k, s, h, |h|, |h|, births)
    ensures ContextsPart(k, s, h + [x], |h|, |h|, births)
  {
    hide ContextPart;
    forall c | c in s.contexts ensures ContextPart(k, s, h + [x], |h|, |h|, births, c) {
      ContextLift(k, s, h, x, births, c);
    }
  }

  lemma ContextLift(k: Config, s: State, h: seq<Item>, x: Item, births: Births, c: ContextId)
    requires ValidConfig(k) && c in s.contexts && ContextPart(k, s, h, |h|, |h|, births, c)
    ensures ContextPart(k, s, h + [x], |h|, |h|, births, c)
  {
    hide ContextAcc, Windows, WindowStart, Wrap64, ScaleNs;
    var n, y := |h|, s.contexts[c];
    WindowsPrefix(k, h, x, n);
    var w := Windows(k, h, n);
    forall j | 0 <= j < |y.graphs|
      ensures IsContextWindow(k, h + [x], y.hwId, births[c], s.samples[y.graphs[j]], TailAt(w, y.graphs, j))
    {
      var v := TailAt(w, y.graphs, j);
      assert IsContextWindow(k, h, y.hwId, births[c], s.samples[y.graphs[j]], v);
      ContextAccPrefix(k, h, x, y.hwId, births[c], v.first, v.last + 1);
    }
    if y.current.Some? {
      ContextAccPrefix(k, h, x, y.hwId, births[c], WindowStart(k, h, n), n);
    }
  }

  lemma SegmentLift(k: Config, s: State, h: seq<Item>, x: Item)
    requires ValidConfig(k) && SegmentPart(k, s, h, |h|, SegmentStart(k, h, |h|), |h|)
    ensures SegmentPart(k, s, h + [x], |h|, SegmentStart(k, h + [x], |h|), |h|)
  {
    hide SegmentAcc, Timeline, SegmentStart;
    var n := |h|;
    SegmentsPrefix(k, h, x, n);
    TimelinePrefix(k, h, x, n);
    var w := Timeline(k, h, n);
    forall j | 0 <= j < |s.timelines| ensures IsSegment(k, h + [x], s.contexts, s.samples[s.timelines[j]], w[j]) {
      var v := w[j];
      assert IsSegment(k, h, s.contexts, s.samples[s.timelines[j]], v);
      SegmentAccPrefix(k, h, x, v.first, v.last + 1);
    }
    if SegmentStart(k, h, n).Some? {
      SegmentAccPrefix(k, h, x, SegmentStart(k, h, n).value, n);
    }
  }

  // ---------------------------------------------------------------- a new window

  lemma OpenWindowGraph(k: Config, s: State, t: State, h: seq<Item>, n: nat, r: Ref)
    requires ValidConfig(k) && n < |h| && GraphPart(k, s, h, n, n) && WindowOpened(k, s, t, r)
    requires WindowStart(k, h, n) == n && h[n].ref == r && h[n].time == Timestamp(k, s, r).value
    requires h[n].report == Deref(s.chunks, r).value.report
    ensures GraphPart(k, t, h, n, n)
  {
    hide WindowStart, Windows, Timestamp, Init;
    var w := Windows(k, h, n);
    forall j | 0 <= j < |t.graphs|
      ensures t.graphs[j] in t.samples && IsWindow(k, h, t.samples[t.graphs[j]], TailAt(w, t.graphs, j))
    {
      assert s.graphs[j] in s.samples;
    }
  }

  lemma OpenWindowContexts(k: Config, s: State, t: State, h: seq<Item>, n: nat, r: Ref, births: Births)
    requires ValidConfig(k) && n < |h| && ContextsPart(k, s, h, n, n, births) && WindowOpened(k, s, t, r)
    requires WindowStart(k, h, n) == n && h[n].ref == r && h[n].report == Deref(s.chunks, r).value.report
    requires Timestamp(k, s, r) == Some(h[n].time)
    ensures ContextsPart(k, t, h, n, n, births)
  {
    hide ContextPart, OpenedIn, Timestamp, Deref, InitialAt;
    forall c | c in t.contexts ensures ContextPart(k, t, h, n, n, births, c) {
      assert ContextPart(k, s, h, n, n, births, c) && OpenedIn(k, s, t, c, r);
      OpenWindowContext(k, s, t, h, n, r, births, c);
    }
  }

  lemma OpenWindowContext(k: Config, s: State, t: State, h: seq<Item>, n: nat, r: Ref, births: Births, c: ContextId)
    requires ValidConfig(k) && n < |h| && c in s.contexts && c in t.contexts
    requires ContextPart(k, s, h, n, n, births, c) && OpenedIn(k, s, t, c, r) && SubSamples(s.samples, t.samples)
    requires WindowStart(k, h, n) == n && h[n].ref == r && h[n].report == Deref(s.chunks, r).value.report
    requires Timestamp(k, s, r) == Some(h[n].time)
    ensures ContextPart(k, t, h, n, n, births, c)
  {
    hide WindowStart, Windows, Deref, Init, Timestamp, Wrap64, ScaleNs;
    var w, x := Windows(k, h, n), s.contexts[c];
    forall j | 0 <= j < |x.graphs|
      ensures x.graphs[j] in t.samples
              && IsContextWindow(k, h, x.hwId, births[c], t.samples[x.graphs[j]], TailAt(w, x.graphs, j))
    {
      assert x.graphs[j] in s.samples;
    }
  }

  lemma OpenWindowSegments(k: Config, s: State, t: State, h: seq<Item>, n: nat, open: Option<nat>, r: Ref)
    requires ValidConfig(k) && n <= |h| && SegmentPart(k, s, h, n, open, n) && WindowOpened(k, s, t, r)
    ensures SegmentPart(k, t, h, n, open, n)
  {
    hide SegmentAcc, Timeline, Deref, InitialAt, Timestamp;
    forall id | id in t.samples && t.samples[id].context.Some? && t.samples[id].context.value in s.contexts
      ensures OfContext(t.contexts, t.samples[id], s.contexts[t.samples[id].context.value].hwId)
    {
      assert OpenedIn(k, s, t, t.samples[id].context.value, r);
    }
    SegmentPartFrame(k, s, t, h, n, open, n);
  }

  // ---------------------------------------------------------------- a new segment

  lemma SameIdsGrow(k: Config, s: State, t: State, c: ContextId)
    requires ValidConfig(k) && ContextsGrow(k, s, t, c)
    ensures SameIds(s, t)
  {
  }

  lemma OpenTimelineSegments(k: Config, s: State, t: State, h: seq<Item>, n: nat)
    requires ValidConfig(k) && 0 < n < |h| && SegmentPart(k, s, h, n, SegmentStart(k, h, n), n)
    requires TimelineOpened(k, s, t)
    requires StandsAt(k, s, h, n) && s.lastHwId != INVALID_CTX_ID
    requires h[n - 1].report == Deref(s.chunks, s.last.value).value.report
    requires h[n - 1].time == Timestamp(k, s, s.last.value).value
    ensures SegmentPart(k, t, h, n, Opened(k, h, n), n)
  {
    hide Timeline, Deref, Timestamp, SegmentStart, Init, ContextsGrow, SegmentAcc;
    var m := t.samples[t.currentTimeline.value];
    SameIdsGrow(k, s, t, m.context.value);
    var s' := s.(currentTimeline := None);
    assert SegmentPart(k, s', h, n, None, n);
    SegmentPartFrame(k, s', t.(currentTimeline := None), h, n, None, n);
    assert SegmentList(k, t, h, Timeline(k, h, n));
    assert SegmentAcc(k, h, n - 1, n) == Init(k.freq, h[n - 1].report) by { FreshSegment(k, h, n); }
  }

  lemma FreshSegment(k: Config, h: seq<Item>, n: nat)
    requires ValidConfig(k) && 0 < n <= |h|
    ensures SegmentAcc(k, h, n - 1, n) == Init(k.freq, h[n - 1].report)
  {
  }

  lemma OpenTimelineGraph(k: Config, s: State, t: State, h: seq<Item>, nw: nat, n: nat)
    requires ValidConfig(k) && nw <= |h| && n <= |h| && GraphPart(k, s, h, nw, n) && TimelineOpened(k, s, t)
    ensures GraphPart(k, t, h, nw, n)
  {
    hide Deref, Timestamp, ContextsGrow, GraphPart;
    GraphPartFrame(k, s, t, h, nw, n);
  }

  /** The times of this record and of the last one are those of the history. */
  ghost predicate StampsKnown(k: Config, s: State, h: seq<Item>, n: nat)
    requires ValidConfig(k) && n < |h|
  {
    && n > 0 && StandsAt(k, s, h, n) && Timestamp(k, s, h[n].ref) == Some(h[n].time)
    && Deref(s.chunks, s.last.value).Some? && h[n - 1].report == Deref(s.chunks, s.last.value).value.report
  }

  /** An earlier record, stamped once more. */
  lemma StampedAgain(k: Config, s: State, h: seq<Item>, n: nat, ws: nat)
    requires ValidConfig(k) && ws <= n < |h| && StampsKnown(k, s, h, n)
    requires Faithful(k, s.chunks, h[ws]) && Deref(s.chunks, h[ws].ref).Some?
    ensures Timestamp(k, s, h[ws].ref) == Some(ContextStart(k, h, n, ws))
  {
    hide Wrap64, ScaleNs, CtxId;
  }

  lemma OpenTimelineContexts(k: Config, s: State, t: State, h: seq<Item>, n: nat, births: Births)
    requires ValidConfig(k) && n < |h| && GraphPart(k, s, h, n, n) && ContextsPart(k, s, h, n, n, births)
    requires TimelineOpened(k, s, t) && AllFaithful(k, s, h) && s.nextContext !in s.contexts
    requires StampsKnown(k, s, h, n)
    ensures ContextsPart(k, t, h, n, n, births[s.nextContext := n])
  {
    hide ContextPart, GraphPart, Deref, Timestamp, Begins, Owns, StampsKnown;
    var c0 := t.samples[t.currentTimeline.value].context.value;
    forall c | c in t.contexts ensures ContextPart(k, t, h, n, n, births[s.nextContext := n], c) {
      if c in s.contexts {
        assert ContextPart(k, s, h, n, n, births, c) && Owns(s.contexts[c], t.contexts[c]);
        ContextPartFrame(k, s, t, h, n, n, births, c);
        OtherBirth(k, t, h, n, births, c, s.nextContext);
      } else {
        NewContextPart(k, s, t, h, n, births, c);
      }
    }
  }

  lemma OtherBirth(k: Config, t: State, h: seq<Item>, n: nat, births: Births, c: ContextId, d: ContextId)
    requires ValidConfig(k) && n < |h| && c in t.contexts && ContextPart(k, t, h, n, n, births, c) && c != d
    ensures ContextPart(k, t, h, n, n, births[d := n], c)
  {
    hide IsContextWindow, Windows, WindowStart, ContextAcc;
  }

  /** Before it existed a context has gathered nothing of the window. */
  lemma {:induction false} UnbornGathersNothing(k: Config, h: seq<Item>, hw: Word, birth: nat, s: nat, n: nat)
    requires ValidConfig(k) && s < |h| && n <= |h| && n <= birth
    ensures ContextAcc(k, h, hw, birth, s, n) == Init(k.freq, h[s].report)
  {
    hide Init;
    if n > s && n > 1 {
      UnbornGathersNothing(k, h, hw, birth, s, n - 1);
    }
  }

  lemma {:induction false} NoneSince(k: Config, h: seq<Item>, n: nat)
    requires ValidConfig(k) && n <= |h|
    ensures forall birth :: n <= birth ==> Since(Windows(k, h, n), birth) == 0
  {
    hide WindowCloses;
    if n > 0 {
      NoneSince(k, h, n - 1);
      var w := Windows(k, h, n - 1);
      assert forall x: Span :: (w + [x])[..|w|] == w;
    }
  }

  lemma NewContextPart(k: Config, s: State, t: State, h: seq<Item>, n: nat, births: Births, c: ContextId)
    requires ValidConfig(k) && n < |h| && GraphPart(k, s, h, n, n) && AllFaithful(k, s, h)
    requires c == s.nextContext && Begins(k, s, t, c) && StampsKnown(k, s, h, n)
    ensures ContextPart(k, t, h, n, n, births[s.nextContext := n], c)
  {
    hide Windows, WindowStart, IsWindow, Init, ContextAcc, Deref, Timestamp, CtxId, ContextStart, StampsKnown;
    var ws := WindowStart(k, h, n);
    assert Faithful(k, s.chunks, h[ws]);
    StampedAgain(k, s, h, n, ws);
    SomeIsHere(s.chunks, h[ws].ref);
    NoneSince(k, h, n);
    UnbornGathersNothing(k, h, t.contexts[c].hwId, n, ws, n);
  }

  // ---------------------------------------------------------------- a pair for segment and context

  /** Kinds keep the places apart; two open graph samples are never the same one. */
  lemma Apart(s: State, extra: multiset<ChunkId>)
    requires Good(s, extra)
    ensures forall id :: id in s.graphs ==> id in s.samples && PlainDone(s.samples[id])
    ensures forall id :: id in s.timelines ==> id in s.samples && TimelineDone(s.samples[id])
    ensures s.currentGraph.Some? ==> s.currentGraph.value in s.samples && PlainOpen(s.samples[s.currentGraph.value])
    ensures s.currentTimeline.Some? ==>
              s.currentTimeline.value in s.samples && TimelineOpen(s.samples[s.currentTimeline.value])
  {
    hide Core, Placed, Tabled, Rows, Filed, Counted;
    ListedLive(s, multiset{});
    CurrentKinds(s);
  }

  lemma ContextApart(s: State, c: ContextId, extra: multiset<ChunkId>)
    requires Good(s, extra) && c in s.contexts
    ensures forall id :: id in s.contexts[c].graphs ==> id in s.samples && PlainDone(s.samples[id])
    ensures s.contexts[c].current.Some? ==>
              var id := s.contexts[c].current.value;
              id in s.samples && PlainOpen(s.samples[id]) && Some(id) != s.currentGraph
  {
    hide Inv;
    ContextFacts(s, c, extra, multiset{}, multiset{});
    if s.contexts[c].current.Some? {
      NotTheGlobal(s, c, extra);
    }
  }

  lemma NotTheGlobal(s: State, c: ContextId, extra: multiset<ChunkId>)
    requires Good(s, extra) && c in s.contexts && s.contexts[c].current.Some?
    ensures s.contexts[c].current != s.currentGraph
  {
    hide Core, Rows, Counted, Filed, Keyed, ContextSlots, SessionSlots, Own, Ascending;
    var id := s.contexts[c].current.value;
    CurrentIsOwn(s.contexts[c]);
    OwnListed(s, c, id);
    InSession(s);
    var all := SessionSlots(s) + ContextSlots(s.contexts, s.hwContexts);
    assert (all + multiset{})[id] == multiset(s.samples.Keys)[id] <= 1;
  }

  lemma TailShift(l: seq<SampleId>, l': seq<SampleId>, id: SampleId, w: seq<Span>, x: Span, j: nat)
    requires Shifted(l, l', id) && |l| <= |w| && j < |l'|
    ensures |l'| <= |w| + 1
    ensures if j == |l'| - 1 then l'[j] == id && TailAt(w + [x], l', j) == x
            else var j0 := |l| - (|l'| - 1) + j;
                 0 <= j0 < |l| && l'[j] == l[j0] && TailAt(w + [x], l', j) == TailAt(w, l, j0)
  {
    if j < |l'| - 1 {
      assert l'[j] == l'[..|l'| - 1][j];
    }
  }

  /** Accumulating into a sample that is not on the graph side leaves that side alone. */
  lemma GraphUntouched(k: Config, s: State, t: State, ids: set<SampleId>, h: seq<Item>, nw: nat, n: nat)
    requires ValidConfig(k) && nw <= |h| && n <= |h| && GraphPart(k, s, h, nw, n) && OnlyAccumulators(s, t, ids)
    requires forall id :: id in s.graphs ==> id !in ids
    requires s.currentGraph.Some? ==> s.currentGraph.value !in ids
    ensures GraphPart(k, t, h, nw, n)
  {
    hide GraphPart;
    GraphPartFrame(k, s, t, h, nw, n);
  }

  lemma SegmentsUntouched(k: Config, s: State, t: State, ids: set<SampleId>, h: seq<Item>, ns: nat, open: Option<nat>,
                          n: nat)
    requires ValidConfig(k) && ns <= |h| && n <= |h| && SegmentPart(k, s, h, ns, open, n) && OnlyAccumulators(s, t, ids)
    requires forall id :: id in s.timelines ==> id !in ids
    requires s.currentTimeline.Some? ==> s.currentTimeline.value !in ids
    ensures SegmentPart(k, t, h, ns, open, n)
  {
    hide SegmentPart;
    SegmentPartFrame(k, s, t, h, ns, open, n);
  }

  lemma ContextUntouched(k: Config, s: State, t: State, ids: set<SampleId>, h: seq<Item>, nw: nat, n: nat,
                         births: Births, c: ContextId)
    requires ValidConfig(k) && nw <= |h| && n <= |h| && c in s.contexts && ContextPart(k, s, h, nw, n, births, c)
    requires OnlyAccumulators(s, t, ids)
    requires forall id :: id in s.contexts[c].graphs ==> id !in ids
    requires s.contexts[c].current.Some? ==> s.contexts[c].current.value !in ids
    ensures ContextPart(k, t, h, nw, n, births, c)
  {
    hide ContextPart;
    ContextPartFrame(k, s, t, h, nw, n, births, c);
  }

  /** The open segment takes pair n. */
  lemma SegmentTakes(k: Config, s: State, t: State, h: seq<Item>, n: nat, o: nat, extra: multiset<ChunkId>)
    requires ValidConfig(k) && Good(s, extra) && 0 < n < |h| && o < n && SegmentPart(k, s, h, n, Some(o), n)
    requires s.currentTimeline.Some? && OnlyAccumulators(s, t, {s.currentTimeline.value})
    requires s.currentTimeline.value in s.samples && WellFormed(s.samples[s.currentTimeline.value].accumulator)
    requires t.samples[s.currentTimeline.value].accumulator
          == AddPair(k, h, n, s.samples[s.currentTimeline.value].accumulator)
    ensures SegmentPart(k, t, h, n, Some(o), n + 1)
  {
    hide Good, Timeline, AddPair, IsSegment;
    Apart(s, extra);
    var id := s.currentTimeline.value;
    assert id !in s.timelines;
    forall j | 0 <= j < |t.timelines|
      ensures t.timelines[j] in t.samples && t.samples[t.timelines[j]] == s.samples[t.timelines[j]]
    {
      assert t.timelines[j] in s.timelines;
    }
  }

  /** Pair n closes the segment. */
  lemma SegmentMoves(k: Config, s: State, t: State, h: seq<Item>, n: nat, o: nat, r: Ref, ts: nat,
                     extra: multiset<ChunkId>)
    requires ValidConfig(k) && Good(s, extra) && 0 < n < |h| && o < n && SegmentPart(k, s, h, n, Some(o), n + 1)
    requires SegmentRecorded(k, s, t, r, ts) && h[n].ref == r && h[n].time == ts && Good(t, extra)
    requires Opened(k, h, n) == Some(o) && SegmentCloses(k, h, o, n)
    ensures SegmentPart(k, t, h, n + 1, None, n + 1)
  {
    hide Good, SegmentAcc, Opened, SegmentCloses, Visible, SegmentRecorded, SegmentList;
    var w, x := Timeline(k, h, n), Span(o, n);
    assert Timeline(k, h, n + 1) == Visible(k, h, w, ts) + [x];
    hide Timeline;
    RecordedList(k, s, t, r, ts);
    SegmentsMove(k, s, t, h, n, o, w, r, ts, extra);
  }

  lemma SegmentsMove(k: Config, s: State, t: State, h: seq<Item>, n: nat, o: nat, w: seq<Span>, r: Ref, ts: nat,
                     extra: multiset<ChunkId>)
    requires ValidConfig(k) && Good(s, extra) && 0 < n < |h| && o < n && SegmentPart(k, s, h, n, Some(o), n + 1)
    requires SegmentRecorded(k, s, t, r, ts) && h[n].ref == r && h[n].time == ts && Good(t, extra)
    requires SegmentList(k, s, h, w) && w == Timeline(k, h, n)
    ensures SegmentList(k, t, h, Visible(k, h, w, ts) + [Span(o, n)])
  {
    hide Good, SegmentPart, Timeline, Visible, Overdue, IsSegment, SegmentRecorded;
    var v, x := Visible(k, h, w, ts), Span(o, n);
    Apart(s, extra);
    Apart(t, extra);
    var q := Overdue(k, s.samples, s.timelines, ts);
    SpansOf(k, s, h, w);
    OverdueSpans(k, s, h, s.timelines, w, ts);
    RecordedList(k, s, t, r, ts);
    RecordedSegment(k, s, t, h, n, o, r, ts, extra);
    forall j | 0 <= j < |t.timelines| ensures IsSegment(k, h, t.contexts, t.samples[t.timelines[j]], (v + [x])[j]) {
      if j < |t.timelines| - 1 {
        KeptSegment(k, s, t, h, w, q, j, r, ts, extra);
      }
    }
  }

  lemma SpansOf(k: Config, s: State, h: seq<Item>, w: seq<Span>)
    requires ValidConfig(k) && SegmentList(k, s, h, w)
    ensures forall j :: 0 <= j < |s.timelines| ==>
              && s.timelines[j] in s.samples && SpanOf(h, s.samples[s.timelines[j]], w[j])
              && TimesOf(h, s.samples[s.timelines[j]], w[j])
  {
    hide SpanOf, TimesOf, SegmentAcc, OfContext;
  }

  lemma RecordedList(k: Config, s: State, t: State, r: Ref, ts: nat)
    requires SegmentRecorded(k, s, t, r, ts)
    ensures s.currentTimeline.Some? && t.currentTimeline.None? && t.timelines != []
    ensures Last(t.timelines) == s.currentTimeline.value
    ensures |t.timelines| == |s.timelines| - Overdue(k, s.samples, s.timelines, ts) + 1
    ensures forall j :: 0 <= j < |t.timelines| - 1 ==>
              t.timelines[j] == s.timelines[Overdue(k, s.samples, s.timelines, ts) + j]
  {
    hide Owns, Overdue;
    forall j | 0 <= j < |t.timelines| - 1
      ensures t.timelines[j] == s.timelines[Overdue(k, s.samples, s.timelines, ts) + j]
    {
      assert t.timelines[j] == t.timelines[..|t.timelines| - 1][j];
    }
  }

  lemma KeptSegment(k: Config, s: State, t: State, h: seq<Item>, w: seq<Span>, q: nat, j: nat, r: Ref, ts: nat,
                    extra: multiset<ChunkId>)
    requires ValidConfig(k) && Good(t, extra) && SegmentList(k, s, h, w) && SegmentRecorded(k, s, t, r, ts)
    requires j < |t.timelines| - 1 && q + j < |w| == |s.timelines| && t.timelines[j] == s.timelines[q + j]
    requires t.timelines[j] in t.samples && TimelineDone(t.samples[t.timelines[j]])
    requires s.currentTimeline.Some? && s.currentTimeline.value !in s.timelines
    ensures IsSegment(k, h, t.contexts, t.samples[t.timelines[j]], w[q + j])
  {
    hide Good, SegmentAcc, Owns, Overdue, Shifted;
    SameIdsOwned(s, t);
    assert s.timelines[q + j] in s.timelines;
    assert IsSegment(k, h, s.contexts, s.samples[s.timelines[q + j]], w[q + j]);
    GoodHasContext(t, t.timelines[j], extra);
    KeptIn(s, t, t.timelines[j]);
  }

  /** The client drops the segments that the history says are no longer in sight. */
  lemma {:induction false} OverdueSpans(k: Config, s: State, h: seq<Item>, l: seq<SampleId>, w: seq<Span>, end: nat)
    requires |l| == |w|
    requires forall j :: 0 <= j < |l| ==>
               l[j] in s.samples && SpanOf(h, s.samples[l[j]], w[j]) && TimesOf(h, s.samples[l[j]], w[j])
    ensures Visible(k, h, w, end) == w[Overdue(k, s.samples, l, end)..]
  {
    hide Wrap64;
    if l != [] {
      OverdueSpans(k, s, h, l[1..], w[1..], end);
    }
  }

  lemma GoodHasContext(t: State, id: SampleId, extra: multiset<ChunkId>)
    requires Good(t, extra) && id in t.samples && t.samples[id].context.Some?
    ensures t.samples[id].context.value in t.contexts
  {
    hide Core, Placed, Tabled, Rows, Filed;
  }

  /** Contexts that are still there have kept their ids. */
  lemma SameIdsOwned(s: State, t: State)
    requires SameOwned(s.contexts, t.contexts)
    ensures forall c :: c in t.contexts ==> c in s.contexts && s.contexts[c].hwId == t.contexts[c].hwId
  {
    forall c | c in t.contexts ensures c in s.contexts && s.contexts[c].hwId == t.contexts[c].hwId {
      assert Owns(s.contexts[c], t.contexts[c]);
    }
  }

  lemma KeptIn(s: State, t: State, id: SampleId)
    requires forall c :: c in t.contexts ==> c in s.contexts && s.contexts[c].hwId == t.contexts[c].hwId
    requires id in t.samples && id in s.samples && t.samples[id] == s.samples[id]
    requires t.samples[id].context.Some? && t.samples[id].context.value in t.contexts
    ensures forall hw :: OfContext(s.contexts, s.samples[id], hw) ==> OfContext(t.contexts, t.samples[id], hw)
  {
  }

  lemma RecordedSegment(k: Config, s: State, t: State, h: seq<Item>, n: nat, o: nat, r: Ref, ts: nat,
                        extra: multiset<ChunkId>)
    requires ValidConfig(k) && 0 < n < |h| && o < n && SegmentPart(k, s, h, n, Some(o), n + 1) && Good(t, extra)
    requires SegmentRecorded(k, s, t, r, ts) && h[n].ref == r && h[n].time == ts
    ensures IsSegment(k, h, t.contexts, t.samples[s.currentTimeline.value], Span(o, n))
  {
    hide Good, SegmentAcc, Timeline, Shifted, Owns, SegmentList, Overdue;
    SameIdsOwned(s, t);
  }

  /** Different contexts have different ids. */
  lemma IdsDiffer(s: State, c: ContextId, d: ContextId, extra: multiset<ChunkId>)
    requires Good(s, extra) && c in s.contexts && d in s.contexts && c != d
    ensures s.contexts[c].hwId != s.contexts[d].hwId
  {
    hide Core, Placed, Rows, Filed, Counted, Members;
    assert InTable(s.table, c, s.contexts[c].hwId) && InTable(s.table, d, s.contexts[d].hwId);
  }

  /** A context that is not running gets nothing of pair n. */
  lemma ContextIdle(k: Config, s: State, h: seq<Item>, nw: nat, n: nat, births: Births, c: ContextId)
    requires ValidConfig(k) && nw <= n < |h| && c in s.contexts && ContextPart(k, s, h, nw, n, births, c)
    requires n > 0 ==> Attributed(k, h, n) != Some(s.contexts[c].hwId)
    ensures ContextPart(k, s, h, nw, n + 1, births, c)
  {
    hide Windows, WindowStart, Attributed, Init, IsContextWindow;
    IdleAcc(k, h, s.contexts[c].hwId, births[c], WindowStart(k, h, nw), n);
  }

  lemma IdleAcc(k: Config, h: seq<Item>, hw: Word, birth: nat, s: nat, n: nat)
    requires ValidConfig(k) && s < |h| && n < |h| && (n > 0 ==> Attributed(k, h, n) != Some(hw))
    ensures ContextAcc(k, h, hw, birth, s, n + 1) == ContextAcc(k, h, hw, birth, s, n)
  {
    hide Attributed, Init, AddPair;
  }

  lemma RunningAcc(k: Config, h: seq<Item>, hw: Word, birth: nat, s: nat, n: nat)
    requires ValidConfig(k) && s <= n && 0 < n < |h| && birth <= n && Attributed(k, h, n) == Some(hw)
    ensures ContextAcc(k, h, hw, birth, s, n + 1) == AddPair(k, h, n, ContextAcc(k, h, hw, birth, s, n))
  {
    hide Attributed, Init, AddPair;
  }

  /** The running context takes pair n, the others get nothing of it. */
  lemma ContextTakes(k: Config, s: State, t: State, h: seq<Item>, n: nat, births: Births, c: ContextId,
                     extra: multiset<ChunkId>)
    requires ValidConfig(k) && Good(s, extra) && 0 < n < |h| && ContextsPart(k, s, h, n, n, births)
    requires c in s.contexts && s.contexts[c].current.Some? && Attributed(k, h, n) == Some(s.contexts[c].hwId)
    requires OnlyAccumulators(s, t, {s.contexts[c].current.value}) && s.contexts[c].current.value in s.samples
    requires WellFormed(s.samples[s.contexts[c].current.value].accumulator)
    requires t.samples[s.contexts[c].current.value].accumulator
          == AddPair(k, h, n, s.samples[s.contexts[c].current.value].accumulator)
    ensures ContextsPart(k, t, h, n, n + 1, births)
  {
    hide Good, ContextPart, AddPair, Attributed, Own, Init;
    var g := s.contexts[c].current.value;
    ContextApart(s, c, extra);
    forall d | d in t.contexts ensures ContextPart(k, t, h, n, n + 1, births, d) {
      assert ContextPart(k, s, h, n, n, births, d);
      if d == c {
        TakesHere(k, s, t, h, n, births, c);
      } else {
        ContextApart(s, d, extra);
        IdsDiffer(s, c, d, extra);
        GoodOwnDisjoint(s, c, d, g, extra);
        CurrentIsOwn(s.contexts[c]);
        if s.contexts[d].current.Some? { CurrentIsOwn(s.contexts[d]); }
        ContextUntouched(k, s, t, {g}, h, n, n, births, d);
        ContextIdle(k, t, h, n, n, births, d);
      }
    }
  }

  lemma GoodOwnDisjoint(s: State, c: ContextId, d: ContextId, id: SampleId, extra: multiset<ChunkId>)
    requires Good(s, extra) && c in s.contexts && d in s.contexts && c != d
    ensures !(id in Own(s.contexts[c]) && id in Own(s.contexts[d]))
  {
    hide Inv, Own;
    OwnDisjoint(s, c, d, id, extra, multiset{}, multiset{});
  }

  lemma TakesHere(k: Config, s: State, t: State, h: seq<Item>, n: nat, births: Births, c: ContextId)
    requires ValidConfig(k) && 0 < n < |h| && c in s.contexts && ContextPart(k, s, h, n, n, births, c)
    requires s.contexts[c].current.Some? && Attributed(k, h, n) == Some(s.contexts[c].hwId)
    requires s.contexts[c].current.value in s.samples && OnlyAccumulators(s, t, {s.contexts[c].current.value})
    requires s.contexts[c].current.value !in s.contexts[c].graphs
    requires WellFormed(s.samples[s.contexts[c].current.value].accumulator)
    requires t.samples[s.contexts[c].current.value].accumulator
          == AddPair(k, h, n, s.samples[s.contexts[c].current.value].accumulator)
    ensures ContextPart(k, t, h, n, n + 1, births, c)
  {
    hide Windows, WindowStart, Attributed, AddPair, ContextAcc;
    var x, w := s.contexts[c], Windows(k, h, n);
    RunningAcc(k, h, x.hwId, births[c], WindowStart(k, h, n), n);
    forall j | 0 <= j < |x.graphs|
      ensures x.graphs[j] in t.samples
              && IsContextWindow(k, h, x.hwId, births[c], t.samples[x.graphs[j]], TailAt(w, x.graphs, j))
    {
      assert x.graphs[j] in x.graphs;
      assert IsContextWindow(k, h, x.hwId, births[c], s.samples[x.graphs[j]], TailAt(w, x.graphs, j));
    }
  }

  /** After a segment has ended the graph side is as it was. */
  lemma GraphAfterSegment(k: Config, s: State, t: State, h: seq<Item>, nw: nat, n: nat, r: Ref, ts: nat,
                          extra: multiset<ChunkId>)
    requires ValidConfig(k) && nw <= |h| && n <= |h| && Good(s, extra) && Good(t, extra)
    requires GraphPart(k, s, h, nw, n) && SegmentRecorded(k, s, t, r, ts)
    ensures GraphPart(k, t, h, nw, n)
  {
    hide Good, GraphPart, Owns, Shifted;
    Apart(s, extra);
    Apart(t, extra);
    GraphPartFrame(k, s, t, h, nw, n);
  }

  lemma ContextsAfterSegment(k: Config, s: State, t: State, h: seq<Item>, nw: nat, n: nat, births: Births, r: Ref,
                             ts: nat, extra: multiset<ChunkId>)
    requires ValidConfig(k) && nw <= |h| && n <= |h| && Good(s, extra) && Good(t, extra)
    requires ContextsPart(k, s, h, nw, n, births) && SegmentRecorded(k, s, t, r, ts)
    ensures ContextsPart(k, t, h, nw, n, births)
  {
    hide Good, ContextPart, Shifted;
    Apart(s, extra);
    forall c | c in t.contexts ensures ContextPart(k, t, h, nw, n, births, c) {
      assert Owns(s.contexts[c], t.contexts[c]) && ContextPart(k, s, h, nw, n, births, c);
      ContextApart(s, c, extra);
      ContextApart(t, c, extra);
      ContextPartFrame(k, s, t, h, nw, n, births, c);
    }
  }

  /** All that segments and contexts do with pair n. */
  lemma TimelineHist(k: Config, s: State, h: seq<Item>, n: nat, births: Births, r: Ref, extra: multiset<ChunkId>)
    requires ValidConfig(k) && Good(s, extra) && s.currentGraph.Some? && Deref(s.chunks, r).Some?
    requires 0 < n < |h| && StandsAt(k, s, h, n) && h[n].ref == r && Timestamp(k, s, r) == Some(h[n].time)
    requires h[n].hwId == CtxId(k.gen, h[n].report)
    requires GraphPart(k, s, h, n, n) && ContextsPart(k, s, h, n, n, births)
    requires SegmentPart(k, s, h, n, Opened(k, h, n), n)
    ensures AccumulateTimeline(k, s, h[n - 1].report, h[n].report, r).Some?
    ensures var t := AccumulateTimeline(k, s, h[n - 1].report, h[n].report, r).value;
            && GraphPart(k, t, h, n, n) && ContextsPart(k, t, h, n, n + 1, births)
            && SegmentPart(k, t, h, n + 1, SegmentStart(k, h, n + 1), n + 1)
  {
    hide Good, GraphPart, ContextsPart, SegmentPart, Timestamp, Deref, AccumulateTimeline, SegmentStart, Opened;
    var r0, r1 := h[n - 1].report, h[n].report;
    AccumulateTimelineGood(k, s, r0, r1, r, extra);
    if Opened(k, h, n).None? {
      TimelineIdle(k, s, h, n, births, r);
    } else {
      TimelineBusy(k, s, h, n, births, r, extra);
    }
  }

  lemma TimelineIdle(k: Config, s: State, h: seq<Item>, n: nat, births: Births, r: Ref)
    requires ValidConfig(k) && 0 < n < |h| && Opened(k, h, n).None?
    requires ContextsPart(k, s, h, n, n, births) && SegmentPart(k, s, h, n, Opened(k, h, n), n)
    ensures AccumulateTimeline(k, s, h[n - 1].report, h[n].report, r) == Some(s)
    ensures ContextsPart(k, s, h, n, n + 1, births) && SegmentPart(k, s, h, n + 1, SegmentStart(k, h, n + 1), n + 1)
  {
    hide ContextPart, SegmentList, SegmentAcc, Opened, AccumulateInto, RecordForHwId;
    forall c | c in s.contexts ensures ContextPart(k, s, h, n, n + 1, births, c) {
      assert ContextPart(k, s, h, n, n, births, c);
      ContextIdle(k, s, h, n, n, births, c);
    }
  }

  lemma TimelineBusy(k: Config, s: State, h: seq<Item>, n: nat, births: Births, r: Ref, extra: multiset<ChunkId>)
    requires ValidConfig(k) && Good(s, extra) && s.currentGraph.Some? && Deref(s.chunks, r).Some?
    requires 0 < n < |h| && StandsAt(k, s, h, n) && h[n].ref == r && Timestamp(k, s, r) == Some(h[n].time)
    requires h[n].hwId == CtxId(k.gen, h[n].report) && Opened(k, h, n).Some?
    requires GraphPart(k, s, h, n, n) && ContextsPart(k, s, h, n, n, births)
    requires SegmentPart(k, s, h, n, Opened(k, h, n), n)
    ensures AccumulateTimeline(k, s, h[n - 1].report, h[n].report, r).Some?
    ensures var t := AccumulateTimeline(k, s, h[n - 1].report, h[n].report, r).value;
            && GraphPart(k, t, h, n, n) && ContextsPart(k, t, h, n, n + 1, births)
            && SegmentPart(k, t, h, n + 1, SegmentStart(k, h, n + 1), n + 1)
  {
    hide Good, GraphPart, ContextsPart, Timestamp, Deref, Accumulate, AccumulateInto, RecordForHwId, Elapsed,
         SegmentList,
         SegmentAcc, WellFormed, Opened, Shifted, Owns;
    var o, r0, r1 := Opened(k, h, n).value, h[n - 1].report, h[n].report;
    var id := s.currentTimeline.value;
    var m := s.samples[id];
    var c := m.context.value;
    TimelineFacts(s, extra);
    AccumulateIntoGood(k, s, id, r0, r1, extra);
    AccumulateIntoValue(k, s, id, r0, r1);
    var s1 := AccumulateInto(k, s, id, r0, r1).value;
    Apart(s, extra);
    GraphUntouched(k, s, s1, {id}, h, n, n);
    ContextsUntouchedBySegment(k, s, s1, id, h, n, births, extra);
    SegmentTakes(k, s, s1, h, n, o, extra);
    EndSegment(k, s, s1, r0, r1, r, extra);
    var ends := SegmentEnds(k, s, s1.samples[id], r0, r1);
    var s2 := if ends then RecordForHwId(k, s1, r).value else s1;
    SegmentEndsIs(k, s, s1, h, n, o, extra);
    if ends {
      SegmentMoves(k, s1, s2, h, n, o, r, h[n].time, extra);
      GraphAfterSegment(k, s1, s2, h, n, n, r, h[n].time, extra);
      ContextsAfterSegment(k, s1, s2, h, n, n, births, r, h[n].time, extra);
      assert Owns(s1.contexts[c], s2.contexts[c]);
      OwnsIs(s1.contexts[c], s2.contexts[c]);
    } else {
      SegmentGoesOn(k, s1, h, n, o);
    }
    FinishPair(k, s2, h, n, births, c, extra);
    TimelineSplits(k, s, r0, r1, r, s1, s2);
  }

  lemma OwnsIs(a: HwContext, b: HwContext)
    requires Owns(a, b)
    ensures a.hwId == b.hwId && a.current == b.current
  {
  }

  lemma ContextsUntouchedBySegment(k: Config, s: State, s1: State, id: SampleId, h: seq<Item>, n: nat, births: Births,
                                   extra: multiset<ChunkId>)
    requires ValidConfig(k) && n <= |h| && Good(s, extra) && ContextsPart(k, s, h, n, n, births)
    requires OnlyAccumulators(s, s1, {id}) && s.currentTimeline == Some(id)
    ensures ContextsPart(k, s1, h, n, n, births)
  {
    hide Good, ContextPart;
    Apart(s, extra);
    forall c | c in s1.contexts ensures ContextPart(k, s1, h, n, n, births, c) {
      assert ContextPart(k, s, h, n, n, births, c);
      ContextApart(s, c, extra);
      ContextUntouched(k, s, s1, {id}, h, n, n, births, c);
    }
  }

  lemma SegmentEndsIs(k: Config, s: State, s1: State, h: seq<Item>, n: nat, o: nat, extra: multiset<ChunkId>)
    requires ValidConfig(k) && 0 < n < |h| && o < n && StandsAt(k, s, h, n) && h[n].hwId == CtxId(k.gen, h[n].report)
    requires SegmentPart(k, s1, h, n, Some(o), n + 1)
    ensures SegmentEnds(k, s, s1.samples[s1.currentTimeline.value], h[n - 1].report, h[n].report)
       <==> SegmentCloses(k, h, o, n)
  {
    hide SegmentList, SegmentAcc, Elapsed, CtxId;
  }

  lemma SegmentGoesOn(k: Config, s: State, h: seq<Item>, n: nat, o: nat)
    requires ValidConfig(k) && 0 < n < |h| && Opened(k, h, n) == Some(o) && !SegmentCloses(k, h, o, n)
    requires SegmentPart(k, s, h, n, Some(o), n + 1)
    ensures SegmentPart(k, s, h, n + 1, SegmentStart(k, h, n + 1), n + 1)
  {
    hide SegmentList, SegmentAcc, SegmentCloses, Opened;
  }

  /** The last step: pair n goes to the window of the running context. */
  lemma FinishPair(k: Config, s: State, h: seq<Item>, n: nat, births: Births, c: ContextId, extra: multiset<ChunkId>)
    requires ValidConfig(k) && Good(s, extra) && 0 < n < |h| && s.currentGraph.Some?
    requires c in s.contexts && s.contexts[c].current.Some? && Attributed(k, h, n) == Some(s.contexts[c].hwId)
    requires GraphPart(k, s, h, n, n) && ContextsPart(k, s, h, n, n, births)
    requires SegmentPart(k, s, h, n + 1, SegmentStart(k, h, n + 1), n + 1)
    ensures AccumulateInto(k, s, s.contexts[c].current.value, h[n - 1].report, h[n].report).Some?
    ensures var t := AccumulateInto(k, s, s.contexts[c].current.value, h[n - 1].report, h[n].report).value;
            && GraphPart(k, t, h, n, n) && ContextsPart(k, t, h, n, n + 1, births)
            && SegmentPart(k, t, h, n + 1, SegmentStart(k, h, n + 1), n + 1)
  {
    hide Good, GraphPart, ContextsPart, SegmentPart, AccumulateInto, Accumulate, WellFormed, SegmentStart, Attributed;
    var g := s.contexts[c].current.value;
    Apart(s, extra);
    ContextApart(s, c, extra);
    AccumulateIntoGood(k, s, g, h[n - 1].report, h[n].report, extra);
    var t := AccumulateInto(k, s, g, h[n - 1].report, h[n].report).value;
    GraphUntouched(k, s, t, {g}, h, n, n);
    SegmentsUntouched(k, s, t, {g}, h, n + 1, SegmentStart(k, h, n + 1), n + 1);
    ContextTakes(k, s, t, h, n, births, c, extra);
  }

  lemma TimelineSplits(k: Config, s: State, r0: Report, r1: Report, r: Ref, s1: State, s2: State)
    requires ValidConfig(k) && s.currentTimeline.Some? && s.currentTimeline.value in s.samples
    requires s.samples[s.currentTimeline.value].context.Some?
    requires AccumulateInto(k, s, s.currentTimeline.value, r0, r1) == Some(s1) && s.currentTimeline.value in s1.samples
    requires if SegmentEnds(k, s, s1.samples[s.currentTimeline.value], r0, r1)
             then RecordForHwId(k, s1, r) == Some(s2) else s2 == s1
    requires var c := s.samples[s.currentTimeline.value].context.value; c in s2.contexts && s2.contexts[c].current.Some?
    ensures var c := s.samples[s.currentTimeline.value].context.value;
            AccumulateTimeline(k, s, r0, r1, r) == AccumulateInto(k, s2, s2.contexts[c].current.value, r0, r1)
  {
    hide AccumulateInto, RecordForHwId, Elapsed, CtxId;
  }

  // ---------------------------------------------------------------- a pair for the global window

  lemma WindowTakes(k: Config, s: State, t: State, h: seq<Item>, n: nat, extra: multiset<ChunkId>)
    requires ValidConfig(k) && Good(s, extra) && 0 < n < |h| && GraphPart(k, s, h, n, n) && s.currentGraph.Some?
    requires s.currentGraph.value in s.samples && OnlyAccumulators(s, t, {s.currentGraph.value})
    requires WellFormed(s.samples[s.currentGraph.value].accumulator)
    requires t.samples[s.currentGraph.value].accumulator
          == AddPair(k, h, n, s.samples[s.currentGraph.value].accumulator)
    ensures GraphPart(k, t, h, n, n + 1)
  {
    hide Good, Windows, WindowStart, AddPair, IsWindow;
    Apart(s, extra);
    forall j | 0 <= j < |t.graphs|
      ensures t.graphs[j] in t.samples && t.samples[t.graphs[j]] == s.samples[t.graphs[j]]
    {
      assert t.graphs[j] in s.graphs;
    }
  }

  lemma ContextsUntouchedByWindow(k: Config, s: State, t: State, h: seq<Item>, nw: nat, n: nat, births: Births,
                                  extra: multiset<ChunkId>)
    requires ValidConfig(k) && nw <= |h| && n <= |h| && Good(s, extra) && ContextsPart(k, s, h, nw, n, births)
    requires s.currentGraph.Some? && OnlyAccumulators(s, t, {s.currentGraph.value})
    ensures ContextsPart(k, t, h, nw, n, births)
  {
    hide Good, ContextPart;
    Apart(s, extra);
    forall c | c in t.contexts ensures ContextPart(k, t, h, nw, n, births, c) {
      assert ContextPart(k, s, h, nw, n, births, c);
      ContextApart(s, c, extra);
      ContextUntouched(k, s, t, {s.currentGraph.value}, h, nw, n, births, c);
    }
  }

  /** The window goes on. */
  lemma WindowGoesOn(k: Config, s: State, h: seq<Item>, n: nat, births: Births)
    requires ValidConfig(k) && n < |h| && !WindowCloses(k, h, WindowStart(k, h, n), n)
    requires GraphPart(k, s, h, n, n + 1) && ContextsPart(k, s, h, n, n + 1, births)
    ensures GraphPart(k, s, h, n + 1, n + 1) && ContextsPart(k, s, h, n + 1, n + 1, births)
    ensures WindowStart(k, h, n + 1) == WindowStart(k, h, n)
  {
    hide GraphList, OpenGraph, ContextList, OpenContextWindow, WindowCloses;
    forall c | c in s.contexts ensures ContextPart(k, s, h, n + 1, n + 1, births, c) {
      assert ContextPart(k, s, h, n, n + 1, births, c);
    }
  }

  /** Pair n closes the global window. */
  lemma WindowMoves(k: Config, s: State, t: State, h: seq<Item>, n: nat, r: Ref, ts: nat, extra: multiset<ChunkId>)
    requires ValidConfig(k) && Good(s, extra) && 0 < n < |h| && GraphPart(k, s, h, n, n + 1)
    requires WindowRecorded(s, t, r, ts) && h[n].ref == r && h[n].time == ts
    requires Inv(t, extra, multiset{}, multiset{}, None)
    requires |t.graphs| == AtMost(|s.graphs|, k.maxGraphs) + 1
    requires WindowCloses(k, h, WindowStart(k, h, n), n)
    ensures GraphPart(k, t, h, n + 1, n + 1)
  {
    hide Good, Inv, WindowAcc, WindowCloses, WindowStart, IsWindow, Ended, Shifted;
    Apart(s, extra);
    InvListed(t, extra);
    var id, ws := s.currentGraph.value, WindowStart(k, h, n);
    var w, x := Windows(k, h, n), Span(ws, n);
    assert Windows(k, h, n + 1) == w + [x];
    hide Windows;
    TailShift(s.graphs, t.graphs, id, w, x, 0);
    FinishedWindow(k, s, t, h, n, r, ts);
    forall j | 0 <= j < |t.graphs|
      ensures t.graphs[j] in t.samples && IsWindow(k, h, t.samples[t.graphs[j]], TailAt(w + [x], t.graphs, j))
    {
      TailShift(s.graphs, t.graphs, id, w, x, j);
      assert t.graphs[j] in t.graphs;
      if j < |t.graphs| - 1 {
        var j0 := |s.graphs| - (|t.graphs| - 1) + j;
        assert s.graphs[j0] in s.graphs;
        OthersStay(s, t, id, r, ts, t.graphs[j]);
      }
    }
  }

  lemma FinishedWindow(k: Config, s: State, t: State, h: seq<Item>, n: nat, r: Ref, ts: nat)
    requires ValidConfig(k) && 0 < n < |h| && WindowRecorded(s, t, r, ts) && h[n].ref == r && h[n].time == ts
    requires OpenGraph(k, s, h, WindowStart(k, h, n), n + 1)
    ensures s.currentGraph.value in t.samples
    ensures IsWindow(k, h, t.samples[s.currentGraph.value], Span(WindowStart(k, h, n), n))
  {
    hide WindowAcc, WindowStart, Shifted;
  }

  lemma OthersStay(s: State, t: State, id: SampleId, r: Ref, ts: nat, j: SampleId)
    requires Ended(s, t, id, r, ts) && j in t.samples && j != id
    ensures j in s.samples && t.samples[j] == s.samples[j]
  {
  }

  lemma InvListed(t: State, extra: multiset<ChunkId>)
    requires Inv(t, extra, multiset{}, multiset{}, None)
    ensures forall id :: id in t.graphs ==> id in t.samples && PlainDone(t.samples[id])
    ensures forall id :: id in t.timelines ==> id in t.samples && TimelineDone(t.samples[id])
    ensures t.currentTimeline.Some? ==>
              t.currentTimeline.value in t.samples && TimelineOpen(t.samples[t.currentTimeline.value])
    ensures forall id :: id in t.samples && t.samples[id].context.Some? ==> t.samples[id].context.value in t.contexts
  {
    hide Core, Placed, Tabled, Rows, Filed;
    ListedLive(t, multiset{});
    CurrentKinds(t);
  }

  lemma InvContext(t: State, c: ContextId, extra: multiset<ChunkId>)
    requires Inv(t, extra, multiset{}, multiset{}, None) && c in t.contexts
    ensures forall id :: id in t.contexts[c].graphs ==> id in t.samples && PlainDone(t.samples[id])
    ensures t.contexts[c].current.Some? ==>
              t.contexts[c].current.value in t.samples && PlainOpen(t.samples[t.contexts[c].current.value])
  {
    hide Inv;
    ContextFacts(t, c, extra, multiset{}, multiset{});
  }

  /** When the global window is recorded, contexts and segments stay. */
  lemma OthersAfterWindow(k: Config, s: State, t: State, h: seq<Item>, nw: nat, n: nat, ns: nat, open: Option<nat>,
                          births: Births, r: Ref, ts: nat, extra: multiset<ChunkId>)
    requires ValidConfig(k) && nw <= |h| && n <= |h| && ns <= |h| && Good(s, extra)
    requires Inv(t, extra, multiset{}, multiset{}, None) && WindowRecorded(s, t, r, ts)
    requires ContextsPart(k, s, h, nw, n, births) && SegmentPart(k, s, h, ns, open, n)
    ensures ContextsPart(k, t, h, nw, n, births) && SegmentPart(k, t, h, ns, open, n)
  {
    hide Good, Inv, ContextPart, SegmentPart, Shifted;
    Apart(s, extra);
    InvListed(t, extra);
    forall c | c in t.contexts ensures ContextPart(k, t, h, nw, n, births, c) {
      assert ContextPart(k, s, h, nw, n, births, c);
      ContextApart(s, c, extra);
      InvContext(t, c, extra);
      ContextPartFrame(k, s, t, h, nw, n, births, c);
    }
    SegmentPartFrame(k, s, t, h, ns, open, n);
  }

  /** Current samples are open ones. */
  lemma CurrentIsOpen(s: State, id: SampleId, extra: multiset<ChunkId>)
    requires Inv(s, extra, multiset{}, multiset{}, None) && IsCurrent(s, id, 0)
    ensures id in s.samples && PlainOpen(s.samples[id])
  {
    hide Inv;
    var j :| 0 <= j < |s.hwContexts| && s.hwContexts[j] in s.contexts
             && s.contexts[s.hwContexts[j]].current == Some(id);
    InvContext(s, s.hwContexts[j], extra);
  }

  /** Closing the windows of contexts changes no sample that was already closed. */
  lemma ClosedStays(k: Config, s: State, t: State, r: Ref, id: SampleId, extra: multiset<ChunkId>)
    requires Inv(s, extra, multiset{}, multiset{}, None) && AllRecorded(k, s, t, r, 0) && id in t.samples
    requires id in s.samples ==> !PlainOpen(s.samples[id])
    ensures id in s.samples && t.samples[id] == s.samples[id]
  {
    hide Inv, RecordedIn, IsCurrent, PlainOpen;
    if IsCurrent(s, id, 0) {
      CurrentIsOpen(s, id, extra);
    }
  }

  lemma AtIndex(s: State, t: State, c: ContextId, extra: multiset<ChunkId>) returns (j: nat)
    requires Inv(t, extra, multiset{}, multiset{}, None) && c in t.contexts && t.hwContexts == s.hwContexts
    ensures j < |s.hwContexts| && s.hwContexts[j] == c
  {
    hide Inv;
    HwContextsLive(t, extra, multiset{}, multiset{});
    j :| 0 <= j < |t.hwContexts| && t.hwContexts[j] == c;
  }

  /** The share of context c in the window that pair n closes. */
  lemma ContextMoves(k: Config, s: State, t: State, h: seq<Item>, n: nat, births: Births, c: ContextId, r: Ref,
                     extra: multiset<ChunkId>)
    requires ValidConfig(k) && 0 < n < |h| && h[n].ref == r && WindowCloses(k, h, WindowStart(k, h, n), n)
    requires Inv(s, extra, multiset{}, multiset{}, None) && Inv(t, extra, multiset{}, multiset{}, None)
    requires AllRecorded(k, s, t, r, 0) && c in s.contexts && c in t.contexts && RecordedIn(k, s, t, c, r)
    requires ContextPart(k, s, h, n, n + 1, births, c) && CpuTimeAt(k, s, h, n, r)
    ensures ContextPart(k, t, h, n + 1, n + 1, births, c)
  {
    hide Inv, AllRecorded, ContextAcc, WindowCloses, WindowStart, Deref, ContextEnd, IsContextWindow, RecordedIn,
         Pushed, CpuTimeAt, ContextList;
    var ws := WindowStart(k, h, n);
    var w, v := Windows(k, h, n), Span(ws, n);
    assert Windows(k, h, n + 1) == w + [v];
    hide Windows;
    var id := RecordedContext(k, s, t, h, n, births[c], c, r);
    ListMoves(k, s, t, h, births[c], c, id, w, v, r, extra);
  }

  lemma ListMoves(k: Config, s: State, t: State, h: seq<Item>, birth: nat, c: ContextId, id: SampleId, w: seq<Span>,
                  v: Span, r: Ref, extra: multiset<ChunkId>)
    requires ValidConfig(k) && AllRecorded(k, s, t, r, 0) && c in s.contexts && c in t.contexts
    requires Inv(s, extra, multiset{}, multiset{}, None) && Inv(t, extra, multiset{}, multiset{}, None)
    requires ContextList(k, s, h, s.contexts[c], birth, w) && t.contexts[c].hwId == s.contexts[c].hwId
    requires Pushed(k, s.contexts[c].graphs, t.contexts[c].graphs, id) && v.last >= birth
    requires id in t.samples && IsContextWindow(k, h, s.contexts[c].hwId, birth, t.samples[id], v)
    ensures ContextList(k, t, h, t.contexts[c], birth, w + [v])
  {
    hide Inv, AllRecorded, IsContextWindow, Pushed;
    var x, y := s.contexts[c], t.contexts[c];
    assert Since(w + [v], birth) == Since(w, birth) + 1 by { assert (w + [v])[..|w|] == w; }
    hide Since;
    PushedTail(k, x.graphs, y.graphs, id, w, v);
    forall j | 0 <= j < |y.graphs|
      ensures y.graphs[j] in t.samples
              && IsContextWindow(k, h, y.hwId, birth, t.samples[y.graphs[j]], TailAt(w + [v], y.graphs, j))
    {
      EntryMoves(k, s, t, h, birth, c, id, w, v, j, r, extra);
    }
  }

  /** One entry of a context's list: it was there before, or it is the window just closed. */
  lemma EntryMoves(k: Config, s: State, t: State, h: seq<Item>, birth: nat, c: ContextId, id: SampleId, w: seq<Span>,
                   v: Span, j: nat, r: Ref, extra: multiset<ChunkId>)
    requires ValidConfig(k) && AllRecorded(k, s, t, r, 0) && c in s.contexts && c in t.contexts
    requires Inv(s, extra, multiset{}, multiset{}, None) && Inv(t, extra, multiset{}, multiset{}, None)
    requires var l, l' := s.contexts[c].graphs, t.contexts[c].graphs;
             && Pushed(k, l, l', id) && |l| <= |w| && j < |l'| <= |w| + 1
             && forall i :: 0 <= i < |l| ==>
                  l[i] in s.samples
                  && IsContextWindow(k, h, s.contexts[c].hwId, birth, s.samples[l[i]], TailAt(w, l, i))
    requires id in t.samples && IsContextWindow(k, h, s.contexts[c].hwId, birth, t.samples[id], v)
    ensures var l' := t.contexts[c].graphs;
            && l'[j] in t.samples
            && IsContextWindow(k, h, s.contexts[c].hwId, birth, t.samples[l'[j]], TailAt(w + [v], l', j))
  {
    hide Inv, AllRecorded, IsContextWindow, Pushed;
    var l, l' := s.contexts[c].graphs, t.contexts[c].graphs;
    InvContext(s, c, extra);
    InvContext(t, c, extra);
    assert l'[j] in l';
    PushedAt(k, l, l', id, w, v, j);
    if j < |l'| - 1 {
      assert l'[j] in l;
      ClosedStays(k, s, t, r, l'[j], extra);
    }
  }

  /** With CPU timestamps the time of a record is what the record says. */
  predicate CpuTimeAt(k: Config, s: State, h: seq<Item>, n: nat, r: Ref)
    requires n < |h|
  {
    Deref(s.chunks, r).Some? && (k.cpuTimestamps ==> Deref(s.chunks, r).value.cpuTimestamp == h[n].time)
  }

  lemma RecordedContext(k: Config, s: State, t: State, h: seq<Item>, n: nat, birth: nat, c: ContextId,
                        r: Ref) returns (id: SampleId)
    requires ValidConfig(k) && 0 < n < |h| && h[n].ref == r && RecordedIn(k, s, t, c, r) && CpuTimeAt(k, s, h, n, r)
    requires OpenContextWindow(k, s, h, s.contexts[c], birth, WindowStart(k, h, n), n + 1)
    ensures c in s.contexts && c in t.contexts && t.contexts[c].hwId == s.contexts[c].hwId
    ensures t.contexts[c].current.None?
    ensures s.contexts[c].current == Some(id) && id in t.samples
    ensures Pushed(k, s.contexts[c].graphs, t.contexts[c].graphs, id)
    ensures IsContextWindow(k, h, s.contexts[c].hwId, birth, t.samples[id], Span(WindowStart(k, h, n), n))
  {
    hide ContextAcc, WindowStart, Deref, Pushed;
    id := s.contexts[c].current.value;
  }

  lemma PushedTail(k: Config, l: seq<SampleId>, l': seq<SampleId>, id: SampleId, w: seq<Span>, x: Span)
    requires Pushed(k, l, l', id) && |l| <= |w|
    ensures |l'| <= |w| + 1 && |l'| == AtMost(|l| + 1, k.maxGraphs + 1)
  {
    hide Last;
  }

  lemma PushedAt(k: Config, l: seq<SampleId>, l': seq<SampleId>, id: SampleId, w: seq<Span>, x: Span, j: nat)
    requires Pushed(k, l, l', id) && |l| <= |w| && j < |l'| <= |w| + 1
    ensures if j == |l'| - 1 then l'[j] == id && TailAt(w + [x], l', j) == x
            else
              l'[j] in l
              && exists j0 :: 0 <= j0 < |l| && l'[j] == l[j0] && TailAt(w + [x], l', j) == TailAt(w, l, j0)
  {
    TailShift(l, l', id, w, x, j);
  }

  lemma AllMove(k: Config, s: State, t: State, h: seq<Item>, n: nat, births: Births, r: Ref, extra: multiset<ChunkId>)
    requires ValidConfig(k) && 0 < n < |h| && h[n].ref == r && WindowCloses(k, h, WindowStart(k, h, n), n)
    requires Inv(s, extra, multiset{}, multiset{}, None) && Inv(t, extra, multiset{}, multiset{}, None)
    requires AllRecorded(k, s, t, r, 0) && ContextsPart(k, s, h, n, n + 1, births) && CpuTimeAt(k, s, h, n, r)
    ensures ContextsPart(k, t, h, n + 1, n + 1, births)
  {
    hide Inv, ContextPart, RecordedIn, IsCurrent, WindowCloses, WindowStart, CpuTimeAt;
    forall c | c in t.contexts ensures ContextPart(k, t, h, n + 1, n + 1, births, c) {
      var j := AtIndex(s, t, c, extra);
      assert RecordedIn(k, s, t, s.hwContexts[j], r) && ContextPart(k, s, h, n, n + 1, births, c);
      ContextMoves(k, s, t, h, n, births, c, r, extra);
    }
  }

  lemma OthersAfterContexts(k: Config, s: State, t: State, h: seq<Item>, nw: nat, n: nat, ns: nat, open: Option<nat>,
                            r: Ref,
                            extra: multiset<ChunkId>)
    requires ValidConfig(k) && nw <= |h| && n <= |h| && ns <= |h| && s.currentGraph.None?
    requires Inv(s, extra, multiset{}, multiset{}, None) && Inv(t, extra, multiset{}, multiset{}, None)
    requires AllRecorded(k, s, t, r, 0) && GraphPart(k, s, h, nw, n) && SegmentPart(k, s, h, ns, open, n)
    ensures GraphPart(k, t, h, nw, n) && SegmentPart(k, t, h, ns, open, n)
  {
    hide Inv, GraphPart, SegmentPart, AllRecorded;
    assert SameSession(s, t) by { RecordedSession(k, s, t, r); }
    InvListed(s, extra);
    InvListed(t, extra);
    forall id | id in s.graphs ensures Unchanged(s, t, id) { ClosedStays(k, s, t, r, id, extra); }
    forall id | id in s.timelines ensures Unchanged(s, t, id) { ClosedStays(k, s, t, r, id, extra); }
    if s.currentTimeline.Some? { ClosedStays(k, s, t, r, s.currentTimeline.value, extra); }
    GraphPartFrame(k, s, t, h, nw, n);
    RecordedIds(k, s, t, r, extra);
    SegmentPartFrame(k, s, t, h, ns, open, n);
  }

  lemma RecordedSession(k: Config, s: State, t: State, r: Ref)
    requires AllRecorded(k, s, t, r, 0)
    ensures SameSession(s, t) && t.hwContexts == s.hwContexts && t.contexts.Keys == s.contexts.Keys
  {
  }

  lemma RecordedIds(k: Config, s: State, t: State, r: Ref, extra: multiset<ChunkId>)
    requires AllRecorded(k, s, t, r, 0) && Inv(t, extra, multiset{}, multiset{}, None)
    ensures SameIds(s, t)
  {
    hide Inv, IsCurrent, Shifted, Deref, ContextEnd;
    forall id | id in t.samples && t.samples[id].context.Some? && t.samples[id].context.value in s.contexts
      ensures OfContext(t.contexts, t.samples[id], s.contexts[t.samples[id].context.value].hwId)
    {
      var c := t.samples[id].context.value;
      var j := AtIndex(s, t, c, extra);
      assert RecordedIn(k, s, t, s.hwContexts[j], r);
    }
  }

  lemma StampSameStore(k: Config, s: State, t: State, r: Ref)
    requires ValidConfig(k) && t.chunks == s.chunks && t.last == s.last && t.lastOaTimestamp == s.lastOaTimestamp
    ensures Timestamp(k, t, r) == Timestamp(k, s, r)
  {
    hide Deref, Wrap64, ScaleNs;
  }

  lemma WindowHist(k: Config, s: State, h: seq<Item>, n: nat, births: Births, r: Ref, extra: multiset<ChunkId>)
    requires ValidConfig(k) && Good(s, extra) && s.currentGraph.Some? && r.chunk in extra && Deref(s.chunks, r).Some?
    requires 0 < n < |h| && h[n].ref == r && Timestamp(k, s, r) == Some(h[n].time)
    requires GraphPart(k, s, h, n, n) && ContextsPart(k, s, h, n, n + 1, births)
    requires SegmentPart(k, s, h, n + 1, SegmentStart(k, h, n + 1), n + 1)
    ensures AccumulateWindow(k, s, h[n - 1].report, h[n].report, r).Some?
    ensures var t := AccumulateWindow(k, s, h[n - 1].report, h[n].report, r).value;
            && GraphPart(k, t, h, n + 1, n + 1) && ContextsPart(k, t, h, n + 1, n + 1, births)
            && SegmentPart(k, t, h, n + 1, SegmentStart(k, h, n + 1), n + 1)
            && (t.currentGraph.Some? <==> WindowStart(k, h, n + 1) < n + 1)
  {
    hide Inv, GraphPart, ContextsPart, SegmentPart, Timestamp, Deref, Accumulate, AccumulateInto, RecordForTime,
         ContextsRecordForTime, Elapsed, WellFormed, SegmentStart, WindowRecorded, AllRecorded, Lengths, Synced;
    var r0, r1, id := h[n - 1].report, h[n].report, s.currentGraph.value;
    AccumulateWindowGood(k, s, r0, r1, r, extra);
    GraphFacts(s, extra);
    AccumulateIntoGood(k, s, id, r0, r1, extra);
    AccumulateIntoValue(k, s, id, r0, r1);
    var s1 := AccumulateInto(k, s, id, r0, r1).value;
    WindowTakes(k, s, s1, h, n, extra);
    ContextsUntouchedByWindow(k, s, s1, h, n, n + 1, births, extra);
    Apart(s, extra);
    SegmentsUntouched(k, s, s1, {id}, h, n + 1, SegmentStart(k, h, n + 1), n + 1);
    WindowEndsIs(k, s1, h, n);
    StampSameStore(k, s, s1, r);
    if WindowEnds(k, s1.samples[id], r0, r1) {
      CloseWindows(k, s1, h, n, births, r, extra);
    } else {
      WindowGoesOn(k, s1, h, n, births);
    }
  }

  lemma WindowEndsIs(k: Config, s: State, h: seq<Item>, n: nat)
    requires ValidConfig(k) && 0 < n < |h| && s.currentGraph.Some? && GraphPart(k, s, h, n, n + 1)
    ensures s.currentGraph.value in s.samples
    ensures WindowEnds(k, s.samples[s.currentGraph.value], h[n - 1].report, h[n].report)
       <==> WindowCloses(k, h, WindowStart(k, h, n), n)
    ensures !WindowCloses(k, h, WindowStart(k, h, n), n) ==> WindowStart(k, h, n + 1) == WindowStart(k, h, n) <= n
  {
    hide Windows, WindowAcc, Elapsed, GraphList;
  }

  lemma CloseWindows(k: Config, s: State, h: seq<Item>, n: nat, births: Births, r: Ref, extra: multiset<ChunkId>)
    requires ValidConfig(k) && Good(s, extra) && s.currentGraph.Some? && r.chunk in extra && Deref(s.chunks, r).Some?
    requires 0 < n < |h| && h[n].ref == r && Timestamp(k, s, r) == Some(h[n].time)
    requires WindowCloses(k, h, WindowStart(k, h, n), n)
    requires GraphPart(k, s, h, n, n + 1) && ContextsPart(k, s, h, n, n + 1, births)
    requires SegmentPart(k, s, h, n + 1, SegmentStart(k, h, n + 1), n + 1)
    ensures RecordForTime(k, s, r).Some? && ContextsRecordForTime(k, RecordForTime(k, s, r).value, r, 0).Some?
    ensures var t := ContextsRecordForTime(k, RecordForTime(k, s, r).value, r, 0).value;
            && GraphPart(k, t, h, n + 1, n + 1) && ContextsPart(k, t, h, n + 1, n + 1, births)
            && SegmentPart(k, t, h, n + 1, SegmentStart(k, h, n + 1), n + 1)
            && t.currentGraph.None? && WindowStart(k, h, n + 1) == n + 1
  {
    hide Inv, GraphPart, ContextsPart, SegmentPart, Timestamp, Deref, RecordForTime, ContextsRecordForTime,
         SegmentStart, AllRecorded, Synced, WindowCloses, SameData, Shifted, Ended;
    GraphFacts(s, extra);
    RecordForTimeInv(k, s, r, extra, multiset{});
    var s1 := RecordForTime(k, s, r).value;
    WindowMoves(k, s, s1, h, n, r, h[n].time, extra);
    OthersAfterWindow(k, s, s1, h, n, n + 1, n + 1, SegmentStart(k, h, n + 1), births, r, h[n].time, extra);
    assert SameData(s.chunks, s1.chunks) by { RecordedData(s, s1, r, h[n].time); }
    HandlerKeeps(s, s1, r, extra, multiset{}, multiset{});
    ContextsRecordForTimeInv(k, s1, r, 0, extra, multiset{});
    var t := ContextsRecordForTime(k, s1, r, 0).value;
    CpuTimeIs(k, s, s1, h, n, r);
    AllMove(k, s1, t, h, n, births, r, extra);
    OthersAfterContexts(k, s1, t, h, n + 1, n + 1, n + 1, SegmentStart(k, h, n + 1), r, extra);
    RecordedSession(k, s1, t, r);
  }

  lemma CpuTimeIs(k: Config, s: State, s1: State, h: seq<Item>, n: nat, r: Ref)
    requires ValidConfig(k) && n < |h| && Timestamp(k, s, r) == Some(h[n].time)
    requires Deref(s.chunks, r).Some? && Deref(s1.chunks, r) == Deref(s.chunks, r)
    ensures CpuTimeAt(k, s1, h, n, r)
  {
    hide Deref;
  }

  lemma RecordedData(s: State, t: State, r: Ref, ts: nat)
    requires WindowRecorded(s, t, r, ts)
    ensures SameData(s.chunks, t.chunks)
  {
    hide SameData, Shifted;
  }

  // ---------------------------------------------------------------- one record

  /** The client is in the middle of record n, which is r. */
  ghost predicate AtRecord(k: Config, s: State, h: seq<Item>, n: nat, r: Ref, extra: multiset<ChunkId>)
    requires ValidConfig(k) && n < |h|
  {
    && Good(s, extra) && r.chunk in extra && Deref(s.chunks, r).Some? && Timestamp(k, s, r) == Some(h[n].time)
    && h[n].ref == r && h[n].report == Deref(s.chunks, r).value.report && h[n].hwId == CtxId(k.gen, h[n].report)
    && AllFaithful(k, s, h) && StandsAt(k, s, h, n) && Restamps(k, s)
  }

  predicate SamePosition(s: State, t: State) {
    t.last == s.last && t.lastHwId == s.lastHwId && t.lastOaTimestamp == s.lastOaTimestamp && t.nextChunk == s.nextChunk
  }

  lemma DerefSame(a: map<ChunkId, Chunk>, b: map<ChunkId, Chunk>, r: Ref)
    requires SameData(a, b) && r.chunk in b
    ensures Deref(b, r) == Deref(a, r)
  {
  }

  lemma TimestampSame(k: Config, s: State, t: State, r: Ref)
    requires ValidConfig(k) && SamePosition(s, t) && SameData(s.chunks, t.chunks) && r.chunk in t.chunks
    requires s.last.Some? ==> s.last.value.chunk in t.chunks
    ensures Timestamp(k, t, r) == Timestamp(k, s, r)
  {
    hide Deref, SameData, Wrap64, ScaleNs;
    DerefSame(s.chunks, t.chunks, r);
    if s.last.Some? { DerefSame(s.chunks, t.chunks, s.last.value); }
  }

  lemma SomeIsHere(chunks: map<ChunkId, Chunk>, r: Ref)
    requires Deref(chunks, r).Some?
    ensures r.chunk in chunks
  {
  }

  lemma LastIsHere(s: State, extra: multiset<ChunkId>)
    requires Good(s, extra)
    ensures s.last.Some? ==> s.last.value.chunk in s.chunks && Deref(s.chunks, s.last.value).Some?
  {
    hide Inv, Deref;
    LastIsSound(s, extra, multiset{});
    if s.last.Some? { SomeIsHere(s.chunks, s.last.value); }
  }

  lemma FaithfulKept(k: Config, s: State, t: State, h: seq<Item>)
    requires AllFaithful(k, s, h) && SameData(s.chunks, t.chunks) && t.nextChunk == s.nextChunk
    ensures AllFaithful(k, t, h)
  {
    hide CtxId;
    forall i | 0 <= i < |h| ensures Faithful(k, t.chunks, h[i]) && h[i].ref.chunk < t.nextChunk {
      assert Faithful(k, s.chunks, h[i]);
    }
  }

  lemma AtRecordKept(k: Config, s: State, t: State, h: seq<Item>, n: nat, r: Ref, extra: multiset<ChunkId>)
    requires ValidConfig(k) && n < |h| && AtRecord(k, s, h, n, r, extra)
    requires Good(t, extra) && SamePosition(s, t) && SameData(s.chunks, t.chunks)
    ensures AtRecord(k, t, h, n, r, extra)
  {
    hide Good, Deref, Timestamp, SameData, AllFaithful, CtxId;
    GoodHandlerKeeps(s, t, r, extra);
    LastIsHere(t, extra);
    TimestampSame(k, s, t, r);
    if s.last.Some? { TimestampSame(k, s, t, s.last.value); }
    FaithfulKept(k, s, t, h);
  }

  /** The item for record r. */
  function ItemAt(k: Config, s: State, r: Ref): Item
    requires ValidConfig(k) && Deref(s.chunks, r).Some? && Timestamp(k, s, r).Some?
  {
    var report := Deref(s.chunks, r).value.report;
    Item(r, report, CtxId(k.gen, report), Timestamp(k, s, r).value)
  }

  lemma BeginRecord(k: Config, s: State, h: seq<Item>, births: Births, r: Ref, extra: multiset<ChunkId>)
    requires ValidConfig(k) && Good(s, extra) && r.chunk in extra && Deref(s.chunks, r).Some? && r.chunk < s.nextChunk
    requires HistWith(k, s, h, births)
    ensures Timestamp(k, s, r).Some?
    ensures var h' := h + [ItemAt(k, s, r)];
            var n := |h|;
            && AtRecord(k, s, h', n, r, extra) && GraphPart(k, s, h', n, n) && ContextsPart(k, s, h', n, n, births)
            && SegmentPart(k, s, h', n, SegmentStart(k, h', n), n)
            && (s.currentGraph.Some? <==> WindowStart(k, h', n) < n)
  {
    hide Good, GraphPart, ContextsPart, SegmentPart, WindowStart, SegmentStart, Deref, Timestamp, CtxId, AllFaithful;
    StampExists(k, s, r, extra);
    var x := ItemAt(k, s, r);
    GraphLift(k, s, h, x);
    ContextsLift(k, s, h, x, births);
    SegmentLift(k, s, h, x);
    WindowsPrefix(k, h, x, |h|);
    CpuTimeIs(k, s, s, h + [x], |h|, r);
    FaithfulMore(k, s, h, x);
  }

  lemma StampExists(k: Config, s: State, r: Ref, extra: multiset<ChunkId>)
    requires ValidConfig(k) && Good(s, extra) && Deref(s.chunks, r).Some?
    ensures Timestamp(k, s, r).Some?
  {
    hide Inv, Deref, Timestamp;
    StampRuns(k, s, r, extra, multiset{});
  }

  lemma FaithfulMore(k: Config, s: State, h: seq<Item>, x: Item)
    requires AllFaithful(k, s, h) && x.ref.chunk < s.nextChunk && Deref(s.chunks, x.ref).Some?
    requires x.report == Deref(s.chunks, x.ref).value.report && x.hwId == CtxId(k.gen, x.report)
    requires k.cpuTimestamps ==> x.time == Deref(s.chunks, x.ref).value.cpuTimestamp
    ensures AllFaithful(k, s, h + [x])
  {
    hide CtxId;
  }

  lemma OpenWindowHist(k: Config, s: State, h: seq<Item>, n: nat, births: Births, r: Ref, extra: multiset<ChunkId>)
    requires ValidConfig(k) && n < |h| && AtRecord(k, s, h, n, r, extra) && GraphPart(k, s, h, n, n)
    requires ContextsPart(k, s, h, n, n, births) && SegmentPart(k, s, h, n, SegmentStart(k, h, n), n)
    requires s.currentGraph.Some? <==> WindowStart(k, h, n) < n
    ensures OpenWindow(k, s, r).Some?
    ensures var t := OpenWindow(k, s, r).value;
            && AtRecord(k, t, h, n, r, extra) && GraphPart(k, t, h, n, n) && ContextsPart(k, t, h, n, n, births)
            && SegmentPart(k, t, h, n, SegmentStart(k, h, n), n) && t.currentGraph.Some?
            && SubIds(s, t) && SubIds(t, s)
  {
    hide Good, GraphPart, ContextsPart, SegmentPart, WindowStart, SegmentStart, Deref, Timestamp, AllFaithful,
         OpenWindow, WindowOpened, SameData, CtxId;
    OpenWindowGood(k, s, r, extra);
    var t := OpenWindow(k, s, r).value;
    if s.currentGraph.None? {
      assert WindowStart(k, h, n) == n;
      OpenWindowGraph(k, s, t, h, n, r);
      OpenWindowContexts(k, s, t, h, n, r, births);
      OpenWindowSegments(k, s, t, h, n, SegmentStart(k, h, n), r);
      OpenedPosition(k, s, t, r);
      AtRecordKept(k, s, t, h, n, r, extra);
    }
  }

  lemma OpenedPosition(k: Config, s: State, t: State, r: Ref)
    requires ValidConfig(k) && WindowOpened(k, s, t, r)
    ensures SameData(s.chunks, t.chunks) && SamePosition(s, t) && SubIds(s, t) && SubIds(t, s)
  {
    hide SameData, InitialAt, Deref, Timestamp;
    forall c | c in t.contexts ensures t.contexts[c].hwId == s.contexts[c].hwId {
      assert OpenedIn(k, s, t, c, r);
    }
  }

  lemma TimelineOpenedPosition(k: Config, s: State, t: State)
    requires ValidConfig(k) && TimelineOpened(k, s, t)
    ensures SameData(s.chunks, t.chunks) && SamePosition(s, t)
  {
    hide SameData, InitialAt, Deref, Timestamp, ContextsGrow;
  }

  /** A context that appears with pair n. */
  function BirthsAt(s: State, t: State, births: Births, n: nat): Births {
    if t == s then births else births[s.nextContext := n]
  }

  lemma OpenTimelineHist(k: Config, s: State, h: seq<Item>, n: nat, births: Births, r: Ref, extra: multiset<ChunkId>)
    requires ValidConfig(k) && n < |h| && AtRecord(k, s, h, n, r, extra) && GraphPart(k, s, h, n, n)
    requires s.currentGraph.Some?
    requires ContextsPart(k, s, h, n, n, births) && SegmentPart(k, s, h, n, SegmentStart(k, h, n), n)
    ensures OpenTimeline(k, s).Some?
    ensures var t := OpenTimeline(k, s).value;
            && AtRecord(k, t, h, n, r, extra) && GraphPart(k, t, h, n, n)
            && ContextsPart(k, t, h, n, n, BirthsAt(s, t, births, n))
            && SegmentPart(k, t, h, n, Opened(k, h, n), n) && t.currentGraph.Some?
            && (t == s || (TimelineOpened(k, s, t) && StandsAt(k, s, h, n) && n > 0))
  {
    hide Good, GraphPart, ContextsPart, SegmentList, SegmentStart, Deref, Timestamp, AllFaithful, OpenTimeline,
         TimelineOpened,
         SameData, CtxId, SegmentAcc, OfContext;
    OpenTimelineGood(k, s, extra);
    var t := OpenTimeline(k, s).value;
    if s.last.Some? && s.lastHwId != INVALID_CTX_ID && s.currentTimeline.None? {
      LastReport(k, s, h, n, extra);
      FreshId(s, extra);
      assert StampsKnown(k, s, h, n);
      OpenTimelineGraph(k, s, t, h, n, n);
      OpenTimelineContexts(k, s, t, h, n, births);
      OpenTimelineSegments(k, s, t, h, n);
      TimelineOpenedPosition(k, s, t);
      AtRecordKept(k, s, t, h, n, r, extra);
      OpenedIsNew(k, s, t);
    } else {
      StartNone(k, h, n);
    }
  }

  lemma OpenedIsNew(k: Config, s: State, t: State)
    requires ValidConfig(k) && TimelineOpened(k, s, t)
    ensures t != s
  {
    hide SameData, InitialAt, Deref, Timestamp, ContextsGrow;
  }

  lemma StartNone(k: Config, h: seq<Item>, n: nat)
    requires ValidConfig(k) && n < |h|
    ensures n == 0 ==> SegmentStart(k, h, n).None?
  {
  }

  lemma FreshId(s: State, extra: multiset<ChunkId>)
    requires Good(s, extra)
    ensures s.nextContext !in s.contexts
  {
    hide Inv;
    InvNext(s, extra, multiset{});
  }

  lemma LastReport(k: Config, s: State, h: seq<Item>, n: nat, extra: multiset<ChunkId>)
    requires ValidConfig(k) && n <= |h| && Good(s, extra) && AllFaithful(k, s, h) && StandsAt(k, s, h, n)
    requires s.last.Some?
    ensures n > 0 && Deref(s.chunks, s.last.value).Some?
    ensures h[n - 1].report == Deref(s.chunks, s.last.value).value.report
  {
    hide Good, Deref, CtxId;
    LastIsHere(s, extra);
    assert Faithful(k, s.chunks, h[n - 1]);
  }

  /** The first record adds no pair. */
  lemma FirstRecord(k: Config, s: State, h: seq<Item>, births: Births)
    requires ValidConfig(k) && |h| == 1 && s.currentGraph.Some?
    requires GraphPart(k, s, h, 0, 0) && ContextsPart(k, s, h, 0, 0, births)
    requires SegmentPart(k, s, h, 0, Opened(k, h, 0), 0)
    ensures GraphPart(k, s, h, 1, 1) && ContextsPart(k, s, h, 1, 1, births)
    ensures SegmentPart(k, s, h, 1, SegmentStart(k, h, 1), 1)
    ensures WindowStart(k, h, 1) == 0
  {
    hide Init, IsWindow, IsContextWindow, IsSegment;
    forall c | c in s.contexts ensures ContextPart(k, s, h, 1, 1, births, c) {
      assert ContextPart(k, s, h, 0, 0, births, c);
    }
  }

  lemma AccumulatePairHist(k: Config, s: State, h: seq<Item>, n: nat, births: Births, r: Ref, extra: multiset<ChunkId>)
    requires ValidConfig(k) && |h| == n + 1 && AtRecord(k, s, h, n, r, extra) && GraphPart(k, s, h, n, n)
    requires s.currentGraph.Some?
    requires ContextsPart(k, s, h, n, n, births) && SegmentPart(k, s, h, n, Opened(k, h, n), n)
    ensures AccumulatePair(k, s, r).Some?
    ensures var t := AccumulatePair(k, s, r).value;
            && AtRecord(k, t, h, n, r, extra) && GraphPart(k, t, h, n + 1, n + 1)
            && ContextsPart(k, t, h, n + 1, n + 1, births)
            && SegmentPart(k, t, h, n + 1, SegmentStart(k, h, n + 1), n + 1)
            && (t.currentGraph.Some? <==> WindowStart(k, h, n + 1) < n + 1) && SubIds(s, t)
  {
    hide Good, GraphPart, ContextsPart, SegmentPart, SegmentStart, Opened, Deref, Timestamp, AllFaithful,
         AccumulateTimeline, AccumulateWindow, WindowStart, SameData, CtxId;
    AccumulatePairGood(k, s, r, extra);
    var t := AccumulatePair(k, s, r).value;
    AtRecordKept(k, s, t, h, n, r, extra);
    if n == 0 {
      FirstRecord(k, s, h, births);
    } else {
      LastReport(k, s, h, n, extra);
      AccumulateTimelineGood(k, s, h[n - 1].report, h[n].report, r, extra);
      TimelineHist(k, s, h, n, births, r, extra);
      var s1 := AccumulateTimeline(k, s, h[n - 1].report, h[n].report, r).value;
      AtRecordKept(k, s, s1, h, n, r, extra);
      WindowHist(k, s1, h, n, births, r, extra);
    }
  }

  lemma AdvanceHist(k: Config, s: State, h: seq<Item>, n: nat, births: Births, r: Ref, extra: multiset<ChunkId>)
    requires ValidConfig(k) && |h| == n + 1 && AtRecord(k, s, h, n, r, extra) && GraphPart(k, s, h, n + 1, n + 1)
    requires ContextsPart(k, s, h, n + 1, n + 1, births)
    requires SegmentPart(k, s, h, n + 1, SegmentStart(k, h, n + 1), n + 1)
    requires s.currentGraph.Some? <==> WindowStart(k, h, n + 1) < n + 1
    ensures Advance(k, s, r).Some? && Good(Advance(k, s, r).value, extra)
    ensures HistWith(k, Advance(k, s, r).value, h, births) && Advance(k, s, r).value.contexts == s.contexts
    ensures SameData(s.chunks, Advance(k, s, r).value.chunks) && Advance(k, s, r).value.nextChunk == s.nextChunk
  {
    hide Good, GraphPart, ContextPart, SegmentPart, SegmentStart, Deref, Timestamp, AllFaithful, Advance, WindowStart,
         SameData, CtxId;
    AdvanceGood(k, s, r, extra);
    var t := Advance(k, s, r).value;
    GoodHandlerKeeps(s, t, r, extra);
    GraphPartFrame(k, s, t, h, n + 1, n + 1);
    forall c | c in t.contexts ensures ContextPart(k, t, h, n + 1, n + 1, births, c) {
      ContextPartFrame(k, s, t, h, n + 1, n + 1, births, c);
    }
    OwnIds(s, extra);
    SegmentPartFrame(k, s, t, h, n + 1, SegmentStart(k, h, n + 1), n + 1);
    FaithfulKept(k, s, t, h);
    StampAgain(k, s, t, r);
  }

  lemma OwnIds(s: State, extra: multiset<ChunkId>)
    requires Good(s, extra)
    ensures SameIds(s, s)
  {
    hide Inv;
    forall id | id in s.samples && s.samples[id].context.Some? ensures s.samples[id].context.value in s.contexts {
      GoodHasContext(s, id, extra);
    }
  }

  lemma StampAgain(k: Config, s: State, t: State, r: Ref)
    requires ValidConfig(k) && Deref(s.chunks, r).Some? && Deref(t.chunks, r) == Deref(s.chunks, r)
    requires Timestamp(k, s, r) == Some(t.lastOaTimestamp) && t.last == Some(r)
    ensures Timestamp(k, t, r) == Some(t.lastOaTimestamp)
  {
    hide Deref;
    if !k.cpuTimestamps {
      assert ScaleNs(k.freq, Wrap64(0)) == 0;
      WrappedTwice(k, s, r);
    }
  }

  lemma WrappedTwice(k: Config, s: State, r: Ref)
    requires ValidConfig(k) && !k.cpuTimestamps && Timestamp(k, s, r).Some?
    ensures Wrap64(Timestamp(k, s, r).value) == Timestamp(k, s, r).value
  {
    hide Deref, ScaleNs;
  }

  // ---------------------------------------------------------------- lives of contexts

  /** A context is there exactly if a segment of it is. */
  lemma ContextIsPresent(k: Config, s: State, h: seq<Item>, c: ContextId, extra: multiset<ChunkId>)
    requires ValidConfig(k) && Good(s, extra) && c in s.contexts
    requires SegmentPart(k, s, h, |h|, SegmentStart(k, h, |h|), |h|)
    ensures Present(k, h, |h|, s.contexts[c].hwId)
  {
    hide Inv, Timeline, SegmentStart, SegmentAcc, HasSegment;
    var id := HasUser(s, c, extra);
    if id in s.timelines {
      var w := Timeline(k, h, |h|);
      var j :| 0 <= j < |s.timelines| && s.timelines[j] == id;
      assert IsSegment(k, h, s.contexts, s.samples[id], w[j]);
      assert HasSegment(h, w, s.contexts[c].hwId) by { SegmentOf(h, w, j); }
    }
  }

  lemma SegmentOf(h: seq<Item>, w: seq<Span>, j: nat)
    requires j < |w| && w[j].first < |h|
    ensures HasSegment(h, w, h[w[j].first].hwId)
  {
  }

  lemma PresentIsContext(k: Config, s: State, h: seq<Item>, hw: Word) returns (c: ContextId)
    requires ValidConfig(k) && Present(k, h, |h|, hw) && SegmentPart(k, s, h, |h|, SegmentStart(k, h, |h|), |h|)
    ensures c in s.contexts && s.contexts[c].hwId == hw
  {
    hide Timeline, SegmentStart, SegmentAcc;
    var w := Timeline(k, h, |h|);
    if HasSegment(h, w, hw) {
      var j :| 0 <= j < |w| && w[j].first < |h| && h[w[j].first].hwId == hw;
      assert IsSegment(k, h, s.contexts, s.samples[s.timelines[j]], w[j]);
      c := s.samples[s.timelines[j]].context.value;
    } else {
      c := s.samples[s.currentTimeline.value].context.value;
    }
  }

  /** Contexts that were there have the birth they had, and a new one is born with this pair. */
  lemma BirthIsRight(k: Config, s: State, s1: State, s2: State, t: State, h: seq<Item>, x: Item, births: Births,
                     c: ContextId, extra: multiset<ChunkId>)
    requires ValidConfig(k) && Good(s1, extra) && Good(s2, extra) && Good(t, extra) && c in t.contexts
    requires RightBirths(k, s, h, births) && SubIds(s, s1) && SubIds(s1, s) && SubIds(s2, t)
    requires s2 == s1 || TimelineOpened(k, s1, s2)
    requires SegmentPart(k, s, h, |h|, SegmentStart(k, h, |h|), |h|)
    requires var h' := h + [x]; SegmentPart(k, t, h', |h'|, SegmentStart(k, h', |h'|), |h'|)
    ensures var births' := BirthsAt(s1, s2, births, |h|);
            c in births' && Born(k, h + [x], t.contexts[c].hwId, |h| + 1) == Some(births'[c])
  {
    hide Good, SegmentPart, Present, TimelineOpened;
    var hw := t.contexts[c].hwId;
    ContextIsPresent(k, t, h + [x], c, extra);
    BornPrefix(k, h, x, hw, |h|);
    FreshId(s1, extra);
    if c !in s.contexts {
      OnlyNewContext(k, s1, s2, c);
      if Born(k, h, hw, |h|).Some? {
        var d := PresentIsContext(k, s, h, hw);
        OldContext(k, s1, s2, d);
        IdsDiffer(s2, c, d, extra);
      }
    } else if s2 != s1 {
      OldContext(k, s1, s2, c);
    }
  }

  lemma OnlyNewContext(k: Config, s: State, t: State, c: ContextId)
    requires ValidConfig(k) && TimelineOpened(k, s, t) && c in t.contexts && c !in s.contexts
    ensures c == s.nextContext && t != s
  {
    hide SameData, Deref, Timestamp, Begins, Owns;
  }

  lemma OldContext(k: Config, s: State, t: State, c: ContextId)
    requires ValidConfig(k) && TimelineOpened(k, s, t) && c in s.contexts
    ensures c in t.contexts && t.contexts[c].hwId == s.contexts[c].hwId
  {
    hide SameData, Deref, Timestamp, Begins;
  }

  /** Births matter for live contexts only. */
  lemma BirthsAgree(k: Config, s: State, h: seq<Item>, births: Births)
    requires ValidConfig(k) && HistWith(k, s, h, births) && RightBirths(k, s, h, births)
    ensures Hist(k, s, h)
  {
    hide Born, GraphPart, SegmentPart, AllFaithful, StandsAt, Restamps, ContextList, OpenContextWindow;
    forall c | c in s.contexts ensures ContextPart(k, s, h, |h|, |h|, BirthsOf(k, s, h), c) {
      assert ContextPart(k, s, h, |h|, |h|, births, c);
    }
  }

  /** One sample record more in the stream: the client has exactly what the longer history calls for. */
  lemma StepHist(k: Config, s: State, h: seq<Item>, r: Ref, extra: multiset<ChunkId>)
    requires ValidConfig(k) && Good(s, extra) && r.chunk in extra && Deref(s.chunks, r).Some? && r.chunk < s.nextChunk
    requires Hist(k, s, h)
    ensures Timestamp(k, s, r).Some? && Step(k, s, r).Some?
    ensures Hist(k, Step(k, s, r).value, h + [ItemAt(k, s, r)])
  {
    hide Good, HistWith, AtRecord, GraphPart, ContextsPart, SegmentPart, SegmentStart, Opened, Deref, Timestamp,
         OpenWindow, OpenTimeline, AccumulatePair, Advance, WindowStart, SameData, CtxId, BirthsOf, RightBirths, Hist,
         TimelineOpened, SubIds, BirthsAt, StandsAt;
    var births := BirthsOf(k, s, h);
    HistIs(k, s, h);
    BeginRecord(k, s, h, births, r, extra);
    var x := ItemAt(k, s, r);
    var h', n := h + [x], |h|;
    OpenWindowHist(k, s, h', n, births, r, extra);
    var s1 := OpenWindow(k, s, r).value;
    OpenTimelineHist(k, s1, h', n, births, r, extra);
    var s2 := OpenTimeline(k, s1).value;
    var births' := BirthsAt(s1, s2, births, n);
    AccumulatePairHist(k, s2, h', n, births', r, extra);
    var s3 := AccumulatePair(k, s2, r).value;
    AdvanceHist(k, s3, h', n, births', r, extra);
    var t := Advance(k, s3, r).value;
    assert RightBirths(k, t, h', births') by {
      HereIsGood(k, s1, h', n, r, extra);
      HereIsGood(k, s2, h', n, r, extra);
      SegmentsIn(k, t, h', births');
      SameSubIds(s2, s3, t);
      StepBirths(k, s, s1, s2, t, h, x, births, extra);
    }
    BirthsAgree(k, t, h', births');
  }

  lemma HistIs(k: Config, s: State, h: seq<Item>)
    requires ValidConfig(k) && Hist(k, s, h)
    ensures HistWith(k, s, h, BirthsOf(k, s, h)) && RightBirths(k, s, h, BirthsOf(k, s, h))
    ensures SegmentPart(k, s, h, |h|, SegmentStart(k, h, |h|), |h|)
  {
  }

  lemma SegmentsIn(k: Config, s: State, h: seq<Item>, births: Births)
    requires ValidConfig(k) && HistWith(k, s, h, births)
    ensures SegmentPart(k, s, h, |h|, SegmentStart(k, h, |h|), |h|)
  {
  }

  lemma HereIsGood(k: Config, s: State, h: seq<Item>, n: nat, r: Ref, extra: multiset<ChunkId>)
    requires ValidConfig(k) && n < |h| && AtRecord(k, s, h, n, r, extra)
    ensures Good(s, extra)
  {
  }

  lemma SameSubIds(s: State, s1: State, t: State)
    requires SubIds(s, s1) && t.contexts == s1.contexts
    ensures SubIds(s, t)
  {
  }

  lemma StepBirths(k: Config, s: State, s1: State, s2: State, t: State, h: seq<Item>, x: Item, births: Births,
                   extra: multiset<ChunkId>)
    requires ValidConfig(k) && Good(s1, extra) && Good(s2, extra) && Good(t, extra)
    requires RightBirths(k, s, h, births) && SubIds(s, s1) && SubIds(s1, s) && SubIds(s2, t)
    requires s2 == s1 || TimelineOpened(k, s1, s2)
    requires SegmentPart(k, s, h, |h|, SegmentStart(k, h, |h|), |h|)
    requires var h' := h + [x]; SegmentPart(k, t, h', |h'|, SegmentStart(k, h', |h'|), |h'|)
    ensures RightBirths(k, t, h + [x], BirthsAt(s1, s2, births, |h|))
  {
    hide Good, SegmentPart, Born, BirthsAt, TimelineOpened, SubIds;
    forall c | c in t.contexts
      ensures var births' := BirthsAt(s1, s2, births, |h|);
              c in births' && Born(k, h + [x], t.contexts[c].hwId, |h| + 1) == Some(births'[c])
    {
      BirthIsRight(k, s, s1, s2, t, h, x, births, c, extra);
    }
  }
}
