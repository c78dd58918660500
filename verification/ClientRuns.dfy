/** Whole runs of the client: from the events alone one can say what it has - which windows, which
    segments, which totals - and from that what a reader of its lists may rely on.
 */
module ClientRuns {
  import opened Common
  import opened OaCounters
  import opened ClientState
  import opened ClientInvariants
  import opened ClientSteps
  import opened Segmentation
  import opened ClientHistory

  // ---------------------------------------------------------------- the history of a run

  /** The time of a record that follows history h. */
  function Stamp(k: Config, h: seq<Item>, rec: Record): nat
    requires ValidConfig(k) && rec.Sample?
  {
    if k.cpuTimestamps then rec.cpuTimestamp
    else if h == [] then Wrap64(Wrap64(k.visiblePeriod) + ScaleNs(k.freq, 0))
    else
      var last := h[|h| - 1];
      Wrap64(last.time + ScaleNs(k.freq, Wrap64(rec.report[1] as int - last.report[1])))
  }

  function Append(k: Config, h: seq<Item>, r: Ref, rec: Record): seq<Item>
    requires ValidConfig(k) && rec.Sample?
  {
    h + [Item(r, rec.report, CtxId(k.gen, rec.report), Stamp(k, h, rec))]
  }

  /** The sample records of a chunk, up to a lost buffer or an unknown record. */
  function ChunkHistory(k: Config, h: seq<Item>, c: ChunkId, data: seq<Record>, i: nat): seq<Item>
    requires ValidConfig(k) && i <= |data|
    decreases |data| - i
  {
    if i == |data| then h
    else
      match data[i]
      case Sample(_, _) => ChunkHistory(k, Append(k, h, Ref(c, i), data[i]), c, data, i + 1)
      case ReportLost => ChunkHistory(k, h, c, data, i + 1)
      case BufferLost => h
      case Spurious => h
  }

  /** Record idx is read: nothing before it makes the loop give up. */
  ghost predicate IsRead(data: seq<Record>, idx: nat) {
    idx < |data| && data[idx].Sample? && forall j :: 0 <= j < idx ==> !data[j].BufferLost? && !data[j].Spurious?
  }

  ghost predicate FromChunk(c: ChunkId, data: seq<Record>, x: Item) {
    && x.ref.chunk == c && IsRead(data, x.ref.idx)
    && x.report == data[x.ref.idx].report
  }

  /** A chunk adds its sample records in order, each once, up to the first record that says that a buffer was
      lost, or that is not known; a lost report is passed over. */
  lemma {:induction false} ChunkHistoryExact(k: Config, h: seq<Item>, c: ChunkId, data: seq<Record>, i: nat)
    requires ValidConfig(k) && i <= |data| && forall j :: 0 <= j < i ==> !data[j].BufferLost? && !data[j].Spurious?
    ensures var t := ChunkHistory(k, h, c, data, i);
            && h <= t && (forall n :: |h| <= n < |t| ==> FromChunk(c, data, t[n]) && t[n].ref.idx >= i)
            && (forall m, n :: |h| <= m < n < |t| ==> t[m].ref.idx < t[n].ref.idx)
            && (forall idx :: i <= idx && IsRead(data, idx) ==> exists n :: |h| <= n < |t| && t[n].ref.idx == idx)
    decreases |data| - i
  {
    hide Stamp;
    if i < |data| {
      match data[i]
      case Sample(_, _) =>
        var h1 := Append(k, h, Ref(c, i), data[i]);
        ChunkHistoryExact(k, h1, c, data, i + 1);
        var t := ChunkHistory(k, h, c, data, i);
        assert t[|h|] == h1[|h|] && IsRead(data, i);
      case ReportLost => ChunkHistoryExact(k, h, c, data, i + 1);
      case BufferLost =>
      case Spurious =>
    }
  }

  function Chunks(events: seq<Event>): ChunkId {
    if events == [] then 0
    else Chunks(events[..|events| - 1]) + if events[|events| - 1].Data? then 1 else 0
  }

  /** All sample records since the client was last emptied. */
  function HistoryOf(k: Config, events: seq<Event>): seq<Item>
    requires ValidConfig(k)
  {
    if events == [] then []
    else
      var before := events[..|events| - 1];
      match events[|events| - 1]
      case Data(records) => ChunkHistory(k, HistoryOf(k, before), Chunks(before), records, 0)
      case Restart => []
  }

  // ---------------------------------------------------------------- the client keeps to it

  lemma StampIsTimestamp(k: Config, s: State, h: seq<Item>, r: Ref, extra: multiset<ChunkId>)
    requires ValidConfig(k) && Good(s, extra) && Hist(k, s, h) && Deref(s.chunks, r).Some?
    ensures Timestamp(k, s, r) == Some(Stamp(k, h, Deref(s.chunks, r).value))
  {
    hide Good, GraphPart, ContextsPart, SegmentPart, Deref, AllFaithful, Restamps, Wrap64, ScaleNs, WindowStart,
         SegmentStart;
    if s.last.Some? {
      LastReport(k, s, h, |h|, extra);
    }
  }

  lemma {:induction false} AccumulateChunkHist(k: Config, s: State, h: seq<Item>, c: ChunkId, i: nat, n: nat)
    requires ValidConfig(k) && Good(s, multiset{c}) && Hist(k, s, h) && c < s.nextChunk
    requires i <= n && c in s.chunks && |s.chunks[c].data| == n
    ensures AccumulateChunk(k, s, c, i, n).Some?
    ensures var t := AccumulateChunk(k, s, c, i, n).value;
            && Good(t, multiset{c}) && t.nextChunk == s.nextChunk
            && Hist(k, t, ChunkHistory(k, h, c, s.chunks[c].data, i))
    decreases n - i
  {
    hide Good, Hist, Step, Timestamp, CtxId, Stamp;
    var data := s.chunks[c].data;
    if i < n && data[i].Sample? {
      var r := Ref(c, i);
      StepGood(k, s, r, multiset{c});
      StepHist(k, s, h, r, multiset{c});
      StampIsTimestamp(k, s, h, r, multiset{c});
      var s1 := Step(k, s, r).value;
      GoodHandlerKeeps(s, s1, r, multiset{c});
      AccumulateChunkHist(k, s1, Append(k, h, r, data[i]), c, i + 1, n);
    } else if i < n && data[i].ReportLost? {
      AccumulateChunkHist(k, s, h, c, i + 1, n);
    }
  }

  /** Hist speaks of chunks only where records are looked up. */
  lemma HistKept(k: Config, s: State, t: State, h: seq<Item>, extra: multiset<ChunkId>)
    requires ValidConfig(k) && Good(s, extra) && Hist(k, s, h)
    requires SameContexts(s, t) && t.samples == s.samples && SameSession(s.(nextChunk := t.nextChunk), t)
    requires AllFaithful(k, t, h) && Restamps(k, t)
    ensures Hist(k, t, h)
  {
    hide Good, GraphPart, ContextPart, SegmentPart, Deref, Timestamp, WindowStart, SegmentStart, AllFaithful, Born;
    var n, births := |h|, BirthsOf(k, s, h);
    assert BirthsOf(k, t, h) == births;
    GraphPartFrame(k, s, t, h, n, n);
    forall c | c in t.contexts ensures ContextPart(k, t, h, n, n, births, c) {
      ContextPartFrame(k, s, t, h, n, n, births, c);
    }
    OwnIds(s, extra);
    SegmentPartFrame(k, s, t, h, n, SegmentStart(k, h, n), n);
  }

  lemma AddChunkHist(k: Config, s: State, h: seq<Item>, data: seq<Record>)
    requires ValidConfig(k) && Good(s, multiset{}) && Hist(k, s, h)
    ensures Hist(k, AddChunk(s, data), h)
  {
    hide Good, Hist, Timestamp, CtxId;
    var t := AddChunk(s, data);
    AddChunkGood(s, data);
    HistStore(k, s, h);
    forall i | 0 <= i < |h| ensures Faithful(k, t.chunks, h[i]) && h[i].ref.chunk < t.nextChunk {
      assert Faithful(k, s.chunks, h[i]);
    }
    LastIsHere(s, multiset{});
    if s.last.Some? {
      StampInMore(k, s, t, s.last.value);
    }
    HistKept(k, s, t, h, multiset{});
  }

  lemma HistStore(k: Config, s: State, h: seq<Item>)
    requires ValidConfig(k) && Hist(k, s, h)
    ensures AllFaithful(k, s, h) && Restamps(k, s)
  {
  }

  lemma StampInMore(k: Config, s: State, t: State, r: Ref)
    requires ValidConfig(k) && t.last == s.last && t.lastOaTimestamp == s.lastOaTimestamp
    requires SameOldData(s.chunks, t.chunks)
    requires r.chunk in s.chunks && (s.last.Some? ==> s.last.value.chunk in s.chunks)
    ensures Timestamp(k, t, r) == Timestamp(k, s, r)
  {
    hide Wrap64, ScaleNs;
  }

  lemma PutChunkHist(k: Config, s: State, h: seq<Item>, c: ChunkId)
    requires ValidConfig(k) && Good(s, multiset{c}) && Hist(k, s, h)
    ensures PutChunk(s, c).Some? && Hist(k, PutChunk(s, c).value, h)
  {
    hide Good, Hist, Timestamp, CtxId, SameData, AllFaithful, PutChunk;
    PutHandlerChunk(s, c);
    var t := PutChunk(s, c).value;
    HistStore(k, s, h);
    FaithfulKept(k, s, t, h);
    LastIsHere(t, multiset{});
    if s.last.Some? {
      TimestampSame(k, s, t, s.last.value);
    }
    HistKept(k, s, t, h, multiset{c});
  }

  lemma EmptyHist(k: Config, s: State)
    requires ValidConfig(k) && s.graphs == [] && s.timelines == [] && s.contexts == map[] && s.last.None?
    requires s.currentGraph.None? && s.currentTimeline.None? && s.lastOaTimestamp == Wrap64(k.visiblePeriod)
    ensures Hist(k, s, [])
  {
  }

  /** Whatever has happened to it, the client holds exactly the windows, context windows and segments that
      the history of its events calls for, with the totals that belong to them. */
  lemma {:induction false} EveryRunKeepsToHistory(k: Config, events: seq<Event>)
    requires ValidConfig(k)
    ensures Run(k, InitialState(k), events).Some?
    ensures var s := Run(k, InitialState(k), events).value;
            Good(s, multiset{}) && Hist(k, s, HistoryOf(k, events)) && s.nextChunk == Chunks(events)
  {
    hide Good, Hist, HandleData, EmptySamples, ChunkHistory;
    EveryRunIsGood(k, events);
    if events == [] {
      EmptyHist(k, InitialState(k));
    } else {
      var before := events[..|events| - 1];
      EveryRunKeepsToHistory(k, before);
      var s := Run(k, InitialState(k), before).value;
      match events[|events| - 1]
      case Data(records) => HandleDataHist(k, s, HistoryOf(k, before), records);
      case Restart =>
        EmptySamplesGood(k, s);
        var t := EmptySamples(k, s).value;
        EmptyHist(k, t);
        EmptyKeepsCount(k, s);
    }
  }

  lemma HandleDataHist(k: Config, s: State, h: seq<Item>, data: seq<Record>)
    requires ValidConfig(k) && Good(s, multiset{}) && Hist(k, s, h)
    ensures HandleData(k, s, data).Some?
    ensures Hist(k, HandleData(k, s, data).value, ChunkHistory(k, h, s.nextChunk, data, 0))
    ensures HandleData(k, s, data).value.nextChunk == s.nextChunk + 1
  {
    hide Good, Hist, AccumulateChunk, ChunkHistory, PutChunk;
    AddChunkGood(s, data);
    AddChunkHist(k, s, h, data);
    var s1 := AddChunk(s, data);
    AccumulateChunkHist(k, s1, h, s.nextChunk, 0, |data|);
    var s2 := AccumulateChunk(k, s1, s.nextChunk, 0, |data|).value;
    PutChunkHist(k, s2, ChunkHistory(k, h, s.nextChunk, data, 0), s.nextChunk);
  }

  lemma EmptyKeepsCount(k: Config, s: State)
    requires EmptySamples(k, s).Some?
    ensures EmptySamples(k, s).value.nextChunk == s.nextChunk
  {
    hide PutSample, PutRefChunk;
    PutTimelinesKeepCount(s);
    var s2 := PutCurrentTimeline(PutTimelines(s).value).value;
    PutGraphsKeepCount(s2.(table := map[], nTimelines := 0, lastHwId := INVALID_CTX_ID));
  }

  lemma {:induction false} PutTimelinesKeepCount(s: State)
    requires PutTimelines(s).Some?
    ensures PutTimelines(s).value.nextChunk == s.nextChunk
    decreases |s.timelines|
  {
    hide PutSample;
    if s.timelines != [] {
      PutTimelinesKeepCount(PutSample(s.(timelines := s.timelines[1..]), s.timelines[0]).value);
    }
  }

  lemma {:induction false} PutGraphsKeepCount(s: State)
    requires PutGraphs(s).Some?
    ensures PutGraphs(s).value.nextChunk == s.nextChunk
    decreases |s.graphs|
  {
    hide PutSample;
    if s.graphs != [] {
      PutGraphsKeepCount(PutSample(s.(graphs := s.graphs[1..]), s.graphs[0]).value);
    }
  }

  // ---------------------------------------------------------------- what a reader of the timeline may rely on

  ghost predicate SeenFrom(k: Config, h: seq<Item>, w: seq<Span>, last: nat) {
    forall j :: 0 <= j < |w| - 1 && w[j].first < |h| && last < |h| ==>
      h[last].time - h[w[j].first].time <= k.visiblePeriod
  }

  /** All but the newest segment that is kept start within the visible period of its end. */
  lemma {:induction false} KeptInSight(k: Config, h: seq<Item>, n: nat)
    requires ValidConfig(k) && n <= |h| && TimesGrow(h)
    ensures var w := Timeline(k, h, n);
            w == [] || SeenFrom(k, h, w, w[|w| - 1].last)
  {
    hide SegmentCloses, Opened, Visible, Wrap64;
    if n > 0 {
      KeptInSight(k, h, n - 1);
      if Opened(k, h, n - 1).Some? && SegmentCloses(k, h, Opened(k, h, n - 1).value, n - 1) {
        TimelineInSight(k, h, n);
      } else {
        assert Timeline(k, h, n) == Timeline(k, h, n - 1);
      }
    }
  }

  /** The listed segments as a reader sees them. */
  ghost predicate TimelineReads(k: Config, s: State) {
    && (forall j :: 0 <= j < |s.timelines| ==> s.timelines[j] in s.samples)
    && (forall j :: 0 <= j < |s.timelines| ==>
          s.samples[s.timelines[j]].timestampStart <= s.samples[s.timelines[j]].timestampEnd)
    && (forall i, j :: 0 <= i < j < |s.timelines| ==>
          s.samples[s.timelines[i]].timestampEnd <= s.samples[s.timelines[j]].timestampStart)
    && (forall j :: 0 <= j < |s.timelines| - 1 ==>
          Newest(s) - s.samples[s.timelines[j]].timestampStart <= k.visiblePeriod)
  }

  function Newest(s: State): nat {
    if s.timelines != [] && Last(s.timelines) in s.samples then s.samples[Last(s.timelines)].timestampEnd else 0
  }

  /** While record times never go back: segments are listed in order of time, they do not overlap, and
      all but the newest start within the visible period of its end. */
  lemma TimelineIsReadable(k: Config, s: State, h: seq<Item>)
    requires ValidConfig(k) && Hist(k, s, h) && TimesGrow(h)
    ensures TimelineReads(k, s)
  {
    hide Hist, SegmentAcc, OfContext, Timeline, Wrap64;
    HistSpans(k, s, h);
    TimelineInOrder(k, h, |h|);
    KeptInSight(k, h, |h|);
  }

  lemma HistSpans(k: Config, s: State, h: seq<Item>)
    requires ValidConfig(k) && Hist(k, s, h)
    ensures var w := Timeline(k, h, |h|);
            |s.timelines| == |w|
            && forall j :: 0 <= j < |w| ==> s.timelines[j] in s.samples && SpanOf(h, s.samples[s.timelines[j]], w[j])
                                            && TimesOf(h, s.samples[s.timelines[j]], w[j])
  {
    hide GraphPart, ContextsPart, OpenSegment, AllFaithful, SpanOf, TimesOf, SegmentAcc, OfContext, Timeline,
         StandsAt, Restamps;
  }

  // ---------------------------------------------------------------- clocks

  /** The time between record i and the one before is the scaled growth of the 32-bit counter. */
  predicate StepScales(k: Config, h: seq<Item>, i: nat)
    requires ValidConfig(k) && 0 < i < |h|
  {
    h[i].time == Wrap64(h[i - 1].time + ScaleNs(k.freq, Wrap32(h[i].report[1] as int - h[i - 1].report[1])))
  }

  ghost predicate OaStamped(k: Config, h: seq<Item>)
    requires ValidConfig(k)
  {
    forall i {:trigger h[i]} :: 0 <= i < |h| ==> StampedAt(k, h, i)
  }

  predicate StampedAt(k: Config, h: seq<Item>, i: nat)
    requires ValidConfig(k) && i < |h|
  {
    h[i].time == if i == 0 then Wrap64(Wrap64(k.visiblePeriod) + ScaleNs(k.freq, 0))
                 else Wrap64(h[i - 1].time + ScaleNs(k.freq, Wrap64(h[i].report[1] as int - h[i - 1].report[1])))
  }

  lemma StampedStays(k: Config, h: seq<Item>, t: seq<Item>, i: nat)
    requires ValidConfig(k) && i < |h| && h <= t && StampedAt(k, h, i)
    ensures StampedAt(k, t, i)
  {
    hide Wrap64, ScaleNs;
  }

  lemma StampedNow(k: Config, h: seq<Item>, x: Item, rec: Record)
    requires ValidConfig(k) && !k.cpuTimestamps && rec.Sample? && x.time == Stamp(k, h, rec) && x.report == rec.report
    ensures StampedAt(k, h + [x], |h|)
  {
    hide Wrap64, ScaleNs;
  }

  lemma AppendStamped(k: Config, h: seq<Item>, r: Ref, rec: Record)
    requires ValidConfig(k) && !k.cpuTimestamps && OaStamped(k, h) && rec.Sample?
    ensures OaStamped(k, Append(k, h, r, rec))
  {
    hide Wrap64, ScaleNs, CtxId, StampedAt;
    var t := Append(k, h, r, rec);
    forall i | 0 <= i < |t| ensures StampedAt(k, t, i) {
      if i < |h| {
        assert h[i] == t[i] && StampedAt(k, h, i);
        StampedStays(k, h, t, i);
      } else {
        StampedNow(k, h, t[i], rec);
      }
    }
  }

  lemma {:induction false} ChunkStamped(k: Config, h: seq<Item>, c: ChunkId, data: seq<Record>, i: nat)
    requires ValidConfig(k) && !k.cpuTimestamps && i <= |data| && OaStamped(k, h)
    ensures OaStamped(k, ChunkHistory(k, h, c, data, i))
    decreases |data| - i
  {
    hide OaStamped, Append;
    if i < |data| {
      match data[i]
      case Sample(_, _) =>
        AppendStamped(k, h, Ref(c, i), data[i]);
        ChunkStamped(k, Append(k, h, Ref(c, i), data[i]), c, data, i + 1);
      case ReportLost => ChunkStamped(k, h, c, data, i + 1);
      case BufferLost =>
      case Spurious =>
    }
  }

  lemma {:induction false} HistoryStamped(k: Config, events: seq<Event>)
    requires ValidConfig(k) && !k.cpuTimestamps
    ensures OaStamped(k, HistoryOf(k, events))
  {
    hide OaStamped, ChunkHistory;
    if events == [] || events[|events| - 1].Restart? {
      assert OaStamped(k, []) by { NoneStamped(k); }
    } else {
      var before := events[..|events| - 1];
      HistoryStamped(k, before);
      ChunkStamped(k, HistoryOf(k, before), Chunks(before), events[|events| - 1].records, 0);
    }
  }

  lemma NoneStamped(k: Config)
    requires ValidConfig(k)
    ensures OaStamped(k, [])
  {
  }

  /** Beyond this frequency (which is more than 2^63) a wrapped difference can scale like a true one. */
  const MAX_FREQ: nat := U32 * (U32 - NS_PER_SECOND)

  /** Taking the difference in 64 bits instead of 32 gives the same number of nanoseconds if and only if
      the counter has not wrapped. */
  lemma WideDifference(freq: nat, r0: Word, r1: Word)
    requires 0 < freq <= MAX_FREQ
    ensures ScaleNs(freq, Wrap64(r1 - r0)) == ScaleNs(freq, Wrap32(r1 - r0)) <==> r0 <= r1
  {
    if r0 <= r1 {
      WrapSmall(r1 - r0);
      ModUnique(r1 - r0, U32, 0, r1 - r0);
    } else {
      var m := r0 - r1;
      ModUnique(r1 - r0, U64, -1, U64 - m);
      ModUnique(r1 - r0, U32, -1, U32 - m);
      ModUnique((U64 - m) * NS_PER_SECOND, U64, NS_PER_SECOND - 1, U64 - m * NS_PER_SECOND);
      WrapSmall((U32 - m) * NS_PER_SECOND);
      QuotientsDiffer((U32 - m) * NS_PER_SECOND, U64 - m * NS_PER_SECOND, freq);
    }
  }

  lemma ScaleBelow(freq: nat, ticks: nat)
    requires freq > 0
    ensures ScaleNs(freq, ticks) < U64
  {
    var p := Wrap64(ticks * NS_PER_SECOND);
    DivBounds(p, freq);
    if p / freq > 0 { MulAtLeast(freq, p / freq); }
  }

  lemma SameSum(p: nat, a: nat, b: nat)
    requires a < U64 && b < U64 && Wrap64(p + a) == Wrap64(p + b)
    ensures a == b
  {
    ModSum(p + a, 0 - p);
    ModSum(p + b, 0 - p);
    WrapSmall(a);
    WrapSmall(b);
  }

  lemma StepIs(k: Config, h: seq<Item>, i: nat)
    requires ValidConfig(k) && k.freq <= MAX_FREQ && OaStamped(k, h) && 0 < i < |h|
    ensures StepScales(k, h, i) <==> h[i - 1].report[1] <= h[i].report[1]
  {
    hide ScaleNs, Wrap64, Wrap32;
    var r0, r1 := h[i - 1].report[1], h[i].report[1];
    assert h[i].time == Wrap64(h[i - 1].time + ScaleNs(k.freq, Wrap64(r1 as int - r0)));
    WideDifference(k.freq, r0, r1);
    ScaleBelow(k.freq, Wrap64(r1 as int - r0));
    ScaleBelow(k.freq, Wrap32(r1 as int - r0));
    if StepScales(k, h, i) {
      SameSum(h[i - 1].time, ScaleNs(k.freq, Wrap64(r1 as int - r0)), ScaleNs(k.freq, Wrap32(r1 as int - r0)));
    }
  }

  /** Without CPU timestamps a step of the clock is the scaled growth of the 32-bit counter if and only if
      the counter has not wrapped on the way. */
  lemma OaStepsExact(k: Config, events: seq<Event>, i: nat)
    requires ValidConfig(k) && !k.cpuTimestamps && k.freq <= MAX_FREQ && 0 < i < |HistoryOf(k, events)|
    ensures var h := HistoryOf(k, events); StepScales(k, h, i) <==> h[i - 1].report[1] <= h[i].report[1]
  {
    hide HistoryOf, OaStamped, StepScales;
    HistoryStamped(k, events);
    StepIs(k, HistoryOf(k, events), i);
  }

  /** The time of the n-th record, had it no limit. */
  function UnboundedTime(k: Config, h: seq<Item>, n: nat): nat
    requires ValidConfig(k) && 0 < n <= |h|
  {
    if n == 1 then Wrap64(k.visiblePeriod)
    else UnboundedTime(k, h, n - 1) + ScaleNs(k.freq, Wrap64(h[n - 1].report[1] as int - h[n - 2].report[1]))
  }

  lemma {:induction false} UnboundedGrows(k: Config, h: seq<Item>, m: nat, n: nat)
    requires ValidConfig(k) && 0 < m <= n <= |h|
    ensures UnboundedTime(k, h, m) <= UnboundedTime(k, h, n)
    decreases n
  {
    hide ScaleNs, Wrap64;
    if m < n {
      UnboundedGrows(k, h, m, n - 1);
    }
  }

  /** As long as it fits 64 bits it is the time. */
  lemma {:induction false} TimeIs(k: Config, h: seq<Item>, n: nat)
    requires ValidConfig(k) && OaStamped(k, h) && 0 < n <= |h| && UnboundedTime(k, h, n) < U64
    ensures h[n - 1].time == UnboundedTime(k, h, n)
  {
    hide Wrap64;
    assert h[n - 1].time == h[n - 1].time;
    if n == 1 {
      NanosNone(k);
    } else {
      hide ScaleNs;
      UnboundedGrows(k, h, n - 1, n);
      TimeIs(k, h, n - 1);
      WrapSmall(UnboundedTime(k, h, n));
    }
  }

  lemma NanosNone(k: Config)
    requires ValidConfig(k)
    ensures Wrap64(Wrap64(k.visiblePeriod) + ScaleNs(k.freq, 0)) == Wrap64(k.visiblePeriod)
  {
    assert ScaleNs(k.freq, 0) == 0;
  }

  /** The first record whose time would not fit. */
  function FirstBeyond(k: Config, h: seq<Item>, n: nat): (m: nat)
    requires ValidConfig(k) && 0 < n <= |h| && UnboundedTime(k, h, n) >= U64
    ensures 1 < m <= n && UnboundedTime(k, h, m) >= U64 > UnboundedTime(k, h, m - 1)
  {
    assert UnboundedTime(k, h, 1) < U64;
    if UnboundedTime(k, h, n - 1) < U64 then n else FirstBeyond(k, h, n - 1)
  }

  /** And there it goes back. */
  lemma GoesBack(k: Config, h: seq<Item>, m: nat)
    requires ValidConfig(k) && OaStamped(k, h) && 1 < m <= |h|
    requires UnboundedTime(k, h, m) >= U64 > UnboundedTime(k, h, m - 1)
    ensures h[m - 1].time < h[m - 2].time
  {
    hide Wrap64, ScaleNs;
    TimeIs(k, h, m - 1);
    assert h[m - 1].time == h[m - 1].time;
    ScaleBelow(k.freq, Wrap64(h[m - 1].report[1] as int - h[m - 2].report[1]));
    WrapBeyond(UnboundedTime(k, h, m));
  }

  lemma WrapBeyond(x: nat)
    requires U64 <= x < 2 * U64
    ensures Wrap64(x) == x - U64
  {
    ModUnique(x, U64, 1, x - U64);
  }

  /** Without CPU timestamps times never go back if and only if all the steps together fit 64 bits - also
      when stamps wrap: the clock then jumps ahead. */
  lemma OaTimesGrow(k: Config, events: seq<Event>)
    requires ValidConfig(k) && !k.cpuTimestamps
    ensures var h := HistoryOf(k, events); TimesGrow(h) <==> (h == [] || UnboundedTime(k, h, |h|) < U64)
  {
    hide HistoryOf, ScaleNs, Wrap64, OaStamped, UnboundedTime;
    var h := HistoryOf(k, events);
    HistoryStamped(k, events);
    if h != [] && UnboundedTime(k, h, |h|) < U64 {
      forall i, j | 0 <= i <= j < |h| ensures h[i].time <= h[j].time <= Wrap64(h[j].time) {
        UnboundedGrows(k, h, i + 1, j + 1);
        UnboundedGrows(k, h, j + 1, |h|);
        TimeIs(k, h, i + 1);
        TimeIs(k, h, j + 1);
        WrapSmall(h[j].time);
      }
    } else if h != [] {
      var m := FirstBeyond(k, h, |h|);
      GoesBack(k, h, m);
    }
  }

  // ---------------------------------------------------------------- which context a record names

  /** The status word, with the bit that says whether the context id is valid: bit 25 on gen 8, bit 16 later. */
  predicate HasBit(status: Word, above: nat, bit: nat, below: nat, gen: nat) {
    && gen >= 8 && bit <= 1
    && (if gen == 8 then below < 0x200_0000 && status == above * 0x400_0000 + bit * 0x200_0000 + below
        else below < 0x1_0000 && status == above * 0x2_0000 + bit * 0x1_0000 + below)
  }

  /** The third word is the context's id if the bit is set; there is none if it is not set, or before gen 8. */
  lemma CtxIdExact(gen: nat, r: Report, above: nat, bit: nat, below: nat)
    ensures gen < 8 ==> CtxId(gen, r) == 0xffff_ffff
    ensures HasBit(r[0], above, bit, below, gen) ==> CtxId(gen, r) == if bit == 1 then r[2] else 0xffff_ffff
  {
    if HasBit(r[0], above, bit, below, gen) {
      if gen == 8 {
        ModUnique(r[0], 0x200_0000, 2 * above + bit, below);
      } else {
        ModUnique(r[0], 0x1_0000, 2 * above + bit, below);
      }
      ModUnique(2 * above + bit, 2, above, bit);
    }
  }

  /** So of every record of every run: the context that it is taken to name. */
  lemma RunNamesContexts(k: Config, events: seq<Event>, i: nat, above: nat, bit: nat, below: nat)
    requires ValidConfig(k) && i < |HistoryOf(k, events)|
    ensures var x := HistoryOf(k, events)[i];
            && (k.gen < 8 ==> x.hwId == 0xffff_ffff)
            && (HasBit(x.report[0], above, bit, below, k.gen) ==>
                  x.hwId == if bit == 1 then x.report[2] else 0xffff_ffff)
  {
    hide HistoryOf, CtxId, HasBit;
    EveryRunKeepsToHistory(k, events);
    var s, h := Run(k, InitialState(k), events).value, HistoryOf(k, events);
    HistStore(k, s, h);
    assert Faithful(k, s.chunks, h[i]);
    CtxIdExact(k.gen, h[i].report, above, bit, below);
  }

  // ---------------------------------------------------------------- two runs

  function ReportWith(status: Word, stamp: Word, ctx: Word): (r: Report)
    ensures r[0] == status && r[1] == stamp && r[2] == ctx
  {
    [status, stamp, ctx] + seq(61, _ => 0)
  }

  function SampleWith(status: Word, stamp: Word, ctx: Word): Record {
    Sample(ReportWith(status, stamp, ctx), 0)
  }

  lemma OneChunk(k: Config, records: seq<Record>)
    requires ValidConfig(k)
    ensures HistoryOf(k, [Data(records)]) == ChunkHistory(k, [], 0, records, 0)
  {
    hide ChunkHistory;
    assert [Data(records)][..0] == [];
    assert HistoryOf(k, []) == [] && Chunks([]) == 0;
  }

  lemma NextSample(k: Config, h: seq<Item>, c: ChunkId, records: seq<Record>, i: nat)
    requires ValidConfig(k) && i < |records| && records[i].Sample?
    ensures ChunkHistory(k, h, c, records, i) == ChunkHistory(k, Append(k, h, Ref(c, i), records[i]), c, records, i + 1)
  {
    hide Append;
  }

  lemma ChunkDone(k: Config, h: seq<Item>, c: ChunkId, records: seq<Record>)
    requires ValidConfig(k)
    ensures ChunkHistory(k, h, c, records, |records|) == h
  {
  }

  /** A clock of 12.5 MHz whose counter wraps: two ticks, which are 160 nanoseconds, are taken for almost 19
      minutes. */
  lemma WrapJumpsAhead(k: Config)
    requires !k.cpuTimestamps && k.freq == 12_500_000
    ensures var h := HistoryOf(k, [Data([SampleWith(0, 0xffff_ffff, 0), SampleWith(0, 1, 0)])]);
            && |h| == 2 && Wrap32(h[1].report[1] as int - h[0].report[1]) == 2 && ScaleNs(k.freq, 2) == 160
            && h[1].time == Wrap64(h[0].time + 1_132_142_142_376) && !StepScales(k, h, 1)
  {
    hide CtxId, ScaleNs, Wrap64, Wrap32;
    JumpIs();
    var records := [SampleWith(0, 0xffff_ffff, 0), SampleWith(0, 1, 0)];
    OneChunk(k, records);
    NextSample(k, [], 0, records, 0);
    var h1 := Append(k, [], Ref(0, 0), records[0]);
    NextSample(k, h1, 0, records, 1);
    ChunkDone(k, Append(k, h1, Ref(0, 1), records[1]), 0, records);
    var h := Append(k, h1, Ref(0, 1), records[1]);
    assert h[1].time == Wrap64(h[0].time + 1_132_142_142_376);
    SumsDiffer(h[0].time);
  }

  lemma JumpIs()
    ensures ScaleNs(12_500_000, Wrap64(1 - 0xffff_ffff)) == 1_132_142_142_376
    ensures Wrap32(1 - 0xffff_ffff) == 2 && ScaleNs(12_500_000, 2) == 160
  {
  }

  lemma SumsDiffer(p: nat)
    ensures Wrap64(p + 1_132_142_142_376) != Wrap64(p + 160)
  {
    if Wrap64(p + 1_132_142_142_376) == Wrap64(p + 160) {
      SameSum(p, 1_132_142_142_376, 160);
    }
  }

  /** A sample of context ctx. */
  function SampleOf(stamp: Word, ctx: Word): Record {
    SampleWith(0x1_0000, stamp, ctx)
  }

  /** A switch from one context to another with a zero stamp: the time of the other is credited to the
      first. */
  lemma ZeroStampMisleads(k: Config)
    requires ValidConfig(k) && k.gen >= 9
    ensures var h := HistoryOf(k, [Data([SampleOf(5, 7), SampleOf(0, 8), SampleOf(6, 8)])]);
            |h| == 3 && Running(h, 2) == Some(8) && Attributed(k, h, 2) == Some(7)
  {
    hide Stamp, SegmentAcc, Elapsed;
    var records := [SampleOf(5, 7), SampleOf(0, 8), SampleOf(6, 8)];
    OneChunk(k, records);
    NextSample(k, [], 0, records, 0);
    var h1 := Append(k, [], Ref(0, 0), records[0]);
    NextSample(k, h1, 0, records, 1);
    var h2 := Append(k, h1, Ref(0, 1), records[1]);
    NextSample(k, h2, 0, records, 2);
    ChunkDone(k, Append(k, h2, Ref(0, 2), records[2]), 0, records);
    var h := Append(k, h2, Ref(0, 2), records[2]);
    assert h[0].hwId == 7 && h[1].hwId == 8 && h[1].report[1] == 0;
    assert Opened(k, h, 1) == Some(0);
    assert SegmentStart(k, h, 2) == Some(0);
  }
}
