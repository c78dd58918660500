/** The OA part of `struct gputop_client_context` and what each function of
    lib/gputop-client-context.c does to it, as functions on values.

    Pointers are keys into the maps of live objects.  Following a pointer to something that has been
    freed, a NULL dereference and a failing assert() all give None, so "Some" is memory safety.
 */
module ClientState {
  import opened Common
  import opened OaCounters

  type ChunkId = nat
  type SampleId = nat
  type ContextId = nat

  const INVALID_CTX_ID: Word := 0xffff_ffff

  /** Settings that stay fixed while sampling; times are in nanoseconds. */
  datatype Config = Config(format: Format, freq: nat, gen: nat, cpuTimestamps: bool,
                           aggregationPeriod: nat, visiblePeriod: nat, maxGraphs: nat)

  predicate ValidConfig(k: Config) {
    k.freq > 0
  }

  datatype Record = Sample(report: Report, cpuTimestamp: nat) | ReportLost | BufferLost | Spurious

  datatype Chunk = Chunk(refcount: nat, data: seq<Record>)

  /** A record header pointer together with the chunk that holds the record. */
  datatype Ref = Ref(chunk: ChunkId, idx: nat)

  datatype AccumulatedSamples = AccumulatedSamples(
    context: Option<ContextId>, timestampStart: nat, timestampEnd: nat,
    start: Ref, end: Option<Ref>, accumulator: Accumulator)

  datatype HwContext = HwContext(hwId: Word, nSamples: nat, timeSpent: nat,
                                 current: Option<SampleId>, graphs: seq<SampleId>, nGraphs: nat,
                                 timelineRow: nat)

  datatype State = State(
    chunks: map<ChunkId, Chunk>, chunkList: seq<ChunkId>, nextChunk: ChunkId,
    samples: map<SampleId, AccumulatedSamples>, freeSamples: seq<SampleId>, nextSample: SampleId,
    contexts: map<ContextId, HwContext>, hwContexts: seq<ContextId>, table: map<Word, ContextId>,
    nextContext: ContextId,
    currentGraph: Option<SampleId>, graphs: seq<SampleId>, nGraphs: nat,
    currentTimeline: Option<SampleId>, timelines: seq<SampleId>, nTimelines: nat,
    last: Option<Ref>, lastHwId: Word, lastOaTimestamp: nat)

  function InitialState(k: Config): State {
    State(map[], [], 0, map[], [], 0, map[], [], map[], 0, None, [], 0, None, [], 0,
          None, INVALID_CTX_ID, Wrap64(k.visiblePeriod))
  }

  // ---------------------------------------------------------------- reading reports

  predicate CtxIsValid(gen: nat, r: Report) {
    if gen < 8 then false
    else if gen == 8 then r[0] / 0x200_0000 % 2 == 1
    else r[0] / 0x1_0000 % 2 == 1
  }

  function CtxId(gen: nat, r: Report): Word {
    if CtxIsValid(gen, r) then r[2] else INVALID_CTX_ID
  }

  function Deref(chunks: map<ChunkId, Chunk>, r: Ref): (rec: Option<Record>)
    ensures rec.Some? ==> rec.value.Sample?
  {
    if r.chunk in chunks && r.idx < |chunks[r.chunk].data| && chunks[r.chunk].data[r.idx].Sample?
    then Some(chunks[r.chunk].data[r.idx]) else None
  }

  /** i915_perf_timestamp; the difference of two 32-bit stamps is taken in 64 bits. */
  function Timestamp(k: Config, s: State, r: Ref): Option<nat>
    requires ValidConfig(k)
  {
    var rec :- Deref(s.chunks, r);
    if k.cpuTimestamps then Some(rec.cpuTimestamp)
    else if s.last.None? then Some(Wrap64(s.lastOaTimestamp + ScaleNs(k.freq, 0)))
    else
      var prev :- Deref(s.chunks, s.last.value);
      Some(Wrap64(s.lastOaTimestamp
                  + ScaleNs(k.freq, Wrap64(rec.report[1] as int - prev.report[1]))))
  }

  // ---------------------------------------------------------------- chunks

  /** Graphs, timelines and the position in the stream are as they were. */
  predicate SameSession(s: State, t: State) {
    && t.currentGraph == s.currentGraph && t.graphs == s.graphs && t.nGraphs == s.nGraphs
    && t.currentTimeline == s.currentTimeline && t.timelines == s.timelines && t.nTimelines == s.nTimelines
    && t.last == s.last && t.lastHwId == s.lastHwId && t.lastOaTimestamp == s.lastOaTimestamp
    && t.nextChunk == s.nextChunk
  }

  predicate SameContexts(s: State, t: State) {
    t.contexts == s.contexts && t.hwContexts == s.hwContexts && t.table == s.table && t.nextContext == s.nextContext
  }

  predicate SameSamples(s: State, t: State) {
    t.samples == s.samples && t.freeSamples == s.freeSamples && t.nextSample == s.nextSample
  }

  function RefChunk(s: State, c: ChunkId): (t: Option<State>)
    ensures t.Some? ==> SameSession(s, t.value) && SameContexts(s, t.value) && SameSamples(s, t.value)
  {
    if c !in s.chunks then None
    else Some(s.(chunks := s.chunks[c := s.chunks[c].(refcount := s.chunks[c].refcount + 1)]))
  }

  function PutChunk(s: State, c: ChunkId): (t: Option<State>)
    ensures t.Some? ==> SameSession(s, t.value) && SameContexts(s, t.value) && SameSamples(s, t.value)
  {
    if c !in s.chunks || s.chunks[c].refcount == 0 then None
    else if s.chunks[c].refcount > 1 then
      Some(s.(chunks := s.chunks[c := s.chunks[c].(refcount := s.chunks[c].refcount - 1)]))
    else Some(s.(chunks := s.chunks - {c}, chunkList := Remove(s.chunkList, c)))
  }

  function PutRefChunk(s: State, r: Option<Ref>): (t: Option<State>)
    ensures t.Some? ==> SameSession(s, t.value) && SameContexts(s, t.value) && SameSamples(s, t.value)
  {
    if r.None? then Some(s) else PutChunk(s, r.value.chunk)
  }

  // ---------------------------------------------------------------- samples and contexts

  function PutReports(s: State, m: AccumulatedSamples): (t: Option<State>)
    ensures t.Some? ==> SameSession(s, t.value) && SameContexts(s, t.value) && SameSamples(s, t.value)
  {
    var s1 :- PutChunk(s, m.start.chunk);
    PutRefChunk(s1, m.end)
  }

  /** put_accumulated_sample for a sample without a context: the caller takes it off its list. */
  function PutPlainSample(s: State, id: SampleId): (t: Option<State>)
    ensures t.Some? ==> SameSession(s, t.value) && SameContexts(s, t.value)
  {
    if id !in s.samples || s.samples[id].context.Some? then None
    else
      var s1 :- PutReports(s.(samples := s.samples - {id}), s.samples[id]);
      Some(s1.(freeSamples := [id] + s1.freeSamples))
  }

  function PutPlainSamples(s: State, ids: seq<SampleId>): (t: Option<State>)
    decreases |ids|
    ensures t.Some? ==> SameSession(s, t.value) && SameContexts(s, t.value)
  {
    if ids == [] then Some(s)
    else
      var s1 :- PutPlainSample(s, ids[0]);
      PutPlainSamples(s1, ids[1..])
  }

  function Renumber(contexts: map<ContextId, HwContext>, l: seq<ContextId>, i: nat): Option<map<ContextId, HwContext>>
    requires i <= |l|
    decreases |l| - i
  {
    if i == |l| then Some(contexts)
    else if l[i] !in contexts then None
    else Renumber(contexts[l[i] := contexts[l[i]].(timelineRow := i)], l, i + 1)
  }

  function OptionSeq<T>(o: Option<T>): seq<T> {
    if o.None? then [] else [o.value]
  }

  /** Freeing a context, once its last sample has gone. */
  function FreeContext(s: State, c: ContextId): (t: Option<State>)
    requires c in s.contexts
    ensures t.Some? ==> SameSession(s, t.value)
  {
    var x := s.contexts[c];
    var s1 := s.(table := s.table - {x.hwId});
    var s2 :- PutPlainSamples(s1, x.graphs);
    var s3 :- PutPlainSamples(s2, OptionSeq(x.current));
    var left := Remove(s3.hwContexts, c);
    var contexts :- Renumber(s3.contexts - {c}, left, 0);
    if |left| != |s3.table| then None
    else Some(s3.(hwContexts := left, contexts := contexts))
  }

  function PutContext(s: State, c: ContextId): (t: Option<State>)
    ensures t.Some? ==> SameSession(s, t.value)
  {
    if c !in s.contexts || s.contexts[c].nSamples == 0 then None
    else
      var s1 := s.(contexts := s.contexts[c := s.contexts[c].(nSamples := s.contexts[c].nSamples - 1)]);
      if s1.contexts[c].nSamples > 0 then Some(s1) else FreeContext(s1, c)
  }

  /** put_accumulated_sample for a timeline sample. */
  function PutContextSample(s: State, id: SampleId): (t: Option<State>)
    ensures t.Some? ==> SameSession(s, t.value)
  {
    if id !in s.samples || s.samples[id].context.None? then None
    else
      var s1 :- PutReports(s.(samples := s.samples - {id}), s.samples[id]);
      var s2 :- PutContext(s1, s.samples[id].context.value);
      Some(s2.(freeSamples := [id] + s2.freeSamples))
  }

  function PutSample(s: State, id: SampleId): (t: Option<State>)
    ensures t.Some? ==> SameSession(s, t.value)
  {
    if id !in s.samples then None
    else if s.samples[id].context.None? then PutPlainSample(s, id)
    else PutContextSample(s, id)
  }

  /** A block from the free list, or a new one. */
  function TakeBlock(s: State): (t: (State, SampleId))
    ensures SameSession(s, t.0) && SameContexts(s, t.0)
    ensures t.0.samples == s.samples && t.0.chunks == s.chunks && t.0.chunkList == s.chunkList
  {
    if s.freeSamples == [] then (s.(nextSample := s.nextSample + 1), s.nextSample)
    else (s.(freeSamples := s.freeSamples[1..]), s.freeSamples[0])
  }

  /** The rest of get_accumulated_sample, once block and context are known. */
  function FillSample(k: Config, s: State, id: SampleId, context: Option<ContextId>, r: Ref): (t: Option<State>)
    requires ValidConfig(k)
    ensures t.Some? ==> SameSession(s, t.value) && SameContexts(s, t.value)
  {
    var rec :- Deref(s.chunks, r);
    var s1 :- RefChunk(s, r.chunk);
    var ts :- Timestamp(k, s, r);
    Some(s1.(samples := s1.samples[id := AccumulatedSamples(context, ts, 0, r, None, Init(k.freq, rec.report))]))
  }

  function GetPlainSample(k: Config, s: State, r: Ref): (t: Option<(State, SampleId)>)
    requires ValidConfig(k)
    ensures t.Some? ==> SameSession(s, t.value.0) && SameContexts(s, t.value.0)
  {
    var (s1, id) := TakeBlock(s);
    var s2 :- FillSample(k, s1, id, None, r);
    Some((s2, id))
  }

  function NewContext(k: Config, s: State, hwId: Word): (t: Option<(State, ContextId)>)
    requires ValidConfig(k)
    ensures t.Some? ==> SameSession(s, t.value.0)
  {
    if s.currentGraph.None? || s.currentGraph.value !in s.samples then None
    else
      var (s1, g) :- GetPlainSample(k, s, s.samples[s.currentGraph.value].start);
      var c := s1.nextContext;
      Some((s1.(nextContext := c + 1,
                contexts := s1.contexts[c := HwContext(hwId, 1, 0, Some(g), [], 0, |s1.table|)],
                table := s1.table[hwId := c],
                hwContexts := s1.hwContexts + [c]), c))
  }

  function GetContext(k: Config, s: State, hwId: Word): (t: Option<(State, ContextId)>)
    requires ValidConfig(k)
    ensures t.Some? ==> SameSession(s, t.value.0)
  {
    if hwId !in s.table then NewContext(k, s, hwId)
    else
      var c := s.table[hwId];
      if c !in s.contexts then None
      else Some((s.(contexts := s.contexts[c := s.contexts[c].(nSamples := s.contexts[c].nSamples + 1)]), c))
  }

  function GetContextSample(k: Config, s: State, r: Ref, hwId: Word): (t: Option<(State, SampleId)>)
    requires ValidConfig(k)
    ensures t.Some? ==> SameSession(s, t.value.0)
  {
    var (s1, id) := TakeBlock(s);
    var (s2, c) :- GetContext(k, s1, hwId);
    var s3 :- FillSample(k, s2, id, Some(c), r);
    Some((s3, id))
  }

  // ---------------------------------------------------------------- finished samples

  function SetEnd(s: State, id: SampleId, r: Ref, ts: nat): (t: Option<State>)
    ensures t.Some? ==> SameSession(s, t.value) && SameContexts(s, t.value)
  {
    if id !in s.samples then None
    else
      var s1 :- RefChunk(s, r.chunk);
      Some(s1.(samples := s1.samples[id := s1.samples[id].(end := Some(r), timestampEnd := ts)]))
  }

  function TrimGraphs(k: Config, s: State): Option<State>
    decreases s.nGraphs
  {
    if s.nGraphs <= k.maxGraphs then Some(s)
    else if s.graphs == [] then None
    else
      var s1 :- PutSample(s.(graphs := s.graphs[1..]), s.graphs[0]);
      TrimGraphs(k, s1.(nGraphs := s1.nGraphs - 1))
  }

  function RecordForTime(k: Config, s: State, r: Ref): Option<State>
    requires ValidConfig(k)
  {
    if s.currentGraph.None? then None
    else
      var id := s.currentGraph.value;
      var ts :- Timestamp(k, s, r);
      var s1 :- SetEnd(s.(currentGraph := None), id, r, ts);
      var s2 :- TrimGraphs(k, s1);
      Some(s2.(graphs := s2.graphs + [id], nGraphs := s2.nGraphs + 1))
  }

  function TrimContextGraphs(k: Config, s: State, c: ContextId): (t: Option<State>)
    decreases if c in s.contexts then s.contexts[c].nGraphs else 0
    ensures t.Some? ==> SameSession(s, t.value) && t.value.hwContexts == s.hwContexts
  {
    if c !in s.contexts then None
    else
      var x := s.contexts[c];
      if x.nGraphs <= k.maxGraphs then Some(s)
      else if x.graphs == [] then None
      else
        var s1 :- PutPlainSample(
          s.(contexts := s.contexts[c := x.(graphs := x.graphs[1..], nGraphs := x.nGraphs - 1)]), x.graphs[0]);
        TrimContextGraphs(k, s1, c)
  }

  function ContextRecordForTime(k: Config, s: State, c: ContextId, r: Ref): (t: Option<State>)
    requires ValidConfig(k)
    ensures t.Some? ==> SameSession(s, t.value) && t.value.hwContexts == s.hwContexts
  {
    if c !in s.contexts || s.contexts[c].current.None? then None
    else
      var id := s.contexts[c].current.value;
      if id !in s.samples then None
      else
        var rec :- Deref(s.chunks, r);
        var ts := if k.cpuTimestamps then rec.cpuTimestamp else s.samples[id].accumulator.last;
        var s1 :- SetEnd(s.(contexts := s.contexts[c := s.contexts[c].(current := None)]), id, r, ts);
        var s2 :- TrimContextGraphs(k, s1, c);
        if c !in s2.contexts then None
        else
          var x := s2.contexts[c];
          Some(s2.(contexts := s2.contexts[c := x.(graphs := x.graphs + [id], nGraphs := x.nGraphs + 1)]))
  }

  function ContextsRecordForTime(k: Config, s: State, r: Ref, i: nat): Option<State>
    requires ValidConfig(k) && i <= |s.hwContexts|
    decreases |s.hwContexts| - i
  {
    if i == |s.hwContexts| then Some(s)
    else
      var s1 :- ContextRecordForTime(k, s, s.hwContexts[i], r);
      ContextsRecordForTime(k, s1, r, i + 1)
  }

  /** hw_context_add_time. */
  function AddTime(s: State, m: AccumulatedSamples, add: bool): (t: Option<State>)
    ensures t.Some? ==> SameSession(s, t.value) && SameSamples(s, t.value)
  {
    if m.context.None? || m.context.value !in s.contexts then None
    else
      var c := m.context.value;
      var delta: int := Wrap64(m.timestampEnd - m.timestampStart);
      var x := s.contexts[c];
      var time: int := if add then x.timeSpent + delta else x.timeSpent - delta;
      Some(s.(contexts := s.contexts[c := x.(timeSpent := Wrap64(time))]))
  }

  function PopSegment(s: State): State
    requires s.timelines != [] && s.nTimelines > 0
  {
    s.(timelines := s.timelines[1..], nTimelines := s.nTimelines - 1)
  }

  function TrimTimelines(k: Config, s: State, end: nat): Option<State>
    decreases |s.timelines|
  {
    if s.timelines == [] then Some(s)
    else if s.timelines[0] !in s.samples then None
    else
      var first := s.samples[s.timelines[0]];
      if Wrap64(end - first.timestampStart) <= k.visiblePeriod then Some(s)
      else
        if s.nTimelines == 0 then None
        else
          var s1 :- AddTime(s, first, false);
          var s2 :- PutSample(PopSegment(s1), s1.timelines[0]);
          TrimTimelines(k, s2, end)
  }

  function RecordForHwId(k: Config, s: State, r: Ref): Option<State>
    requires ValidConfig(k)
  {
    if s.currentTimeline.None? then None
    else
      var id := s.currentTimeline.value;
      var ts :- Timestamp(k, s, r);
      var s1 :- SetEnd(s.(currentTimeline := None), id, r, ts);
      var s2 :- TrimTimelines(k, s1, ts);
      if id !in s2.samples then None
      else AddTime(s2.(timelines := s2.timelines + [id], nTimelines := s2.nTimelines + 1), s2.samples[id], true)
  }

  // ---------------------------------------------------------------- one sample record

  function OpenContextWindows(k: Config, s: State, r: Ref, i: nat): Option<State>
    requires ValidConfig(k) && i <= |s.hwContexts|
    decreases |s.hwContexts| - i
  {
    if i == |s.hwContexts| then Some(s)
    else
      var c := s.hwContexts[i];
      if c !in s.contexts || s.contexts[c].current.Some? then None
      else
        var (s1, g) :- GetPlainSample(k, s, r);
        OpenContextWindows(k, s1.(contexts := s1.contexts[c := s1.contexts[c].(current := Some(g))]), r, i + 1)
  }

  function OpenWindow(k: Config, s: State, r: Ref): Option<State>
    requires ValidConfig(k)
  {
    if s.currentGraph.Some? then Some(s)
    else
      var (s1, g) :- GetPlainSample(k, s, r);
      OpenContextWindows(k, s1.(currentGraph := Some(g)), r, 0)
  }

  function OpenTimeline(k: Config, s: State): Option<State>
    requires ValidConfig(k)
  {
    if s.last.None? || s.lastHwId == INVALID_CTX_ID || s.currentTimeline.Some? then Some(s)
    else
      var (s1, id) :- GetContextSample(k, s, s.last.value, s.lastHwId);
      Some(s1.(currentTimeline := Some(id)))
  }

  function AccumulateInto(k: Config, s: State, id: SampleId, r0: Report, r1: Report): Option<State>
    requires ValidConfig(k)
  {
    if id !in s.samples || !WellFormed(s.samples[id].accumulator) then None
    else
      var m := s.samples[id];
      Some(s.(samples := s.samples[id := m.(accumulator := Accumulate(k.format, k.freq, m.accumulator, r0, r1))]))
  }

  function Elapsed(a: Accumulator): nat {
    Wrap64(a.last - a.first)
  }

  function AccumulateTimeline(k: Config, s: State, r0: Report, r1: Report, r: Ref): Option<State>
    requires ValidConfig(k)
  {
    if s.currentTimeline.None? then Some(s)
    else
      var id := s.currentTimeline.value;
      if id !in s.samples || s.samples[id].context.None? then None
      else
        var c := s.samples[id].context.value;
        var s1 :- AccumulateInto(k, s, id, r0, r1);
        var s2 :- if Usable(r0, r1) && (s.lastHwId != CtxId(k.gen, r1)
                                        || Elapsed(s1.samples[id].accumulator) > k.aggregationPeriod)
                  then RecordForHwId(k, s1, r) else Some(s1);
        if c !in s2.contexts || s2.contexts[c].current.None? then None
        else AccumulateInto(k, s2, s2.contexts[c].current.value, r0, r1)
  }

  function AccumulateWindow(k: Config, s: State, r0: Report, r1: Report, r: Ref): Option<State>
    requires ValidConfig(k)
  {
    if s.currentGraph.None? then None
    else
      var id := s.currentGraph.value;
      var s1 :- AccumulateInto(k, s, id, r0, r1);
      if Usable(r0, r1) && Elapsed(s1.samples[id].accumulator) > k.aggregationPeriod then
        var s2 :- RecordForTime(k, s1, r);
        ContextsRecordForTime(k, s2, r, 0)
      else Some(s1)
  }

  function AccumulatePair(k: Config, s: State, r: Ref): Option<State>
    requires ValidConfig(k)
  {
    if s.last.None? then Some(s)
    else
      var rec0 :- Deref(s.chunks, s.last.value);
      var rec1 :- Deref(s.chunks, r);
      var s1 :- AccumulateTimeline(k, s, rec0.report, rec1.report, r);
      AccumulateWindow(k, s1, rec0.report, rec1.report, r)
  }

  function Advance(k: Config, s: State, r: Ref): Option<State>
    requires ValidConfig(k)
  {
    var rec :- Deref(s.chunks, r);
    var ts :- Timestamp(k, s, r);
    var s1 :- PutRefChunk(s.(last := None), s.last);
    var s2 :- RefChunk(s1, r.chunk);
    Some(s2.(lastOaTimestamp := ts, lastHwId := CtxId(k.gen, rec.report), last := Some(r)))
  }

  /** The DRM_I915_PERF_RECORD_SAMPLE case. */
  function Step(k: Config, s: State, r: Ref): Option<State>
    requires ValidConfig(k)
  {
    var s1 :- OpenWindow(k, s, r);
    var s2 :- OpenTimeline(k, s1);
    var s3 :- AccumulatePair(k, s2, r);
    Advance(k, s3, r)
  }

  // ---------------------------------------------------------------- chunks of records

  /** i915_perf_accumulate from record i on; it gives up at a lost buffer or an unknown record. */
  function AccumulateChunk(k: Config, s: State, c: ChunkId, i: nat, n: nat): Option<State>
    requires ValidConfig(k) && i <= n
    decreases n - i
  {
    if i == n then Some(s)
    else if c !in s.chunks || |s.chunks[c].data| != n then None
    else
      match s.chunks[c].data[i]
      case Sample(_, _) =>
        var s1 :- Step(k, s, Ref(c, i));
        AccumulateChunk(k, s1, c, i + 1, n)
      case ReportLost => AccumulateChunk(k, s, c, i + 1, n)
      case BufferLost => Some(s)
      case Spurious => Some(s)
  }

  function AddChunk(s: State, data: seq<Record>): State {
    s.(chunks := s.chunks[s.nextChunk := Chunk(1, data)], chunkList := s.chunkList + [s.nextChunk],
       nextChunk := s.nextChunk + 1)
  }

  /** handle_i915_perf_data. */
  function HandleData(k: Config, s: State, data: seq<Record>): Option<State>
    requires ValidConfig(k)
  {
    var s1 :- AccumulateChunk(k, AddChunk(s, data), s.nextChunk, 0, |data|);
    PutChunk(s1, s.nextChunk)
  }

  function PutTimelines(s: State): Option<State>
    decreases |s.timelines|
  {
    if s.timelines == [] then Some(s)
    else
      var s1 :- PutSample(s.(timelines := s.timelines[1..]), s.timelines[0]);
      PutTimelines(s1)
  }

  function PutGraphs(s: State): Option<State>
    decreases |s.graphs|
  {
    if s.graphs == [] then Some(s)
    else
      var s1 :- PutSample(s.(graphs := s.graphs[1..]), s.graphs[0]);
      PutGraphs(s1)
  }

  function PutCurrentTimeline(s: State): Option<State> {
    if s.currentTimeline.None? then Some(s)
    else PutSample(s.(currentTimeline := None), s.currentTimeline.value)
  }

  function PutCurrentGraph(s: State): Option<State> {
    if s.currentGraph.None? then Some(s)
    else PutSample(s.(currentGraph := None), s.currentGraph.value)
  }

  /** i915_perf_empty_samples. */
  function EmptySamples(k: Config, s: State): Option<State> {
    var s1 :- PutTimelines(s);
    var s2 :- PutCurrentTimeline(s1);
    var s3 :- PutGraphs(s2.(table := map[], nTimelines := 0, lastHwId := INVALID_CTX_ID));
    var s4 :- PutCurrentGraph(s3);
    var s5 :- PutRefChunk(s4.(nGraphs := 0, last := None), s4.last);
    if s5.chunkList != [] then None
    else Some(s5.(lastOaTimestamp := Wrap64(k.visiblePeriod)))
  }
}
