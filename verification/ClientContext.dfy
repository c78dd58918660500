/** The OA part of `struct gputop_client_context` as an object: the functions of
    lib/gputop-client-context.c with their loops and updates in place.

    Every method is proved to do what the function of the same name in ClientState says, wherever that
    function does not fault; EveryRunIsGood says that it never does for the two entry points.
 */
module ClientContext {
  import opened Common
  import opened OaCounters
  import opened ClientState
  import opened ClientInvariants
  import opened ClientSteps

  type UsableConfig = k: Config | ValidConfig(k) witness Config(A45, 1, 8, true, 0, 0, 0)

  lemma TrimOneSegment(k: Config, s: State, end: nat)
    requires ValidConfig(k) && ClientState.TrimTimelines(k, s, end).Some?
    ensures s.timelines == [] ==> ClientState.TrimTimelines(k, s, end) == Some(s)
    ensures s.timelines != [] ==>
              && s.timelines[0] in s.samples
              && (var first := s.samples[s.timelines[0]];
                  if Wrap64(end - first.timestampStart) <= k.visiblePeriod
                  then ClientState.TrimTimelines(k, s, end) == Some(s)
                  else
                    && s.nTimelines > 0 && ClientState.AddTime(s, first, false).Some?
                    && (var s1 := ClientState.AddTime(s, first, false).value;
                        && s1.timelines == s.timelines
                        && ClientState.PutSample(PopSegment(s1), s.timelines[0]).Some?
                        && (var s2 := ClientState.PutSample(PopSegment(s1), s.timelines[0]).value;
                            && s2.timelines == s.timelines[1..]
                            && ClientState.TrimTimelines(k, s2, end) == ClientState.TrimTimelines(k, s, end))))
  {
    hide Wrap64;
  }

  class Context {
    const k: UsableConfig
    var chunks: map<ChunkId, Chunk>
    var chunkList: seq<ChunkId>
    var nextChunk: ChunkId
    var samples: map<SampleId, AccumulatedSamples>
    var freeSamples: seq<SampleId>
    var nextSample: SampleId
    var contexts: map<ContextId, HwContext>
    var hwContexts: seq<ContextId>
    var table: map<Word, ContextId>
    var nextContext: ContextId
    var currentGraph: Option<SampleId>
    var graphs: seq<SampleId>
    var nGraphs: nat
    var currentTimeline: Option<SampleId>
    var timelines: seq<SampleId>
    var nTimelines: nat
    var last: Option<Ref>
    var lastHwId: Word
    var lastOaTimestamp: nat
    /** What has happened to the client. */
    ghost var events: seq<Event>

    ghost function St(): State
      reads this
    {
      State(chunks, chunkList, nextChunk, samples, freeSamples, nextSample, contexts, hwContexts, table, nextContext,
            currentGraph, graphs, nGraphs, currentTimeline, timelines, nTimelines, last, lastHwId, lastOaTimestamp)
    }

    /** The client is where the model says it is after these events, so all that is proved about runs
        is true of it. */
    ghost predicate Reached()
      reads this
    {
      Run(k, InitialState(k), events) == Some(St())
    }

    constructor (k: UsableConfig)
      ensures this.k == k && Reached() && events == []
    {
      this.k := k;
      chunks, chunkList, nextChunk := map[], [], 0;
      samples, freeSamples, nextSample := map[], [], 0;
      contexts, hwContexts, table, nextContext := map[], [], map[], 0;
      currentGraph, graphs, nGraphs := None, [], 0;
      currentTimeline, timelines, nTimelines := None, [], 0;
      last, lastHwId, lastOaTimestamp := None, INVALID_CTX_ID, Wrap64(k.visiblePeriod);
      events := [];
    }

    // -------------------------------------------------------------- chunks

    method RefChunk(c: ChunkId)
      requires ClientState.RefChunk(St(), c).Some?
      modifies this
      ensures Some(St()) == ClientState.RefChunk(old(St()), c)
    {
      chunks := chunks[c := chunks[c].(refcount := chunks[c].refcount + 1)];
    }

    method PutChunk(c: ChunkId)
      requires ClientState.PutChunk(St(), c).Some?
      modifies this
      ensures Some(St()) == ClientState.PutChunk(old(St()), c)
    {
      var count := chunks[c].refcount - 1;
      if count > 0 {
        chunks := chunks[c := chunks[c].(refcount := count)];
        return;
      }
      chunkList := Remove(chunkList, c);
      chunks := chunks - {c};
    }

    method PutRefChunk(r: Option<Ref>)
      requires ClientState.PutRefChunk(St(), r).Some?
      modifies this
      ensures Some(St()) == ClientState.PutRefChunk(old(St()), r)
    {
      hide ClientState.PutChunk;
      if r.Some? {
        PutChunk(r.value.chunk);
      }
    }

    method PutReports(m: AccumulatedSamples)
      requires ClientState.PutReports(St(), m).Some?
      modifies this
      ensures Some(St()) == ClientState.PutReports(old(St()), m)
    {
      hide ClientState.PutChunk, ClientState.PutRefChunk;
      PutChunk(m.start.chunk);
      PutRefChunk(m.end);
    }

    // -------------------------------------------------------------- samples and contexts

    method PutPlainSample(id: SampleId)
      requires ClientState.PutPlainSample(St(), id).Some?
      modifies this
      ensures Some(St()) == ClientState.PutPlainSample(old(St()), id)
    {
      hide ClientState.PutReports;
      var m := samples[id];
      samples := samples - {id};
      PutReports(m);
      freeSamples := [id] + freeSamples;
    }

    method PutPlainSamples(ids: seq<SampleId>)
      requires ClientState.PutPlainSamples(St(), ids).Some?
      modifies this
      ensures Some(St()) == ClientState.PutPlainSamples(old(St()), ids)
    {
      hide ClientState.PutPlainSample;
      var rest := ids;
      while rest != []
        invariant ClientState.PutPlainSamples(St(), rest) == ClientState.PutPlainSamples(old(St()), ids)
        decreases |rest|
      {
        PutPlainSample(rest[0]);
        rest := rest[1..];
      }
    }

    /** timeline_row is the position in the list. */
    method Renumber()
      requires ClientState.Renumber(contexts, hwContexts, 0).Some?
      modifies this
      ensures St() == old(St()).(contexts := contexts)
      ensures Some(contexts) == ClientState.Renumber(old(contexts), hwContexts, 0)
    {
      var i := 0;
      while i < |hwContexts|
        invariant i <= |hwContexts| && St() == old(St()).(contexts := contexts)
        invariant ClientState.Renumber(contexts, hwContexts, i) == ClientState.Renumber(old(contexts), hwContexts, 0)
      {
        var c := hwContexts[i];
        contexts := contexts[c := contexts[c].(timelineRow := i)];
        i := i + 1;
      }
    }

    /** The windows of context x. */
    method PutWindows(x: HwContext)
      requires ClientState.PutPlainSamples(St(), x.graphs).Some?
      requires ClientState.PutPlainSamples(
                         ClientState.PutPlainSamples(St(), x.graphs).value, OptionSeq(x.current)).Some?
      modifies this
      ensures Some(St()) == ClientState.PutPlainSamples(ClientState.PutPlainSamples(old(St()), x.graphs).value,
                                                        OptionSeq(x.current))
    {
      hide ClientState.PutPlainSample;
      PutPlainSamples(x.graphs);
      if x.current.Some? {
        assert OptionSeq(x.current)[1..] == [];
        PutPlainSample(x.current.value);
      }
    }

    method FreeContext(c: ContextId)
      requires c in contexts && ClientState.FreeContext(St(), c).Some?
      modifies this
      ensures Some(St()) == ClientState.FreeContext(old(St()), c)
    {
      hide ClientState.PutPlainSamples, ClientState.Renumber;
      var x := contexts[c];
      table := table - {x.hwId};
      PutWindows(x);
      hwContexts := Remove(hwContexts, c);
      contexts := contexts - {c};
      Renumber();
      assert |hwContexts| == |table|;
    }

    method PutContext(c: ContextId)
      requires ClientState.PutContext(St(), c).Some?
      modifies this
      ensures Some(St()) == ClientState.PutContext(old(St()), c)
    {
      hide ClientState.FreeContext;
      contexts := contexts[c := contexts[c].(nSamples := contexts[c].nSamples - 1)];
      if contexts[c].nSamples == 0 {
        FreeContext(c);
      }
    }

    method PutSample(id: SampleId)
      requires ClientState.PutSample(St(), id).Some?
      modifies this
      ensures Some(St()) == ClientState.PutSample(old(St()), id)
    {
      hide ClientState.PutReports, ClientState.PutContext;
      var m := samples[id];
      samples := samples - {id};
      PutReports(m);
      if m.context.Some? {
        PutContext(m.context.value);
      }
      freeSamples := [id] + freeSamples;
    }

    method TakeBlock() returns (id: SampleId)
      modifies this
      ensures (St(), id) == ClientState.TakeBlock(old(St()))
    {
      if freeSamples == [] {
        id, nextSample := nextSample, nextSample + 1;
      } else {
        id, freeSamples := freeSamples[0], freeSamples[1..];
      }
    }

    method FillSample(id: SampleId, context: Option<ContextId>, r: Ref)
      requires ClientState.FillSample(k, St(), id, context, r).Some?
      modifies this
      ensures Some(St()) == ClientState.FillSample(k, old(St()), id, context, r)
    {
      hide Deref, Init;
      var ts := CurrentTimestamp(r);
      var rec := Deref(chunks, r);
      RefChunk(r.chunk);
      samples := samples[id := AccumulatedSamples(context, ts, 0, r, None, Init(k.freq, rec.value.report))];
    }

    method CurrentTimestamp(r: Ref) returns (ts: nat)
      requires Timestamp(k, St(), r).Some?
      ensures Some(ts) == Timestamp(k, St(), r)
    {
      hide Deref, ScaleNs, Wrap64;
      var rec := Deref(chunks, r).value;
      if k.cpuTimestamps {
        return rec.cpuTimestamp;
      }
      var stamp := rec.report[1];
      var prev := if last.Some? then Deref(chunks, last.value).value.report[1] else stamp;
      if last.None? { assert Wrap64(0) == 0 by { WrapSmall(0); } }
      ts := Wrap64(lastOaTimestamp + ScaleNs(k.freq, Wrap64(stamp as int - prev)));
    }

    method GetPlainSample(r: Ref) returns (id: SampleId)
      requires ClientState.GetPlainSample(k, St(), r).Some?
      modifies this
      ensures Some((St(), id)) == ClientState.GetPlainSample(k, old(St()), r)
    {
      hide ClientState.TakeBlock, ClientState.FillSample;
      id := TakeBlock();
      FillSample(id, None, r);
    }

    method GetContext(hwId: Word) returns (c: ContextId)
      requires ClientState.GetContext(k, St(), hwId).Some?
      modifies this
      ensures Some((St(), c)) == ClientState.GetContext(k, old(St()), hwId)
    {
      hide ClientState.NewContext;
      if hwId in table {
        c := table[hwId];
        contexts := contexts[c := contexts[c].(nSamples := contexts[c].nSamples + 1)];
      } else {
        c := NewContext(hwId);
      }
    }

    method NewContext(hwId: Word) returns (c: ContextId)
      requires ClientState.NewContext(k, St(), hwId).Some?
      modifies this
      ensures Some((St(), c)) == ClientState.NewContext(k, old(St()), hwId)
    {
      hide ClientState.GetPlainSample;
      var g := GetPlainSample(samples[currentGraph.value].start);
      c, nextContext := nextContext, nextContext + 1;
      contexts := contexts[c := HwContext(hwId, 1, 0, Some(g), [], 0, |table|)];
      table := table[hwId := c];
      hwContexts := hwContexts + [c];
    }

    method GetContextSample(r: Ref, hwId: Word) returns (id: SampleId)
      requires ClientState.GetContextSample(k, St(), r, hwId).Some?
      modifies this
      ensures Some((St(), id)) == ClientState.GetContextSample(k, old(St()), r, hwId)
    {
      hide ClientState.TakeBlock, ClientState.FillSample, ClientState.GetContext;
      id := TakeBlock();
      var c := GetContext(hwId);
      FillSample(id, Some(c), r);
    }

    // -------------------------------------------------------------- finished samples

    method SetEnd(id: SampleId, r: Ref, ts: nat)
      requires ClientState.SetEnd(St(), id, r, ts).Some?
      modifies this
      ensures Some(St()) == ClientState.SetEnd(old(St()), id, r, ts)
    {
      RefChunk(r.chunk);
      samples := samples[id := samples[id].(end := Some(r), timestampEnd := ts)];
    }

    method TrimGraphs()
      requires ClientState.TrimGraphs(k, St()).Some?
      modifies this
      ensures Some(St()) == ClientState.TrimGraphs(k, old(St()))
    {
      hide ClientState.PutSample;
      while nGraphs > k.maxGraphs
        invariant ClientState.TrimGraphs(k, St()) == ClientState.TrimGraphs(k, old(St()))
        decreases nGraphs
      {
        var first := graphs[0];
        graphs := graphs[1..];
        PutSample(first);
        nGraphs := nGraphs - 1;
      }
    }

    method RecordForTime(r: Ref)
      requires ClientState.RecordForTime(k, St(), r).Some?
      modifies this
      ensures Some(St()) == ClientState.RecordForTime(k, old(St()), r)
    {
      hide Timestamp, ClientState.SetEnd, ClientState.TrimGraphs;
      var id := currentGraph.value;
      var ts := CurrentTimestamp(r);
      currentGraph := None;
      SetEnd(id, r, ts);
      TrimGraphs();
      graphs := graphs + [id];
      nGraphs := nGraphs + 1;
    }

    method TrimContextGraphs(c: ContextId)
      requires ClientState.TrimContextGraphs(k, St(), c).Some?
      modifies this
      ensures Some(St()) == ClientState.TrimContextGraphs(k, old(St()), c)
    {
      hide ClientState.PutPlainSample;
      while contexts[c].nGraphs > k.maxGraphs
        invariant c in contexts
        invariant ClientState.TrimContextGraphs(k, St(), c) == ClientState.TrimContextGraphs(k, old(St()), c)
        decreases contexts[c].nGraphs
      {
        var x := contexts[c];
        contexts := contexts[c := x.(graphs := x.graphs[1..], nGraphs := x.nGraphs - 1)];
        PutPlainSample(x.graphs[0]);
      }
    }

    method ContextRecordForTime(c: ContextId, r: Ref)
      requires ClientState.ContextRecordForTime(k, St(), c, r).Some?
      modifies this
      ensures Some(St()) == ClientState.ContextRecordForTime(k, old(St()), c, r)
    {
      hide Deref, ClientState.SetEnd, ClientState.TrimContextGraphs;
      var id := contexts[c].current.value;
      var rec := Deref(chunks, r).value;
      contexts := contexts[c := contexts[c].(current := None)];
      SetEnd(id, r, if k.cpuTimestamps then rec.cpuTimestamp else samples[id].accumulator.last);
      TrimContextGraphs(c);
      var x := contexts[c];
      contexts := contexts[c := x.(graphs := x.graphs + [id], nGraphs := x.nGraphs + 1)];
    }

    method ContextsRecordForTime(r: Ref)
      requires ClientState.ContextsRecordForTime(k, St(), r, 0).Some?
      modifies this
      ensures Some(St()) == ClientState.ContextsRecordForTime(k, old(St()), r, 0)
    {
      hide ClientState.ContextRecordForTime;
      var i := 0;
      while i < |hwContexts|
        invariant i <= |hwContexts|
        invariant ClientState.ContextsRecordForTime(k, St(), r, i)
                == ClientState.ContextsRecordForTime(k, old(St()), r, 0)
        decreases |hwContexts| - i
      {
        ContextRecordForTime(hwContexts[i], r);
        i := i + 1;
      }
    }

    method AddTime(m: AccumulatedSamples, add: bool)
      requires ClientState.AddTime(St(), m, add).Some?
      modifies this
      ensures Some(St()) == ClientState.AddTime(old(St()), m, add)
    {
      hide Wrap64;
      var c := m.context.value;
      var delta := Wrap64(m.timestampEnd - m.timestampStart);
      var time: int := if add then contexts[c].timeSpent + delta else contexts[c].timeSpent - delta;
      contexts := contexts[c := contexts[c].(timeSpent := Wrap64(time))];
    }

    method TrimTimelines(end: nat)
      requires ClientState.TrimTimelines(k, St(), end).Some?
      modifies this
      ensures Some(St()) == ClientState.TrimTimelines(k, old(St()), end)
    {
      hide ClientState.PutSample, ClientState.AddTime, ClientState.TrimTimelines, Wrap64;
      TrimOneSegment(k, St(), end);
      while timelines != [] && Wrap64(end - samples[timelines[0]].timestampStart) > k.visiblePeriod
        invariant timelines != [] ==> timelines[0] in samples
        invariant ClientState.TrimTimelines(k, St(), end) == ClientState.TrimTimelines(k, old(St()), end)
        decreases |timelines|
      {
        TrimOneSegment(k, St(), end);
        var first := timelines[0];
        AddTime(samples[first], false);
        timelines, nTimelines := timelines[1..], nTimelines - 1;
        PutSample(first);
        TrimOneSegment(k, St(), end);
      }
      TrimOneSegment(k, St(), end);
    }

    method RecordForHwId(r: Ref)
      requires ClientState.RecordForHwId(k, St(), r).Some?
      modifies this
      ensures Some(St()) == ClientState.RecordForHwId(k, old(St()), r)
    {
      hide Timestamp, ClientState.SetEnd, ClientState.TrimTimelines, ClientState.AddTime;
      var id := currentTimeline.value;
      var ts := CurrentTimestamp(r);
      currentTimeline := None;
      SetEnd(id, r, ts);
      TrimTimelines(ts);
      timelines, nTimelines := timelines + [id], nTimelines + 1;
      AddTime(samples[id], true);
    }

    // -------------------------------------------------------------- one sample record

    method OpenContextWindows(r: Ref)
      requires ClientState.OpenContextWindows(k, St(), r, 0).Some?
      modifies this
      ensures Some(St()) == ClientState.OpenContextWindows(k, old(St()), r, 0)
    {
      hide ClientState.GetPlainSample;
      var i := 0;
      while i < |hwContexts|
        invariant i <= |hwContexts|
        invariant ClientState.OpenContextWindows(k, St(), r, i) == ClientState.OpenContextWindows(k, old(St()), r, 0)
        decreases |hwContexts| - i
      {
        var c := hwContexts[i];
        var g := GetPlainSample(r);
        contexts := contexts[c := contexts[c].(current := Some(g))];
        i := i + 1;
      }
    }

    method OpenWindow(r: Ref)
      requires ClientState.OpenWindow(k, St(), r).Some?
      modifies this
      ensures Some(St()) == ClientState.OpenWindow(k, old(St()), r)
    {
      hide ClientState.GetPlainSample, ClientState.OpenContextWindows;
      if currentGraph.None? {
        var g := GetPlainSample(r);
        currentGraph := Some(g);
        OpenContextWindows(r);
      }
    }

    method OpenTimeline()
      requires ClientState.OpenTimeline(k, St()).Some?
      modifies this
      ensures Some(St()) == ClientState.OpenTimeline(k, old(St()))
    {
      hide ClientState.GetContextSample;
      if last.Some? && lastHwId != INVALID_CTX_ID && currentTimeline.None? {
        var id := GetContextSample(last.value, lastHwId);
        currentTimeline := Some(id);
      }
    }

    method AccumulateInto(id: SampleId, r0: Report, r1: Report)
      requires ClientState.AccumulateInto(k, St(), id, r0, r1).Some?
      modifies this
      ensures Some(St()) == ClientState.AccumulateInto(k, old(St()), id, r0, r1)
      ensures id in samples && St() == old(St()).(samples := samples)
    {
      hide Accumulate, WellFormed;
      var m := samples[id];
      samples := samples[id := m.(accumulator := Accumulate(k.format, k.freq, m.accumulator, r0, r1))];
    }

    method AccumulateTimeline(r0: Report, r1: Report, r: Ref)
      requires ClientState.AccumulateTimeline(k, St(), r0, r1, r).Some?
      modifies this
      ensures Some(St()) == ClientState.AccumulateTimeline(k, old(St()), r0, r1, r)
    {
      hide ClientState.RecordForHwId, CtxId, Elapsed, ClientState.AccumulateInto;
      if currentTimeline.Some? {
        var id := currentTimeline.value;
        var c := samples[id].context.value;
        AccumulateInto(id, r0, r1);
        if Usable(r0, r1) {
          if lastHwId != CtxId(k.gen, r1) || Elapsed(samples[id].accumulator) > k.aggregationPeriod {
            RecordForHwId(r);
          }
        }
        AccumulateInto(contexts[c].current.value, r0, r1);
      }
    }

    method AccumulateWindow(r0: Report, r1: Report, r: Ref)
      requires ClientState.AccumulateWindow(k, St(), r0, r1, r).Some?
      modifies this
      ensures Some(St()) == ClientState.AccumulateWindow(k, old(St()), r0, r1, r)
    {
      hide ClientState.RecordForTime, ClientState.ContextsRecordForTime, Elapsed, ClientState.AccumulateInto;
      var id := currentGraph.value;
      AccumulateInto(id, r0, r1);
      if Usable(r0, r1) {
        if Elapsed(samples[id].accumulator) > k.aggregationPeriod {
          RecordForTime(r);
          ContextsRecordForTime(r);
        }
      }
    }

    method AccumulatePair(r: Ref)
      requires ClientState.AccumulatePair(k, St(), r).Some?
      modifies this
      ensures Some(St()) == ClientState.AccumulatePair(k, old(St()), r)
    {
      hide Deref, ClientState.AccumulateTimeline, ClientState.AccumulateWindow;
      if last.Some? {
        var r0, r1 := Deref(chunks, last.value).value.report, Deref(chunks, r).value.report;
        AccumulateTimeline(r0, r1, r);
        AccumulateWindow(r0, r1, r);
      }
    }

    method PutLast()
      requires ClientState.PutRefChunk(St().(last := None), last).Some?
      modifies this
      ensures Some(St()) == ClientState.PutRefChunk(old(St()).(last := None), old(last))
    {
      hide ClientState.PutRefChunk;
      var previous := last;
      last := None;
      PutRefChunk(previous);
    }

    method Advance(r: Ref)
      requires ClientState.Advance(k, St(), r).Some?
      modifies this
      ensures Some(St()) == ClientState.Advance(k, old(St()), r)
    {
      hide Deref, Timestamp, CtxId, ClientState.PutRefChunk, ClientState.RefChunk;
      var ts := CurrentTimestamp(r);
      var hwId := CtxId(k.gen, Deref(chunks, r).value.report);
      PutLast();
      RefChunk(r.chunk);
      lastOaTimestamp, lastHwId, last := ts, hwId, Some(r);
    }

    method Step(r: Ref)
      requires ClientState.Step(k, St(), r).Some?
      modifies this
      ensures Some(St()) == ClientState.Step(k, old(St()), r)
    {
      hide ClientState.OpenWindow, ClientState.OpenTimeline, ClientState.AccumulatePair, ClientState.Advance;
      OpenWindow(r);
      OpenTimeline();
      AccumulatePair(r);
      Advance(r);
    }

    // -------------------------------------------------------------- chunks of records

    method AccumulateRecords(c: ChunkId, n: nat)
      requires ClientState.AccumulateChunk(k, St(), c, 0, n).Some?
      modifies this
      ensures Some(St()) == ClientState.AccumulateChunk(k, old(St()), c, 0, n)
    {
      hide ClientState.Step;
      var i := 0;
      while i < n
        invariant i <= n
        invariant ClientState.AccumulateChunk(k, St(), c, i, n) == ClientState.AccumulateChunk(k, old(St()), c, 0, n)
        decreases n - i
      {
        match chunks[c].data[i] {
          case Sample(_, _) => Step(Ref(c, i));
          case ReportLost =>
          case BufferLost => return;
          case Spurious => return;
        }
        i := i + 1;
      }
    }

    method AccumulateData(data: seq<Record>)
      requires ClientState.HandleData(k, St(), data).Some?
      modifies this
      ensures Some(St()) == ClientState.HandleData(k, old(St()), data)
    {
      hide ClientState.AccumulateChunk, ClientState.PutChunk;
      var c := nextChunk;
      chunks := chunks[c := Chunk(1, data)];
      chunkList := chunkList + [c];
      nextChunk := nextChunk + 1;
      AccumulateRecords(c, |data|);
      PutChunk(c);
    }

    /** Data has come in. */
    method HandleData(data: seq<Record>)
      requires Reached()
      modifies this
      ensures Reached() && events == old(events) + [Data(data)]
      ensures Some(St()) == ClientState.HandleData(k, old(St()), data)
    {
      hide Good, Run, ClientState.HandleData, InitialState;
      EveryRunIsGood(k, events);
      HandleDataGood(k, St(), data);
      OneMore(events, Data(data));
      ghost var before := events;
      AccumulateData(data);
      events := before + [Data(data)];
    }

    lemma OneMore(events: seq<Event>, e: Event)
      ensures Run(k, InitialState(k), events + [e]) ==
                var s := Run(k, InitialState(k), events);
                if s.None? then None else Apply(k, s.value, e)
    {
      hide ClientState.HandleData, ClientState.EmptySamples, InitialState;
      assert (events + [e])[..|events|] == events;
    }

    method PutTimelines()
      requires ClientState.PutTimelines(St()).Some?
      modifies this
      ensures Some(St()) == ClientState.PutTimelines(old(St()))
    {
      hide ClientState.PutSample;
      while timelines != []
        invariant ClientState.PutTimelines(St()) == ClientState.PutTimelines(old(St()))
        decreases |timelines|
      {
        var first := timelines[0];
        timelines := timelines[1..];
        PutSample(first);
      }
    }

    method PutGraphs()
      requires ClientState.PutGraphs(St()).Some?
      modifies this
      ensures Some(St()) == ClientState.PutGraphs(old(St()))
    {
      hide ClientState.PutSample;
      while graphs != []
        invariant ClientState.PutGraphs(St()) == ClientState.PutGraphs(old(St()))
        decreases |graphs|
      {
        var first := graphs[0];
        graphs := graphs[1..];
        PutSample(first);
      }
    }

    method PutCurrentTimeline()
      requires ClientState.PutCurrentTimeline(St()).Some?
      modifies this
      ensures Some(St()) == ClientState.PutCurrentTimeline(old(St()))
    {
      hide ClientState.PutSample;
      if currentTimeline.Some? {
        var id := currentTimeline.value;
        currentTimeline := None;
        PutSample(id);
      }
    }

    method PutCurrentGraph()
      requires ClientState.PutCurrentGraph(St()).Some?
      modifies this
      ensures Some(St()) == ClientState.PutCurrentGraph(old(St()))
    {
      hide ClientState.PutSample;
      if currentGraph.Some? {
        var id := currentGraph.value;
        currentGraph := None;
        PutSample(id);
      }
    }

    method PutEverything()
      requires ClientState.EmptySamples(k, St()).Some?
      modifies this
      ensures Some(St()) == ClientState.EmptySamples(k, old(St()))
    {
      hide ClientState.PutTimelines, ClientState.PutCurrentTimeline, ClientState.PutGraphs, ClientState.PutCurrentGraph,
           ClientState.PutRefChunk, Wrap64;
      PutTimelines();
      PutCurrentTimeline();
      table, nTimelines, lastHwId := map[], 0, INVALID_CTX_ID;
      PutGraphs();
      PutCurrentGraph();
      nGraphs := 0;
      PutLast();
      lastOaTimestamp := Wrap64(k.visiblePeriod);
    }

    /** Sampling starts or stops: whatever has been collected goes, and nothing is left behind. */
    method EmptySamples()
      requires Reached()
      modifies this
      ensures Reached() && events == old(events) + [Restart] && Emptied(St())
      ensures Some(St()) == ClientState.EmptySamples(k, old(St()))
    {
      hide Good, Run, Emptied, InitialState, ClientState.EmptySamples;
      EveryRunIsGood(k, events);
      EmptySamplesGood(k, St());
      OneMore(events, Restart);
      ghost var before := events;
      PutEverything();
      events := before + [Restart];
    }
  }
}
