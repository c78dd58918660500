/** From the primitives of ClientInvariants to whole steps of the client: recording finished windows and
    segments, one sample record, one chunk, emptying everything, and any run of such events.
 */
module ClientSteps {
  import opened Common
  import opened OaCounters
  import opened ClientState
  import opened ClientInvariants

  // ---------------------------------------------------------------- a context's own samples

  predicate SameIdentity(a: HwContext, b: HwContext) {
    b == a.(current := b.current, graphs := b.graphs, nGraphs := b.nGraphs)
  }

  lemma UpdateContextTabled(s: State, c: ContextId, x: HwContext)
    requires Tabled(s) && Rows(s.contexts, s.hwContexts) && c in s.contexts && SameIdentity(s.contexts[c], x)
    ensures var t := s.(contexts := s.contexts[c := x]); Tabled(t) && Rows(t.contexts, t.hwContexts)
  {
    hide Ascending, InTable;
    var t := s.(contexts := s.contexts[c := x]);
    forall h | h in t.table ensures Named(t.contexts, t.table[h], h) {
      assert Named(s.contexts, s.table[h], h);
    }
    forall d | d in t.contexts ensures InTable(t.table, d, t.contexts[d].hwId) {
      assert InTable(s.table, d, s.contexts[d].hwId);
    }
  }

  lemma UpdateContextCounted(s: State, c: ContextId, x: HwContext)
    requires Counted(s, None) && c in s.contexts && SameIdentity(s.contexts[c], x)
    ensures Counted(s.(contexts := s.contexts[c := x]), None)
  {
    hide Users;
  }

  lemma UpdateContextFiled(s: State, c: ContextId, x: HwContext)
    requires Filed(s) && c in s.contexts && SameIdentity(s.contexts[c], x)
    requires ContextKinds(s.samples, x) && x.nGraphs == |x.graphs|
    ensures Filed(s.(contexts := s.contexts[c := x]))
  {
    hide TimeOf, ContextKinds, Wrap64;
  }

  lemma UpdateContextPlaced(s: State, c: ContextId, x: HwContext, held: multiset<SampleId>, held': multiset<SampleId>)
    requires Placed(s, held) && Members(s.hwContexts, s.contexts) && c in s.contexts
    requires Own(s.contexts[c]) + held == Own(x) + held'
    ensures Placed(s.(contexts := s.contexts[c := x]), held')
  {
    hide Own, SessionSlots, ContextSlots;
    var t := s.(contexts := s.contexts[c := x]);
    SameSlots(s, t);
    ContextSlotsUpdate(s.contexts, s.hwContexts, c, x);
    var a, b := ContextSlots(s.contexts, s.hwContexts), ContextSlots(t.contexts, s.hwContexts);
    var o, n := Own(s.contexts[c]), Own(x);
    assert b + held' + (o + n) == (b + o) + (n + held');
    assert a + held + (o + n) == (a + n) + (o + held);
    Cancel(b + held', a + held, o + n);
    assert SessionSlots(t) + b + held' == SessionSlots(t) + (b + held');
    assert SessionSlots(s) + a + held == SessionSlots(s) + (a + held);
  }

  /** Samples move between a context and running code. */
  lemma UpdateContextInv(s: State, c: ContextId, x: HwContext, extra: multiset<ChunkId>, held: multiset<SampleId>,
                         held': multiset<SampleId>, limbo: multiset<SampleId>)
    requires Inv(s, extra, held, limbo, None) && c in s.contexts && SameIdentity(s.contexts[c], x)
    requires Own(s.contexts[c]) + held == Own(x) + held'
    requires ContextKinds(s.samples, x) && x.nGraphs == |x.graphs|
    ensures Inv(s.(contexts := s.contexts[c := x]), extra, held', limbo, None)
  {
    hide Core, Placed, Rows, Counted, Filed, Own, ContextKinds, SameIdentity;
    CoreFrame(s, s.(contexts := s.contexts[c := x]), extra, limbo);
    UpdateContextTabled(s, c, x);
    UpdateContextCounted(s, c, x);
    UpdateContextFiled(s, c, x);
    UpdateContextPlaced(s, c, x, held, held');
  }

  lemma ContextFacts(s: State, c: ContextId, extra: multiset<ChunkId>, held: multiset<SampleId>,
                     limbo: multiset<SampleId>)
    requires Inv(s, extra, held, limbo, None) && c in s.contexts
    ensures ContextKinds(s.samples, s.contexts[c]) && s.contexts[c].nGraphs == |s.contexts[c].graphs|
    ensures forall id :: id in s.contexts[c].graphs ==> id in s.samples
    ensures s.contexts[c].current.Some? ==> s.contexts[c].current.value in s.samples
  {
    hide Core, Rows, Counted, Timed, Keyed, ContextSlots, ContextKinds;
    FiledKinds(s, c);
    OwnIsLive(s, held, c);
    var x := s.contexts[c];
    forall id | id in Own(x) ensures id in s.samples { assert id in multiset(s.samples.Keys); }
    forall id | id in x.graphs ensures id in s.samples { assert id in multiset(x.graphs); }
    if x.current.Some? { assert x.current.value in multiset(OptionSeq(x.current)); }
  }

  /** Taking the oldest graph sample of a context off its list. */
  lemma PopContextGraph(s: State, c: ContextId, extra: multiset<ChunkId>, held: multiset<SampleId>,
                        limbo: multiset<SampleId>)
    requires Inv(s, extra, held, limbo, None) && c in s.contexts && s.contexts[c].graphs != []
    ensures var x := s.contexts[c];
            && x.nGraphs > 0 && x.graphs[0] in s.samples && s.samples[x.graphs[0]].context.None?
            && Inv(s.(contexts := s.contexts[c := x.(graphs := x.graphs[1..], nGraphs := x.nGraphs - 1)]), extra,
                   held + multiset{x.graphs[0]}, limbo, None)
  {
    hide Inv;
    ContextFacts(s, c, extra, held, limbo);
    var x := s.contexts[c];
    assert x.graphs[0] in x.graphs;
    assert x.graphs == [x.graphs[0]] + x.graphs[1..];
    assert multiset(x.graphs) == multiset{x.graphs[0]} + multiset(x.graphs[1..]);
    UpdateContextInv(s, c, x.(graphs := x.graphs[1..], nGraphs := x.nGraphs - 1), extra, held,
                     held + multiset{x.graphs[0]}, limbo);
  }

  /** t differs from s in the graph list of context c and in what was dropped from it. */
  ghost predicate ContextTrimmed(s: State, t: State, c: ContextId) {
    && c in s.contexts && c in t.contexts && t.contexts == s.contexts[c := t.contexts[c]]
    && SameIdentity(s.contexts[c], t.contexts[c]) && t.contexts[c].current == s.contexts[c].current
    && SameSession(s, t) && t.hwContexts == s.hwContexts && t.table == s.table
    && SameData(s.chunks, t.chunks) && SubSamples(t.samples, s.samples)
    && (var g, h := s.contexts[c].graphs, t.contexts[c].graphs; |h| <= |g| && h == g[|g| - |h|..])
  }

  lemma {:induction false} TrimContextGraphsInv(k: Config, s: State, c: ContextId, extra: multiset<ChunkId>,
                                                held: multiset<SampleId>, limbo: multiset<SampleId>)
    requires Inv(s, extra, held, limbo, None) && c in s.contexts
    ensures TrimContextGraphs(k, s, c).Some?
    ensures var t := TrimContextGraphs(k, s, c).value;
            && Inv(t, extra, held, limbo, None) && ContextTrimmed(s, t, c)
            && t.contexts[c].nGraphs == |t.contexts[c].graphs| == AtMost(|s.contexts[c].graphs|, k.maxGraphs)
    decreases s.contexts[c].nGraphs
  {
    hide Inv, PutPlainSample, SameData;
    SameDataSelf(s.chunks);
    ContextFacts(s, c, extra, held, limbo);
    var x := s.contexts[c];
    if x.nGraphs > k.maxGraphs {
      var id := x.graphs[0];
      var s0 := s.(contexts := s.contexts[c := x.(graphs := x.graphs[1..], nGraphs := x.nGraphs - 1)]);
      PopContextGraph(s, c, extra, held, limbo);
      PutPlainSampleInv(s0, id, extra, held + multiset{id}, limbo);
      assert held + multiset{id} - multiset{id} == held;
      var s1 := PutPlainSample(s0, id).value;
      TrimContextGraphsInv(k, s1, c, extra, held, limbo);
      SameDataTrans(s.chunks, s1.chunks, TrimContextGraphs(k, s1, c).value.chunks);
    }
  }

  // ---------------------------------------------------------------- recording windows

  function Last<T>(l: seq<T>): T
    requires l != []
  {
    l[|l| - 1]
  }

  /** new is what old became by dropping from the front and appending id. */
  predicate Shifted(old_: seq<SampleId>, new_: seq<SampleId>, id: SampleId) {
    && new_ != [] && Last(new_) == id && |new_| - 1 <= |old_|
    && new_[..|new_| - 1] == old_[|old_| - (|new_| - 1)..]
  }

  /** A list of finished windows takes one more, after it has been cut to the configured length. */
  predicate Pushed(k: Config, old_: seq<SampleId>, new_: seq<SampleId>, id: SampleId) {
    Shifted(old_, new_, id) && |new_| == AtMost(|old_|, k.maxGraphs) + 1
  }

  /** Sample id got its end; nothing else that is still there has changed. */
  ghost predicate Ended(s: State, t: State, id: SampleId, r: Ref, ts: nat) {
    && id in s.samples && id in t.samples
    && t.samples[id] == s.samples[id].(end := Some(r), timestampEnd := ts)
    && (forall j :: j in t.samples && j != id ==> j in s.samples && t.samples[j] == s.samples[j])
    && SameData(s.chunks, t.chunks)
  }

  /** The end stamp of a context's graph sample. */
  function ContextEnd(k: Config, rec: Record, m: AccumulatedSamples): nat
    requires rec.Sample?
  {
    if k.cpuTimestamps then rec.cpuTimestamp else m.accumulator.last
  }

  /** t is s after the current sample of context c was finished at r. */
  ghost predicate ContextRecorded(k: Config, s: State, t: State, c: ContextId, r: Ref) {
    && c in s.contexts && c in t.contexts && s.contexts[c].current.Some? && Deref(s.chunks, r).Some?
    && t.contexts == s.contexts[c := t.contexts[c]] && SameIdentity(s.contexts[c], t.contexts[c])
    && t.contexts[c].current.None? && SameSession(s, t) && t.hwContexts == s.hwContexts && t.table == s.table
    && (var id := s.contexts[c].current.value;
        && id in s.samples
        && Ended(s, t, id, r, ContextEnd(k, Deref(s.chunks, r).value, s.samples[id]))
        && Pushed(k, s.contexts[c].graphs, t.contexts[c].graphs, id))
  }

  /** The context's current sample is taken out to be finished. */
  lemma HoldContextGraph(s: State, c: ContextId, extra: multiset<ChunkId>, held: multiset<SampleId>,
                         limbo: multiset<SampleId>)
    requires Inv(s, extra, held, limbo, None) && c in s.contexts && s.contexts[c].current.Some?
    ensures var id := s.contexts[c].current.value;
            && Inv(s.(contexts := s.contexts[c := s.contexts[c].(current := None)]),
                   extra, held + multiset{id}, limbo, None)
            && id in s.samples && PlainOpen(s.samples[id])
  {
    hide Inv;
    ContextFacts(s, c, extra, held, limbo);
    var x := s.contexts[c];
    UpdateContextInv(s, c, x.(current := None), extra, held, held + multiset{x.current.value}, limbo);
  }

  lemma AppendContextGraph(s: State, c: ContextId, id: SampleId, extra: multiset<ChunkId>, held: multiset<SampleId>,
                           limbo: multiset<SampleId>)
    requires Inv(s, extra, held, limbo, None) && c in s.contexts && id in held
    requires id in s.samples ==> PlainDone(s.samples[id])
    ensures var x := s.contexts[c];
            Inv(s.(contexts := s.contexts[c := x.(graphs := x.graphs + [id], nGraphs := x.nGraphs + 1)]), extra,
                held - multiset{id}, limbo, None)
  {
    hide Inv, PlainDone;
    ContextFacts(s, c, extra, held, limbo);
    HeldIsLive(s, id, extra, held, limbo);
    var x := s.contexts[c];
    UpdateContextInv(s, c, x.(graphs := x.graphs + [id], nGraphs := x.nGraphs + 1), extra, held,
                     held - multiset{id}, limbo);
  }

  lemma ContextRecordForTimeInv(k: Config, s: State, c: ContextId, r: Ref, extra: multiset<ChunkId>,
                                limbo: multiset<SampleId>)
    requires ValidConfig(k) && Inv(s, extra, multiset{}, limbo, None)
    requires c in s.contexts && s.contexts[c].current.Some? && Deref(s.chunks, r).Some?
    ensures ContextRecordForTime(k, s, c, r).Some?
    ensures var t := ContextRecordForTime(k, s, c, r).value;
            Inv(t, extra, multiset{}, limbo, None) && ContextRecorded(k, s, t, c, r)
  {
    hide Inv, SetEnd, TrimContextGraphs, SameData, Deref;
    var id := s.contexts[c].current.value;
    HoldContextGraph(s, c, extra, multiset{}, limbo);
    var held := multiset{} + multiset{id};
    var ts := ContextEnd(k, Deref(s.chunks, r).value, s.samples[id]);
    var s0 := s.(contexts := s.contexts[c := s.contexts[c].(current := None)]);
    SetEndInv(s0, id, r, ts, extra, held, limbo);
    SetEndSession(s0, id, r, ts);
    var s1 := SetEnd(s0, id, r, ts).value;
    TrimContextGraphsInv(k, s1, c, extra, held, limbo);
    var s2 := TrimContextGraphs(k, s1, c).value;
    HeldIsLive(s2, id, extra, held, limbo);
    AppendContextGraph(s2, c, id, extra, held, limbo);
    assert held - multiset{id} == multiset{};
    SameDataTrans(s.chunks, s1.chunks, s2.chunks);
  }

  /** t is s after the global window was finished at r, time ts. */
  ghost predicate WindowRecorded(s: State, t: State, r: Ref, ts: nat) {
    && s.currentGraph.Some? && t.currentGraph.None? && SameContexts(s, t)
    && t.currentTimeline == s.currentTimeline && t.timelines == s.timelines && t.nTimelines == s.nTimelines
    && t.last == s.last && t.lastHwId == s.lastHwId && t.lastOaTimestamp == s.lastOaTimestamp
    && t.nextChunk == s.nextChunk
    && Ended(s, t, s.currentGraph.value, r, ts) && Shifted(s.graphs, t.graphs, s.currentGraph.value)
  }

  lemma RecordForTimeInv(k: Config, s: State, r: Ref, extra: multiset<ChunkId>, limbo: multiset<SampleId>)
    requires ValidConfig(k) && Inv(s, extra, multiset{}, limbo, None) && Lengths(s)
    requires s.currentGraph.Some? && Deref(s.chunks, r).Some?
    ensures Timestamp(k, s, r).Some? && RecordForTime(k, s, r).Some?
    ensures var t := RecordForTime(k, s, r).value;
            && Inv(t, extra, multiset{}, limbo, None) && Lengths(t) && WindowRecorded(s, t, r, Timestamp(k, s, r).value)
            && |t.graphs| == AtMost(|s.graphs|, k.maxGraphs) + 1
  {
    hide Inv, SetEnd, TrimGraphs, SameData, Deref, Timestamp;
    StampRuns(k, s, r, extra, limbo);
    var id := s.currentGraph.value;
    HoldGraph(s, id, extra, multiset{}, limbo);
    var held := multiset{} + multiset{id};
    var ts := Timestamp(k, s, r).value;
    var s0 := s.(currentGraph := None);
    SetEndInv(s0, id, r, ts, extra, held, limbo);
    SetEndSession(s0, id, r, ts);
    var s1 := SetEnd(s0, id, r, ts).value;
    TrimGraphsInv(k, s1, extra, held, limbo);
    var s2 := TrimGraphs(k, s1).value;
    HeldIsLive(s2, id, extra, held, limbo);
    AppendGraph(s2, id, extra, held, limbo, s2.nGraphs + 1);
    assert held - multiset{id} == multiset{};
    SameDataTrans(s.chunks, s1.chunks, s2.chunks);
  }

  /** Stamps depend only on where the stream stands. */
  lemma StampStays(k: Config, s: State, t: State, r: Ref, extra: multiset<ChunkId>, limbo: multiset<SampleId>)
    requires ValidConfig(k) && Inv(s, extra, multiset{}, limbo, None) && Deref(s.chunks, r).Some?
    requires t.last == s.last && t.lastOaTimestamp == s.lastOaTimestamp
    requires SameData(s.chunks, t.chunks) && t.chunks.Keys == s.chunks.Keys
    ensures Timestamp(k, t, r) == Timestamp(k, s, r) && Timestamp(k, s, r).Some?
  {
    hide Inv, SameData, Deref, Wrap64, ScaleNs;
    StampRuns(k, s, r, extra, limbo);
    DerefKept(s.chunks, t.chunks, r);
    LastIsSound(s, extra, limbo);
    if s.last.Some? {
      DerefKept(s.chunks, t.chunks, s.last.value);
    }
  }

  lemma LastIsSound(s: State, extra: multiset<ChunkId>, limbo: multiset<SampleId>)
    requires Inv(s, extra, multiset{}, limbo, None)
    ensures s.last.Some? ==> Deref(s.chunks, s.last.value).Some?
  {
    hide Mem, Allocated, Placed, Tabled, Rows, Counted, Filed, Sound, Deref;
  }

  lemma StampRuns(k: Config, s: State, r: Ref, extra: multiset<ChunkId>, limbo: multiset<SampleId>)
    requires ValidConfig(k) && Inv(s, extra, multiset{}, limbo, None) && Deref(s.chunks, r).Some?
    ensures Timestamp(k, s, r).Some?
  {
    hide Mem, Allocated, Placed, Tabled, Rows, Counted, Filed, Timestamp;
    TimestampRuns(k, s, r);
  }

  // ---------------------------------------------------------------- recording segments

  lemma WrapAdd(x: int, y: int)
    ensures Wrap64(Wrap64(x) + y) == Wrap64(x + y)
    ensures Wrap64(Wrap64(x) - y) == Wrap64(x - y)
  {
    ModSum(x, y);
    ModSum(x, -y);
  }

  lemma TimeOfAppend(samples: map<SampleId, AccumulatedSamples>, l: seq<SampleId>, id: SampleId, c: ContextId)
    ensures TimeOf(samples, l + [id], c) == TimeOf(samples, l, c) + TimeOf(samples, [id], c)
  {
    hide Length;
    if l == [] {
      assert l + [id] == [id];
    } else {
      TimeOfAppend(samples, l[1..], id, c);
      assert (l + [id])[1..] == l[1..] + [id];
    }
  }

  function Timed1(x: HwContext, time: nat): HwContext {
    x.(timeSpent := time)
  }

  /** Time and the segment list change together; everything else about contexts stays. */
  lemma RetimeInv(s: State, c: ContextId, time: nat, l: seq<SampleId>, n: nat, extra: multiset<ChunkId>,
                  held: multiset<SampleId>, held': multiset<SampleId>, limbo: multiset<SampleId>)
    requires Inv(s, extra, held, limbo, None) && c in s.contexts
    requires multiset(s.timelines) + held == multiset(l) + held'
    requires forall id :: id in l && id in s.samples ==> TimelineDone(s.samples[id])
    requires forall d :: d in s.contexts ==>
               Wrap64(TimeOf(s.samples, l, d)) == if d == c then time else s.contexts[d].timeSpent
    ensures Inv(s.(timelines := l, nTimelines := n, contexts := s.contexts[c := Timed1(s.contexts[c], time)]),
                extra, held', limbo, None)
  {
    hide Core, Placed, Rows, Counted, Filed, Keyed, TimelineDone, TimeOf, Wrap64, Own, ContextSlots;
    var t := s.(timelines := l, nTimelines := n, contexts := s.contexts[c := Timed1(s.contexts[c], time)]);
    CoreFrame(s, t, extra, limbo);
    RetimeTabled(s, c, time, t);
    RetimeFiled(s, c, time, t);
    assert Counted(t, None) by { RetimeCounted(s, c, time, t); }
    assert Own(t.contexts[c]) == Own(s.contexts[c]) by { OwnOfTimed(s.contexts[c], time); }
    RetimePlaced(s, c, time, t, held, held');
  }

  lemma OwnOfTimed(x: HwContext, time: nat)
    ensures Own(Timed1(x, time)) == Own(x)
  {
  }

  lemma RetimePlaced(s: State, c: ContextId, time: nat, t: State, held: multiset<SampleId>, held': multiset<SampleId>)
    requires Placed(s, held) && c in s.contexts && Members(s.hwContexts, s.contexts)
    requires t == s.(timelines := t.timelines, nTimelines := t.nTimelines,
                     contexts := s.contexts[c := Timed1(s.contexts[c], time)])
    requires multiset(s.timelines) + held == multiset(t.timelines) + held'
    ensures Placed(t, held')
  {
    hide Own, ContextSlots, Ascending;
    forall d | d in s.hwContexts ensures OwnAt(s.contexts, d) == OwnAt(t.contexts, d) {
      OwnOfTimed(s.contexts[c], time);
    }
    ContextSlotsFrame(s.contexts, t.contexts, s.hwContexts);
    var own := ContextSlots(s.contexts, s.hwContexts);
    var rest := multiset(s.graphs) + multiset(OptionSeq(s.currentGraph)) + multiset(OptionSeq(s.currentTimeline)) + own;
    assert SessionSlots(s) + own + held == rest + (multiset(s.timelines) + held);
    assert SessionSlots(t) + own + held' == rest + (multiset(t.timelines) + held');
  }

  lemma RetimeTabled(s: State, c: ContextId, time: nat, t: State)
    requires Tabled(s) && Rows(s.contexts, s.hwContexts) && c in s.contexts
    requires t.contexts == s.contexts[c := Timed1(s.contexts[c], time)]
    requires t.hwContexts == s.hwContexts && t.table == s.table && t.nextContext == s.nextContext
    ensures Tabled(t) && Rows(t.contexts, t.hwContexts)
  {
    hide Ascending, InTable;
    forall h | h in t.table ensures Named(t.contexts, t.table[h], h) {
      assert Named(s.contexts, s.table[h], h);
    }
    forall d | d in t.contexts ensures InTable(t.table, d, t.contexts[d].hwId) {
      assert InTable(s.table, d, s.contexts[d].hwId);
    }
  }

  lemma RetimeCounted(s: State, c: ContextId, time: nat, t: State)
    requires Counted(s, None) && c in s.contexts && t.samples == s.samples
    requires t.contexts == s.contexts[c := Timed1(s.contexts[c], time)]
    ensures Counted(t, None)
  {
    hide Users;
  }

  lemma RetimeFiled(s: State, c: ContextId, time: nat, t: State)
    requires Filed(s) && c in s.contexts && t.samples == s.samples
    requires t == s.(timelines := t.timelines, nTimelines := t.nTimelines,
                     contexts := s.contexts[c := Timed1(s.contexts[c], time)])
    requires forall id :: id in t.timelines && id in s.samples ==> TimelineDone(s.samples[id])
    requires forall d :: d in s.contexts ==>
               Wrap64(TimeOf(s.samples, t.timelines, d)) == if d == c then time else s.contexts[d].timeSpent
    ensures Filed(t)
  {
    hide TimeOf, Wrap64, TimelineDone, PlainDone;
  }

  lemma SegmentFacts(s: State, id: SampleId, extra: multiset<ChunkId>, held: multiset<SampleId>,
                     limbo: multiset<SampleId>)
    requires Inv(s, extra, held, limbo, None) && id in s.samples && s.samples[id].context.Some? && Lengths(s)
    ensures s.samples[id].context.value in s.contexts
    ensures forall d :: d in s.contexts ==> s.contexts[d].timeSpent == Wrap64(TimeOf(s.samples, s.timelines, d))
    ensures forall j :: j in s.timelines ==> j in s.samples && TimelineDone(s.samples[j])
  {
    hide Core, Placed, Tabled, Rows, TimeOf;
    ListedLive(s, held);
  }

  function NewTime(x: HwContext, m: AccumulatedSamples, add: bool): nat {
    var delta: int := Length(m);
    var time: int := if add then x.timeSpent + delta else x.timeSpent - delta;
    Wrap64(time)
  }

  lemma FirstSegment(s: State, extra: multiset<ChunkId>, held: multiset<SampleId>, limbo: multiset<SampleId>)
    requires Inv(s, extra, held, limbo, None) && s.timelines != []
    ensures s.timelines[0] in s.samples && TimelineDone(s.samples[s.timelines[0]])
    ensures s.samples[s.timelines[0]].context.Some?
  {
    hide Core, Placed, Tabled, Rows, Counted, Filed;
    ListedLive(s, held);
    CurrentKinds(s);
    assert s.timelines[0] in s.timelines;
  }

  lemma PopTimeline(s: State, extra: multiset<ChunkId>, held: multiset<SampleId>, limbo: multiset<SampleId>)
    requires Inv(s, extra, held, limbo, None) && s.timelines != [] && Lengths(s)
    ensures var id := s.timelines[0];
            && id in s.samples && TimelineDone(s.samples[id]) && AddTime(s, s.samples[id], false).Some?
            && Inv(PopSegment(AddTime(s, s.samples[id], false).value), extra, held + multiset{id}, limbo, None)
  {
    hide Inv, TimeOf, Wrap64, Length, TimelineDone, AddTime;
    var id, l := s.timelines[0], s.timelines[1..];
    assert id in s.timelines;
    FirstSegment(s, extra, held, limbo);
    SegmentFacts(s, id, extra, held, limbo);
    var c := s.samples[id].context.value;
    var time := NewTime(s.contexts[c], s.samples[id], false);
    assert s.timelines == [id] + l;
    assert multiset(s.timelines) == multiset{id} + multiset(l);
    forall d | d in s.contexts
      ensures Wrap64(TimeOf(s.samples, l, d)) == if d == c then time else s.contexts[d].timeSpent
    {
      TimeOfFirst(s.samples, s.timelines, d);
      if d == c {
        WrapAdd(TimeOf(s.samples, s.timelines, c), Length(s.samples[id]));
      }
    }
    RetimeInv(s, c, time, l, s.nTimelines - 1, extra, held, held + multiset{id}, limbo);
    AddTimeIs(s, s.samples[id], false);
  }

  lemma TimeOfFirst(samples: map<SampleId, AccumulatedSamples>, l: seq<SampleId>, d: ContextId)
    requires l != [] && l[0] in samples
    ensures TimeOf(samples, l, d)
         == (if samples[l[0]].context == Some(d) then Length(samples[l[0]]) else 0) + TimeOf(samples, l[1..], d)
  {
  }

  lemma AddTimeIs(s: State, m: AccumulatedSamples, add: bool)
    requires m.context.Some? && m.context.value in s.contexts
    ensures var c := m.context.value;
            AddTime(s, m, add)
            == Some(s.(contexts := s.contexts[c := Timed1(s.contexts[c], NewTime(s.contexts[c], m, add))]))
  {
  }

  lemma AppendTimeline(s: State, id: SampleId, extra: multiset<ChunkId>, held: multiset<SampleId>,
                       limbo: multiset<SampleId>)
    requires Inv(s, extra, held, limbo, None) && id in held && Lengths(s)
    requires id in s.samples ==> TimelineDone(s.samples[id])
    ensures id in s.samples
    ensures var t := AddTime(s.(timelines := s.timelines + [id], nTimelines := s.nTimelines + 1), s.samples[id], true);
            t.Some? && Inv(t.value, extra, held - multiset{id}, limbo, None)
  {
    hide Inv, TimeOf, Wrap64, Length, TimelineDone;
    HeldIsLive(s, id, extra, held, limbo);
    assert s.samples[id].context.Some? by { DoneHasContext(s.samples[id]); }
    SegmentFacts(s, id, extra, held, limbo);
    var c, l := s.samples[id].context.value, s.timelines + [id];
    var time := NewTime(s.contexts[c], s.samples[id], true);
    forall d | d in s.contexts
      ensures Wrap64(TimeOf(s.samples, l, d)) == if d == c then time else s.contexts[d].timeSpent
    {
      TimeOfAppend(s.samples, s.timelines, id, d);
      TimeOfOne(s.samples, id, d);
      if d == c {
        WrapAdd(TimeOf(s.samples, s.timelines, c), Length(s.samples[id]));
      }
    }
    RetimeInv(s, c, time, l, s.nTimelines + 1, extra, held, held - multiset{id}, limbo);
    AddTimeIs(s.(timelines := l, nTimelines := s.nTimelines + 1), s.samples[id], true);
  }

  lemma DoneHasContext(m: AccumulatedSamples)
    requires TimelineDone(m)
    ensures m.context.Some? && m.end.Some?
  {
  }

  lemma TimeOfOne(samples: map<SampleId, AccumulatedSamples>, id: SampleId, d: ContextId)
    requires id in samples
    ensures TimeOf(samples, [id], d) == if samples[id].context == Some(d) then Length(samples[id]) else 0
  {
    TimeOfFirst(samples, [id], d);
  }

  /** Contexts may have gone but have kept their ids. */
  ghost predicate SubIds(s: State, t: State) {
    forall c :: c in t.contexts ==> c in s.contexts && t.contexts[c].hwId == s.contexts[c].hwId
  }

  /** t differs from s in the segment list, in what was dropped from it, and in the contexts' times. */
  ghost predicate TimelinesTrimmed(s: State, t: State) {
    && t.currentGraph == s.currentGraph && t.graphs == s.graphs && t.nGraphs == s.nGraphs
    && t.currentTimeline == s.currentTimeline
    && t.last == s.last && t.lastHwId == s.lastHwId && t.lastOaTimestamp == s.lastOaTimestamp
    && t.nextChunk == s.nextChunk
    && SubSamples(t.samples, s.samples) && SameData(s.chunks, t.chunks) && SameOwned(s.contexts, t.contexts)
    && |t.timelines| <= |s.timelines| && t.timelines == s.timelines[|s.timelines| - |t.timelines|..]
  }

  /** What contexts have gathered for their graphs does not depend on the segment list. */
  ghost predicate SameOwned(a: map<ContextId, HwContext>, b: map<ContextId, HwContext>) {
    forall c :: c in b ==> c in a && Owns(a[c], b[c])
  }

  predicate Owns(a: HwContext, b: HwContext) {
    a.hwId == b.hwId && a.current == b.current && a.graphs == b.graphs
  }

  lemma SameOwnedTrans(a: map<ContextId, HwContext>, b: map<ContextId, HwContext>, c: map<ContextId, HwContext>)
    requires SameOwned(a, b) && SameOwned(b, c)
    ensures SameOwned(a, c)
  {
  }

  /** The context of a held sample, and the sample, survive the trimming. */
  ghost predicate Survives(s: State, id: SampleId) {
    id in s.samples && s.samples[id].context.Some? && s.samples[id].context.value in s.contexts
  }

  /** How many segments at the front of l start too long before `end` to be kept. */
  function Overdue(k: Config, samples: map<SampleId, AccumulatedSamples>, l: seq<SampleId>, end: nat): (n: nat)
    ensures n <= |l|
  {
    if l == [] || l[0] !in samples || Wrap64(end - samples[l[0]].timestampStart) <= k.visiblePeriod then 0
    else 1 + Overdue(k, samples, l[1..], end)
  }

  lemma {:induction false} OverdueFrame(k: Config, a: map<SampleId, AccumulatedSamples>, b: map<SampleId,
                                        AccumulatedSamples>,
                                        l: seq<SampleId>, end: nat)
    requires forall id :: id in l ==> id in a && id in b && a[id].timestampStart == b[id].timestampStart
    ensures Overdue(k, a, l, end) == Overdue(k, b, l, end)
  {
    hide Wrap64;
    if l != [] {
      assert l[0] in l;
      OverdueFrame(k, a, b, l[1..], end);
    }
  }

  lemma PopTimelineStep(k: Config, s: State, id: SampleId, extra: multiset<ChunkId>, held: multiset<SampleId>,
                        limbo: multiset<SampleId>)
    requires Inv(s, extra, held, limbo, None) && Lengths(s) && s.timelines != []
    requires id in held && Survives(s, id)
    ensures s.timelines[0] in s.samples && AddTime(s, s.samples[s.timelines[0]], false).Some?
    ensures var s1 := AddTime(s, s.samples[s.timelines[0]], false).value;
            && (var t := PutSample(PopSegment(s1), s1.timelines[0]);
                && t.Some? && Inv(t.value, extra, held, limbo, None) && Lengths(t.value) && Survives(t.value, id)
                && TimelinesTrimmed(s, t.value) && t.value.timelines == s.timelines[1..])
  {
    hide Inv, PutSample, SameData, Length, TimelineDone, Kin, Users, Owns;
    PopTimeline(s, extra, held, limbo);
    var first := s.timelines[0];
    var s1 := AddTime(s, s.samples[first], false).value;
    var s0 := PopSegment(s1);
    HeldApart(s, id, extra, held, limbo);
    PutSampleInv(s0, first, extra, held + multiset{first}, limbo);
    assert held + multiset{first} - multiset{first} == held;
    var s2 := PutSample(s0, first).value;
    SurvivesDrop(s0, s2, first, id);
    FirstSegment(s, extra, held, limbo);
    AddTimeOwns(s, s.samples[first], false);
    SameOwnedRetimed(s, s0, s2);
  }

  lemma HeldApart(s: State, id: SampleId, extra: multiset<ChunkId>, held: multiset<SampleId>, limbo: multiset<SampleId>)
    requires Inv(s, extra, held, limbo, None) && id in held
    ensures id !in s.timelines
  {
    hide Core, Tabled, Rows, Counted, Filed, Placed;
    ListedApart(s, held);
    InSession(s);
  }

  lemma SurvivesDrop(s: State, t: State, gone: SampleId, id: SampleId)
    requires Survives(s, id) && Drops(s, t, gone) && id != gone
    ensures Survives(t, id)
  {
    hide Kin;
    assert id in Users(s.samples, s.samples[id].context.value) - {gone};
  }

  lemma SameOwnedRetimed(s: State, s0: State, t: State)
    requires SameOwned(s.contexts, s0.contexts)
    requires KinAll(s0.contexts, t.contexts)
    ensures SameOwned(s.contexts, t.contexts)
  {
    forall c | c in t.contexts ensures c in s.contexts && Owns(s.contexts[c], t.contexts[c]) {
      assert Owns(s.contexts[c], s0.contexts[c]);
      KinOf(s0.contexts[c], t.contexts[c]);
    }
  }

  lemma AddTimeOwns(s: State, m: AccumulatedSamples, add: bool)
    requires AddTime(s, m, add).Some?
    ensures SameOwned(s.contexts, AddTime(s, m, add).value.contexts)
  {
  }

  lemma {:induction false} TrimTimelinesInv(k: Config, s: State, end: nat, id: SampleId, extra: multiset<ChunkId>,
                                            held: multiset<SampleId>, limbo: multiset<SampleId>)
    requires Inv(s, extra, held, limbo, None) && Lengths(s) && id in held && Survives(s, id)
    ensures TrimTimelines(k, s, end).Some?
    ensures var t := TrimTimelines(k, s, end).value;
            && Inv(t, extra, held, limbo, None) && Lengths(t) && Survives(t, id) && TimelinesTrimmed(s, t)
            && |t.timelines| == |s.timelines| - Overdue(k, s.samples, s.timelines, end)
    decreases |s.timelines|
  {
    hide Inv, PutSample, AddTime, SameData, Owns, Wrap64;
    SameDataSelf(s.chunks);
    SameOwnedSelf(s.contexts);
    if s.timelines != [] {
      PopTimelineStep(k, s, id, extra, held, limbo);
      var first := s.samples[s.timelines[0]];
      if Wrap64(end - first.timestampStart) > k.visiblePeriod {
        var s1 := AddTime(s, first, false).value;
        var t0 := PutSample(PopSegment(s1), s1.timelines[0]).value;
        TrimTimelinesInv(k, t0, end, id, extra, held, limbo);
        var t := TrimTimelines(k, t0, end).value;
        SameDataTrans(s.chunks, t0.chunks, t.chunks);
        SameOwnedTrans(s.contexts, t0.contexts, t.contexts);
        TimelinesLive(t0, extra, held, limbo);
        OverdueFrame(k, s.samples, t0.samples, t0.timelines, end);
      }
    }
  }

  lemma TimelinesLive(s: State, extra: multiset<ChunkId>, held: multiset<SampleId>, limbo: multiset<SampleId>)
    requires Inv(s, extra, held, limbo, None)
    ensures forall id :: id in s.timelines ==> id in s.samples
  {
    hide Core, Tabled, Rows, Counted, Filed, Placed;
    ListedLive(s, held);
  }

  lemma SameOwnedSelf(a: map<ContextId, HwContext>)
    ensures SameOwned(a, a)
  {
  }

  /** t is s after the current segment was finished at r, time ts. */
  ghost predicate SegmentRecorded(k: Config, s: State, t: State, r: Ref, ts: nat) {
    && s.currentTimeline.Some? && t.currentTimeline.None?
    && t.currentGraph == s.currentGraph && t.graphs == s.graphs && t.nGraphs == s.nGraphs
    && t.last == s.last && t.lastHwId == s.lastHwId && t.lastOaTimestamp == s.lastOaTimestamp
    && t.nextChunk == s.nextChunk && SameOwned(s.contexts, t.contexts)
    && (var id := s.currentTimeline.value;
        && Ended(s, t, id, r, ts) && Shifted(s.timelines, t.timelines, id) && Survives(t, id)
        && |t.timelines| == |s.timelines| - Overdue(k, s.samples, s.timelines, ts) + 1)
  }

  lemma RecordForHwIdInv(k: Config, s: State, r: Ref, extra: multiset<ChunkId>, limbo: multiset<SampleId>)
    requires ValidConfig(k) && Inv(s, extra, multiset{}, limbo, None) && Lengths(s)
    requires s.currentTimeline.Some? && Deref(s.chunks, r).Some?
    ensures Timestamp(k, s, r).Some? && RecordForHwId(k, s, r).Some?
    ensures var t := RecordForHwId(k, s, r).value;
            && Inv(t, extra, multiset{}, limbo, None) && Lengths(t)
            && SegmentRecorded(k, s, t, r, Timestamp(k, s, r).value)
  {
    hide Inv, SetEnd, TrimTimelines, SameData, Deref, Timestamp, AddTime, Owns, Wrap64;
    StampRuns(k, s, r, extra, limbo);
    var id := s.currentTimeline.value;
    HoldTimeline(s, id, extra, multiset{}, limbo);
    var held := multiset{} + multiset{id};
    var ts := Timestamp(k, s, r).value;
    var s0 := s.(currentTimeline := None);
    SetEndInv(s0, id, r, ts, extra, held, limbo);
    SetEndSession(s0, id, r, ts);
    var s1 := SetEnd(s0, id, r, ts).value;
    SegmentFacts(s1, id, extra, held, limbo);
    TrimTimelinesInv(k, s1, ts, id, extra, held, limbo);
    var s2 := TrimTimelines(k, s1, ts).value;
    AppendTimeline(s2, id, extra, held, limbo);
    assert held - multiset{id} == multiset{};
    var s3 := s2.(timelines := s2.timelines + [id], nTimelines := s2.nTimelines + 1);
    var t := AddTime(s3, s2.samples[id], true).value;
    AddTimeIs(s3, s2.samples[id], true);
    SameDataTrans(s.chunks, s1.chunks, s2.chunks);
    TimelinesLive(s0, extra, held, limbo);
    HeldApart(s0, id, extra, held, limbo);
    OverdueFrame(k, s.samples, s1.samples, s.timelines, ts);
    SameOwnedTimed(s.contexts, s2.contexts, s2.samples[id].context.value, t.contexts);
  }

  lemma SameOwnedTimed(a: map<ContextId, HwContext>, b: map<ContextId, HwContext>, c: ContextId, t: map<ContextId,
                       HwContext>)
    requires SameOwned(a, b) && c in b && c in t && t == b[c := Timed1(b[c], t[c].timeSpent)]
    ensures SameOwned(a, t)
  {
    forall d | d in t ensures d in a && Owns(a[d], t[d]) {
      assert Owns(a[d], b[d]);
    }
  }

  // ---------------------------------------------------------------- all contexts at once

  /** Two contexts never share a sample. */
  lemma OwnDisjoint(s: State, c: ContextId, d: ContextId, id: SampleId, extra: multiset<ChunkId>,
                    held: multiset<SampleId>, limbo: multiset<SampleId>)
    requires Inv(s, extra, held, limbo, None) && c in s.contexts && d in s.contexts && c != d
    ensures !(id in Own(s.contexts[c]) && id in Own(s.contexts[d]))
  {
    hide Core, Rows, Counted, Filed, Keyed, Own, ContextSlots, SessionSlots, Ascending;
    var l := s.hwContexts;
    ContextSlotsRemove(s.contexts, l, c);
    RemoveKeepsOrder(l, c);
    ContextSlotsRemove(s.contexts, Remove(l, c), d);
    assert multiset(s.samples.Keys)[id] <= 1;
    assert Own(s.contexts[c]) + Own(s.contexts[d]) <= multiset(s.samples.Keys);
    assert (Own(s.contexts[c]) + Own(s.contexts[d]))[id] <= 1;
  }

  /** What finishing its window at r does to context c. */
  ghost predicate RecordedIn(k: Config, s: State, t: State, c: ContextId, r: Ref) {
    && c in s.contexts && c in t.contexts && s.contexts[c].current.Some? && Deref(s.chunks, r).Some?
    && SameIdentity(s.contexts[c], t.contexts[c]) && t.contexts[c].current.None?
    && (var id := s.contexts[c].current.value;
        && id in s.samples && id in t.samples
        && t.samples[id] == s.samples[id].(end := Some(r),
                                           timestampEnd := ContextEnd(k, Deref(s.chunks, r).value, s.samples[id]))
        && Pushed(k, s.contexts[c].graphs, t.contexts[c].graphs, id))
  }

  ghost predicate IsCurrent(s: State, id: SampleId, i: nat) {
    exists j :: i <= j < |s.hwContexts| && s.hwContexts[j] in s.contexts
                && s.contexts[s.hwContexts[j]].current == Some(id)
  }

  /** All contexts from the i-th on have finished their windows at r. */
  ghost predicate AllRecorded(k: Config, s: State, t: State, r: Ref, i: nat) {
    && SameSession(s, t) && t.hwContexts == s.hwContexts && t.table == s.table && SameData(s.chunks, t.chunks)
    && t.contexts.Keys == s.contexts.Keys
    && (forall j :: 0 <= j < i && j < |s.hwContexts| && s.hwContexts[j] in s.contexts
                    ==> t.contexts[s.hwContexts[j]] == s.contexts[s.hwContexts[j]])
    && (forall j :: i <= j < |s.hwContexts| ==> RecordedIn(k, s, t, s.hwContexts[j], r))
    && (forall id :: id in t.samples ==> id in s.samples && (t.samples[id] == s.samples[id] || IsCurrent(s, id, i)))
  }

  /** From the i-th on, contexts have a window under way. */
  ghost predicate OpenFrom(s: State, i: nat) {
    forall j :: i <= j < |s.hwContexts| ==>
      s.hwContexts[j] in s.contexts && s.contexts[s.hwContexts[j]].current.Some?
  }

  lemma HwContextAt(s: State, i: nat, extra: multiset<ChunkId>, held: multiset<SampleId>, limbo: multiset<SampleId>)
    requires Inv(s, extra, held, limbo, None) && i < |s.hwContexts|
    ensures s.hwContexts[i] in s.contexts
    ensures forall j :: 0 <= j < |s.hwContexts| && j != i ==> s.hwContexts[j] != s.hwContexts[i]
  {
    hide Core, Placed, Rows, Counted, Filed, Keyed;
    assert s.hwContexts[i] in s.hwContexts;
  }

  lemma HwContextsLive(s: State, extra: multiset<ChunkId>, held: multiset<SampleId>, limbo: multiset<SampleId>)
    requires Inv(s, extra, held, limbo, None)
    ensures forall j :: 0 <= j < |s.hwContexts| ==> s.hwContexts[j] in s.contexts
    ensures forall c :: c in s.contexts ==> c in s.hwContexts
  {
    hide Core, Placed, Rows, Counted, Filed, Keyed, Ascending;
    forall j | 0 <= j < |s.hwContexts| ensures s.hwContexts[j] in s.contexts {
      assert s.hwContexts[j] in s.hwContexts;
    }
  }

  /** The chunk of the running handler stays, and so do the records in it. */
  lemma HandlerKeeps(s: State, t: State, r: Ref, extra: multiset<ChunkId>, held: multiset<SampleId>,
                     limbo: multiset<SampleId>)
    requires Inv(t, extra, held, limbo, None) && r.chunk in extra && SameData(s.chunks, t.chunks)
    ensures r.chunk in t.chunks && r.chunk in s.chunks && t.chunks[r.chunk].data == s.chunks[r.chunk].data
    ensures Deref(t.chunks, r) == Deref(s.chunks, r)
  {
    hide Allocated, Points, Placed, Tabled, Rows, Counted, Filed, RefCount, Listed;
    assert Count(t.chunks, r.chunk) > 0;
  }

  lemma {:induction false} ContextsRecordForTimeInv(k: Config, s: State, r: Ref, i: nat, extra: multiset<ChunkId>,
                                                    limbo: multiset<SampleId>)
    requires ValidConfig(k) && Inv(s, extra, multiset{}, limbo, None) && i <= |s.hwContexts| && OpenFrom(s, i)
    requires r.chunk in extra && Deref(s.chunks, r).Some?
    ensures ContextsRecordForTime(k, s, r, i).Some?
    ensures var t := ContextsRecordForTime(k, s, r, i).value;
            Inv(t, extra, multiset{}, limbo, None) && AllRecorded(k, s, t, r, i)
    decreases |s.hwContexts| - i
  {
    hide Inv, ContextRecordForTime, SameData, Deref, RecordedIn, IsCurrent, AllRecorded, ContextRecorded;
    if i == |s.hwContexts| {
      NoneRecorded(k, s, r);
    } else {
      var c := s.hwContexts[i];
      ContextRecordForTimeInv(k, s, c, r, extra, limbo);
      var s1 := ContextRecordForTime(k, s, c, r).value;
      HandlerKeepsRecorded(k, s, s1, c, r, extra, limbo);
      StillOpen(k, s, s1, r, i, extra, limbo);
      ContextsRecordForTimeInv(k, s1, r, i + 1, extra, limbo);
      var t := ContextsRecordForTime(k, s1, r, i + 1).value;
      RecordedMore(k, s, s1, t, r, i, extra, limbo);
    }
  }

  lemma NoneRecorded(k: Config, s: State, r: Ref)
    ensures AllRecorded(k, s, s, r, |s.hwContexts|)
  {
  }

  lemma HandlerKeepsRecorded(k: Config, s: State, t: State, c: ContextId, r: Ref, extra: multiset<ChunkId>,
                             limbo: multiset<SampleId>)
    requires Inv(t, extra, multiset{}, limbo, None) && r.chunk in extra && ContextRecorded(k, s, t, c, r)
    ensures Deref(t.chunks, r) == Deref(s.chunks, r)
  {
    hide Inv, Deref, SameData;
    HandlerKeeps(s, t, r, extra, multiset{}, limbo);
  }

  lemma StillOpen(k: Config, s: State, s1: State, r: Ref, i: nat, extra: multiset<ChunkId>, limbo: multiset<SampleId>)
    requires Inv(s, extra, multiset{}, limbo, None) && i < |s.hwContexts| && OpenFrom(s, i)
    requires ContextRecorded(k, s, s1, s.hwContexts[i], r)
    ensures OpenFrom(s1, i + 1) && s1.hwContexts == s.hwContexts
  {
    hide Inv, Deref, SameData, Ended, Shifted, SameIdentity;
    HwContextAt(s, i, extra, multiset{}, limbo);
  }

  lemma RecordedMore(k: Config, s: State, s1: State, t: State, r: Ref, i: nat, extra: multiset<ChunkId>,
                     limbo: multiset<SampleId>)
    requires Inv(s, extra, multiset{}, limbo, None) && i < |s.hwContexts| && OpenFrom(s, i)
    requires Inv(s1, extra, multiset{}, limbo, None) && Inv(t, extra, multiset{}, limbo, None)
    requires ContextRecorded(k, s, s1, s.hwContexts[i], r) && AllRecorded(k, s1, t, r, i + 1)
    requires Deref(s1.chunks, r) == Deref(s.chunks, r)
    ensures AllRecorded(k, s, t, r, i)
  {
    hide Inv, Deref, SameData, RecordedIn, IsCurrent, ContextEnd, SameIdentity, Shifted;
    var c := s.hwContexts[i];
    HwContextAt(s, i, extra, multiset{}, limbo);
    HwContextsLive(s, extra, multiset{}, limbo);
    SameDataTrans(s.chunks, s1.chunks, t.chunks);
    RecordedFirst(k, s, s1, t, r, i, extra, limbo);
    forall j | i <= j < |s.hwContexts| ensures RecordedIn(k, s, t, s.hwContexts[j], r) {
      if j != i {
        RecordedOther(k, s, s1, t, c, s.hwContexts[j], r, extra, limbo);
      }
    }
    forall id | id in t.samples ensures id in s.samples && (t.samples[id] == s.samples[id] || IsCurrent(s, id, i)) {
      CurrentBefore(k, s, s1, id, i, r, extra, limbo);
    }
  }

  lemma CurrentBefore(k: Config, s: State, s1: State, id: SampleId, i: nat, r: Ref, extra: multiset<ChunkId>,
                      limbo: multiset<SampleId>)
    requires Inv(s, extra, multiset{}, limbo, None) && i < |s.hwContexts|
    requires ContextRecorded(k, s, s1, s.hwContexts[i], r)
    ensures IsCurrent(s1, id, i + 1) ==> IsCurrent(s, id, i)
    ensures s.contexts[s.hwContexts[i]].current == Some(id) ==> IsCurrent(s, id, i)
  {
    hide Inv, Ended, Deref, Shifted, SameIdentity;
    HwContextAt(s, i, extra, multiset{}, limbo);
    if IsCurrent(s1, id, i + 1) {
      var j :| i + 1 <= j < |s1.hwContexts| && s1.hwContexts[j] in s1.contexts
               && s1.contexts[s1.hwContexts[j]].current == Some(id);
      assert s.hwContexts[j] in s.contexts && s.contexts[s.hwContexts[j]].current == Some(id);
    }
  }

  lemma RecordedOther(k: Config, s: State, s1: State, t: State, c: ContextId, d: ContextId, r: Ref,
                      extra: multiset<ChunkId>, limbo: multiset<SampleId>)
    requires Inv(s, extra, multiset{}, limbo, None) && c in s.contexts && d in s.contexts && c != d
    requires ContextRecorded(k, s, s1, c, r) && RecordedIn(k, s1, t, d, r) && Deref(s1.chunks, r) == Deref(s.chunks, r)
    ensures RecordedIn(k, s, t, d, r)
  {
    hide Inv, Deref, SameData, ContextEnd, SameIdentity, Shifted;
    var id := s.contexts[d].current.value;
    assert id in Own(s.contexts[d]) && s.contexts[c].current.value in Own(s.contexts[c]) by {
      CurrentIsOwn(s.contexts[d]);
      CurrentIsOwn(s.contexts[c]);
    }
    OwnDisjoint(s, c, d, id, extra, multiset{}, limbo);
  }

  lemma CurrentIsOwn(x: HwContext)
    requires x.current.Some?
    ensures x.current.value in Own(x)
  {
    assert x.current.value in multiset(OptionSeq(x.current));
  }

  lemma LastIsOwn(x: HwContext)
    requires x.graphs != []
    ensures Last(x.graphs) in Own(x)
  {
    assert Last(x.graphs) in multiset(x.graphs);
  }

  /** The first of them is left alone by the others. */
  lemma RecordedFirst(k: Config, s: State, s1: State, t: State, r: Ref, i: nat, extra: multiset<ChunkId>,
                      limbo: multiset<SampleId>)
    requires i < |s.hwContexts| && Inv(s, extra, multiset{}, limbo, None)
    requires Inv(s1, extra, multiset{}, limbo, None) && Inv(t, extra, multiset{}, limbo, None)
    requires ContextRecorded(k, s, s1, s.hwContexts[i], r) && AllRecorded(k, s1, t, r, i + 1)
    ensures RecordedIn(k, s, t, s.hwContexts[i], r)
  {
    hide Inv, Deref, SameData, RecordedIn, ContextEnd, SameIdentity, IsCurrent, Shifted;
    var c := s.hwContexts[i];
    var id := s.contexts[c].current.value;
    assert t.contexts[c] == s1.contexts[c];
    ShiftedHas(s.contexts[c].graphs, s1.contexts[c].graphs, id);
    ContextFacts(t, c, extra, multiset{}, limbo);
    assert id in t.contexts[c].graphs && id in t.samples;
    NotAnothersCurrent(s1, c, id, i, extra, limbo);
    RecordedFirstIs(k, s, s1, t, c, r);
  }

  lemma ShiftedHas(a: seq<SampleId>, b: seq<SampleId>, id: SampleId)
    requires Shifted(a, b, id)
    ensures id in b && b != [] && Last(b) == id
  {
    assert b[|b| - 1] == id;
  }

  lemma RecordedFirstIs(k: Config, s: State, s1: State, t: State, c: ContextId, r: Ref)
    requires ContextRecorded(k, s, s1, c, r) && c in t.contexts && t.contexts[c] == s1.contexts[c]
    requires s.contexts[c].current.value in t.samples
    requires t.samples[s.contexts[c].current.value] == s1.samples[s.contexts[c].current.value]
    ensures RecordedIn(k, s, t, c, r)
  {
    hide Deref, SameData, ContextEnd, SameIdentity, Shifted;
  }

  lemma NotAnothersCurrent(s1: State, c: ContextId, id: SampleId, i: nat, extra: multiset<ChunkId>,
                           limbo: multiset<SampleId>)
    requires Inv(s1, extra, multiset{}, limbo, None) && i < |s1.hwContexts| && c == s1.hwContexts[i] && c in s1.contexts
    requires s1.contexts[c].graphs != [] && Last(s1.contexts[c].graphs) == id
    ensures !IsCurrent(s1, id, i + 1)
  {
    hide Inv, Own;
    HwContextAt(s1, i, extra, multiset{}, limbo);
    LastIsOwn(s1.contexts[c]);
    forall j | i + 1 <= j < |s1.hwContexts| && s1.hwContexts[j] in s1.contexts
      ensures s1.contexts[s1.hwContexts[j]].current != Some(id)
    {
      var d := s1.hwContexts[j];
      OwnDisjoint(s1, c, d, id, extra, multiset{}, limbo);
      if s1.contexts[d].current.Some? {
        CurrentIsOwn(s1.contexts[d]);
      }
    }
  }

  // ---------------------------------------------------------------- opening windows

  /** A context's graph sample as it starts at r. */
  predicate InitialAt(k: Config, m: AccumulatedSamples, r: Ref, report: Report)
    requires ValidConfig(k)
  {
    m.context.None? && m.start == r && m.end.None? && m.accumulator == Init(k.freq, report)
  }

  ghost predicate OpenedIn(k: Config, s: State, t: State, c: ContextId, r: Ref)
    requires ValidConfig(k)
  {
    && c in s.contexts && c in t.contexts && t.contexts[c].current.Some? && Deref(s.chunks, r).Some?
    && t.contexts[c] == s.contexts[c].(current := t.contexts[c].current)
    && t.contexts[c].current.value in t.samples
    && InitialAt(k, t.samples[t.contexts[c].current.value], r, Deref(s.chunks, r).value.report)
    && Some(t.samples[t.contexts[c].current.value].timestampStart) == Timestamp(k, s, r)
  }

  /** All contexts from the i-th on have opened a window at r. */
  ghost predicate AllOpened(k: Config, s: State, t: State, r: Ref, i: nat)
    requires ValidConfig(k)
  {
    && SameSession(s, t) && t.hwContexts == s.hwContexts && t.table == s.table
    && SameData(s.chunks, t.chunks) && t.chunks.Keys == s.chunks.Keys
    && t.contexts.Keys == s.contexts.Keys && SubSamples(s.samples, t.samples)
    && (forall j :: 0 <= j < i && j < |s.hwContexts| && s.hwContexts[j] in s.contexts
                    ==> t.contexts[s.hwContexts[j]] == s.contexts[s.hwContexts[j]])
    && (forall j :: i <= j < |s.hwContexts| ==> OpenedIn(k, s, t, s.hwContexts[j], r))
  }

  ghost predicate ClosedFrom(s: State, i: nat) {
    forall j :: i <= j < |s.hwContexts| ==>
      s.hwContexts[j] in s.contexts && s.contexts[s.hwContexts[j]].current.None?
  }

  lemma FillSampleValue(k: Config, s: State, id: SampleId, context: Option<ContextId>, r: Ref)
    requires ValidConfig(k) && FillSample(k, s, id, context, r).Some?
    ensures Deref(s.chunks, r).Some? && Timestamp(k, s, r).Some?
    ensures FillSample(k, s, id, context, r).value.samples == s.samples[id :=
              AccumulatedSamples(context, Timestamp(k, s, r).value, 0, r, None,
                                 Init(k.freq, Deref(s.chunks, r).value.report))]
  {
  }

  lemma GetPlainSampleValue(k: Config, s: State, r: Ref)
    requires ValidConfig(k) && GetPlainSample(k, s, r).Some?
    ensures Deref(s.chunks, r).Some? && Timestamp(k, s, r).Some?
    ensures var (t, id) := GetPlainSample(k, s, r).value;
            && id in t.samples && InitialAt(k, t.samples[id], r, Deref(s.chunks, r).value.report)
            && t.samples[id].timestampStart == Timestamp(k, s, r).value
  {
    hide FillSample, Init, ScaleNs, Wrap64;
    var (s1, id) := TakeBlock(s);
    FillSampleValue(k, s1, id, None, r);
  }

  lemma OpenContext(k: Config, s: State, c: ContextId, r: Ref, extra: multiset<ChunkId>, limbo: multiset<SampleId>)
    requires ValidConfig(k) && Inv(s, extra, multiset{}, limbo, None) && c in s.contexts
    requires s.contexts[c].current.None? && Deref(s.chunks, r).Some?
    ensures GetPlainSample(k, s, r).Some?
    ensures var (s1, g) := GetPlainSample(k, s, r).value;
            c in s1.contexts
            && (var t := s1.(contexts := s1.contexts[c := s1.contexts[c].(current := Some(g))]);
                && Inv(t, extra, multiset{}, limbo, None) && OpenedIn(k, s, t, c, r) && SubSamples(s.samples, t.samples)
                && t.contexts == s.contexts[c := t.contexts[c]] && SameSession(s, t)
                && t.hwContexts == s.hwContexts && t.table == s.table
                && SameData(s.chunks, t.chunks) && t.chunks.Keys == s.chunks.Keys)
  {
    hide Inv, GetPlainSample, SameData, WellFormed, Init;
    GetPlainSampleInv(k, s, r, extra, multiset{}, limbo);
    GetPlainSampleValue(k, s, r);
    var (s1, g) := GetPlainSample(k, s, r).value;
    ContextFacts(s1, c, extra, multiset{} + multiset{g}, limbo);
    UpdateContextInv(s1, c, s1.contexts[c].(current := Some(g)), extra, multiset{} + multiset{g}, multiset{}, limbo);
  }

  lemma {:induction false} OpenContextWindowsInv(k: Config, s: State, r: Ref, i: nat, extra: multiset<ChunkId>,
                                                 limbo: multiset<SampleId>)
    requires ValidConfig(k) && Inv(s, extra, multiset{}, limbo, None) && i <= |s.hwContexts| && ClosedFrom(s, i)
    requires Deref(s.chunks, r).Some?
    ensures OpenContextWindows(k, s, r, i).Some?
    ensures var t := OpenContextWindows(k, s, r, i).value;
            Inv(t, extra, multiset{}, limbo, None) && AllOpened(k, s, t, r, i)
    decreases |s.hwContexts| - i
  {
    hide Inv, GetPlainSample, SameData, Deref, OpenedIn, AllOpened, SubSamples;
    if i == |s.hwContexts| {
      NoneOpened(k, s, r);
    } else {
      var c := s.hwContexts[i];
      HwContextAt(s, i, extra, multiset{}, limbo);
      OpenContext(k, s, c, r, extra, limbo);
      var (s1, g) := GetPlainSample(k, s, r).value;
      var s2 := s1.(contexts := s1.contexts[c := s1.contexts[c].(current := Some(g))]);
      DerefKept(s.chunks, s2.chunks, r);
      OpenContextWindowsInv(k, s2, r, i + 1, extra, limbo);
      var t := OpenContextWindows(k, s2, r, i + 1).value;
      OpenedMore(k, s, s2, t, r, i, extra, limbo);
    }
  }

  lemma NoneOpened(k: Config, s: State, r: Ref)
    requires ValidConfig(k)
    ensures AllOpened(k, s, s, r, |s.hwContexts|)
  {
  }

  lemma OpenedMore(k: Config, s: State, s1: State, t: State, r: Ref, i: nat, extra: multiset<ChunkId>,
                   limbo: multiset<SampleId>)
    requires ValidConfig(k) && Inv(s, extra, multiset{}, limbo, None) && i < |s.hwContexts|
    requires OpenedIn(k, s, s1, s.hwContexts[i], r) && SubSamples(s.samples, s1.samples)
    requires s1.contexts == s.contexts[s.hwContexts[i] := s1.contexts[s.hwContexts[i]]] && SameSession(s, s1)
    requires s1.hwContexts == s.hwContexts && s1.table == s.table
    requires SameData(s.chunks, s1.chunks) && s1.chunks.Keys == s.chunks.Keys
    requires AllOpened(k, s1, t, r, i + 1) && Deref(s1.chunks, r) == Deref(s.chunks, r) && Deref(s.chunks, r).Some?
    ensures AllOpened(k, s, t, r, i)
  {
    hide Inv, Deref, SameData, InitialAt, Timestamp;
    HwContextAt(s, i, extra, multiset{}, limbo);
    HwContextsLive(s, extra, multiset{}, limbo);
    SameDataTrans(s.chunks, s1.chunks, t.chunks);
    StampStays(k, s, s1, r, extra, limbo);
    forall j | i <= j < |s.hwContexts| ensures OpenedIn(k, s, t, s.hwContexts[j], r) {
      if j > i {
        assert OpenedIn(k, s1, t, s.hwContexts[j], r);
      }
    }
  }

  // ---------------------------------------------------------------- one sample record

  /** Between records nothing is held or in limbo. */
  ghost predicate Good(s: State, extra: multiset<ChunkId>) {
    Inv(s, extra, multiset{}, multiset{}, None) && Lengths(s) && Synced(s)
  }

  lemma GraphSlot(s: State, id: SampleId, held: multiset<SampleId>)
    requires s.currentGraph.None? && id in held
    ensures SessionSlots(s) + held == SessionSlots(s.(currentGraph := Some(id))) + (held - multiset{id})
  {
    assert OptionSeq(Some(id)) == [id] && multiset([id]) == multiset{id};
  }

  lemma PlaceGraph(s: State, id: SampleId, extra: multiset<ChunkId>, held: multiset<SampleId>,
                   limbo: multiset<SampleId>)
    requires Inv(s, extra, held, limbo, None) && id in held && s.currentGraph.None?
    requires id in s.samples ==> PlainOpen(s.samples[id])
    ensures Inv(s.(currentGraph := Some(id)), extra, held - multiset{id}, limbo, None)
  {
    hide Inv, Core, Placed, Tabled, Rows, Counted, TimeOf, ContextKinds, PlainOpen, PlainDone, SessionSlots;
    GraphSlot(s, id, held);
    InvParts(s, extra, held, limbo);
    MovedInv(s, s.(currentGraph := Some(id)), extra, held, held - multiset{id}, limbo);
  }

  lemma TimelineSlot(s: State, id: SampleId, held: multiset<SampleId>)
    requires s.currentTimeline.None? && id in held
    ensures SessionSlots(s) + held == SessionSlots(s.(currentTimeline := Some(id))) + (held - multiset{id})
  {
    assert OptionSeq(Some(id)) == [id] && multiset([id]) == multiset{id};
  }

  lemma PlaceTimeline(s: State, id: SampleId, extra: multiset<ChunkId>, held: multiset<SampleId>,
                      limbo: multiset<SampleId>)
    requires Inv(s, extra, held, limbo, None) && id in held && s.currentTimeline.None?
    requires id in s.samples ==> TimelineOpen(s.samples[id])
    ensures Inv(s.(currentTimeline := Some(id)), extra, held - multiset{id}, limbo, None)
  {
    hide Inv, Core, Placed, Tabled, Rows, Counted, TimeOf, ContextKinds, PlainOpen, PlainDone, SessionSlots;
    TimelineSlot(s, id, held);
    InvParts(s, extra, held, limbo);
    MovedInv(s, s.(currentTimeline := Some(id)), extra, held, held - multiset{id}, limbo);
  }

  /** t is s with a new global window and new context windows, all starting at r. */
  ghost predicate WindowOpened(k: Config, s: State, t: State, r: Ref)
    requires ValidConfig(k)
  {
    && t.currentGraph.Some? && Deref(s.chunks, r).Some? && t.currentGraph.value in t.samples
    && Timestamp(k, s, r).Some?
    && InitialAt(k, t.samples[t.currentGraph.value], r, Deref(s.chunks, r).value.report)
    && t.samples[t.currentGraph.value].timestampStart == Timestamp(k, s, r).value
    && SameSession(s.(currentGraph := t.currentGraph), t)
    && t.hwContexts == s.hwContexts && t.table == s.table && t.contexts.Keys == s.contexts.Keys
    && SameData(s.chunks, t.chunks) && t.chunks.Keys == s.chunks.Keys && SubSamples(s.samples, t.samples)
    && (forall c :: c in t.contexts ==> OpenedIn(k, s, t, c, r))
  }

  lemma OpenWindowGood(k: Config, s: State, r: Ref, extra: multiset<ChunkId>)
    requires ValidConfig(k) && Good(s, extra) && Deref(s.chunks, r).Some?
    ensures OpenWindow(k, s, r).Some?
    ensures var t := OpenWindow(k, s, r).value;
            && Good(t, extra) && t.currentGraph.Some?
            && (if s.currentGraph.Some? then t == s else WindowOpened(k, s, t, r))
  {
    hide Inv, GetPlainSample, OpenContextWindows, SameData, AllOpened, WindowOpened, WellFormed, InitialAt, Deref,
         Timestamp;
    if s.currentGraph.None? {
      GetPlainSampleInv(k, s, r, extra, multiset{}, multiset{});
      GetPlainSampleValue(k, s, r);
      var (s1, g) := GetPlainSample(k, s, r).value;
      InitialIsOpen(k, s1.samples[g], r, Deref(s.chunks, r).value.report);
      PlaceGraph(s1, g, extra, multiset{} + multiset{g}, multiset{});
      assert multiset{} + multiset{g} - multiset{g} == multiset{};
      var s2 := s1.(currentGraph := Some(g));
      HwContextsLive(s, extra, multiset{}, multiset{});
      DerefKept(s.chunks, s2.chunks, r);
      OpenContextWindowsInv(k, s2, r, 0, extra, multiset{});
      WindowOpens(k, s, s1, g, r, OpenContextWindows(k, s2, r, 0).value, extra);
    }
  }

  lemma InitialIsOpen(k: Config, m: AccumulatedSamples, r: Ref, report: Report)
    requires ValidConfig(k) && InitialAt(k, m, r, report)
    ensures PlainOpen(m)
  {
  }

  lemma WindowOpens(k: Config, s: State, s1: State, g: SampleId, r: Ref, t: State, extra: multiset<ChunkId>)
    requires ValidConfig(k) && s.currentGraph.None? && Deref(s.chunks, r).Some? && Timestamp(k, s, r).Some?
    requires SameSession(s, s1) && SameContexts(s, s1) && Fresh(s.samples, s1.samples, g, None, r)
    requires SameData(s.chunks, s1.chunks) && s1.chunks.Keys == s.chunks.Keys
    requires InitialAt(k, s1.samples[g], r, Deref(s.chunks, r).value.report)
    requires s1.samples[g].timestampStart == Timestamp(k, s, r).value
    requires Deref(s1.chunks, r) == Deref(s.chunks, r)
    requires AllOpened(k, s1.(currentGraph := Some(g)), t, r, 0) && Inv(t, extra, multiset{}, multiset{}, None)
    requires Inv(s, extra, multiset{}, multiset{}, None)
    ensures WindowOpened(k, s, t, r) && Synced(t)
    ensures t.currentGraph.Some? && SameSession(s.(currentGraph := t.currentGraph), t)
  {
    hide Inv, Deref, SameData, InitialAt, Timestamp, WellFormed;
    HwContextsLive(t, extra, multiset{}, multiset{});
    SameDataTrans(s.chunks, s1.chunks, t.chunks);
    StampStays(k, s, s1.(currentGraph := Some(g)), r, extra, multiset{});
    forall c | c in t.contexts ensures OpenedIn(k, s, t, c, r) {
      assert c in t.hwContexts;
      var j :| 0 <= j < |t.hwContexts| && t.hwContexts[j] == c;
      assert OpenedIn(k, s1.(currentGraph := Some(g)), t, t.hwContexts[j], r);
    }
  }

  /** t is s with a new segment for the context of the last record. */
  ghost predicate TimelineOpened(k: Config, s: State, t: State)
    requires ValidConfig(k)
  {
    && s.last.Some? && s.currentTimeline.None? && t.currentTimeline.Some? && t.currentTimeline.value in t.samples
    && Deref(s.chunks, s.last.value).Some? && Timestamp(k, s, s.last.value).Some?
    && SameSession(s.(currentTimeline := t.currentTimeline), t)
    && SameData(s.chunks, t.chunks) && t.chunks.Keys == s.chunks.Keys && SubSamples(s.samples, t.samples)
    && (var m := t.samples[t.currentTimeline.value];
        && TimelineOpen(m) && m.start == s.last.value
        && m.accumulator == Init(k.freq, Deref(s.chunks, s.last.value).value.report)
        && m.timestampStart == Timestamp(k, s, s.last.value).value
        && m.context.value in t.contexts && t.contexts[m.context.value].hwId == s.lastHwId
        && ContextsGrow(k, s, t, m.context.value))
  }

  /** Contexts are as they were, but for c which may be new. */
  ghost predicate ContextsGrow(k: Config, s: State, t: State, c: ContextId)
    requires ValidConfig(k)
  {
    && (forall d :: d in s.contexts ==> d in t.contexts && Owns(s.contexts[d], t.contexts[d]))
    && (forall d :: d in t.contexts && d !in s.contexts ==> d == c && c == s.nextContext && Begins(k, s, t, c))
  }

  /** A new context starts its window where the global one started. */
  ghost predicate Begins(k: Config, s: State, t: State, c: ContextId)
    requires ValidConfig(k)
  {
    && c in t.contexts && t.contexts[c].graphs == [] && t.contexts[c].current.Some?
    && t.contexts[c].current.value in t.samples
    && s.currentGraph.Some? && s.currentGraph.value in s.samples
    && (var r := s.samples[s.currentGraph.value].start;
        && Deref(s.chunks, r).Some?
        && InitialAt(k, t.samples[t.contexts[c].current.value], r, Deref(s.chunks, r).value.report)
        && Some(t.samples[t.contexts[c].current.value].timestampStart) == Timestamp(k, s, r))
  }

  lemma NewContextValue(k: Config, s: State, hwId: Word)
    requires ValidConfig(k) && NewContext(k, s, hwId).Some? && s.nextContext !in s.contexts
    ensures var (t, c) := NewContext(k, s, hwId).value;
            && c == s.nextContext && Begins(k, s, t, c) && t.contexts == s.contexts[c := t.contexts[c]]
  {
    hide GetPlainSample, Deref, InitialAt;
    var r := s.samples[s.currentGraph.value].start;
    GetPlainSampleValue(k, s, r);
  }

  lemma GetContextGrows(k: Config, s: State, hwId: Word)
    requires ValidConfig(k) && GetContext(k, s, hwId).Some? && s.nextContext !in s.contexts
    ensures var (t, c) := GetContext(k, s, hwId).value; ContextsGrow(k, s, t, c)
  {
    hide NewContext, Begins;
    if hwId !in s.table {
      NewContextValue(k, s, hwId);
    }
  }

  lemma GetContextSampleGrows(k: Config, s: State, r: Ref, hwId: Word, extra: multiset<ChunkId>)
    requires ValidConfig(k) && Good(s, extra) && s.currentGraph.Some?
    requires hwId != INVALID_CTX_ID && Deref(s.chunks, r).Some?
    ensures GetContextSample(k, s, r, hwId).Some? && Timestamp(k, s, r).Some?
    ensures var (t, id) := GetContextSample(k, s, r, hwId).value;
            && SubSamples(s.samples, t.samples) && SameData(s.chunks, t.chunks) && t.chunks.Keys == s.chunks.Keys
            && id in t.samples && t.samples[id].context.Some? && ContextsGrow(k, s, t, t.samples[id].context.value)
            && t.samples[id].accumulator == Init(k.freq, Deref(s.chunks, r).value.report)
            && t.samples[id].timestampStart == Timestamp(k, s, r).value
  {
    hide Inv, SameData, WellFormed, TakeBlock, GetContext, FillSample, Deref, Timestamp, Synced, Init, ContextsGrow;
    GetContextSampleInv(k, s, r, hwId, extra, multiset{}, multiset{});
    TakeBlockInv(s, extra, multiset{}, multiset{}, None);
    var (s1, id) := TakeBlock(s);
    GetContextInv(k, s1, hwId, extra, multiset{}, multiset{} + multiset{id});
    var (s2, c) := GetContext(k, s1, hwId).value;
    assert s1.nextContext !in s1.contexts by { InvNext(s1, extra, multiset{} + multiset{id}); }
    GetContextGrows(k, s1, hwId);
    GetContextFresh(k, s1, hwId, extra, multiset{} + multiset{id});
    DerefKept(s1.chunks, s2.chunks, r);
    FillSampleInv(k, s2, id, Some(c), r, extra, multiset{}, multiset{});
    FillSampleValue(k, s2, id, Some(c), r);
    var t := FillSample(k, s2, id, Some(c), r).value;
    SameDataTrans(s1.chunks, s2.chunks, t.chunks);
    StampStays(k, s, s2, r, extra, multiset{});
    GrowsOn(k, s, s1, s2, t, c);
  }

  lemma InvNext(s: State, extra: multiset<ChunkId>, limbo: multiset<SampleId>)
    requires Inv(s, extra, multiset{}, limbo, None)
    ensures s.nextContext !in s.contexts
  {
    hide Core, Placed, Rows, Counted, Filed;
    NextIsNew(s);
  }

  lemma GetContextFresh(k: Config, s: State, hwId: Word, extra: multiset<ChunkId>, limbo: multiset<SampleId>)
    requires ValidConfig(k) && Inv(s, extra, multiset{}, limbo, None) && s.currentGraph.Some? && hwId != INVALID_CTX_ID
    ensures GetContext(k, s, hwId).Some? && SubSamples(s.samples, GetContext(k, s, hwId).value.0.samples)
  {
    hide Inv, NewContext, SameData, WellFormed;
    GetContextInv(k, s, hwId, extra, multiset{}, limbo);
    if hwId !in s.table {
      NewContextInv(k, s, hwId, extra, multiset{}, limbo);
    }
  }

  lemma GrowsOn(k: Config, s: State, s1: State, s2: State, t: State, c: ContextId)
    requires ValidConfig(k) && SameSession(s, s1) && SameContexts(s, s1) && s1.samples == s.samples
    requires s1.chunks == s.chunks
    requires ContextsGrow(k, s1, s2, c) && SameContexts(s2, t) && SubSamples(s2.samples, t.samples)
    ensures ContextsGrow(k, s, t, c)
  {
    hide InitialAt, Deref;
    forall d | d in t.contexts && d !in s.contexts ensures Begins(k, s, t, c) {
      assert Begins(k, s1, s2, c);
    }
  }

  lemma OpenTimelineGood(k: Config, s: State, extra: multiset<ChunkId>)
    requires ValidConfig(k) && Good(s, extra) && s.currentGraph.Some?
    ensures OpenTimeline(k, s).Some?
    ensures var t := OpenTimeline(k, s).value;
            && Good(t, extra) && t.currentGraph.Some?
            && (if s.last.None? || s.lastHwId == INVALID_CTX_ID || s.currentTimeline.Some? then t == s
                else TimelineOpened(k, s, t))
  {
    hide Inv, GetContextSample, SameData, Deref, Timestamp, Init, ContextsGrow;
    LastIsSound(s, extra, multiset{});
    if s.last.Some? && s.lastHwId != INVALID_CTX_ID && s.currentTimeline.None? {
      var r := s.last.value;
      GetContextSampleInv(k, s, r, s.lastHwId, extra, multiset{}, multiset{});
      GetContextSampleGrows(k, s, r, s.lastHwId, extra);
      var (s1, id) := GetContextSample(k, s, r, s.lastHwId).value;
      PlaceTimeline(s1, id, extra, multiset{} + multiset{id}, multiset{});
      assert multiset{} + multiset{id} - multiset{id} == multiset{};
      GrowsHere(k, s, s1, s1.samples[id].context.value, Some(id));
    }
  }

  lemma GrowsHere(k: Config, s: State, s1: State, c: ContextId, current: Option<SampleId>)
    requires ValidConfig(k) && ContextsGrow(k, s, s1, c)
    ensures ContextsGrow(k, s, s1.(currentTimeline := current), c)
  {
    hide InitialAt, Deref;
  }

  /** Only the accumulators of the given samples differ. */
  ghost predicate OnlyAccumulators(s: State, t: State, ids: set<SampleId>) {
    && t == s.(samples := t.samples) && t.samples.Keys == s.samples.Keys
    && (forall j :: j in s.samples && j !in ids ==> t.samples[j] == s.samples[j])
    && (forall j :: j in s.samples ==> t.samples[j] == s.samples[j].(accumulator := t.samples[j].accumulator))
  }

  lemma AccumulateIntoGood(k: Config, s: State, id: SampleId, r0: Report, r1: Report, extra: multiset<ChunkId>)
    requires ValidConfig(k) && Good(s, extra) && id in s.samples
    ensures WellFormed(s.samples[id].accumulator) && AccumulateInto(k, s, id, r0, r1).Some?
    ensures var t := AccumulateInto(k, s, id, r0, r1).value;
            && Good(t, extra) && OnlyAccumulators(s, t, {id})
            && t.samples[id].accumulator == Accumulate(k.format, k.freq, s.samples[id].accumulator, r0, r1)
  {
    hide Inv, Accumulate, WellFormed;
    AccumulateIntoInv(k, s, id, r0, r1, extra, multiset{}, multiset{});
  }

  predicate SegmentEnds(k: Config, s: State, m: AccumulatedSamples, r0: Report, r1: Report) {
    Usable(r0, r1) && (s.lastHwId != CtxId(k.gen, r1) || Elapsed(m.accumulator) > k.aggregationPeriod)
  }

  /** What is known about the open segment and its context. */
  lemma TimelineFacts(s: State, extra: multiset<ChunkId>)
    requires Good(s, extra) && s.currentTimeline.Some? && s.currentGraph.Some?
    ensures var id := s.currentTimeline.value;
            && id in s.samples && TimelineOpen(s.samples[id]) && s.samples[id].context.value in s.contexts
            && (var x := s.contexts[s.samples[id].context.value]; x.current.Some? && x.current.value in s.samples)
  {
    hide Core, Placed, Tabled, Rows, Filed;
    ListedLive(s, multiset{});
    CurrentKinds(s);
    ContextFacts(s, s.samples[s.currentTimeline.value].context.value, extra, multiset{}, multiset{});
  }

  /** The end of a segment, if this pair ends it. */
  lemma EndSegment(k: Config, s: State, s1: State, r0: Report, r1: Report, r: Ref, extra: multiset<ChunkId>)
    requires ValidConfig(k) && Good(s, extra) && Good(s1, extra) && s.currentTimeline.Some? && s.currentGraph.Some?
    requires Deref(s.chunks, r).Some? && s.currentTimeline.value in s.samples
    requires OnlyAccumulators(s, s1, {s.currentTimeline.value}) && s.samples[s.currentTimeline.value].context.Some?
    ensures Timestamp(k, s, r).Some? && RecordForHwId(k, s1, r).Some?
    ensures var t := RecordForHwId(k, s1, r).value;
            && Good(t, extra) && SegmentRecorded(k, s1, t, r, Timestamp(k, s, r).value)
            && s.samples[s.currentTimeline.value].context.value in t.contexts
  {
    hide Inv, SameData, Deref, Wrap64, ScaleNs, RecordForHwId;
    RecordForHwIdInv(k, s1, r, extra, multiset{});
    var t := RecordForHwId(k, s1, r).value;
    assert Timestamp(k, s1, r) == Timestamp(k, s, r);
    SyncedOwned(s1, t);
  }

  lemma SyncedOwned(s: State, t: State)
    requires Synced(s) && SameOwned(s.contexts, t.contexts) && t.currentGraph == s.currentGraph
    ensures Synced(t)
  {
    forall c | c in t.contexts ensures t.contexts[c].current.Some? <==> t.currentGraph.Some? {
      assert Owns(s.contexts[c], t.contexts[c]);
    }
  }

  lemma OwnedIds(s: State, t: State)
    requires SameOwned(s.contexts, t.contexts)
    ensures SubIds(s, t)
  {
    forall c | c in t.contexts ensures c in s.contexts && t.contexts[c].hwId == s.contexts[c].hwId {
      assert Owns(s.contexts[c], t.contexts[c]);
    }
  }

  lemma AccumulateTimelineGood(k: Config, s: State, r0: Report, r1: Report, r: Ref, extra: multiset<ChunkId>)
    requires ValidConfig(k) && Good(s, extra) && s.currentGraph.Some? && Deref(s.chunks, r).Some?
    ensures AccumulateTimeline(k, s, r0, r1, r).Some?
    ensures var t := AccumulateTimeline(k, s, r0, r1, r).value;
            && Good(t, extra) && t.currentGraph == s.currentGraph && SameData(s.chunks, t.chunks) && SubIds(s, t)
            && t.last == s.last && t.lastHwId == s.lastHwId && t.lastOaTimestamp == s.lastOaTimestamp
            && t.nextChunk == s.nextChunk
  {
    hide Inv, SameData, Deref, Timestamp, RecordForHwId, AccumulateInto, Accumulate, Shifted, Synced, Lengths,
         WellFormed, Elapsed;
    SameDataSelf(s.chunks);
    if s.currentTimeline.Some? {
      var id := s.currentTimeline.value;
      TimelineFacts(s, extra);
      var c := s.samples[id].context.value;
      var g := s.contexts[c].current.value;
      AccumulateIntoGood(k, s, id, r0, r1, extra);
      var s1 := AccumulateInto(k, s, id, r0, r1).value;
      AccumulateIntoValue(k, s, id, r0, r1);
      EndSegment(k, s, s1, r0, r1, r, extra);
      var ends := SegmentEnds(k, s, s1.samples[id], r0, r1);
      var s2 := if ends then RecordForHwId(k, s1, r).value else s1;
      assert Good(s2, extra) && c in s2.contexts && s2.contexts[c].current == Some(g) by {
        if ends { assert Owns(s1.contexts[c], s2.contexts[c]); }
      }
      assert SubIds(s1, s2) by { if ends { OwnedIds(s1, s2); } }
      ContextFacts(s2, c, extra, multiset{}, multiset{});
      AccumulateIntoGood(k, s2, g, r0, r1, extra);
      assert AccumulateTimeline(k, s, r0, r1, r) == AccumulateInto(k, s2, g, r0, r1);
    }
  }

  lemma AccumulateIntoValue(k: Config, s: State, id: SampleId, r0: Report, r1: Report)
    requires ValidConfig(k) && AccumulateInto(k, s, id, r0, r1).Some?
    ensures id in s.samples && WellFormed(s.samples[id].accumulator)
    ensures AccumulateInto(k, s, id, r0, r1).value
         == (var a := Accumulate(k.format, k.freq, s.samples[id].accumulator, r0, r1);
             s.(samples := s.samples[id := s.samples[id].(accumulator := a)]))
  {
    hide Accumulate;
  }

  predicate WindowEnds(k: Config, m: AccumulatedSamples, r0: Report, r1: Report) {
    Usable(r0, r1) && Elapsed(m.accumulator) > k.aggregationPeriod
  }

  lemma GraphFacts(s: State, extra: multiset<ChunkId>)
    requires Good(s, extra) && s.currentGraph.Some?
    ensures s.currentGraph.value in s.samples && PlainOpen(s.samples[s.currentGraph.value])
    ensures OpenFrom(s, 0)
  {
    hide Core, Placed, Tabled, Rows, Filed, Counted;
    ListedLive(s, multiset{});
    CurrentKinds(s);
    HwContextsLive(s, extra, multiset{}, multiset{});
  }

  lemma EndWindows(k: Config, s: State, r: Ref, extra: multiset<ChunkId>)
    requires ValidConfig(k) && Good(s, extra) && s.currentGraph.Some? && r.chunk in extra && Deref(s.chunks, r).Some?
    ensures RecordForTime(k, s, r).Some? && ContextsRecordForTime(k, RecordForTime(k, s, r).value, r, 0).Some?
    ensures var t := ContextsRecordForTime(k, RecordForTime(k, s, r).value, r, 0).value;
            Good(t, extra) && SameData(s.chunks, t.chunks) && SubIds(s, t)
            && t.last == s.last && t.lastHwId == s.lastHwId && t.lastOaTimestamp == s.lastOaTimestamp
            && t.nextChunk == s.nextChunk
  {
    hide Inv, SameData, Deref, Timestamp, RecordForTime, ContextsRecordForTime, Shifted, AllRecorded;
    GraphFacts(s, extra);
    RecordForTimeInv(k, s, r, extra, multiset{});
    var s1 := RecordForTime(k, s, r).value;
    HandlerKeeps(s, s1, r, extra, multiset{}, multiset{});
    ContextsRecordForTimeInv(k, s1, r, 0, extra, multiset{});
    var t := ContextsRecordForTime(k, s1, r, 0).value;
    AllClosed(k, s1, t, r, extra);
    SameDataTrans(s.chunks, s1.chunks, t.chunks);
  }

  lemma AllClosed(k: Config, s: State, t: State, r: Ref, extra: multiset<ChunkId>)
    requires AllRecorded(k, s, t, r, 0) && Inv(t, extra, multiset{}, multiset{}, None) && s.currentGraph.None?
    ensures Synced(t) && SameSession(s, t) && SameData(s.chunks, t.chunks) && SubIds(s, t)
  {
    hide Inv, SameData, Deref, Shifted, ContextEnd;
    HwContextsLive(t, extra, multiset{}, multiset{});
    forall c | c in t.contexts
      ensures t.contexts[c].current.None? && c in s.contexts && t.contexts[c].hwId == s.contexts[c].hwId
    {
      assert c in t.hwContexts;
      var j :| 0 <= j < |t.hwContexts| && t.hwContexts[j] == c;
      assert RecordedIn(k, s, t, s.hwContexts[j], r);
    }
  }

  lemma AccumulateWindowGood(k: Config, s: State, r0: Report, r1: Report, r: Ref, extra: multiset<ChunkId>)
    requires ValidConfig(k) && Good(s, extra) && s.currentGraph.Some? && r.chunk in extra && Deref(s.chunks, r).Some?
    ensures AccumulateWindow(k, s, r0, r1, r).Some?
    ensures var t := AccumulateWindow(k, s, r0, r1, r).value;
            && Good(t, extra) && SameData(s.chunks, t.chunks) && SubIds(s, t)
            && t.last == s.last && t.lastHwId == s.lastHwId && t.lastOaTimestamp == s.lastOaTimestamp
            && t.nextChunk == s.nextChunk
  {
    hide Inv, SameData, Deref, Timestamp, RecordForTime, ContextsRecordForTime, AccumulateInto, Accumulate, WellFormed,
         Elapsed, Synced, Lengths;
    SameDataSelf(s.chunks);
    GraphFacts(s, extra);
    var id := s.currentGraph.value;
    AccumulateIntoGood(k, s, id, r0, r1, extra);
    AccumulateIntoValue(k, s, id, r0, r1);
    var s1 := AccumulateInto(k, s, id, r0, r1).value;
    EndWindows(k, s1, r, extra);
  }

  lemma AccumulatePairGood(k: Config, s: State, r: Ref, extra: multiset<ChunkId>)
    requires ValidConfig(k) && Good(s, extra) && s.currentGraph.Some? && r.chunk in extra && Deref(s.chunks, r).Some?
    ensures AccumulatePair(k, s, r).Some?
    ensures var t := AccumulatePair(k, s, r).value;
            && Good(t, extra) && SameData(s.chunks, t.chunks) && t.nextChunk == s.nextChunk && SubIds(s, t)
            && t.last == s.last && t.lastHwId == s.lastHwId && t.lastOaTimestamp == s.lastOaTimestamp
  {
    hide Inv, SameData, Deref, Timestamp, AccumulateTimeline, AccumulateWindow;
    SameDataSelf(s.chunks);
    LastIsSound(s, extra, multiset{});
    if s.last.Some? {
      var r0, r1 := Deref(s.chunks, s.last.value).value.report, Deref(s.chunks, r).value.report;
      AccumulateTimelineGood(k, s, r0, r1, r, extra);
      var s1 := AccumulateTimeline(k, s, r0, r1, r).value;
      HandlerKeeps(s, s1, r, extra, multiset{}, multiset{});
      AccumulateWindowGood(k, s1, r0, r1, r, extra);
      SameDataTrans(s.chunks, s1.chunks, AccumulateWindow(k, s1, r0, r1, r).value.chunks);
    }
  }

  // ---------------------------------------------------------------- moving on to the next record

  /** The reference of `last` passes into the hands of running code. */
  lemma DropLast(s: State, extra: multiset<ChunkId>)
    requires Mem(s, extra) && s.last.Some?
    ensures Mem(s.(last := None), extra + multiset{s.last.value.chunk})
  {
    hide RefCount, Listed;
    var t := s.(last := None);
    var c := s.last.value.chunk;
    ListedFrame(s, t);
    forall x ensures Count(t.chunks, x) == RefCount(t.samples, x) + LastRef(t.last, x) + (extra + multiset{c})[x] {
      assert Count(s.chunks, x) == RefCount(s.samples, x) + LastRef(s.last, x) + extra[x];
      assert (extra + multiset{c})[x] == extra[x] + One(x == c);
    }
  }

  lemma KeepLast(s: State, r: Ref, extra: multiset<ChunkId>)
    requires Mem(s, extra + multiset{r.chunk}) && s.last.None?
    ensures Mem(s.(last := Some(r)), extra)
  {
    hide RefCount, Listed;
    var t := s.(last := Some(r));
    ListedFrame(s, t);
    forall x ensures Count(t.chunks, x) == RefCount(t.samples, x) + LastRef(t.last, x) + extra[x] {
      assert Count(s.chunks, x) == RefCount(s.samples, x) + LastRef(s.last, x) + (extra + multiset{r.chunk})[x];
      assert (extra + multiset{r.chunk})[x] == extra[x] + One(x == r.chunk);
    }
  }

  lemma PutLast(s: State, extra: multiset<ChunkId>, limbo: multiset<SampleId>)
    requires Core(s, extra, limbo)
    ensures var t := PutRefChunk(s.(last := None), s.last);
            t.Some? && Core(t.value, extra, limbo) && SameData(s.chunks, t.value.chunks) && t.value.last.None?
  {
    hide Mem, Points, SameData, Blocks;
    var s0 := s.(last := None);
    if s.last.None? {
      assert s0 == s;
      SameDataSelf(s.chunks);
    } else {
      var c := s.last.value.chunk;
      DropLast(s, extra);
      assert extra + multiset{c} - multiset{c} == extra;
      PutChunkKeeps(s0, c, extra + multiset{c});
      PointsKept(s, PutChunk(s0, c).value, extra);
    }
  }

  lemma TakeLast(s: State, r: Ref, extra: multiset<ChunkId>, limbo: multiset<SampleId>)
    requires Core(s, extra, limbo) && Deref(s.chunks, r).Some? && s.last.None?
    ensures var t := RefChunk(s, r.chunk);
            t.Some? && Core(t.value.(last := Some(r)), extra, limbo) && SameData(s.chunks, t.value.chunks)
            && t.value.chunks.Keys == s.chunks.Keys
  {
    hide Mem, SameData, Blocks, Sound;
    RefChunkKeeps(s, r.chunk, extra);
    var t := RefChunk(s, r.chunk).value;
    KeepLast(t, r, extra);
    DerefKept(s.chunks, t.chunks, r);
    forall id | id in t.samples ensures Sound(t.chunks, t.samples[id]) {
      SoundKept(s.chunks, t.chunks, s.samples[id]);
    }
  }

  lemma SoundKept(a: map<ChunkId, Chunk>, b: map<ChunkId, Chunk>, m: AccumulatedSamples)
    requires Sound(a, m) && SameData(a, b) && a.Keys == b.Keys
    ensures Sound(b, m)
  {
    DerefKept(a, b, m.start);
    if m.end.Some? {
      DerefKept(a, b, m.end.value);
    }
  }

  /** Nothing but `last` and the chunks has changed. */
  lemma SessionMovesOn(s: State, t: State, extra: multiset<ChunkId>, extra': multiset<ChunkId>)
    requires Good(s, extra) && Core(t, extra', multiset{}) && SameContexts(s, t) && t.samples == s.samples
    requires t.currentGraph == s.currentGraph && t.graphs == s.graphs && t.nGraphs == s.nGraphs
    requires t.currentTimeline == s.currentTimeline && t.timelines == s.timelines && t.nTimelines == s.nTimelines
    ensures Good(t, extra')
  {
    hide Core, Tabled, Rows, Counted, ContextSlots, TimeOf, ContextKinds;
    TabledFrame(s, t);
    CountedFrame(s, t);
    assert Placed(t, multiset{});
    MovesOnFiled(s, t);
  }

  lemma MovesOnFiled(s: State, t: State)
    requires Filed(s) && t.contexts == s.contexts && t.samples == s.samples
    requires t.currentGraph == s.currentGraph && t.graphs == s.graphs
    requires t.currentTimeline == s.currentTimeline && t.timelines == s.timelines && t.nTimelines == s.nTimelines
    ensures Filed(t)
  {
    hide TimeOf, ContextKinds;
  }

  lemma AdvanceGood(k: Config, s: State, r: Ref, extra: multiset<ChunkId>)
    requires ValidConfig(k) && Good(s, extra) && r.chunk in extra && Deref(s.chunks, r).Some?
    ensures Timestamp(k, s, r).Some? && Advance(k, s, r).Some?
    ensures var t := Advance(k, s, r).value;
            && Good(t, extra) && SameData(s.chunks, t.chunks) && t.nextChunk == s.nextChunk
            && t == s.(chunks := t.chunks, chunkList := t.chunkList, last := Some(r),
                       lastHwId := CtxId(k.gen, Deref(s.chunks, r).value.report),
                       lastOaTimestamp := Timestamp(k, s, r).value)
  {
    hide Inv, Core, SameData, Deref, Timestamp, PutRefChunk, RefChunk, Synced;
    StampRuns(k, s, r, extra, multiset{});
    InvParts(s, extra, multiset{}, multiset{});
    PutLast(s, extra, multiset{});
    var s1 := PutRefChunk(s.(last := None), s.last).value;
    assert Core(s1, extra, multiset{});
    CoreHandlerKeeps(s, s1, r, extra);
    TakeLast(s1, r, extra, multiset{});
    var s2 := RefChunk(s1, r.chunk).value;
    SameDataTrans(s.chunks, s1.chunks, s2.chunks);
    var t := Advance(k, s, r).value;
    PutRefChunkOnlyChunks(s.(last := None), s.last);
    RefChunkOnlyChunks(s1, r.chunk);
    CoreFrame(s2.(last := Some(r)), t, extra, multiset{});
    SessionMovesOn(s, t, extra, extra);
  }

  lemma PutRefChunkOnlyChunks(s: State, r: Option<Ref>)
    requires PutRefChunk(s, r).Some?
    ensures var t := PutRefChunk(s, r).value; t == s.(chunks := t.chunks, chunkList := t.chunkList)
  {
  }

  lemma RefChunkOnlyChunks(s: State, c: ChunkId)
    requires RefChunk(s, c).Some?
    ensures var t := RefChunk(s, c).value; t == s.(chunks := t.chunks)
  {
  }

  lemma CoreHandlerKeeps(s: State, t: State, r: Ref, extra: multiset<ChunkId>)
    requires Core(t, extra, multiset{}) && r.chunk in extra && SameData(s.chunks, t.chunks)
    ensures Deref(t.chunks, r) == Deref(s.chunks, r)
  {
    hide Allocated, Points, RefCount, Listed;
    assert Count(t.chunks, r.chunk) > 0;
  }

  /** One sample record: no assertion fails, no freed or NULL pointer is followed, all is kept. */
  lemma StepGood(k: Config, s: State, r: Ref, extra: multiset<ChunkId>)
    requires ValidConfig(k) && Good(s, extra) && r.chunk in extra && Deref(s.chunks, r).Some?
    ensures Step(k, s, r).Some?
    ensures var t := Step(k, s, r).value;
            Good(t, extra) && SameData(s.chunks, t.chunks) && t.nextChunk == s.nextChunk && t.last == Some(r)
  {
    hide Good, SameData, Deref, Timestamp, OpenWindow, OpenTimeline, AccumulatePair, Advance, WindowOpened,
         TimelineOpened;
    SameDataSelf(s.chunks);
    OpenWindowGood(k, s, r, extra);
    var s1 := OpenWindow(k, s, r).value;
    if s.currentGraph.None? { OpenedSame(k, s, s1, r); }
    GoodHandlerKeeps(s, s1, r, extra);
    OpenTimelineGood(k, s1, extra);
    var s2 := OpenTimeline(k, s1).value;
    SameDataSelf(s1.chunks);
    if s2 != s1 { TimelineOpenedSame(k, s1, s2); }
    GoodHandlerKeeps(s1, s2, r, extra);
    SameDataTrans(s.chunks, s1.chunks, s2.chunks);
    AccumulatePairGood(k, s2, r, extra);
    var s3 := AccumulatePair(k, s2, r).value;
    GoodHandlerKeeps(s2, s3, r, extra);
    SameDataTrans(s.chunks, s2.chunks, s3.chunks);
    AdvanceGood(k, s3, r, extra);
    SameDataTrans(s.chunks, s3.chunks, Advance(k, s3, r).value.chunks);
  }

  lemma OpenedSame(k: Config, s: State, t: State, r: Ref)
    requires ValidConfig(k) && WindowOpened(k, s, t, r)
    ensures SameData(s.chunks, t.chunks) && t.nextChunk == s.nextChunk
  {
    hide SameData, InitialAt, Deref, Timestamp;
  }

  lemma TimelineOpenedSame(k: Config, s: State, t: State)
    requires ValidConfig(k) && TimelineOpened(k, s, t)
    ensures SameData(s.chunks, t.chunks) && t.nextChunk == s.nextChunk && t.currentGraph == s.currentGraph
  {
    hide SameData, InitialAt, Deref, Timestamp, ContextsGrow;
  }

  lemma GoodHandlerKeeps(s: State, t: State, r: Ref, extra: multiset<ChunkId>)
    requires Good(t, extra) && r.chunk in extra && SameData(s.chunks, t.chunks)
    ensures r.chunk in t.chunks && r.chunk in s.chunks && t.chunks[r.chunk].data == s.chunks[r.chunk].data
    ensures Deref(t.chunks, r) == Deref(s.chunks, r)
  {
    hide Inv, SameData, Deref;
    HandlerKeeps(s, t, r, extra, multiset{}, multiset{});
  }

  // ---------------------------------------------------------------- chunks

  lemma AddChunkGood(s: State, data: seq<Record>)
    requires Good(s, multiset{})
    ensures Good(AddChunk(s, data), multiset{s.nextChunk})
    ensures SameOldData(s.chunks, AddChunk(s, data).chunks)
  {
    hide Tabled, Rows, Counted, ContextSlots, TimeOf, ContextKinds, Mem, Points;
    var t := AddChunk(s, data);
    AddChunkMem(s, data);
    AddChunkPoints(s, data);
    SessionMovesOn(s, t, multiset{}, multiset{s.nextChunk});
  }

  ghost predicate SameOldData(s: map<ChunkId, Chunk>, t: map<ChunkId, Chunk>) {
    forall c :: c in s ==> c in t && t[c].data == s[c].data
  }

  lemma AddChunkMem(s: State, data: seq<Record>)
    requires Mem(s, multiset{})
    ensures Mem(AddChunk(s, data), multiset{s.nextChunk})
    ensures s.nextChunk !in s.chunks
  {
    hide RefCount, Ascending;
    var t := AddChunk(s, data);
    var n := s.nextChunk;
    forall c ensures Count(t.chunks, c) == RefCount(t.samples, c) + LastRef(t.last, c) + multiset{n}[c] {
      assert Count(s.chunks, c) == RefCount(s.samples, c) + LastRef(s.last, c) + (multiset{})[c];
    }
    AppendAscending(s.chunkList, n);
  }

  lemma AppendAscending(l: seq<nat>, n: nat)
    requires Ascending(l) && forall x :: x in l ==> x < n
    ensures Ascending(l + [n])
  {
    forall i | 0 <= i < |l| ensures l[i] < n {
      assert l[i] in l;
    }
  }

  lemma AddChunkPoints(s: State, data: seq<Record>)
    requires Points(s) && s.nextChunk !in s.chunks
    ensures Points(AddChunk(s, data))
  {
    hide WellFormed;
    var t := AddChunk(s, data);
    forall id | id in t.samples ensures Sound(t.chunks, t.samples[id]) {
      assert Sound(s.chunks, s.samples[id]);
    }
  }

  lemma {:induction false} AccumulateChunkGood(k: Config, s: State, c: ChunkId, i: nat, n: nat)
    requires ValidConfig(k) && Good(s, multiset{c}) && i <= n && c in s.chunks && |s.chunks[c].data| == n
    ensures AccumulateChunk(k, s, c, i, n).Some?
    ensures Good(AccumulateChunk(k, s, c, i, n).value, multiset{c})
    decreases n - i
  {
    hide Good, Step;
    if i < n && s.chunks[c].data[i].Sample? {
      var r := Ref(c, i);
      StepGood(k, s, r, multiset{c});
      var s1 := Step(k, s, r).value;
      GoodHandlerKeeps(s, s1, r, multiset{c});
      AccumulateChunkGood(k, s1, c, i + 1, n);
    } else if i < n && s.chunks[c].data[i].ReportLost? {
      AccumulateChunkGood(k, s, c, i + 1, n);
    }
  }

  /** The handler's own reference goes last; the chunk stays only if samples or `last` refer to it. */
  lemma PutHandlerChunk(s: State, c: ChunkId)
    requires Good(s, multiset{c})
    ensures PutChunk(s, c).Some? && Good(PutChunk(s, c).value, multiset{})
    ensures SameData(s.chunks, PutChunk(s, c).value.chunks)
  {
    hide Mem, Placed, Tabled, Rows, Counted, SameData, Points, Filed, PutChunk, Synced;
    PutChunkKeeps(s, c, multiset{c});
    var t := PutChunk(s, c).value;
    assert multiset{c} - multiset{c} == multiset{};
    PointsKept(s, t, multiset{});
    hide Good;
    SessionMovesOn(s, t, multiset{c}, multiset{});
  }

  lemma HandleDataGood(k: Config, s: State, data: seq<Record>)
    requires ValidConfig(k) && Good(s, multiset{})
    ensures HandleData(k, s, data).Some? && Good(HandleData(k, s, data).value, multiset{})
  {
    hide Good, AccumulateChunk;
    AddChunkGood(s, data);
    AccumulateChunkGood(k, AddChunk(s, data), s.nextChunk, 0, |data|);
    PutHandlerChunk(AccumulateChunk(k, AddChunk(s, data), s.nextChunk, 0, |data|).value, s.nextChunk);
  }

  // ---------------------------------------------------------------- emptying everything

  /** A segment goes without its time being taken off. */
  lemma PopTimelineForGood(s: State, extra: multiset<ChunkId>)
    requires Inv(s, extra, multiset{}, multiset{}, None) && s.timelines != [] && s.nTimelines >= |s.timelines|
    ensures Inv(s.(timelines := s.timelines[1..]), extra, multiset{s.timelines[0]}, multiset{}, None)
  {
    hide Inv, Core, Placed, Tabled, Rows, Counted, Filed;
    InvParts(s, extra, multiset{}, multiset{});
    var t := s.(timelines := s.timelines[1..]);
    PopForGoodFiled(s, t);
    assert s.timelines == [s.timelines[0]] + t.timelines;
    assert multiset(s.timelines) == multiset{s.timelines[0]} + multiset(t.timelines);
    MovedInv(s, t, extra, multiset{}, multiset{s.timelines[0]}, multiset{});
  }

  lemma PopForGoodFiled(s: State, t: State)
    requires Filed(s) && s.timelines != [] && s.nTimelines >= |s.timelines| && t == s.(timelines := s.timelines[1..])
    ensures Filed(t)
  {
    hide TimeOf, ContextKinds, PlainOpen, PlainDone, TimelineDone, TimelineOpen;
  }

  lemma {:induction false} PutTimelinesInv(s: State, extra: multiset<ChunkId>)
    requires Inv(s, extra, multiset{}, multiset{}, None) && s.nTimelines >= |s.timelines|
    ensures PutTimelines(s).Some?
    ensures var t := PutTimelines(s).value;
            && Inv(t, extra, multiset{}, multiset{}, None) && t.timelines == []
            && SameSession(s.(timelines := []), t)
    decreases |s.timelines|
  {
    hide Inv, PutSample;
    if s.timelines != [] {
      var id := s.timelines[0];
      PopTimelineForGood(s, extra);
      PutSampleInv(s.(timelines := s.timelines[1..]), id, extra, multiset{id}, multiset{});
      assert multiset{id} - multiset{id} == multiset{};
      PutTimelinesInv(PutSample(s.(timelines := s.timelines[1..]), id).value, extra);
    }
  }

  lemma PutCurrentTimelineInv(s: State, extra: multiset<ChunkId>)
    requires Inv(s, extra, multiset{}, multiset{}, None)
    ensures PutCurrentTimeline(s).Some?
    ensures var t := PutCurrentTimeline(s).value;
            && Inv(t, extra, multiset{}, multiset{}, None) && SameSession(s.(currentTimeline := None), t)
  {
    hide Inv, PutSample;
    if s.currentTimeline.Some? {
      var id := s.currentTimeline.value;
      HoldTimeline(s, id, extra, multiset{}, multiset{});
      PutSampleInv(s.(currentTimeline := None), id, extra, multiset{} + multiset{id}, multiset{});
      assert multiset{} + multiset{id} - multiset{id} == multiset{};
    }
  }

  /** With the segments all contexts have gone. */
  lemma NoContextsLeft(s: State, extra: multiset<ChunkId>)
    requires Inv(s, extra, multiset{}, multiset{}, None) && s.timelines == [] && s.currentTimeline.None?
    ensures s.contexts == map[] && s.hwContexts == [] && s.table == map[]
  {
    hide Core, Rows, TimeOf, Ascending, Keyed, ContextSlots;
    forall c | c in s.contexts ensures Users(s.samples, c) == {} {
      forall id | id in s.samples ensures s.samples[id].context.None? {
        if s.samples[id].context.Some? { UserIsListed(s, id, extra); }
      }
    }
    assert s.contexts.Keys == {};
    FirstIsIn(s.hwContexts);
    assert |s.table.Keys| == 0;
  }

  lemma FirstIsIn(l: seq<nat>)
    ensures l == [] || l[0] in l
  {
  }

  /** A sample with a context is in the list of segments, or is the one under way. */
  lemma UserIsListed(s: State, id: SampleId, extra: multiset<ChunkId>)
    requires Inv(s, extra, multiset{}, multiset{}, None) && id in s.samples && s.samples[id].context.Some?
    ensures id in s.timelines || s.currentTimeline == Some(id)
  {
    hide Core, Tabled, Rows, Counted, TimeOf, ContextSlots, ContextKinds;
    assert id in multiset(s.samples.Keys);
    if id in ContextSlots(s.contexts, s.hwContexts) {
      var c := OwnerOf(s.contexts, s.hwContexts, id);
      ContextFacts(s, c, extra, multiset{}, multiset{});
      assert ContextKinds(s.samples, s.contexts[c]);
      OwnIsPlain(s.samples, s.contexts[c], id);
    } else {
      assert id in multiset(s.graphs) || id in multiset(OptionSeq(s.currentGraph)) || id in multiset(s.timelines)
             || id in multiset(OptionSeq(s.currentTimeline));
    }
  }

  /** Every context has a segment. */
  lemma HasUser(s: State, c: ContextId, extra: multiset<ChunkId>) returns (id: SampleId)
    requires Inv(s, extra, multiset{}, multiset{}, None) && c in s.contexts
    ensures id in s.samples && s.samples[id].context == Some(c)
    ensures id in s.timelines || s.currentTimeline == Some(id)
  {
    hide Core, Placed, Tabled, Rows, Filed;
    assert Users(s.samples, c) != {};
    id :| id in Users(s.samples, c);
    UserIsListed(s, id, extra);
  }

  lemma OwnIsPlain(samples: map<SampleId, AccumulatedSamples>, x: HwContext, id: SampleId)
    requires ContextKinds(samples, x) && id in Own(x) && id in samples
    ensures samples[id].context.None?
  {
    assert id in multiset(x.graphs) || id in multiset(OptionSeq(x.current));
  }

  lemma {:induction false} OwnerOf(contexts: map<ContextId, HwContext>, l: seq<ContextId>,
                                   id: SampleId) returns (c: ContextId)
    requires id in ContextSlots(contexts, l)
    ensures c in l && c in contexts && id in Own(contexts[c])
  {
    hide Own;
    if id in OwnAt(contexts, l[0]) {
      c := l[0];
    } else {
      c := OwnerOf(contexts, l[1..], id);
    }
  }

  lemma {:induction false} PutGraphsInv(s: State, extra: multiset<ChunkId>)
    requires Inv(s, extra, multiset{}, multiset{}, None)
    ensures PutGraphs(s).Some?
    ensures var t := PutGraphs(s).value;
            && Inv(t, extra, multiset{}, multiset{}, None) && t.graphs == [] && SameSession(s.(graphs := []), t)
            && SameContexts(s, t)
    decreases |s.graphs|
  {
    hide Inv, PutSample;
    if s.graphs != [] {
      var id := s.graphs[0];
      PopGraph(s, extra, multiset{}, multiset{});
      PutSampleInv(s.(graphs := s.graphs[1..]), id, extra, multiset{} + multiset{id}, multiset{});
      assert multiset{} + multiset{id} - multiset{id} == multiset{};
      PutGraphsInv(PutSample(s.(graphs := s.graphs[1..]), id).value, extra);
    }
  }

  lemma PutCurrentGraphInv(s: State, extra: multiset<ChunkId>)
    requires Inv(s, extra, multiset{}, multiset{}, None)
    ensures PutCurrentGraph(s).Some?
    ensures var t := PutCurrentGraph(s).value;
            && Inv(t, extra, multiset{}, multiset{}, None) && SameSession(s.(currentGraph := None), t)
            && SameContexts(s, t)
  {
    hide Inv, PutSample;
    if s.currentGraph.Some? {
      var id := s.currentGraph.value;
      HoldGraph(s, id, extra, multiset{}, multiset{});
      PutSampleInv(s.(currentGraph := None), id, extra, multiset{} + multiset{id}, multiset{});
      assert multiset{} + multiset{id} - multiset{id} == multiset{};
    }
  }

  /** Nothing of the session is left. */
  ghost predicate Emptied(s: State) {
    && s.samples == map[] && s.chunks == map[] && s.contexts == map[] && s.table == map[]
    && s.graphs == [] && s.timelines == [] && s.currentGraph.None? && s.currentTimeline.None? && s.last.None?
    && s.hwContexts == [] && s.chunkList == [] && s.nGraphs == 0 && s.nTimelines == 0
    && multiset(s.freeSamples) == Blocks(s.nextSample)
  }

  lemma NothingLeft(s: State)
    requires Core(s, multiset{}, multiset{}) && s.samples == map[] && s.last.None?
    ensures s.chunks == map[] && s.chunkList == [] && multiset(s.freeSamples) == Blocks(s.nextSample)
  {
    hide Points, Blocks, Ascending;
    forall c ensures c !in s.chunks {
      assert StartSet(s.samples, c) == {} && EndSet(s.samples, c) == {};
      assert Count(s.chunks, c) == RefCount(s.samples, c) + LastRef(s.last, c) + (multiset{})[c];
    }
    assert s.chunks.Keys == {};
    FirstIsIn(s.chunkList);
    assert multiset(s.samples.Keys) == multiset{};
  }

  /** The first half: segments, and with them contexts. */
  lemma EmptyTimelines(s: State)
    requires Good(s, multiset{})
    ensures PutTimelines(s).Some? && PutCurrentTimeline(PutTimelines(s).value).Some?
    ensures var s2 := PutCurrentTimeline(PutTimelines(s).value).value;
            && Inv(s2, multiset{}, multiset{}, multiset{}, None) && s2.timelines == [] && s2.currentTimeline.None?
            && s2.contexts == map[] && s2.hwContexts == [] && s2.table == map[]
  {
    hide Inv, PutTimelines, PutCurrentTimeline;
    PutTimelinesInv(s, multiset{});
    PutCurrentTimelineInv(PutTimelines(s).value, multiset{});
    NoContextsLeft(PutCurrentTimeline(PutTimelines(s).value).value, multiset{});
  }

  /** The second half: graphs, and with them all samples. */
  lemma EmptyGraphs(s: State)
    requires Inv(s, multiset{}, multiset{}, multiset{}, None) && s.timelines == [] && s.currentTimeline.None?
    requires s.contexts == map[] && s.hwContexts == [] && s.table == map[]
    ensures PutGraphs(s).Some? && PutCurrentGraph(PutGraphs(s).value).Some?
    ensures var t := PutCurrentGraph(PutGraphs(s).value).value;
            && Inv(t, multiset{}, multiset{}, multiset{}, None) && t.samples == map[]
            && SameSession(s.(graphs := [], currentGraph := None), t) && SameContexts(s, t)
  {
    hide Inv, PutGraphs, PutCurrentGraph;
    PutGraphsInv(s, multiset{});
    PutCurrentGraphInv(PutGraphs(s).value, multiset{});
    AllGone(PutCurrentGraph(PutGraphs(s).value).value);
  }

  /** Emptying never trips over its assertions and leaves no chunk, no sample and no context; every
      block ever allocated is then on the free list. */
  lemma EmptySamplesGood(k: Config, s: State)
    requires ValidConfig(k) && Good(s, multiset{})
    ensures EmptySamples(k, s).Some?
    ensures Emptied(EmptySamples(k, s).value) && Good(EmptySamples(k, s).value, multiset{})
    ensures EmptySamples(k, s).value.lastOaTimestamp == Wrap64(k.visiblePeriod)
    ensures EmptySamples(k, s).value.lastHwId == INVALID_CTX_ID
  {
    hide Inv, Good, Core, Allocated, PutTimelines, PutCurrentTimeline, PutGraphs, PutCurrentGraph, PutRefChunk,
         SameData, Wrap64, Blocks;
    EmptyTimelines(s);
    var s2 := PutCurrentTimeline(PutTimelines(s).value).value;
    var s2' := s2.(table := map[], nTimelines := 0, lastHwId := INVALID_CTX_ID);
    CountsReset(s2, s2', multiset{});
    EmptyGraphs(s2');
    var s4 := PutCurrentGraph(PutGraphs(s2').value).value;
    var s4' := s4.(nGraphs := 0);
    CountsReset(s4, s4', multiset{});
    InvCore(s4', multiset{}, multiset{}, multiset{}, None);
    PutLast(s4', multiset{}, multiset{});
    var s5 := PutRefChunk(s4'.(last := None), s4.last).value;
    PutRefChunkOnlyChunks(s4'.(last := None), s4.last);
    NothingLeft(s5);
    var t := s5.(lastOaTimestamp := Wrap64(k.visiblePeriod));
    CoreFrame(s5, t, multiset{}, multiset{});
    EmptyGood(t);
  }

  lemma CountsReset(s: State, t: State, extra: multiset<ChunkId>)
    requires Inv(s, extra, multiset{}, multiset{}, None) && s.timelines == [] && s.contexts == map[] && s.table == map[]
    requires t == s.(nTimelines := t.nTimelines, nGraphs := t.nGraphs, lastHwId := t.lastHwId)
    ensures Inv(t, extra, multiset{}, multiset{}, None)
  {
    hide Inv, Core, Placed, Tabled, Rows, Counted, TimeOf, ContextKinds, PlainOpen, PlainDone;
    InvParts(s, extra, multiset{}, multiset{});
    MovedInv(s, t, extra, multiset{}, multiset{}, multiset{});
  }

  lemma AllGone(s: State)
    requires Inv(s, multiset{}, multiset{}, multiset{}, None) && s.contexts == map[] && s.hwContexts == []
    requires s.timelines == [] && s.currentTimeline.None? && s.graphs == [] && s.currentGraph.None?
    ensures s.samples == map[]
  {
    hide Core, Tabled, Rows, Counted, Filed;
    forall id ensures id !in s.samples.Keys {
      assert multiset(s.samples.Keys)[id] == 0;
    }
    assert s.samples.Keys == {};
  }

  lemma EmptyGood(t: State)
    requires Core(t, multiset{}, multiset{}) && t.samples == map[] && t.contexts == map[] && t.table == map[]
    requires t.hwContexts == [] && t.graphs == [] && t.timelines == [] && t.currentGraph.None?
    requires t.currentTimeline.None? && t.nGraphs == 0 && t.nTimelines == 0
    ensures Good(t, multiset{})
  {
    hide Core;
    assert |t.table| == 0;
    assert multiset(t.samples.Keys) == multiset{};
  }

  // ---------------------------------------------------------------- whole runs

  /** What can happen to a client: data of its stream, or a restart that empties it. */
  datatype Event = Data(records: seq<Record>) | Restart

  function Apply(k: Config, s: State, e: Event): Option<State>
    requires ValidConfig(k)
  {
    match e
    case Data(records) => HandleData(k, s, records)
    case Restart => EmptySamples(k, s)
  }

  function Run(k: Config, s: State, events: seq<Event>): Option<State>
    requires ValidConfig(k)
  {
    if events == [] then Some(s)
    else
      var s1 :- Run(k, s, events[..|events| - 1]);
      Apply(k, s1, events[|events| - 1])
  }

  lemma InitialGood(k: Config)
    ensures Good(InitialState(k), multiset{})
  {
    var t := InitialState(k);
    forall c ensures RefCount(t.samples, c) == 0 {
      assert StartSet(t.samples, c) == {} && EndSet(t.samples, c) == {};
    }
    EmptyGood(t);
  }

  /** Whatever data arrives and whenever the client is restarted: no assertion fails, no pointer to
      freed memory and no NULL pointer is followed, and in the state reached every reference count,
      every list, the context table and all counters are exact. */
  lemma {:induction false} EveryRunIsGood(k: Config, events: seq<Event>)
    requires ValidConfig(k)
    ensures Run(k, InitialState(k), events).Some?
    ensures Good(Run(k, InitialState(k), events).value, multiset{})
  {
    hide Good, HandleData, EmptySamples, InitialState;
    if events == [] {
      InitialGood(k);
    } else {
      EveryRunIsGood(k, events[..|events| - 1]);
      var s := Run(k, InitialState(k), events[..|events| - 1]).value;
      match events[|events| - 1]
      case Data(records) => HandleDataGood(k, s, records);
      case Restart => EmptySamplesGood(k, s);
    }
  }
}
