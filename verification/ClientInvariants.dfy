/** What every function of the client context keeps: reference counts are exact, every sample block is
    in exactly one place, and contexts, their table and their counters agree.
 */
module ClientInvariants {
  import opened Common
  import opened OaCounters
  import opened ClientState

  // ---------------------------------------------------------------- references to chunks

  ghost function StartSet(samples: map<SampleId, AccumulatedSamples>, c: ChunkId): set<SampleId> {
    set id | id in samples && samples[id].start.chunk == c
  }

  ghost function EndSet(samples: map<SampleId, AccumulatedSamples>, c: ChunkId): set<SampleId> {
    set id | id in samples && samples[id].end.Some? && samples[id].end.value.chunk == c
  }

  /** How many start and end references the samples hold on a chunk. */
  ghost function RefCount(samples: map<SampleId, AccumulatedSamples>, c: ChunkId): nat {
    |StartSet(samples, c)| + |EndSet(samples, c)|
  }

  function One(b: bool): nat {
    if b then 1 else 0
  }

  function LastRef(last: Option<Ref>, c: ChunkId): nat {
    One(last.Some? && last.value.chunk == c)
  }

  function Count(chunks: map<ChunkId, Chunk>, c: ChunkId): nat {
    if c in chunks then chunks[c].refcount else 0
  }

  predicate Ascending(l: seq<nat>) {
    forall i, j :: 0 <= i < j < |l| ==> l[i] < l[j]
  }

  /** A chunk's count is the number of references held by samples, plus `last`, plus `extra`: those
      held by code that is running.  Chunks without references are gone, and the chunk list holds the
      others in the order they arrived. */
  ghost predicate Mem(s: State, extra: multiset<ChunkId>) {
    && (forall c :: Count(s.chunks, c) == RefCount(s.samples, c) + LastRef(s.last, c) + extra[c])
    && (forall c :: c in s.chunks ==> s.chunks[c].refcount > 0)
    && Listed(s)
  }

  ghost predicate Listed(s: State) {
    && Ascending(s.chunkList)
    && (forall c :: c in s.chunkList <==> c in s.chunks)
    && (forall c :: c in s.chunks ==> c < s.nextChunk)
  }

  ghost function ReportRefs(m: AccumulatedSamples): multiset<ChunkId> {
    multiset{m.start.chunk} + if m.end.Some? then multiset{m.end.value.chunk} else multiset{}
  }

  lemma AddSampleRefs(samples: map<SampleId, AccumulatedSamples>, id: SampleId, m: AccumulatedSamples, c: ChunkId)
    requires id !in samples
    ensures RefCount(samples[id := m], c) == RefCount(samples, c) + ReportRefs(m)[c]
  {
    var after := samples[id := m];
    OneMore(StartSet(samples, c), StartSet(after, c), id, m.start.chunk == c);
    OneMore(EndSet(samples, c), EndSet(after, c), id, m.end.Some? && m.end.value.chunk == c);
  }

  lemma OneMore(a: set<nat>, b: set<nat>, x: nat, more: bool)
    requires x !in a && forall y :: y in b <==> y in a || (more && y == x)
    ensures |b| == |a| + One(more)
  {
    assert b == if more then a + {x} else a;
  }

  lemma DropSampleRefs(samples: map<SampleId, AccumulatedSamples>, id: SampleId, c: ChunkId)
    requires id in samples
    ensures RefCount(samples, c) == RefCount(samples - {id}, c) + ReportRefs(samples[id])[c]
  {
    AddSampleRefs(samples - {id}, id, samples[id], c);
    assert (samples - {id})[id := samples[id]] == samples;
  }

  lemma SetSampleRefs(samples: map<SampleId, AccumulatedSamples>, id: SampleId, m: AccumulatedSamples, c: ChunkId)
    requires id in samples
    ensures RefCount(samples[id := m], c) + ReportRefs(samples[id])[c] == RefCount(samples, c) + ReportRefs(m)[c]
  {
    DropSampleRefs(samples, id, c);
    AddSampleRefs(samples - {id}, id, m, c);
    assert (samples - {id})[id := m] == samples[id := m];
  }

  lemma RemoveKeepsOrder(l: seq<nat>, x: nat)
    requires Ascending(l)
    ensures Ascending(Remove(l, x))
    ensures forall c :: c in Remove(l, x) <==> c in l && c != x
  {
    if l != [] && l[0] != x {
      RemoveKeepsOrder(l[1..], x);
      var rest := Remove(l[1..], x);
      forall j | 0 <= j < |rest| ensures l[0] < rest[j] {
        assert rest[j] in rest;
        assert rest[j] in l[1..];
      }
    }
  }

  /** Records of surviving chunks stay what and where they are. */
  ghost predicate SameData(s: map<ChunkId, Chunk>, t: map<ChunkId, Chunk>) {
    forall c :: c in t ==> c in s && t[c].data == s[c].data
  }

  lemma RefChunkKeeps(s: State, c: ChunkId, extra: multiset<ChunkId>)
    requires Mem(s, extra) && c in s.chunks
    ensures RefChunk(s, c).Some? && Mem(RefChunk(s, c).value, extra + multiset{c})
    ensures SameData(s.chunks, RefChunk(s, c).value.chunks)
    ensures RefChunk(s, c).value.chunks.Keys == s.chunks.Keys
  {
    hide RefCount;
  }

  lemma PutChunkListed(s: State, c: ChunkId)
    requires Listed(s) && PutChunk(s, c).Some?
    ensures Listed(PutChunk(s, c).value)
  {
    RemoveKeepsOrder(s.chunkList, c);
  }

  lemma PutChunkKeeps(s: State, c: ChunkId, extra: multiset<ChunkId>)
    requires Mem(s, extra) && c in extra
    ensures PutChunk(s, c).Some? && Mem(PutChunk(s, c).value, extra - multiset{c})
    ensures SameData(s.chunks, PutChunk(s, c).value.chunks)
  {
    hide RefCount, LastRef, Listed, Remove;
    assert Count(s.chunks, c) > 0;
    PutChunkListed(s, c);
    var t := PutChunk(s, c).value;
    forall x
      ensures Count(t.chunks, x) == RefCount(t.samples, x) + LastRef(t.last, x) + (extra - multiset{c})[x]
    {
      assert Count(s.chunks, x) == RefCount(s.samples, x) + LastRef(s.last, x) + extra[x];
      if x == c {
        assert (extra - multiset{c})[x] == extra[x] - 1;
      } else {
        assert (extra - multiset{c})[x] == extra[x];
      }
    }
  }

  lemma PutReportsKeeps(s: State, m: AccumulatedSamples, extra: multiset<ChunkId>)
    requires Mem(s, extra + ReportRefs(m))
    ensures PutReports(s, m).Some? && Mem(PutReports(s, m).value, extra)
    ensures SameData(s.chunks, PutReports(s, m).value.chunks)
  {
    hide RefCount, Mem;
    var all := extra + ReportRefs(m);
    PutChunkKeeps(s, m.start.chunk, all);
    var s1 := PutChunk(s, m.start.chunk).value;
    if m.end.Some? {
      assert m.end.value.chunk in all - multiset{m.start.chunk};
      PutChunkKeeps(s1, m.end.value.chunk, all - multiset{m.start.chunk});
      assert all - multiset{m.start.chunk} - multiset{m.end.value.chunk} == extra;
    } else {
      assert all - multiset{m.start.chunk} == extra;
    }
  }

  lemma DropSampleMem(s: State, id: SampleId, extra: multiset<ChunkId>)
    requires Mem(s, extra) && id in s.samples
    ensures Mem(s.(samples := s.samples - {id}), extra + ReportRefs(s.samples[id]))
  {
    hide RefCount;
    forall c ensures RefCount(s.samples, c) == RefCount(s.samples - {id}, c) + ReportRefs(s.samples[id])[c] {
      DropSampleRefs(s.samples, id, c);
    }
  }

  lemma SetSampleMem(s: State, id: SampleId, m: AccumulatedSamples, extra: multiset<ChunkId>)
    requires Mem(s, extra + ReportRefs(m)) && id !in s.samples
    ensures Mem(s.(samples := s.samples[id := m]), extra)
  {
    hide RefCount;
    forall c ensures RefCount(s.samples[id := m], c) == RefCount(s.samples, c) + ReportRefs(m)[c] {
      AddSampleRefs(s.samples, id, m, c);
    }
  }

  // ---------------------------------------------------------------- where the samples are

  ghost function Own(x: HwContext): multiset<SampleId> {
    multiset(x.graphs) + multiset(OptionSeq(x.current))
  }

  ghost function OwnAt(contexts: map<ContextId, HwContext>, c: ContextId): multiset<SampleId> {
    if c in contexts then Own(contexts[c]) else multiset{}
  }

  ghost function ContextSlots(contexts: map<ContextId, HwContext>, l: seq<ContextId>): multiset<SampleId> {
    if l == [] then multiset{} else OwnAt(contexts, l[0]) + ContextSlots(contexts, l[1..])
  }

  ghost function SessionSlots(s: State): multiset<SampleId> {
    multiset(s.graphs) + multiset(OptionSeq(s.currentGraph))
    + multiset(s.timelines) + multiset(OptionSeq(s.currentTimeline))
  }

  /** Each live sample is in exactly one list or slot, or among those `held` by running code. */
  ghost predicate Placed(s: State, held: multiset<SampleId>) {
    SessionSlots(s) + ContextSlots(s.contexts, s.hwContexts) + held == multiset(s.samples.Keys)
  }

  /** The blocks 0 to n - 1, once each. */
  ghost function Blocks(n: nat): multiset<SampleId> {
    if n == 0 then multiset{} else Blocks(n - 1) + multiset{n - 1}
  }

  lemma {:induction false} BlocksOnce(n: nat, id: SampleId)
    ensures Blocks(n)[id] == One(id < n)
  {
    if n > 0 {
      BlocksOnce(n - 1, id);
    }
  }

  /** Each block ever allocated is a live sample or on the free list (or in `limbo`), exactly once. */
  ghost predicate Allocated(s: State, limbo: multiset<SampleId>) {
    multiset(s.samples.Keys) + multiset(s.freeSamples) + limbo == Blocks(s.nextSample)
  }

  ghost predicate Sound(chunks: map<ChunkId, Chunk>, m: AccumulatedSamples) {
    && Deref(chunks, m.start).Some?
    && (m.end.Some? ==> Deref(chunks, m.end.value).Some?)
    && WellFormed(m.accumulator)
  }

  /** Every pointer to a record leads to a sample record of a live chunk. */
  ghost predicate Points(s: State) {
    && (forall id :: id in s.samples ==> Sound(s.chunks, s.samples[id]))
    && (s.last.Some? ==> Deref(s.chunks, s.last.value).Some?)
  }

  ghost predicate Core(s: State, extra: multiset<ChunkId>, limbo: multiset<SampleId>) {
    Mem(s, extra) && Allocated(s, limbo) && Points(s)
  }

  lemma ContextSlotsFrame(a: map<ContextId, HwContext>, b: map<ContextId, HwContext>, l: seq<ContextId>)
    requires forall c :: c in l ==> OwnAt(a, c) == OwnAt(b, c)
    ensures ContextSlots(a, l) == ContextSlots(b, l)
  {
    hide OwnAt;
    if l != [] {
      assert l[0] in l;
      ContextSlotsFrame(a, b, l[1..]);
    }
  }

  lemma ContextSlotsAppend(contexts: map<ContextId, HwContext>, l: seq<ContextId>, c: ContextId)
    ensures ContextSlots(contexts, l + [c]) == ContextSlots(contexts, l) + OwnAt(contexts, c)
  {
    hide OwnAt;
    if l == [] {
      assert l + [c] == [c];
      assert ContextSlots(contexts, [c]) == OwnAt(contexts, c) + ContextSlots(contexts, []);
    } else {
      ContextSlotsAppend(contexts, l[1..], c);
      assert (l + [c])[1..] == l[1..] + [c];
    }
  }

  lemma ContextSlotsRemove(contexts: map<ContextId, HwContext>, l: seq<ContextId>, c: ContextId)
    requires c in l
    ensures ContextSlots(contexts, l) == OwnAt(contexts, c) + ContextSlots(contexts, Remove(l, c))
  {
    hide OwnAt;
    if l[0] != c {
      ContextSlotsRemove(contexts, l[1..], c);
      var rest := Remove(l[1..], c);
      assert ([l[0]] + rest)[1..] == rest;
    }
  }

  lemma ContextSlotsUpdate(contexts: map<ContextId, HwContext>, l: seq<ContextId>, c: ContextId, x: HwContext)
    requires Ascending(l) && c in l && c in contexts
    ensures ContextSlots(contexts[c := x], l) + Own(contexts[c]) == ContextSlots(contexts, l) + Own(x)
  {
    hide ContextSlots, Remove, Own;
    ContextSlotsRemove(contexts, l, c);
    ContextSlotsRemove(contexts[c := x], l, c);
    RemoveKeepsOrder(l, c);
    ContextSlotsFrame(contexts, contexts[c := x], Remove(l, c));
  }

  lemma KeysWithout(keys: set<SampleId>, id: SampleId)
    requires id in keys
    ensures multiset(keys - {id}) == multiset(keys) - multiset{id}
  {
  }

  lemma KeysWith(keys: set<SampleId>, id: SampleId)
    requires id !in keys
    ensures multiset(keys + {id}) == multiset(keys) + multiset{id}
  {
  }

  lemma RefHeld(samples: map<SampleId, AccumulatedSamples>, id: SampleId)
    requires id in samples
    ensures RefCount(samples, samples[id].start.chunk) > 0
    ensures samples[id].end.Some? ==> RefCount(samples, samples[id].end.value.chunk) > 0
  {
    assert id in StartSet(samples, samples[id].start.chunk);
    if samples[id].end.Some? {
      assert id in EndSet(samples, samples[id].end.value.chunk);
    }
  }

  predicate SubSamples(a: map<SampleId, AccumulatedSamples>, b: map<SampleId, AccumulatedSamples>) {
    forall id :: id in a ==> id in b && a[id] == b[id]
  }

  /** Chunks may go, but not those that samples or `last` still refer to. */
  lemma PointsKept(s: State, t: State, extra: multiset<ChunkId>)
    requires Points(s) && Mem(t, extra) && SameData(s.chunks, t.chunks)
    requires SubSamples(t.samples, s.samples) && (t.last == s.last || t.last.None?)
    ensures Points(t)
  {
    hide RefCount, Listed, WellFormed;
    forall id | id in t.samples ensures Sound(t.chunks, t.samples[id]) {
      assert Sound(s.chunks, s.samples[id]);
      RefHeld(t.samples, id);
      assert Count(t.chunks, t.samples[id].start.chunk) > 0;
      if t.samples[id].end.Some? {
        assert Count(t.chunks, t.samples[id].end.value.chunk) > 0;
      }
    }
    if t.last.Some? {
      assert Count(t.chunks, t.last.value.chunk) > 0;
    }
  }

  lemma MemFrame(s: State, t: State, extra: multiset<ChunkId>)
    requires Mem(s, extra) && t.chunks == s.chunks && t.chunkList == s.chunkList && t.nextChunk == s.nextChunk
    requires t.samples == s.samples && t.last == s.last
    ensures Mem(t, extra)
  {
    hide RefCount;
  }

  /** Dropping a sample and both its references; its block is in limbo until it is on the free list. */
  lemma PutReportsOf(s: State, id: SampleId, extra: multiset<ChunkId>, limbo: multiset<SampleId>)
    requires Core(s, extra, limbo) && id in s.samples
    ensures var t := PutReports(s.(samples := s.samples - {id}), s.samples[id]);
            t.Some? && Core(t.value, extra, limbo + multiset{id}) && SameData(s.chunks, t.value.chunks)
  {
    hide Mem, Points, RefCount, SameData, ReportRefs, Blocks;
    var m := s.samples[id];
    var s0 := s.(samples := s.samples - {id});
    DropSampleMem(s, id, extra);
    PutReportsKeeps(s0, m, extra);
    var t := PutReports(s0, m).value;
    PointsKept(s, t, extra);
    KeysWithout(s.samples.Keys, id);
    assert t.samples.Keys == s.samples.Keys - {id};
  }

  /** The block goes onto the free list. */
  lemma FreeBlock(s: State, id: SampleId, extra: multiset<ChunkId>, limbo: multiset<SampleId>)
    requires Core(s, extra, limbo + multiset{id})
    ensures Core(s.(freeSamples := [id] + s.freeSamples), extra, limbo)
  {
    hide Mem, Blocks, Sound;
    var t := s.(freeSamples := [id] + s.freeSamples);
    MemFrame(s, t, extra);
    assert multiset(t.freeSamples) == multiset{id} + multiset(s.freeSamples);
  }

  lemma PutPlainSampleKeeps(s: State, id: SampleId, extra: multiset<ChunkId>, limbo: multiset<SampleId>)
    requires Core(s, extra, limbo) && id in s.samples && s.samples[id].context.None?
    ensures PutPlainSample(s, id).Some?
    ensures Core(PutPlainSample(s, id).value, extra, limbo)
    ensures PutPlainSample(s, id).value.samples == s.samples - {id}
    ensures SameData(s.chunks, PutPlainSample(s, id).value.chunks)
  {
    hide Core, SameData, PutReports;
    PutReportsOf(s, id, extra, limbo);
    FreeBlock(PutReports(s.(samples := s.samples - {id}), s.samples[id]).value, id, extra, limbo);
  }

  ghost function SetOf(ids: seq<SampleId>): set<SampleId> {
    set id | id in ids
  }

  lemma {:induction false} PutPlainSamplesKeeps(s: State, ids: seq<SampleId>, extra: multiset<ChunkId>,
                                                limbo: multiset<SampleId>)
    requires Core(s, extra, limbo) && multiset(ids) <= multiset(s.samples.Keys)
    requires forall id :: id in ids && id in s.samples ==> s.samples[id].context.None?
    ensures PutPlainSamples(s, ids).Some?
    ensures Core(PutPlainSamples(s, ids).value, extra, limbo)
    ensures PutPlainSamples(s, ids).value.samples == s.samples - SetOf(ids)
    ensures multiset(PutPlainSamples(s, ids).value.samples.Keys) == multiset(s.samples.Keys) - multiset(ids)
    ensures SameData(s.chunks, PutPlainSamples(s, ids).value.chunks)
    decreases |ids|
  {
    hide Core, PutPlainSample;
    if ids != [] {
      assert ids == [ids[0]] + ids[1..];
      assert ids[0] in multiset(ids);
      PutPlainSampleKeeps(s, ids[0], extra, limbo);
      KeysWithout(s.samples.Keys, ids[0]);
      var s1 := PutPlainSample(s, ids[0]).value;
      assert s1.samples.Keys == s.samples.Keys - {ids[0]};
      PutPlainSamplesKeeps(s1, ids[1..], extra, limbo);
      assert SetOf(ids) == {ids[0]} + SetOf(ids[1..]);
      assert s.samples - {ids[0]} - SetOf(ids[1..]) == s.samples - SetOf(ids);
    } else {
      assert s.samples - SetOf(ids) == s.samples;
    }
  }

  // ---------------------------------------------------------------- contexts

  /** The context list, the hash table and the live contexts are the same contexts; the list is in
      order of creation. */
  ghost predicate Tabled(s: State) {
    && Members(s.hwContexts, s.contexts)
    && Keyed(s.contexts, s.table)
    && (forall c :: c in s.contexts ==> c < s.nextContext)
    && |s.table| == |s.hwContexts|
  }

  ghost predicate Members(l: seq<ContextId>, contexts: map<ContextId, HwContext>) {
    Ascending(l) && forall c :: c in l <==> c in contexts
  }

  ghost predicate Keyed(contexts: map<ContextId, HwContext>, table: map<Word, ContextId>) {
    && (forall c :: c in contexts ==> InTable(table, c, contexts[c].hwId))
    && (forall h :: h in table ==> Named(contexts, table[h], h))
  }

  predicate InTable(table: map<Word, ContextId>, c: ContextId, h: Word) {
    h != INVALID_CTX_ID && h in table && table[h] == c
  }

  predicate Named(contexts: map<ContextId, HwContext>, c: ContextId, h: Word) {
    c in contexts && contexts[c].hwId == h
  }

  /** The i-th context is drawn on row i. */
  ghost predicate Rows(contexts: map<ContextId, HwContext>, l: seq<ContextId>) {
    forall i :: 0 <= i < |l| ==> l[i] in contexts && contexts[l[i]].timelineRow == i
  }

  predicate PlainOpen(m: AccumulatedSamples) { m.context.None? && m.end.None? }
  predicate PlainDone(m: AccumulatedSamples) { m.context.None? && m.end.Some? }
  predicate TimelineOpen(m: AccumulatedSamples) { m.context.Some? && m.end.None? }
  predicate TimelineDone(m: AccumulatedSamples) { m.context.Some? && m.end.Some? }

  /** Timeline samples are those with a context; listed samples are those with an end. */
  ghost predicate Kinds(s: State) {
    && (forall id :: id in s.graphs && id in s.samples ==> PlainDone(s.samples[id]))
    && (forall id :: id in s.timelines && id in s.samples ==> TimelineDone(s.samples[id]))
    && (s.currentGraph.Some? && s.currentGraph.value in s.samples ==> PlainOpen(s.samples[s.currentGraph.value]))
    && (s.currentTimeline.Some? && s.currentTimeline.value in s.samples
        ==> TimelineOpen(s.samples[s.currentTimeline.value]))
    && (forall c :: c in s.contexts ==> ContextKinds(s.samples, s.contexts[c]))
  }

  ghost predicate ContextKinds(samples: map<SampleId, AccumulatedSamples>, x: HwContext) {
    && (forall id :: id in x.graphs && id in samples ==> PlainDone(samples[id]))
    && (x.current.Some? && x.current.value in samples ==> PlainOpen(samples[x.current.value]))
  }

  /** The timeline samples, recorded or current, that point to a context. */
  ghost function Users(samples: map<SampleId, AccumulatedSamples>, c: ContextId): set<SampleId> {
    set id | id in samples && samples[id].context == Some(c)
  }

  /** n_samples is exact - but for context `off`, which counts one sample more than there is yet. */
  ghost predicate Counted(s: State, off: Option<ContextId>) {
    && (forall c :: c in s.contexts ==>
          s.contexts[c].nSamples == |Users(s.samples, c)| + One(off == Some(c)) && s.contexts[c].nSamples > 0)
    && (forall id :: id in s.samples && s.samples[id].context.Some? ==> s.samples[id].context.value in s.contexts)
  }

  function Length(m: AccumulatedSamples): nat {
    Wrap64(m.timestampEnd - m.timestampStart)
  }

  /** The lengths of a context's segments among those of a list. */
  ghost function TimeOf(samples: map<SampleId, AccumulatedSamples>, l: seq<SampleId>, c: ContextId): int {
    if l == [] then 0
    else (if l[0] in samples && samples[l[0]].context == Some(c) then Length(samples[l[0]]) else 0)
         + TimeOf(samples, l[1..], c)
  }

  /** time_spent is the time of the listed segments - until everything is being emptied, when the
      segments go without being counted. */
  ghost predicate Timed(s: State) {
    s.nTimelines == |s.timelines| ==>
      forall c :: c in s.contexts ==> s.contexts[c].timeSpent == Wrap64(TimeOf(s.samples, s.timelines, c))
  }

  ghost predicate Sized(s: State) {
    forall c :: c in s.contexts ==> s.contexts[c].nGraphs == |s.contexts[c].graphs|
  }

  predicate Lengths(s: State) {
    s.nGraphs == |s.graphs| && s.nTimelines == |s.timelines|
  }

  predicate SameButRow(a: HwContext, b: HwContext) {
    b == a.(timelineRow := b.timelineRow)
  }

  ghost predicate SameButRows(a: map<ContextId, HwContext>, b: map<ContextId, HwContext>) {
    forall c :: c in b ==> c in a && SameButRow(a[c], b[c])
  }

  lemma {:induction false} RenumberKeeps(contexts: map<ContextId, HwContext>, l: seq<ContextId>, i: nat)
    requires i <= |l| && Ascending(l) && forall c :: c in l ==> c in contexts
    requires forall j :: 0 <= j < i ==> contexts[l[j]].timelineRow == j
    ensures Renumber(contexts, l, i).Some?
    ensures var t := Renumber(contexts, l, i).value;
            t.Keys == contexts.Keys && SameButRows(contexts, t) && Rows(t, l)
    decreases |l| - i
  {
    if i < |l| {
      assert l[i] in l;
      RenumberKeeps(contexts[l[i] := contexts[l[i]].(timelineRow := i)], l, i + 1);
    }
  }

  ghost function OwnSet(x: HwContext): set<SampleId> {
    SetOf(x.graphs) + SetOf(OptionSeq(x.current))
  }

  /** What a context owns is part of the live samples. */
  lemma OwnIsLive(s: State, held: multiset<SampleId>, c: ContextId)
    requires Placed(s, held) && c in s.hwContexts && c in s.contexts
    ensures Own(s.contexts[c]) <= multiset(s.samples.Keys)
  {
    hide Own, SessionSlots;
    ContextSlotsRemove(s.contexts, s.hwContexts, c);
  }

  /** The two lists of a freed context are released together. */
  lemma PutOwnSamples(s: State, x: HwContext, extra: multiset<ChunkId>, limbo: multiset<SampleId>)
    requires Core(s, extra, limbo) && Own(x) <= multiset(s.samples.Keys) && ContextKinds(s.samples, x)
    ensures PutPlainSamples(s, x.graphs).Some?
    ensures var t := PutPlainSamples(PutPlainSamples(s, x.graphs).value, OptionSeq(x.current));
            && t.Some? && Core(t.value, extra, limbo) && SameData(s.chunks, t.value.chunks)
            && t.value.samples == s.samples - OwnSet(x)
            && multiset(t.value.samples.Keys) == multiset(s.samples.Keys) - Own(x)
  {
    hide Core, PutPlainSamples;
    PutPlainSamplesKeeps(s, x.graphs, extra, limbo);
    var s1 := PutPlainSamples(s, x.graphs).value;
    PutPlainSamplesKeeps(s1, OptionSeq(x.current), extra, limbo);
    assert s.samples - SetOf(x.graphs) - SetOf(OptionSeq(x.current)) == s.samples - OwnSet(x);
  }

  lemma RemoveLength(l: seq<nat>, x: nat)
    requires x in l
    ensures |Remove(l, x)| == |l| - 1
  {
  }

  lemma OwnOfRow(a: HwContext, b: HwContext)
    requires SameButRow(a, b)
    ensures Own(a) == Own(b)
  {
  }

  /** Freeing a context goes through, and this is what is left. */
  lemma FreeContextRuns(s: State, c: ContextId, extra: multiset<ChunkId>, held: multiset<SampleId>,
                        limbo: multiset<SampleId>)
    requires Core(s, extra, limbo) && Placed(s, held) && Tabled(s) && c in s.contexts
    requires ContextKinds(s.samples, s.contexts[c])
    ensures FreeContext(s, c).Some?
    ensures var t := FreeContext(s, c).value;
            && Core(t, extra, limbo) && SameData(s.chunks, t.chunks) && Rows(t.contexts, t.hwContexts)
            && t.samples == s.samples - OwnSet(s.contexts[c])
            && multiset(t.samples.Keys) == multiset(s.samples.Keys) - Own(s.contexts[c])
            && t.contexts.Keys == s.contexts.Keys - {c} && SameButRows(s.contexts, t.contexts)
            && t.table == s.table - {s.contexts[c].hwId} && t.nextContext == s.nextContext
            && t.hwContexts == Remove(s.hwContexts, c)
  {
    hide Core, Own, SessionSlots, PutPlainSamples, ContextKinds, SameData, Rows, ContextSlots, Ascending, SameButRow;
    var x := s.contexts[c];
    var s1 := s.(table := s.table - {x.hwId});
    CoreFrame(s, s1, extra, limbo);
    OwnIsLive(s, held, c);
    PutOwnSamples(s1, x, extra, limbo);
    var s3 := PutPlainSamples(PutPlainSamples(s1, x.graphs).value, OptionSeq(x.current)).value;
    RemoveKeepsOrder(s.hwContexts, c);
    RemoveLength(s.hwContexts, c);
    RenumberKeeps(s.contexts - {c}, Remove(s.hwContexts, c), 0);
    assert InTable(s.table, c, x.hwId);
    assert |s1.table| == |s.table| - 1;
    CoreFrame(s3, FreeContext(s, c).value, extra, limbo);
  }

  /** Freeing a context that no sample points to. */
  lemma FreeContextKeeps(s: State, c: ContextId, extra: multiset<ChunkId>, held: multiset<SampleId>,
                         limbo: multiset<SampleId>)
    requires Core(s, extra, limbo) && Placed(s, held) && Tabled(s) && c in s.contexts
    requires ContextKinds(s.samples, s.contexts[c])
    ensures FreeContext(s, c).Some?
    ensures var t := FreeContext(s, c).value;
            && Core(t, extra, limbo) && Placed(t, held) && Tabled(t) && Rows(t.contexts, t.hwContexts)
            && SameData(s.chunks, t.chunks)
            && t.samples == s.samples - OwnSet(s.contexts[c])
            && t.contexts.Keys == s.contexts.Keys - {c} && SameButRows(s.contexts, t.contexts)
  {
    hide Core, Own, SessionSlots, FreeContext, ContextKinds, SameData, Rows, ContextSlots, Ascending, SameButRow,
         Remove;
    FreeContextRuns(s, c, extra, held, limbo);
    var t := FreeContext(s, c).value;
    FreeKeyed(s.contexts, s.table, c, t.contexts);
    FreeMembers(s.hwContexts, s.contexts, c, t.contexts);
    RemoveLength(s.hwContexts, c);
    assert InTable(s.table, c, s.contexts[c].hwId) && |t.table| == |s.table| - 1;
    ContextSlotsRemove(s.contexts, s.hwContexts, c);
    forall d | d in t.hwContexts ensures OwnAt(t.contexts, d) == OwnAt(s.contexts, d) {
      OwnOfRow(s.contexts[d], t.contexts[d]);
    }
    ContextSlotsFrame(s.contexts, t.contexts, t.hwContexts);
    SameSlots(s, t);
  }

  lemma SameSlots(s: State, t: State)
    requires SameSession(s, t)
    ensures SessionSlots(s) == SessionSlots(t)
  {
  }

  lemma FreeMembers(l: seq<ContextId>, contexts: map<ContextId, HwContext>, c: ContextId,
                    left: map<ContextId, HwContext>)
    requires Members(l, contexts) && c in contexts && left.Keys == contexts.Keys - {c}
    ensures Members(Remove(l, c), left)
  {
    hide Ascending, Remove;
    RemoveKeepsOrder(l, c);
    forall d ensures d in Remove(l, c) <==> d in left {
      assert d in left.Keys <==> d in contexts.Keys - {c};
    }
  }

  lemma FreeKeyed(contexts: map<ContextId, HwContext>, table: map<Word, ContextId>, c: ContextId,
                  left: map<ContextId, HwContext>)
    requires Keyed(contexts, table) && c in contexts
    requires left.Keys == contexts.Keys - {c} && SameButRows(contexts, left)
    ensures Keyed(left, table - {contexts[c].hwId})
  {
    var h := contexts[c].hwId;
    assert InTable(table, c, h);
    forall d | d in left ensures InTable(table - {h}, d, left[d].hwId) {
      assert SameButRow(contexts[d], left[d]);
      assert InTable(table, d, contexts[d].hwId);
    }
    forall g | g in table - {h} ensures Named(left, table[g], g) {
      assert Named(contexts, table[g], g);
      assert SameButRow(contexts[table[g]], left[table[g]]);
    }
  }

  lemma CoreFrame(s: State, t: State, extra: multiset<ChunkId>, limbo: multiset<SampleId>)
    requires Core(s, extra, limbo) && t.chunks == s.chunks && t.chunkList == s.chunkList && t.nextChunk == s.nextChunk
    requires SameSamples(s, t) && t.last == s.last
    ensures Core(t, extra, limbo)
  {
    hide Mem, Sound, Blocks;
    MemFrame(s, t, extra);
  }

  /** Apart from its row and its count a context is as it was. */
  predicate Kin(a: HwContext, b: HwContext) {
    b == a.(timelineRow := b.timelineRow, nSamples := b.nSamples)
  }

  ghost predicate KinAll(a: map<ContextId, HwContext>, b: map<ContextId, HwContext>) {
    forall c :: c in b ==> c in a && Kin(a[c], b[c])
  }

  /** Everything but the counts and rows of Shape. */
  ghost predicate Filed(s: State) {
    Kinds(s) && Timed(s) && Sized(s)
  }

  lemma TimeOfFrame(a: map<SampleId, AccumulatedSamples>, b: map<SampleId, AccumulatedSamples>, l: seq<SampleId>,
                    c: ContextId)
    requires forall id :: id in l ==> id in a && id in b
    requires forall id :: id in l ==> a[id].context == b[id].context && Length(a[id]) == Length(b[id])
    ensures TimeOf(a, l, c) == TimeOf(b, l, c)
  {
    hide Length;
    if l != [] {
      assert l[0] in l;
      TimeOfFrame(a, b, l[1..], c);
    }
  }

  /** What is on a list is live. */
  lemma ListedLive(s: State, held: multiset<SampleId>)
    requires Placed(s, held)
    ensures forall id :: id in s.graphs ==> id in s.samples
    ensures forall id :: id in s.timelines ==> id in s.samples
    ensures s.currentGraph.Some? ==> s.currentGraph.value in s.samples
    ensures s.currentTimeline.Some? ==> s.currentTimeline.value in s.samples
  {
    hide ContextSlots;
    forall id | id in SessionSlots(s) ensures id in s.samples {
      assert id in multiset(s.samples.Keys);
    }
    forall id | id in s.graphs ensures id in s.samples { assert id in multiset(s.graphs); }
    forall id | id in s.timelines ensures id in s.samples { assert id in multiset(s.timelines); }
    if s.currentGraph.Some? { assert s.currentGraph.value in multiset(OptionSeq(s.currentGraph)); }
    if s.currentTimeline.Some? { assert s.currentTimeline.value in multiset(OptionSeq(s.currentTimeline)); }
  }

  lemma FiledShrinks(s: State, t: State, held: multiset<SampleId>)
    requires Filed(s) && SameSession(s, t) && SubSamples(t.samples, s.samples) && KinAll(s.contexts, t.contexts)
    requires Placed(t, held)
    ensures Filed(t)
  {
    hide Placed, Length, PlainOpen, PlainDone, TimelineOpen, TimelineDone, Wrap64;
    ListedLive(t, held);
    forall c | c in t.contexts
      ensures t.nTimelines == |t.timelines| ==> t.contexts[c].timeSpent == Wrap64(TimeOf(t.samples, t.timelines, c))
      ensures ContextKinds(t.samples, t.contexts[c]) && t.contexts[c].nGraphs == |t.contexts[c].graphs|
    {
      assert Kin(s.contexts[c], t.contexts[c]) && ContextKinds(s.samples, s.contexts[c]);
      TimeOfFrame(s.samples, t.samples, t.timelines, c);
    }
  }

  function SetCount(s: State, c: ContextId, n: nat): State
    requires c in s.contexts
  {
    s.(contexts := s.contexts[c := s.contexts[c].(nSamples := n)])
  }

  lemma SetCountKeeps(s: State, c: ContextId, n: nat, extra: multiset<ChunkId>, held: multiset<SampleId>,
                      limbo: multiset<SampleId>)
    requires Core(s, extra, limbo) && Placed(s, held) && Tabled(s) && c in s.contexts
    requires Rows(s.contexts, s.hwContexts) && Filed(s)
    ensures var t := SetCount(s, c, n);
            Core(t, extra, limbo) && Placed(t, held) && Tabled(t) && Rows(t.contexts, t.hwContexts) && Filed(t)
            && KinAll(s.contexts, t.contexts)
  {
    hide Core, Filed, Placed, Tabled, Rows;
    var t := SetCount(s, c, n);
    CoreFrame(s, t, extra, limbo);
    SetCountPlaced(s, c, n, held);
    SetCountTabled(s, c, n);
    FiledShrinks(s, t, held);
  }

  lemma SetCountPlaced(s: State, c: ContextId, n: nat, held: multiset<SampleId>)
    requires Placed(s, held) && Tabled(s) && c in s.contexts
    ensures Placed(SetCount(s, c, n), held)
  {
    hide SessionSlots, Own, ContextSlots, Keyed, Ascending;
    var t := SetCount(s, c, n);
    ContextSlotsUpdate(s.contexts, s.hwContexts, c, t.contexts[c]);
    OwnOfKin(s.contexts[c], t.contexts[c]);
    Cancel(ContextSlots(t.contexts, s.hwContexts), ContextSlots(s.contexts, s.hwContexts), Own(s.contexts[c]));
    SameSlots(s, t);
  }

  lemma Cancel(a: multiset<SampleId>, b: multiset<SampleId>, x: multiset<SampleId>)
    requires a + x == b + x
    ensures a == b
  {
    forall id ensures a[id] == b[id] {
      assert (a + x)[id] == (b + x)[id];
    }
  }

  lemma OwnOfKin(a: HwContext, b: HwContext)
    requires Kin(a, b)
    ensures Own(a) == Own(b)
  {
  }

  lemma SetCountTabled(s: State, c: ContextId, n: nat)
    requires Tabled(s) && c in s.contexts && Rows(s.contexts, s.hwContexts)
    ensures Tabled(SetCount(s, c, n)) && Rows(SetCount(s, c, n).contexts, s.hwContexts)
  {
    hide Ascending, InTable;
    var t := SetCount(s, c, n);
    forall h | h in t.table ensures Named(t.contexts, t.table[h], h) {
      assert Named(s.contexts, s.table[h], h);
    }
    forall d | d in t.contexts ensures InTable(t.table, d, t.contexts[d].hwId) {
      assert InTable(s.table, d, s.contexts[d].hwId);
    }
  }

  /** All that holds between two functions of the client context: `extra` chunk references and `held`
      samples are in the hands of running code, `limbo` blocks are about to be filled or freed, and
      context `off` counts one sample that is not there. */
  ghost predicate Inv(s: State, extra: multiset<ChunkId>, held: multiset<SampleId>, limbo: multiset<SampleId>,
                      off: Option<ContextId>) {
    && Core(s, extra, limbo) && Placed(s, held) && Tabled(s) && Rows(s.contexts, s.hwContexts)
    && Counted(s, off) && Filed(s)
  }

  /** Only samples without a context go, and only context c may go with them. */
  ghost predicate Loses(s: State, t: State, c: ContextId) {
    && SubSamples(t.samples, s.samples) && KinAll(s.contexts, t.contexts) && SameData(s.chunks, t.chunks)
    && (forall id :: id in s.samples && s.samples[id].context.Some? ==> id in t.samples)
    && (forall d :: d in s.contexts && d != c ==> d in t.contexts)
    && (c in t.contexts <==> Users(s.samples, c) != {})
  }

  lemma FreedCounts(s: State, c: ContextId, t: State)
    requires Counted(s, Some(c)) && c in s.contexts && Users(s.samples, c) == {}
    requires t.samples == s.samples - OwnSet(s.contexts[c]) && ContextKinds(s.samples, s.contexts[c])
    requires t.contexts.Keys == s.contexts.Keys - {c} && SameButRows(s.contexts, t.contexts)
    ensures Counted(t, None)
    ensures forall id :: id in s.samples && s.samples[id].context.Some? ==> id in t.samples
  {
    hide SameButRow;
    forall id | id in s.samples && s.samples[id].context.Some? ensures id in t.samples {
      assert id !in OwnSet(s.contexts[c]);
    }
    forall d | d in t.contexts
      ensures t.contexts[d].nSamples == |Users(t.samples, d)| && t.contexts[d].nSamples > 0
    {
      assert SameButRow(s.contexts[d], t.contexts[d]);
      RowCount(s.contexts[d], t.contexts[d]);
      assert Users(t.samples, d) == Users(s.samples, d);
    }
    forall id | id in t.samples && t.samples[id].context.Some? ensures t.samples[id].context.value in t.contexts {
      assert id !in Users(s.samples, c);
    }
  }

  lemma RowCount(a: HwContext, b: HwContext)
    requires SameButRow(a, b)
    ensures a.nSamples == b.nSamples
  {
  }

  lemma PutContextKeeps(s: State, c: ContextId, extra: multiset<ChunkId>, held: multiset<SampleId>,
                        limbo: multiset<SampleId>)
    requires Inv(s, extra, held, limbo, Some(c)) && c in s.contexts
    ensures PutContext(s, c).Some?
    ensures Inv(PutContext(s, c).value, extra, held, limbo, None) && Loses(s, PutContext(s, c).value, c)
  {
    hide Core, Placed, Tabled, Rows, Filed, Users, ContextKinds, FreeContext, SameData, Kin, SameButRow;
    var n := s.contexts[c].nSamples - 1;
    var s1 := SetCount(s, c, n);
    SetCountKeeps(s, c, n, extra, held, limbo);
    SetCountCounts(s, c);
    if n == 0 {
      assert Users(s.samples, c) == {};
      assert ContextKinds(s1.samples, s1.contexts[c]) by { FiledKinds(s1, c); }
      FreeContextKeeps(s1, c, extra, held, limbo);
      var t := FreeContext(s1, c).value;
      FreedContext(s, c, t, held);
    } else {
      assert SameData(s.chunks, s1.chunks) by { SameDataSelf(s.chunks); }
    }
  }

  lemma FiledKinds(s: State, c: ContextId)
    requires Filed(s) && c in s.contexts
    ensures ContextKinds(s.samples, s.contexts[c])
  {
  }

  lemma SameDataSelf(chunks: map<ChunkId, Chunk>)
    ensures SameData(chunks, chunks)
  {
  }

  lemma SetCountCounts(s: State, c: ContextId)
    requires Counted(s, Some(c)) && c in s.contexts
    ensures s.contexts[c].nSamples == |Users(s.samples, c)| + 1
    ensures s.contexts[c].nSamples > 1 ==> Counted(SetCount(s, c, s.contexts[c].nSamples - 1), None)
  {
    hide Users;
  }

  lemma FreedContext(s: State, c: ContextId, t: State, held: multiset<SampleId>)
    requires c in s.contexts && s.contexts[c].nSamples == 1 && Counted(s, Some(c)) && Filed(s) && Placed(t, held)
    requires SameSession(s, t) && t.samples == s.samples - OwnSet(s.contexts[c])
    requires t.contexts.Keys == s.contexts.Keys - {c} && SameButRows(SetCount(s, c, 0).contexts, t.contexts)
    ensures Counted(t, None) && Filed(t)
    ensures SubSamples(t.samples, s.samples) && KinAll(s.contexts, t.contexts)
    ensures forall id :: id in s.samples && s.samples[id].context.Some? ==> id in t.samples
    ensures Users(s.samples, c) == {}
  {
    hide Placed, Filed, SameButRow, Kin;
    SetCountCounts(s, c);
    FiledKinds(s, c);
    forall d | d in t.contexts ensures d in s.contexts && SameButRow(s.contexts[d], t.contexts[d]) {
      assert SameButRow(SetCount(s, c, 0).contexts[d], t.contexts[d]);
    }
    FreedCounts(s, c, t);
    forall d | d in t.contexts ensures Kin(s.contexts[d], t.contexts[d]) {
      RowIsKin(s.contexts[d], t.contexts[d]);
    }
    FiledShrinks(s, t, held);
  }

  lemma RowIsKin(a: HwContext, b: HwContext)
    requires SameButRow(a, b)
    ensures Kin(a, b)
  {
  }

  // ---------------------------------------------------------------- putting a sample

  /** Sample `id` goes; samples of contexts stay, and so do contexts with another sample. */
  ghost predicate Drops(s: State, t: State, id: SampleId) {
    && SubSamples(t.samples, s.samples) && id !in t.samples
    && KinAll(s.contexts, t.contexts) && SameData(s.chunks, t.chunks)
    && (forall j :: j in s.samples && j != id && s.samples[j].context.Some? ==> j in t.samples)
    && (forall d :: d in s.contexts && Users(s.samples, d) - {id} != {} ==> d in t.contexts)
  }

  lemma PlacedDrop(s: State, id: SampleId, held: multiset<SampleId>, t: State)
    requires Placed(s, held) && id in held && id in s.samples
    requires t.samples == s.samples - {id} && SameSession(s, t) && SameContexts(s, t)
    ensures Placed(t, held - multiset{id})
  {
    hide SessionSlots, ContextSlots;
    SameSlots(s, t);
    KeysWithout(s.samples.Keys, id);
    assert t.samples.Keys == s.samples.Keys - {id};
    var slots := SessionSlots(s) + ContextSlots(s.contexts, s.hwContexts);
    assert slots + (held - multiset{id}) == slots + held - multiset{id};
  }

  lemma CountedDrop(s: State, id: SampleId, t: State, off: Option<ContextId>)
    requires Counted(s, None) && id in s.samples && t.samples == s.samples - {id} && t.contexts == s.contexts
    requires off == s.samples[id].context
    ensures Counted(t, off)
  {
    forall c | c in t.contexts ensures |Users(s.samples, c)| == |Users(t.samples, c)| + One(off == Some(c)) {
      OneMore(Users(t.samples, c), Users(s.samples, c), id, off == Some(c));
    }
  }

  lemma KinSelf(contexts: map<ContextId, HwContext>)
    ensures KinAll(contexts, contexts)
  {
  }

  /** The sample and its references go, its block and its context are still to be dealt with. */
  lemma DropInv(s: State, id: SampleId, extra: multiset<ChunkId>, held: multiset<SampleId>, limbo: multiset<SampleId>)
    requires Inv(s, extra, held, limbo, None) && id in held && id in s.samples
    ensures var t := PutReports(s.(samples := s.samples - {id}), s.samples[id]);
            && t.Some? && Inv(t.value, extra, held - multiset{id}, limbo + multiset{id}, s.samples[id].context)
            && SameData(s.chunks, t.value.chunks) && t.value.samples == s.samples - {id}
  {
    hide Core, Placed, Tabled, Rows, Filed, Counted, SameData, Kin;
    PutReportsOf(s, id, extra, limbo);
    var t := PutReports(s.(samples := s.samples - {id}), s.samples[id]).value;
    PlacedDrop(s, id, held, t);
    CountedDrop(s, id, t, s.samples[id].context);
    KinSelf(s.contexts);
    FiledShrinks(s, t, held - multiset{id});
    TabledFrame(s, t);
  }

  lemma TabledFrame(s: State, t: State)
    requires Tabled(s) && SameContexts(s, t)
    ensures Tabled(t)
  {
    hide Keyed, Members;
  }

  lemma FreeBlockInv(s: State, id: SampleId, extra: multiset<ChunkId>, held: multiset<SampleId>,
                     limbo: multiset<SampleId>, off: Option<ContextId>)
    requires Inv(s, extra, held, limbo + multiset{id}, off)
    ensures Inv(s.(freeSamples := [id] + s.freeSamples), extra, held, limbo, off)
  {
    hide Inv, Core;
    InvCore(s, extra, held, limbo + multiset{id}, off);
    FreeBlock(s, id, extra, limbo);
    BlocksInv(s, s.(freeSamples := [id] + s.freeSamples), extra, held, limbo + multiset{id}, off, limbo);
  }

  lemma InvCore(s: State, extra: multiset<ChunkId>, held: multiset<SampleId>, limbo: multiset<SampleId>,
                off: Option<ContextId>)
    requires Inv(s, extra, held, limbo, off)
    ensures Core(s, extra, limbo)
  {
  }

  /** Nothing but the bookkeeping of unused blocks differs. */
  lemma BlocksInv(s: State, t: State, extra: multiset<ChunkId>, held: multiset<SampleId>, limbo: multiset<SampleId>,
                  off: Option<ContextId>, limbo': multiset<SampleId>)
    requires Inv(s, extra, held, limbo, off) && Core(t, extra, limbo')
    requires SameSession(s, t) && SameContexts(s, t) && t.samples == s.samples
    ensures Inv(t, extra, held, limbo', off)
  {
    hide Core, Tabled, Rows, ContextSlots, SessionSlots, Kinds, Users, TimeOf, Wrap64;
    SameSlots(s, t);
    TabledFrame(s, t);
    KindsFrame(s, t);
  }

  lemma KindsFrame(s: State, t: State)
    requires Kinds(s) && SameSession(s, t) && t.contexts == s.contexts && t.samples == s.samples
    ensures Kinds(t)
  {
  }

  lemma PutPlainSampleInv(s: State, id: SampleId, extra: multiset<ChunkId>, held: multiset<SampleId>,
                          limbo: multiset<SampleId>)
    requires Inv(s, extra, held, limbo, None) && id in held && id in s.samples && s.samples[id].context.None?
    ensures PutPlainSample(s, id).Some?
    ensures Inv(PutPlainSample(s, id).value, extra, held - multiset{id}, limbo, None)
    ensures PutPlainSample(s, id).value.samples == s.samples - {id}
    ensures SameData(s.chunks, PutPlainSample(s, id).value.chunks)
  {
    hide Inv, SameData, PutReports;
    DropInv(s, id, extra, held, limbo);
    FreeBlockInv(PutReports(s.(samples := s.samples - {id}), s.samples[id]).value, id, extra,
                 held - multiset{id}, limbo, None);
  }

  lemma PutContextSampleInv(s: State, id: SampleId, extra: multiset<ChunkId>, held: multiset<SampleId>,
                            limbo: multiset<SampleId>)
    requires Inv(s, extra, held, limbo, None) && id in held && id in s.samples && s.samples[id].context.Some?
    ensures PutContextSample(s, id).Some?
    ensures Inv(PutContextSample(s, id).value, extra, held - multiset{id}, limbo, None)
    ensures Drops(s, PutContextSample(s, id).value, id)
  {
    hide Inv, SameData, PutReports, PutContext, Kin, Users;
    DropInv(s, id, extra, held, limbo);
    var s1 := PutReports(s.(samples := s.samples - {id}), s.samples[id]).value;
    var c := s.samples[id].context.value;
    ContextIsLive(s, id, extra, held, limbo);
    PutContextKeeps(s1, c, extra, held - multiset{id}, limbo + multiset{id});
    var s2 := PutContext(s1, c).value;
    FreeBlockInv(s2, id, extra, held - multiset{id}, limbo, None);
    DropsFrom(s, id, s1, s2);
  }

  lemma ContextIsLive(s: State, id: SampleId, extra: multiset<ChunkId>, held: multiset<SampleId>,
                      limbo: multiset<SampleId>)
    requires Inv(s, extra, held, limbo, None) && id in s.samples && s.samples[id].context.Some?
    ensures s.samples[id].context.value in s.contexts
  {
    hide Core, Placed, Tabled, Rows, Filed;
  }

  lemma DropsFrom(s: State, id: SampleId, s1: State, s2: State)
    requires id in s.samples && s.samples[id].context.Some? && s1.samples == s.samples - {id}
    requires SameContexts(s, s1) && SameData(s.chunks, s1.chunks) && Loses(s1, s2, s.samples[id].context.value)
    ensures Drops(s, s2, id)
  {
    hide Kin;
    var c := s.samples[id].context.value;
    assert Users(s1.samples, c) == Users(s.samples, c) - {id};
  }

  lemma PutPlainDrops(s: State, id: SampleId, t: State)
    requires id in s.samples && t.samples == s.samples - {id} && SameContexts(s, t) && SameData(s.chunks, t.chunks)
    ensures Drops(s, t, id)
  {
  }

  lemma PutSampleInv(s: State, id: SampleId, extra: multiset<ChunkId>, held: multiset<SampleId>,
                     limbo: multiset<SampleId>)
    requires Inv(s, extra, held, limbo, None) && id in held
    ensures id in s.samples && PutSample(s, id).Some?
    ensures Inv(PutSample(s, id).value, extra, held - multiset{id}, limbo, None)
    ensures Drops(s, PutSample(s, id).value, id)
    ensures s.samples[id].context.None? ==>
              PutSample(s, id).value.samples == s.samples - {id} && SameContexts(s, PutSample(s, id).value)
  {
    hide Inv, Drops, PutPlainSample, PutContextSample, SameData;
    HeldIsLive(s, id, extra, held, limbo);
    if s.samples[id].context.None? {
      PutPlainSampleInv(s, id, extra, held, limbo);
      PutPlainDrops(s, id, PutPlainSample(s, id).value);
    } else {
      PutContextSampleInv(s, id, extra, held, limbo);
    }
  }

  lemma HeldIsLive(s: State, id: SampleId, extra: multiset<ChunkId>, held: multiset<SampleId>,
                   limbo: multiset<SampleId>)
    requires Inv(s, extra, held, limbo, None) && id in held
    ensures id in s.samples
  {
    hide Core, Tabled, Rows, Filed, Counted, SessionSlots, ContextSlots;
    assert id in multiset(s.samples.Keys);
  }

  // ---------------------------------------------------------------- getting a sample

  predicate SameKind(a: AccumulatedSamples, b: AccumulatedSamples) {
    && a.context == b.context && a.end.Some? == b.end.Some?
    && a.timestampStart == b.timestampStart && a.timestampEnd == b.timestampEnd
  }

  /** No list contains a held sample. */
  lemma ListedApart(s: State, held: multiset<SampleId>)
    requires Placed(s, held)
    ensures forall id :: id in SessionSlots(s) ==> id in s.samples && id !in held
    ensures forall id :: id in ContextSlots(s.contexts, s.hwContexts) ==> id in s.samples && id !in held
  {
    hide SessionSlots, ContextSlots;
    forall id ensures (SessionSlots(s) + ContextSlots(s.contexts, s.hwContexts) + held)[id] <= 1 {
      assert multiset(s.samples.Keys)[id] <= 1;
    }
    forall id | id in SessionSlots(s) ensures id in s.samples && id !in held {
      assert id in multiset(s.samples.Keys);
    }
    forall id | id in ContextSlots(s.contexts, s.hwContexts) ensures id in s.samples && id !in held {
      assert id in multiset(s.samples.Keys);
    }
  }

  lemma OwnListed(s: State, c: ContextId, id: SampleId)
    requires c in s.hwContexts && c in s.contexts && id in Own(s.contexts[c])
    ensures id in ContextSlots(s.contexts, s.hwContexts)
  {
    hide Own;
    ContextSlotsRemove(s.contexts, s.hwContexts, c);
  }

  ghost predicate SameKinds(s: State, t: State, held: multiset<SampleId>) {
    forall id :: id in s.samples && id !in held ==> id in t.samples && SameKind(s.samples[id], t.samples[id])
  }

  /** Filing looks only at what is listed, and there not at references and counters. */
  lemma FiledFrame(s: State, t: State, held: multiset<SampleId>)
    requires Filed(s) && SameSession(s, t) && KinAll(s.contexts, t.contexts) && Placed(s, held) && Tabled(s)
    requires SameKinds(s, t, held)
    ensures Filed(t)
  {
    hide Placed, Kin, Keyed, Wrap64, SameKinds, SessionSlots, ContextSlots, ContextKinds, TimeOf, Ascending;
    ListedApart(s, held);
    forall c | c in t.contexts ensures ContextKinds(t.samples, t.contexts[c]) {
      ContextKindsFrame(s, t, held, c);
    }
    forall c | c in t.contexts && t.nTimelines == |t.timelines|
      ensures t.contexts[c].timeSpent == Wrap64(TimeOf(t.samples, t.timelines, c))
    {
      TimedFrame(s, t, held, c);
    }
    forall c | c in t.contexts ensures t.contexts[c].nGraphs == |t.contexts[c].graphs| {
      KinOf(s.contexts[c], t.contexts[c]);
    }
    SessionKindsFrame(s, t, held);
  }

  lemma KinOf(a: HwContext, b: HwContext)
    requires Kin(a, b)
    ensures a.graphs == b.graphs && a.nGraphs == b.nGraphs && a.current == b.current
    ensures a.timeSpent == b.timeSpent && a.hwId == b.hwId
  {
  }

  lemma InSession(s: State)
    ensures forall id :: id in s.graphs || id in s.timelines ==> id in SessionSlots(s)
    ensures s.currentGraph.Some? ==> s.currentGraph.value in SessionSlots(s)
    ensures s.currentTimeline.Some? ==> s.currentTimeline.value in SessionSlots(s)
  {
    forall id | id in s.graphs ensures id in SessionSlots(s) { assert id in multiset(s.graphs); }
    forall id | id in s.timelines ensures id in SessionSlots(s) { assert id in multiset(s.timelines); }
    if s.currentGraph.Some? { assert s.currentGraph.value in multiset(OptionSeq(s.currentGraph)); }
    if s.currentTimeline.Some? { assert s.currentTimeline.value in multiset(OptionSeq(s.currentTimeline)); }
  }

  lemma SessionKindsFrame(s: State, t: State, held: multiset<SampleId>)
    requires Kinds(s) && SameSession(s, t) && SameKinds(s, t, held)
    requires forall id :: id in SessionSlots(s) ==> id in s.samples && id !in held
    requires forall c :: c in t.contexts ==> ContextKinds(t.samples, t.contexts[c])
    ensures Kinds(t)
  {
    hide SessionSlots, ContextKinds;
    InSession(s);
  }

  lemma ContextKindsFrame(s: State, t: State, held: multiset<SampleId>, c: ContextId)
    requires Kinds(s) && SameKinds(s, t, held) && Members(s.hwContexts, s.contexts)
    requires c in t.contexts && c in s.contexts && Kin(s.contexts[c], t.contexts[c])
    requires forall id :: id in ContextSlots(s.contexts, s.hwContexts) ==> id in s.samples && id !in held
    ensures ContextKinds(t.samples, t.contexts[c])
  {
    hide ContextSlots, Ascending;
    var x := s.contexts[c];
    assert ContextKinds(s.samples, x);
    forall id | id in x.graphs ensures id in ContextSlots(s.contexts, s.hwContexts) {
      assert id in multiset(x.graphs);
      OwnListed(s, c, id);
    }
    if x.current.Some? {
      assert x.current.value in multiset(OptionSeq(x.current));
      OwnListed(s, c, x.current.value);
    }
  }

  lemma TimedFrame(s: State, t: State, held: multiset<SampleId>, c: ContextId)
    requires Timed(s) && s.nTimelines == |s.timelines| && SameKinds(s, t, held) && t.timelines == s.timelines
    requires c in t.contexts && c in s.contexts && Kin(s.contexts[c], t.contexts[c])
    requires forall id :: id in SessionSlots(s) ==> id in s.samples && id !in held
    ensures t.contexts[c].timeSpent == Wrap64(TimeOf(t.samples, t.timelines, c))
  {
    hide SessionSlots, Wrap64;
    InSession(s);
    TimeOfFrame(s.samples, t.samples, s.timelines, c);
  }

  lemma PlacedAdd(s: State, id: SampleId, m: AccumulatedSamples, held: multiset<SampleId>, t: State)
    requires Placed(s, held) && id !in s.samples && t.samples == s.samples[id := m]
    requires SameSession(s, t) && SameContexts(s, t)
    ensures Placed(t, held + multiset{id})
  {
    hide SessionSlots, ContextSlots;
    SameSlots(s, t);
    KeysWith(s.samples.Keys, id);
    assert t.samples.Keys == s.samples.Keys + {id};
  }

  lemma TakeBlockInv(s: State, extra: multiset<ChunkId>, held: multiset<SampleId>, limbo: multiset<SampleId>,
                     off: Option<ContextId>)
    requires Inv(s, extra, held, limbo, off)
    ensures var (t, id) := TakeBlock(s);
            && Inv(t, extra, held, limbo + multiset{id}, off)
            && t.samples == s.samples && t.chunks == s.chunks && id !in s.samples
  {
    hide Points, Mem, Inv, Allocated, TakeBlock;
    InvCore(s, extra, held, limbo, off);
    var (t, id) := TakeBlock(s);
    MemFrame(s, t, extra);
    PointsFrame(s, t);
    TakeBlockAllocated(s, limbo);
    BlocksInv(s, t, extra, held, limbo, off, limbo + multiset{id});
  }

  lemma PointsFrame(s: State, t: State)
    requires Points(s) && t.samples == s.samples && t.last == s.last && t.chunks == s.chunks
    ensures Points(t)
  {
  }

  lemma TakeBlockAllocated(s: State, limbo: multiset<SampleId>)
    requires Allocated(s, limbo)
    ensures var (t, id) := TakeBlock(s); Allocated(t, limbo + multiset{id}) && id !in s.samples
  {
    var (t, id) := TakeBlock(s);
    var live := multiset(s.samples.Keys);
    BlocksOnce(s.nextSample, id);
    if s.freeSamples == [] {
      assert Blocks(s.nextSample + 1) == Blocks(s.nextSample) + multiset{id};
      hide Blocks;
      NotAmong(live, multiset{}, limbo, id);
    } else {
      hide Blocks;
      assert s.freeSamples == [id] + t.freeSamples;
      assert multiset(s.freeSamples) == multiset{id} + multiset(t.freeSamples);
      NotAmong(live, multiset(s.freeSamples), limbo, id);
    }
  }

  lemma NotAmong(live: multiset<SampleId>, free: multiset<SampleId>, limbo: multiset<SampleId>, id: SampleId)
    requires (live + free + limbo)[id] <= free[id]
    ensures live[id] == 0
  {
  }

  ghost predicate Fresh(samples: map<SampleId, AccumulatedSamples>, t: map<SampleId, AccumulatedSamples>, id: SampleId,
                        context: Option<ContextId>, r: Ref)
  {
    && id !in samples && id in t && t == samples[id := t[id]]
    && t[id].context == context && t[id].start == r && t[id].end.None? && WellFormed(t[id].accumulator)
  }

  lemma TimestampRuns(k: Config, s: State, r: Ref)
    requires ValidConfig(k) && Points(s) && Deref(s.chunks, r).Some?
    ensures Timestamp(k, s, r).Some?
  {
  }

  lemma PointsAdd(s: State, t: State, id: SampleId, r: Ref, context: Option<ContextId>)
    requires Points(s) && SameData(s.chunks, t.chunks) && t.chunks.Keys == s.chunks.Keys && t.last == s.last
    requires Fresh(s.samples, t.samples, id, context, r) && Deref(s.chunks, r).Some?
    ensures Points(t)
  {
    hide WellFormed;
    forall j | j in t.samples ensures Sound(t.chunks, t.samples[j]) {
      if j != id {
        assert Sound(s.chunks, s.samples[j]);
      }
    }
  }

  /** A reference for the new sample, which fills its block. */
  lemma FillSampleCore(k: Config, s: State, id: SampleId, context: Option<ContextId>, r: Ref, extra: multiset<ChunkId>,
                       limbo: multiset<SampleId>)
    requires ValidConfig(k) && Core(s, extra, limbo + multiset{id}) && Deref(s.chunks, r).Some?
    ensures FillSample(k, s, id, context, r).Some?
    ensures var t := FillSample(k, s, id, context, r).value;
            && Core(t, extra, limbo) && Fresh(s.samples, t.samples, id, context, r)
            && SameData(s.chunks, t.chunks) && t.chunks.Keys == s.chunks.Keys
  {
    hide Points, Mem, Blocks, SameData, Timestamp, Init;
    TimestampRuns(k, s, r);
    LimboIsDead(s, id, limbo);
    RefChunkKeeps(s, r.chunk, extra);
    var s1 := RefChunk(s, r.chunk).value;
    var t := FillSample(k, s, id, context, r).value;
    var m := t.samples[id];
    assert ReportRefs(m) == multiset{r.chunk};
    SetSampleMem(s1, id, m, extra);
    MemFrame(s1.(samples := s1.samples[id := m]), t, extra);
    PointsAdd(s, t, id, r, context);
    KeysWith(s.samples.Keys, id);
    assert t.samples.Keys == s.samples.Keys + {id};
  }

  lemma LimboIsDead(s: State, id: SampleId, limbo: multiset<SampleId>)
    requires Allocated(s, limbo + multiset{id})
    ensures id !in s.samples
  {
    BlocksOnce(s.nextSample, id);
    assert (multiset(s.samples.Keys) + multiset(s.freeSamples) + (limbo + multiset{id}))[id] <= 1;
  }

  lemma CountedAdd(s: State, t: State, id: SampleId, context: Option<ContextId>, r: Ref)
    requires Fresh(s.samples, t.samples, id, context, r) && t.contexts == s.contexts
    requires context.Some? ==> context.value in s.contexts
    requires Counted(s, context)
    ensures Counted(t, None)
  {
    forall c | c in t.contexts ensures |Users(t.samples, c)| == |Users(s.samples, c)| + One(context == Some(c)) {
      OneMore(Users(s.samples, c), Users(t.samples, c), id, context == Some(c));
    }
  }

  lemma FillSampleInv(k: Config, s: State, id: SampleId, context: Option<ContextId>, r: Ref, extra: multiset<ChunkId>,
                      held: multiset<SampleId>, limbo: multiset<SampleId>)
    requires ValidConfig(k) && Inv(s, extra, held, limbo + multiset{id}, context) && Deref(s.chunks, r).Some?
    requires context.Some? ==> context.value in s.contexts
    ensures FillSample(k, s, id, context, r).Some?
    ensures var t := FillSample(k, s, id, context, r).value;
            && Inv(t, extra, held + multiset{id}, limbo, None) && Fresh(s.samples, t.samples, id, context, r)
            && SameData(s.chunks, t.chunks) && t.chunks.Keys == s.chunks.Keys
  {
    hide Core, Placed, Tabled, Rows, Counted, Filed, FillSample, SameData, SameKinds, KinAll, WellFormed;
    FillSampleCore(k, s, id, context, r, extra, limbo);
    var t := FillSample(k, s, id, context, r).value;
    PlacedAdd(s, id, t.samples[id], held, t);
    CountedAdd(s, t, id, context, r);
    KinSelf(s.contexts);
    FreshKinds(s, t, id, held);
    FiledFrame(s, t, held);
    TabledFrame(s, t);
  }

  lemma FreshKinds(s: State, t: State, id: SampleId, held: multiset<SampleId>)
    requires id !in s.samples && id in t.samples && t.samples == s.samples[id := t.samples[id]]
    ensures SameKinds(s, t, held)
  {
  }

  /** get_accumulated_sample for the graphs. */
  lemma GetPlainSampleInv(k: Config, s: State, r: Ref, extra: multiset<ChunkId>, held: multiset<SampleId>,
                          limbo: multiset<SampleId>)
    requires ValidConfig(k) && Inv(s, extra, held, limbo, None) && Deref(s.chunks, r).Some?
    ensures GetPlainSample(k, s, r).Some?
    ensures var (t, id) := GetPlainSample(k, s, r).value;
            && Inv(t, extra, held + multiset{id}, limbo, None) && Fresh(s.samples, t.samples, id, None, r)
            && SameData(s.chunks, t.chunks) && t.chunks.Keys == s.chunks.Keys
  {
    hide Inv, FillSample, TakeBlock, SameData, WellFormed;
    TakeBlockInv(s, extra, held, limbo, None);
    var (s1, id) := TakeBlock(s);
    FillSampleInv(k, s1, id, None, r, extra, held, limbo);
  }

  /** All contexts have a graph sample under way exactly when the global one exists. */
  ghost predicate Synced(s: State) {
    forall c :: c in s.contexts ==> (s.contexts[c].current.Some? <==> s.currentGraph.Some?)
  }

  lemma NewContextTabled(s: State, t: State, c: ContextId, x: HwContext)
    requires Tabled(s) && Rows(s.contexts, s.hwContexts) && c == s.nextContext && t.nextContext == c + 1
    requires x.hwId !in s.table && x.hwId != INVALID_CTX_ID && x.timelineRow == |s.table|
    requires t.contexts == s.contexts[c := x] && t.hwContexts == s.hwContexts + [c] && t.table == s.table[x.hwId := c]
    ensures Tabled(t) && Rows(t.contexts, t.hwContexts)
  {
    hide Keyed, Members, Rows, InTable, Named;
    NewContextKeyed(s.contexts, s.table, c, x);
    MembersAdd(s.hwContexts, s.contexts, c, x);
    RowsAdd(s.hwContexts, s.contexts, c, x);
  }

  lemma MembersAdd(l: seq<ContextId>, contexts: map<ContextId, HwContext>, c: ContextId, x: HwContext)
    requires Members(l, contexts) && forall d :: d in contexts ==> d < c
    ensures Members(l + [c], contexts[c := x])
  {
    forall i | 0 <= i < |l| ensures l[i] < c {
      assert l[i] in l;
    }
  }

  lemma RowsAdd(l: seq<ContextId>, contexts: map<ContextId, HwContext>, c: ContextId, x: HwContext)
    requires Rows(contexts, l) && c !in contexts && x.timelineRow == |l|
    ensures Rows(contexts[c := x], l + [c])
  {
  }

  lemma NewContextKeyed(contexts: map<ContextId, HwContext>, table: map<Word, ContextId>, c: ContextId, x: HwContext)
    requires Keyed(contexts, table) && c !in contexts && x.hwId !in table && x.hwId != INVALID_CTX_ID
    ensures Keyed(contexts[c := x], table[x.hwId := c])
  {
    var contexts', table' := contexts[c := x], table[x.hwId := c];
    forall d | d in contexts' ensures InTable(table', d, contexts'[d].hwId) {
      if d != c {
        assert InTable(table, d, contexts[d].hwId);
      }
    }
    forall h | h in table' ensures Named(contexts', table'[h], h) {
      if h != x.hwId {
        assert Named(contexts, table[h], h);
      }
    }
  }

  lemma NoUsersNoTime(samples: map<SampleId, AccumulatedSamples>, l: seq<SampleId>, c: ContextId)
    requires Users(samples, c) == {}
    ensures TimeOf(samples, l, c) == 0
  {
    if l != [] {
      assert l[0] !in Users(samples, c);
      NoUsersNoTime(samples, l[1..], c);
    }
  }

  /** A context nobody points to yet, with one open graph sample. */
  lemma NewContextFiled(s: State, t: State, c: ContextId, x: HwContext)
    requires Filed(s) && Counted(s, None) && c !in s.contexts
    requires SameSession(s, t) && t.samples == s.samples && t.contexts == s.contexts[c := x]
    requires x.nSamples == 1 && x.timeSpent == 0 && x.graphs == [] && x.nGraphs == 0 && ContextKinds(s.samples, x)
    ensures Filed(t) && Counted(t, Some(c))
  {
    hide TimeOf, ContextKinds;
    assert Users(s.samples, c) == {} by {
      forall id | id in s.samples ensures id !in Users(s.samples, c) {
      }
    }
    NoUsersNoTime(s.samples, s.timelines, c);
    assert Wrap64(0) == 0;
  }

  lemma NewContextPlaced(s: State, t: State, c: ContextId, x: HwContext, g: SampleId, held: multiset<SampleId>)
    requires Placed(s, held + multiset{g}) && c !in s.hwContexts && Own(x) == multiset{g}
    requires SameSession(s, t) && t.samples == s.samples && t.contexts == s.contexts[c := x]
    requires t.hwContexts == s.hwContexts + [c]
    ensures Placed(t, held)
  {
    hide Own, SessionSlots, ContextSlots;
    SameSlots(s, t);
    ContextSlotsFrame(s.contexts, t.contexts, s.hwContexts);
    ContextSlotsAppend(t.contexts, s.hwContexts, c);
  }

  /** t is s with one more context, for which nothing else has changed. */
  ghost predicate WithContext(s: State, t: State, c: ContextId, hwId: Word) {
    && c !in s.contexts && c in t.contexts && t.contexts == s.contexts[c := t.contexts[c]]
    && t.contexts[c].hwId == hwId && t.contexts[c].current.Some? && t.contexts[c].graphs == []
    && t.table == s.table[hwId := c]
  }

  lemma NewContextInv(k: Config, s: State, hwId: Word, extra: multiset<ChunkId>, held: multiset<SampleId>,
                      limbo: multiset<SampleId>)
    requires ValidConfig(k) && Inv(s, extra, held, limbo, None) && s.currentGraph.Some?
    requires hwId !in s.table && hwId != INVALID_CTX_ID
    ensures s.currentGraph.value in s.samples && NewContext(k, s, hwId).Some?
    ensures var (t, c) := NewContext(k, s, hwId).value;
            && Inv(t, extra, held, limbo, Some(c)) && WithContext(s, t, c, hwId)
            && Fresh(s.samples, t.samples, t.contexts[c].current.value, None, s.samples[s.currentGraph.value].start)
            && SameData(s.chunks, t.chunks) && t.chunks.Keys == s.chunks.Keys
  {
    hide Core, Placed, Tabled, Rows, Counted, Filed, SameData, GetPlainSample, WellFormed, Sound;
    ListedLive(s, held);
    var r := s.samples[s.currentGraph.value].start;
    assert Deref(s.chunks, r).Some? by { StartIsSound(s, s.currentGraph.value, extra, limbo); }
    GetPlainSampleInv(k, s, r, extra, held, limbo);
    var (s1, g) := GetPlainSample(k, s, r).value;
    var (t, c) := NewContext(k, s, hwId).value;
    var x := t.contexts[c];
    assert c !in s.contexts && c !in s.hwContexts by { NextIsNew(s); }
    CoreFrame(s1, t, extra, limbo);
    assert Own(x) == multiset{g};
    NewContextPlaced(s1, t, c, x, g, held);
    TabledFrame(s, s1);
    NewContextTabled(s1, t, c, x);
    NewContextFiled(s1, t, c, x);
  }

  lemma NextIsNew(s: State)
    requires Tabled(s)
    ensures s.nextContext !in s.contexts && s.nextContext !in s.hwContexts
  {
    hide Keyed, Ascending;
  }

  lemma StartIsSound(s: State, id: SampleId, extra: multiset<ChunkId>, limbo: multiset<SampleId>)
    requires Core(s, extra, limbo) && id in s.samples
    ensures Deref(s.chunks, s.samples[id].start).Some?
  {
    hide Mem, Allocated, Deref;
    assert Sound(s.chunks, s.samples[id]);
  }

  /** A context with one more sample than before, or a new one. */
  lemma GetContextInv(k: Config, s: State, hwId: Word, extra: multiset<ChunkId>, held: multiset<SampleId>,
                      limbo: multiset<SampleId>)
    requires ValidConfig(k) && Inv(s, extra, held, limbo, None) && s.currentGraph.Some? && hwId != INVALID_CTX_ID
    ensures s.currentGraph.value in s.samples && GetContext(k, s, hwId).Some?
    ensures var (t, c) := GetContext(k, s, hwId).value;
            && Inv(t, extra, held, limbo, Some(c)) && c in t.contexts && t.contexts[c].hwId == hwId
            && SameData(s.chunks, t.chunks) && t.chunks.Keys == s.chunks.Keys
            && (if hwId in s.table
                then s.table[hwId] == c && c in s.contexts && t == SetCount(s, c, s.contexts[c].nSamples + 1)
                else NewContext(k, s, hwId) == Some((t, c)))
  {
    hide Inv, SameData, NewContext, WellFormed;
    if hwId in s.table {
      OldContextInv(s, hwId, extra, held, limbo);
      SameDataSelf(s.chunks);
    } else {
      NewContextInv(k, s, hwId, extra, held, limbo);
    }
  }

  lemma OldContextInv(s: State, hwId: Word, extra: multiset<ChunkId>, held: multiset<SampleId>,
                      limbo: multiset<SampleId>)
    requires Inv(s, extra, held, limbo, None) && hwId in s.table
    ensures s.table[hwId] in s.contexts && s.contexts[s.table[hwId]].hwId == hwId
    ensures var c := s.table[hwId]; Inv(SetCount(s, c, s.contexts[c].nSamples + 1), extra, held, limbo, Some(c))
    ensures s.currentGraph.Some? ==> s.currentGraph.value in s.samples
  {
    hide Core, Placed, Rows, Counted, Filed;
    var c := s.table[hwId];
    assert Named(s.contexts, c, hwId);
    SetCountKeeps(s, c, s.contexts[c].nSamples + 1, extra, held, limbo);
    OneMoreCount(s, c);
    ListedLive(s, held);
  }

  lemma OneMoreCount(s: State, c: ContextId)
    requires Counted(s, None) && c in s.contexts
    ensures Counted(SetCount(s, c, s.contexts[c].nSamples + 1), Some(c))
  {
    hide Users;
  }

  lemma GetContextSynced(k: Config, s: State, hwId: Word)
    requires ValidConfig(k) && Synced(s) && s.currentGraph.Some? && GetContext(k, s, hwId).Some?
    ensures Synced(GetContext(k, s, hwId).value.0)
  {
    hide GetPlainSample;
  }

  /** get_accumulated_sample for the timeline. */
  lemma GetContextSampleInv(k: Config, s: State, r: Ref, hwId: Word, extra: multiset<ChunkId>,
                            held: multiset<SampleId>, limbo: multiset<SampleId>)
    requires ValidConfig(k) && Inv(s, extra, held, limbo, None) && Synced(s) && s.currentGraph.Some?
    requires hwId != INVALID_CTX_ID && Deref(s.chunks, r).Some?
    ensures GetContextSample(k, s, r, hwId).Some?
    ensures var (t, id) := GetContextSample(k, s, r, hwId).value;
            && Inv(t, extra, held + multiset{id}, limbo, None) && Synced(t) && id in t.samples
            && t.samples[id].context.Some? && t.samples[id].end.None? && t.samples[id].start == r
            && t.samples[id].context.value in t.contexts && t.contexts[t.samples[id].context.value].hwId == hwId
  {
    hide Inv, SameData, WellFormed, TakeBlock, GetContext, FillSample, Synced;
    TakeBlockInv(s, extra, held, limbo, None);
    var (s1, id) := TakeBlock(s);
    KinSelf(s.contexts);
    SyncedFrame(s, s1);
    GetContextInv(k, s1, hwId, extra, held, limbo + multiset{id});
    GetContextSynced(k, s1, hwId);
    var (s2, c) := GetContext(k, s1, hwId).value;
    DerefKept(s1.chunks, s2.chunks, r);
    FillSampleInv(k, s2, id, Some(c), r, extra, held, limbo);
    KinSelf(s2.contexts);
    SyncedFrame(s2, FillSample(k, s2, id, Some(c), r).value);
  }

  lemma SyncedFrame(s: State, t: State)
    requires Synced(s) && SameSession(s, t) && KinAll(s.contexts, t.contexts)
    ensures Synced(t)
  {
    forall c | c in t.contexts ensures t.contexts[c].current.Some? <==> t.currentGraph.Some? {
      KinOf(s.contexts[c], t.contexts[c]);
    }
  }

  lemma DerefKept(s: map<ChunkId, Chunk>, t: map<ChunkId, Chunk>, r: Ref)
    requires SameData(s, t) && s.Keys == t.Keys && Deref(s, r).Some?
    ensures Deref(t, r) == Deref(s, r)
  {
  }

  // ---------------------------------------------------------------- changing one sample

  /** The sample holds on to the same chunks and sits in the same place. */
  predicate SamePlace(a: AccumulatedSamples, b: AccumulatedSamples) {
    SameKind(a, b) && a.start == b.start && a.end == b.end && WellFormed(b.accumulator)
  }

  lemma UpdateSampleCore(s: State, id: SampleId, m: AccumulatedSamples, extra: multiset<ChunkId>,
                         limbo: multiset<SampleId>)
    requires Core(s, extra, limbo) && id in s.samples && SamePlace(s.samples[id], m)
    ensures Core(s.(samples := s.samples[id := m]), extra, limbo)
  {
    hide RefCount, Listed, Blocks, WellFormed, Deref;
    var t := s.(samples := s.samples[id := m]);
    assert t.samples.Keys == s.samples.Keys;
    forall c ensures Count(t.chunks, c) == RefCount(t.samples, c) + LastRef(t.last, c) + extra[c] {
      SetSampleRefs(s.samples, id, m, c);
      assert Count(s.chunks, c) == RefCount(s.samples, c) + LastRef(s.last, c) + extra[c];
    }
    ListedFrame(s, t);
    assert Sound(s.chunks, s.samples[id]);
  }

  lemma ListedFrame(s: State, t: State)
    requires Listed(s) && t.chunks == s.chunks && t.chunkList == s.chunkList && t.nextChunk == s.nextChunk
    ensures Listed(t)
  {
  }

  lemma UpdateSampleCounted(s: State, id: SampleId, m: AccumulatedSamples)
    requires Counted(s, None) && id in s.samples && m.context == s.samples[id].context
    ensures Counted(s.(samples := s.samples[id := m]), None)
  {
    var t := s.(samples := s.samples[id := m]);
    forall c ensures Users(t.samples, c) == Users(s.samples, c) {
    }
  }

  lemma UpdateSamplePlaced(s: State, id: SampleId, m: AccumulatedSamples, held: multiset<SampleId>)
    requires Placed(s, held) && id in s.samples
    ensures Placed(s.(samples := s.samples[id := m]), held)
  {
    hide SessionSlots, ContextSlots;
    var t := s.(samples := s.samples[id := m]);
    SameSlots(s, t);
    assert t.samples.Keys == s.samples.Keys;
  }

  lemma UpdateSampleInv(s: State, id: SampleId, m: AccumulatedSamples, extra: multiset<ChunkId>,
                        held: multiset<SampleId>, limbo: multiset<SampleId>)
    requires Inv(s, extra, held, limbo, None) && id in s.samples && SamePlace(s.samples[id], m)
    ensures Inv(s.(samples := s.samples[id := m]), extra, held, limbo, None)
  {
    hide Core, Placed, Tabled, Rows, Counted, Filed, KinAll, WellFormed;
    var t := s.(samples := s.samples[id := m]);
    UpdateSampleCore(s, id, m, extra, limbo);
    UpdateSampleCounted(s, id, m);
    UpdateSamplePlaced(s, id, m, held);
    KinSelf(s.contexts);
    TabledFrame(s, t);
    FiledFrame(s, t, held);
  }

  lemma AccumulateIntoInv(k: Config, s: State, id: SampleId, r0: Report, r1: Report, extra: multiset<ChunkId>,
                          held: multiset<SampleId>, limbo: multiset<SampleId>)
    requires ValidConfig(k) && Inv(s, extra, held, limbo, None) && id in s.samples
    ensures WellFormed(s.samples[id].accumulator) && AccumulateInto(k, s, id, r0, r1).Some?
    ensures Inv(AccumulateInto(k, s, id, r0, r1).value, extra, held, limbo, None)
  {
    hide Inv, Accumulate, WellFormed;
    SampleIsWellFormed(s, id, extra, held, limbo);
    UpdateSampleInv(s, id, AccumulateInto(k, s, id, r0, r1).value.samples[id], extra, held, limbo);
  }

  lemma SampleIsWellFormed(s: State, id: SampleId, extra: multiset<ChunkId>, held: multiset<SampleId>,
                           limbo: multiset<SampleId>)
    requires Inv(s, extra, held, limbo, None) && id in s.samples
    ensures WellFormed(s.samples[id].accumulator)
  {
    hide Mem, Allocated, Placed, Tabled, Rows, Filed, Counted;
    assert Sound(s.chunks, s.samples[id]);
  }

  /** An end reference for a sample that has been taken off its place. */
  lemma SetEndCore(s: State, id: SampleId, r: Ref, ts: nat, extra: multiset<ChunkId>, limbo: multiset<SampleId>)
    requires Core(s, extra, limbo) && id in s.samples && s.samples[id].end.None? && Deref(s.chunks, r).Some?
    ensures SetEnd(s, id, r, ts).Some? && Core(SetEnd(s, id, r, ts).value, extra, limbo)
    ensures SameData(s.chunks, SetEnd(s, id, r, ts).value.chunks)
    ensures SetEnd(s, id, r, ts).value.chunks.Keys == s.chunks.Keys
    ensures SetEnd(s, id, r, ts).value.samples == s.samples[id := s.samples[id].(end := Some(r), timestampEnd := ts)]
  {
    hide Blocks, Mem, SameData, Points;
    RefChunkKeeps(s, r.chunk, extra);
    var s1 := RefChunk(s, r.chunk).value;
    var m := s.samples[id].(end := Some(r), timestampEnd := ts);
    var t := SetEnd(s, id, r, ts).value;
    SetEndMem(s1, id, m, extra, r.chunk);
    SetEndPoints(s, t, id, r, m);
    assert t.samples.Keys == s.samples.Keys;
  }

  lemma SetEndMem(s: State, id: SampleId, m: AccumulatedSamples, extra: multiset<ChunkId>, c: ChunkId)
    requires Mem(s, extra + multiset{c}) && id in s.samples && ReportRefs(m) == ReportRefs(s.samples[id]) + multiset{c}
    ensures Mem(s.(samples := s.samples[id := m]), extra)
  {
    hide RefCount, Listed, ReportRefs;
    var t := s.(samples := s.samples[id := m]);
    forall x ensures RefCount(t.samples, x) == RefCount(s.samples, x) + multiset{c}[x] {
      SetSampleRefs(s.samples, id, m, x);
      assert (ReportRefs(s.samples[id]) + multiset{c})[x] == ReportRefs(s.samples[id])[x] + multiset{c}[x];
    }
    forall x ensures Count(t.chunks, x) == RefCount(t.samples, x) + LastRef(t.last, x) + extra[x] {
      assert (extra + multiset{c})[x] == extra[x] + multiset{c}[x];
      assert Count(s.chunks, x) == RefCount(s.samples, x) + LastRef(s.last, x) + (extra + multiset{c})[x];
    }
    ListedFrame(s, t);
  }

  lemma SetEndPoints(s: State, t: State, id: SampleId, r: Ref, m: AccumulatedSamples)
    requires Points(s) && SameData(s.chunks, t.chunks) && t.chunks.Keys == s.chunks.Keys && t.last == s.last
    requires id in s.samples && t.samples == s.samples[id := m]
    requires m == s.samples[id].(end := Some(r), timestampEnd := m.timestampEnd)
    requires Deref(s.chunks, r).Some?
    ensures Points(t)
  {
    hide WellFormed;
    forall j | j in t.samples ensures Sound(t.chunks, t.samples[j]) {
      assert Sound(s.chunks, s.samples[j]);
    }
  }

  lemma SetEndInv(s: State, id: SampleId, r: Ref, ts: nat, extra: multiset<ChunkId>, held: multiset<SampleId>,
                  limbo: multiset<SampleId>)
    requires Inv(s, extra, held, limbo, None) && id in held && Deref(s.chunks, r).Some?
    requires id in s.samples ==> s.samples[id].end.None?
    ensures id in s.samples && SetEnd(s, id, r, ts).Some?
    ensures var t := SetEnd(s, id, r, ts).value;
            && Inv(t, extra, held, limbo, None) && SameData(s.chunks, t.chunks) && t.chunks.Keys == s.chunks.Keys
            && t.samples == s.samples[id := s.samples[id].(end := Some(r), timestampEnd := ts)]
  {
    hide Core, Placed, Tabled, Rows, Counted, Filed, KinAll, SameData, SetEnd;
    HeldIsLive(s, id, extra, held, limbo);
    SetEndCore(s, id, r, ts, extra, limbo);
    var m := s.samples[id].(end := Some(r), timestampEnd := ts);
    var s1 := s.(samples := s.samples[id := m]);
    var t := SetEnd(s, id, r, ts).value;
    UpdateSampleCounted(s, id, m);
    UpdateSamplePlaced(s, id, m, held);
    SetEndSession(s, id, r, ts);
    KinSelf(s.contexts);
    TabledFrame(s, t);
    FiledFrame(s, t, held);
    PlacedFrame(s1, t, held);
    CountedFrame(s1, t);
  }

  lemma SetEndSession(s: State, id: SampleId, r: Ref, ts: nat)
    requires SetEnd(s, id, r, ts).Some?
    ensures SameSession(s, SetEnd(s, id, r, ts).value) && SameContexts(s, SetEnd(s, id, r, ts).value)
  {
  }

  lemma CountedFrame(s: State, t: State)
    requires Counted(s, None) && t.samples == s.samples && t.contexts == s.contexts
    ensures Counted(t, None)
  {
  }

  lemma PlacedFrame(s: State, t: State, held: multiset<SampleId>)
    requires Placed(s, held) && SameSession(s, t) && SameContexts(s, t) && t.samples == s.samples
    ensures Placed(t, held)
  {
    SameSlots(s, t);
  }

  // ---------------------------------------------------------------- moving samples between places

  ghost predicate SameStore(s: State, t: State) {
    && t.chunks == s.chunks && t.chunkList == s.chunkList && t.nextChunk == s.nextChunk
    && SameSamples(s, t) && t.last == s.last
  }

  /** Only lists have changed: what remains to be seen is where samples are and how they are filed. */
  lemma MovedInv(s: State, t: State, extra: multiset<ChunkId>, held: multiset<SampleId>, held': multiset<SampleId>,
                 limbo: multiset<SampleId>)
    requires Inv(s, extra, held, limbo, None) && SameStore(s, t) && SameContexts(s, t)
    requires SessionSlots(s) + held == SessionSlots(t) + held' && Filed(t)
    ensures Inv(t, extra, held', limbo, None)
  {
    hide Core, Placed, Tabled, Rows, Counted, Filed, SessionSlots;
    PlacedMoved(s, t, held, held');
    CoreFrame(s, t, extra, limbo);
    TabledFrame(s, t);
    CountedFrame(s, t);
  }

  lemma PlacedMoved(s: State, t: State, held: multiset<SampleId>, held': multiset<SampleId>)
    requires Placed(s, held) && t.samples == s.samples && SameContexts(s, t)
    requires SessionSlots(s) + held == SessionSlots(t) + held'
    ensures Placed(t, held')
  {
    hide SessionSlots, ContextSlots;
    var own := ContextSlots(s.contexts, s.hwContexts);
    assert SessionSlots(s) + own + held == SessionSlots(s) + held + own;
    assert SessionSlots(t) + own + held' == SessionSlots(t) + held' + own;
  }

  /** The graph list and the current samples may differ, as long as they are of the right kind. */
  lemma GraphsFiled(s: State, t: State)
    requires Filed(s) && t.samples == s.samples && t.contexts == s.contexts
    requires t.timelines == s.timelines && t.nTimelines == s.nTimelines
    requires forall id :: id in t.graphs && id in t.samples ==> id in s.graphs || PlainDone(t.samples[id])
    requires t.currentGraph == s.currentGraph || t.currentGraph.None?
    requires t.currentTimeline == s.currentTimeline || t.currentTimeline.None?
    ensures Filed(t)
  {
    hide TimeOf, ContextKinds, PlainDone, TimelineDone, PlainOpen, TimelineOpen;
  }

  lemma InvParts(s: State, extra: multiset<ChunkId>, held: multiset<SampleId>, limbo: multiset<SampleId>)
    requires Inv(s, extra, held, limbo, None)
    ensures Core(s, extra, limbo) && Placed(s, held) && Tabled(s) && Rows(s.contexts, s.hwContexts)
    ensures Counted(s, None) && Filed(s)
  {
  }

  lemma CurrentKinds(s: State)
    requires Filed(s)
    ensures forall id :: id in s.graphs && id in s.samples ==> PlainDone(s.samples[id])
    ensures forall id :: id in s.timelines && id in s.samples ==> TimelineDone(s.samples[id])
    ensures s.currentGraph.Some? && s.currentGraph.value in s.samples ==> PlainOpen(s.samples[s.currentGraph.value])
    ensures s.currentTimeline.Some? && s.currentTimeline.value in s.samples
            ==> TimelineOpen(s.samples[s.currentTimeline.value])
  {
    hide TimeOf;
  }

  lemma HoldGraph(s: State, id: SampleId, extra: multiset<ChunkId>, held: multiset<SampleId>, limbo: multiset<SampleId>)
    requires Inv(s, extra, held, limbo, None) && s.currentGraph == Some(id)
    ensures Inv(s.(currentGraph := None), extra, held + multiset{id}, limbo, None)
    ensures id in s.samples && PlainOpen(s.samples[id])
  {
    hide Inv, Core, Placed, Tabled, Rows, Counted, Filed, PlainDone, PlainOpen, TimelineOpen, TimelineDone;
    InvParts(s, extra, held, limbo);
    ListedLive(s, held);
    CurrentKinds(s);
    GraphsFiled(s, s.(currentGraph := None));
    MovedInv(s, s.(currentGraph := None), extra, held, held + multiset{id}, limbo);
  }

  lemma HoldTimeline(s: State, id: SampleId, extra: multiset<ChunkId>, held: multiset<SampleId>,
                     limbo: multiset<SampleId>)
    requires Inv(s, extra, held, limbo, None) && s.currentTimeline == Some(id)
    ensures Inv(s.(currentTimeline := None), extra, held + multiset{id}, limbo, None)
    ensures id in s.samples && TimelineOpen(s.samples[id])
  {
    hide Inv, Core, Placed, Tabled, Rows, Counted, Filed, PlainDone, PlainOpen, TimelineOpen, TimelineDone;
    InvParts(s, extra, held, limbo);
    ListedLive(s, held);
    CurrentKinds(s);
    GraphsFiled(s, s.(currentTimeline := None));
    MovedInv(s, s.(currentTimeline := None), extra, held, held + multiset{id}, limbo);
  }

  lemma PopGraph(s: State, extra: multiset<ChunkId>, held: multiset<SampleId>, limbo: multiset<SampleId>)
    requires Inv(s, extra, held, limbo, None) && s.graphs != []
    ensures Inv(s.(graphs := s.graphs[1..]), extra, held + multiset{s.graphs[0]}, limbo, None)
    ensures s.graphs[0] in s.samples && PlainDone(s.samples[s.graphs[0]])
  {
    hide Inv, Core, Placed, Tabled, Rows, Counted, Filed, PlainDone, PlainOpen, TimelineOpen, TimelineDone;
    InvParts(s, extra, held, limbo);
    ListedLive(s, held);
    CurrentKinds(s);
    assert s.graphs[0] in s.graphs;
    assert s.graphs == [s.graphs[0]] + s.graphs[1..];
    assert multiset(s.graphs) == multiset{s.graphs[0]} + multiset(s.graphs[1..]);
    GraphsFiled(s, s.(graphs := s.graphs[1..]));
    MovedInv(s, s.(graphs := s.graphs[1..]), extra, held, held + multiset{s.graphs[0]}, limbo);
  }

  lemma AppendGraph(s: State, id: SampleId, extra: multiset<ChunkId>, held: multiset<SampleId>,
                    limbo: multiset<SampleId>,
                    n: nat)
    requires Inv(s, extra, held, limbo, None) && id in held
    requires id in s.samples ==> PlainDone(s.samples[id])
    ensures Inv(s.(graphs := s.graphs + [id], nGraphs := n), extra, held - multiset{id}, limbo, None)
  {
    hide Inv, Core, Placed, Tabled, Rows, Counted, Filed, PlainDone, PlainOpen, TimelineOpen, TimelineDone;
    InvParts(s, extra, held, limbo);
    HeldIsLive(s, id, extra, held, limbo);
    var t := s.(graphs := s.graphs + [id], nGraphs := n);
    GraphsFiled(s, t);
    MovedInv(s, t, extra, held, held - multiset{id}, limbo);
  }

  /** t differs from s in the graph list and in what was dropped from it. */
  ghost predicate GraphsTrimmed(s: State, t: State) {
    && SameContexts(s, t) && SameData(s.chunks, t.chunks) && SubSamples(t.samples, s.samples)
    && t.currentGraph == s.currentGraph && t.currentTimeline == s.currentTimeline
    && t.timelines == s.timelines && t.nTimelines == s.nTimelines
    && t.last == s.last && t.lastHwId == s.lastHwId && t.lastOaTimestamp == s.lastOaTimestamp
    && t.nextChunk == s.nextChunk
    && |t.graphs| <= |s.graphs| && t.graphs == s.graphs[|s.graphs| - |t.graphs|..]
  }

  function AtMost(n: nat, max: nat): nat {
    if n < max then n else max
  }

  lemma {:induction false} TrimGraphsInv(k: Config, s: State, extra: multiset<ChunkId>, held: multiset<SampleId>,
                                         limbo: multiset<SampleId>)
    requires Inv(s, extra, held, limbo, None) && s.nGraphs == |s.graphs|
    ensures TrimGraphs(k, s).Some?
    ensures var t := TrimGraphs(k, s).value;
            Inv(t, extra, held, limbo, None) && t.nGraphs == |t.graphs| == AtMost(|s.graphs|, k.maxGraphs)
            && GraphsTrimmed(s, t)
    decreases s.nGraphs
  {
    hide Inv, PutSample, SameData, GraphsTrimmed;
    if s.nGraphs > k.maxGraphs {
      PopGraphStep(s, extra, held, limbo);
      var s1 := PutSample(s.(graphs := s.graphs[1..]), s.graphs[0]).value;
      var s2 := s1.(nGraphs := s1.nGraphs - 1);
      TrimGraphsInv(k, s2, extra, held, limbo);
      GraphsTrimmedTrans(s, s2, TrimGraphs(k, s2).value);
    } else {
      GraphsTrimmedSelf(s);
    }
  }

  lemma GraphsTrimmedSelf(s: State)
    ensures GraphsTrimmed(s, s)
  {
    hide SameData;
    SameDataSelf(s.chunks);
  }

  lemma PopGraphStep(s: State, extra: multiset<ChunkId>, held: multiset<SampleId>, limbo: multiset<SampleId>)
    requires Inv(s, extra, held, limbo, None) && s.nGraphs == |s.graphs| > 0
    ensures var s1 := PutSample(s.(graphs := s.graphs[1..]), s.graphs[0]);
            && s1.Some? && s1.value.nGraphs == s.nGraphs
            && (var t := s1.value.(nGraphs := s.nGraphs - 1);
                && Inv(t, extra, held, limbo, None) && t.graphs == s.graphs[1..] && GraphsTrimmed(s, t))
  {
    hide Inv, PutSample, SameData;
    var id := s.graphs[0];
    var s0 := s.(graphs := s.graphs[1..]);
    PopGraph(s, extra, held, limbo);
    PutSampleInv(s0, id, extra, held + multiset{id}, limbo);
    assert held + multiset{id} - multiset{id} == held;
    CountGraphs(PutSample(s0, id).value, s.nGraphs - 1, extra, held, limbo);
  }

  lemma GraphsTrimmedTrans(a: State, b: State, c: State)
    requires GraphsTrimmed(a, b) && GraphsTrimmed(b, c)
    ensures GraphsTrimmed(a, c)
  {
    hide SameData;
    SameDataTrans(a.chunks, b.chunks, c.chunks);
  }

  lemma SameDataTrans(a: map<ChunkId, Chunk>, b: map<ChunkId, Chunk>, c: map<ChunkId, Chunk>)
    requires SameData(a, b) && SameData(b, c)
    ensures SameData(a, c)
  {
  }

  lemma CountGraphs(s: State, n: nat, extra: multiset<ChunkId>, held: multiset<SampleId>, limbo: multiset<SampleId>)
    requires Inv(s, extra, held, limbo, None)
    ensures Inv(s.(nGraphs := n), extra, held, limbo, None)
  {
    hide Inv, Core, Placed, Tabled, Rows, Counted, Filed, PlainDone, PlainOpen, TimelineOpen, TimelineDone;
    InvParts(s, extra, held, limbo);
    GraphsFiled(s, s.(nGraphs := n));
    MovedInv(s, s.(nGraphs := n), extra, held, held, limbo);
  }
}
