/** What contexts get of the windows, the one under way and those that are listed: together at most what
    there is.
 */
module ClientShares {
  import opened Common
  import opened OaCounters
  import opened ClientState
  import opened ClientInvariants
  import opened ClientSteps
  import opened Segmentation
  import opened ClientHistory
  import opened ClientRuns
  import opened RecordIterator

  // ---------------------------------------------------------------- sums over contexts

  ghost function SumOf(l: seq<ContextId>, share: ContextId -> nat): nat {
    if l == [] then 0 else SumOf(l[..|l| - 1], share) + share(l[|l| - 1])
  }

  /** The contexts of a list, as far as windows are concerned. */
  ghost function Clients(k: Config, s: State, h: seq<Item>, l: seq<ContextId>): (clients: seq<Client>)
    requires ValidConfig(k) && forall c :: c in l ==> c in s.contexts
  {
    seq(|l|, j requires 0 <= j < |l| => ClientOf(k, s, h, l[j]))
  }

  ghost function ClientOf(k: Config, s: State, h: seq<Item>, c: ContextId): Client
    requires ValidConfig(k) && c in s.contexts
  {
    var birth := Born(k, h, s.contexts[c].hwId, |h|);
    Client(s.contexts[c].hwId, if birth.Some? then birth.value else 0)
  }

  ghost function TicksOf(k: Config, h: seq<Item>, x: Client, s: nat, n: nat): nat
    requires ValidConfig(k) && n <= |h|
  {
    ContextTicks(k, h, x.hw, x.birth, s, n)
  }

  lemma {:induction false} AllTicksSnoc(k: Config, h: seq<Item>, clients: seq<Client>, x: Client, s: nat, n: nat)
    requires ValidConfig(k) && n <= |h|
    ensures AllTicks(k, h, clients + [x], s, n) == AllTicks(k, h, clients, s, n) + TicksOf(k, h, x, s, n)
  {
    hide ContextTicks;
    if clients == [] {
      assert [x][1..] == [];
      assert clients + [x] == [x];
    } else {
      AllTicksSnoc(k, h, clients[1..], x, s, n);
      assert (clients + [x])[1..] == clients[1..] + [x];
    }
  }

  /** Shares that are at most the contexts' ticks are together at most all their ticks. */
  lemma {:induction false} SumWithin(k: Config, s: State, h: seq<Item>, l: seq<ContextId>, share: ContextId -> nat,
                                     start: nat, n: nat)
    requires ValidConfig(k) && n <= |h| && forall c :: c in l ==> c in s.contexts
    requires forall c :: c in l ==> share(c) <= TicksOf(k, h, ClientOf(k, s, h, c), start, n)
    ensures SumOf(l, share) <= AllTicks(k, h, Clients(k, s, h, l), start, n)
  {
    hide ClientOf, TicksOf, AllTicks;
    if l != [] {
      var before, c := l[..|l| - 1], l[|l| - 1];
      SumWithin(k, s, h, before, share, start, n);
      assert Clients(k, s, h, l) == Clients(k, s, h, before) + [ClientOf(k, s, h, c)];
      AllTicksSnoc(k, h, Clients(k, s, h, before), ClientOf(k, s, h, c), start, n);
    }
  }

  lemma LiveClients(k: Config, s: State, h: seq<Item>, extra: multiset<ChunkId>)
    requires ValidConfig(k) && Good(s, extra)
    ensures forall c :: c in s.hwContexts ==> c in s.contexts
    ensures DistinctIds(Clients(k, s, h, s.hwContexts))
  {
    hide Inv, Born;
    HwContextsLive(s, extra, multiset{}, multiset{});
    var l := s.hwContexts;
    forall i, j | 0 <= i < j < |l| ensures s.contexts[l[i]].hwId != s.contexts[l[j]].hwId {
      HwContextAt(s, i, extra, multiset{}, multiset{});
      IdsDiffer(s, l[i], l[j], extra);
    }
  }

  /** Shares of one window of less than 2^64 ticks. */
  lemma SharesWithin(k: Config, s: State, h: seq<Item>, share: ContextId -> nat, start: nat, n: nat, count: nat,
                     extra: multiset<ChunkId>)
    requires ValidConfig(k) && Good(s, extra) && n <= |h|
    requires forall c :: c in s.contexts ==> share(c) <= TicksOf(k, h, ClientOf(k, s, h, c), start, n)
    requires count == Wrap64(WindowTicks(h, start, n)) && WindowTicks(h, start, n) < U64
    ensures SumOf(s.hwContexts, share) <= count
  {
    hide Good, ClientOf, TicksOf, WindowTicks, AllTicks, DistinctIds, Clients, SumOf;
    LiveClients(k, s, h, extra);
    SumWithin(k, s, h, s.hwContexts, share, start, n);
    ContextsWithinWindow(k, h, Clients(k, s, h, s.hwContexts), start, n);
    WrapSmall(WindowTicks(h, start, n));
  }

  lemma WrapAtMost(x: nat)
    ensures Wrap64(x) <= x
  {
  }

  // ---------------------------------------------------------------- the window under way

  function OpenShare(s: State, c: ContextId): nat {
    if c in s.contexts && s.contexts[c].current.Some? && s.contexts[c].current.value in s.samples
    then s.samples[s.contexts[c].current.value].accumulator.clock.count else 0
  }

  ghost function OpenShares(s: State): ContextId -> nat {
    c => OpenShare(s, c)
  }

  lemma OpenShareIs(k: Config, s: State, h: seq<Item>, c: ContextId)
    requires ValidConfig(k) && Hist(k, s, h) && c in s.contexts
    ensures OpenShare(s, c) <= TicksOf(k, h, ClientOf(k, s, h, c), WindowStart(k, h, |h|), |h|)
  {
    hide GraphPart, SegmentPart, ContextList, AllFaithful, StandsAt, Restamps, ContextAcc, ContextTicks, WindowStart,
         SegmentStart, Windows, Wrap64, BirthsOf, Born, ContextStart;
    var x, start := ClientOf(k, s, h, c), WindowStart(k, h, |h|);
    assert ContextPart(k, s, h, |h|, |h|, BirthsOf(k, s, h), c);
    if s.contexts[c].current.Some? {
      ContextCount(k, h, x.hw, x.birth, start, |h|);
      WrapAtMost(ContextTicks(k, h, x.hw, x.birth, start, |h|));
    }
  }

  /** In the window under way the clock counts of all contexts together are at most the global one. */
  lemma SharesWithinOpenWindow(k: Config, s: State, h: seq<Item>, extra: multiset<ChunkId>)
    requires ValidConfig(k) && Good(s, extra) && Hist(k, s, h) && s.currentGraph.Some?
    requires WindowTicks(h, WindowStart(k, h, |h|), |h|) < U64
    ensures s.currentGraph.value in s.samples
    ensures SumOf(s.hwContexts, OpenShares(s)) <= s.samples[s.currentGraph.value].accumulator.clock.count
  {
    hide Good, Hist, SumOf, TicksOf, ClientOf, WindowTicks, WindowStart, Born;
    OpenCount(k, s, h);
    var share := OpenShares(s);
    forall c | c in s.contexts
      ensures share(c) <= TicksOf(k, h, ClientOf(k, s, h, c), WindowStart(k, h, |h|), |h|)
    {
      OpenShareIs(k, s, h, c);
    }
    SharesWithin(k, s, h, share, WindowStart(k, h, |h|), |h|,
                 s.samples[s.currentGraph.value].accumulator.clock.count, extra);
  }

  lemma OpenCount(k: Config, s: State, h: seq<Item>)
    requires ValidConfig(k) && Hist(k, s, h) && s.currentGraph.Some?
    ensures s.currentGraph.value in s.samples
    ensures s.samples[s.currentGraph.value].accumulator.clock.count
         == Wrap64(WindowTicks(h, WindowStart(k, h, |h|), |h|))
  {
    hide ContextsPart, SegmentPart, GraphList, AllFaithful, StandsAt, Restamps, WindowAcc, WindowTicks, WindowStart,
         SegmentStart, Windows, Wrap64, BirthsOf, RightBirths;
    WindowCount(k, h, WindowStart(k, h, |h|), |h|);
  }

  // ---------------------------------------------------------------- listed windows

  predicate SameRecords(m: AccumulatedSamples, m': AccumulatedSamples) {
    m.start == m'.start && m.end == m'.end
  }

  /** The clock counts of those listed windows that go over the same records as m. */
  function Matching(samples: map<SampleId, AccumulatedSamples>, l: seq<SampleId>, m: AccumulatedSamples): nat {
    if l == [] then 0
    else
      var id := l[|l| - 1];
      Matching(samples, l[..|l| - 1], m)
      + if id in samples && SameRecords(samples[id], m) then samples[id].accumulator.clock.count else 0
  }

  function ListedShare(s: State, m: AccumulatedSamples, c: ContextId): nat {
    if c in s.contexts then Matching(s.samples, s.contexts[c].graphs, m) else 0
  }

  ghost function ListedShares(s: State, m: AccumulatedSamples): ContextId -> nat {
    c => ListedShare(s, m, c)
  }

  lemma {:induction false} MatchesOnce(samples: map<SampleId, AccumulatedSamples>, l: seq<SampleId>,
                                       m: AccumulatedSamples, at: int, most: nat)
    requires forall j :: 0 <= j < |l| ==> l[j] in samples && (SameRecords(samples[l[j]], m) <==> j == at)
    requires 0 <= at < |l| ==> samples[l[at]].accumulator.clock.count <= most
    ensures Matching(samples, l, m) <= most
    ensures !(0 <= at < |l|) ==> Matching(samples, l, m) == 0
    decreases |l|
  {
    if l != [] {
      MatchesOnce(samples, l[..|l| - 1], m, at, most);
    }
  }

  ghost predicate DistinctRefs(h: seq<Item>) {
    forall i, j :: 0 <= i < j < |h| ==> h[i].ref != h[j].ref
  }

  lemma InPlaceDistinct(h: seq<Item>, c: ChunkId, i: nat)
    requires InPlace(h, c, i)
    ensures DistinctRefs(h)
  {
    forall a, b | 0 <= a < b < |h| ensures h[a].ref != h[b].ref {
      assert Before(h[a].ref, h[b].ref);
    }
  }

  /** Windows over the same records are the same window. */
  lemma SameSpan(h: seq<Item>, w: seq<Span>, open: nat, i: nat, j: nat, m: AccumulatedSamples, m': AccumulatedSamples)
    requires Tile(w, open) && DistinctRefs(h) && i < |w| && j < |w| && SpanOf(h, m, w[i]) && SpanOf(h, m', w[j])
    ensures SameRecords(m, m') <==> i == j
  {
    hide Tile;
    if i < j { TileOrder(w, open, i, j); TileEntry(w, open, i); }
    if j < i { TileOrder(w, open, j, i); TileEntry(w, open, j); }
  }

  lemma TileEntry(w: seq<Span>, open: nat, i: nat)
    requires Tile(w, open) && i < |w|
    ensures w[i].first < w[i].last
  {
  }

  /** A context's listed share of listed window p. */
  lemma ListedShareIs(k: Config, s: State, h: seq<Item>, c: ContextId, m: AccumulatedSamples, p: nat)
    requires ValidConfig(k) && Hist(k, s, h) && DistinctRefs(h) && c in s.contexts && p < |Windows(k, h, |h|)|
    requires SpanOf(h, m, Windows(k, h, |h|)[p])
    ensures var v := Windows(k, h, |h|)[p];
            ListedShare(s, m, c) <= TicksOf(k, h, ClientOf(k, s, h, c), v.first, v.last + 1)
  {
    hide GraphPart, SegmentPart, OpenContextWindow, AllFaithful, StandsAt, Restamps, ContextAcc, ContextTicks,
         WindowStart, SegmentStart, Windows, Wrap64, BirthsOf, Born, ContextStart, SpanOf, SameRecords, Tile,
         DistinctRefs;
    var w, x, l := Windows(k, h, |h|), ClientOf(k, s, h, c), s.contexts[c].graphs;
    var at := p - (|w| - |l|);
    WindowsTile(k, h, |h|);
    assert ContextPart(k, s, h, |h|, |h|, BirthsOf(k, s, h), c);
    forall j | 0 <= j < |l| ensures l[j] in s.samples && (SameRecords(s.samples[l[j]], m) <==> j == at) {
      assert IsContextWindow(k, h, x.hw, x.birth, s.samples[l[j]], TailAt(w, l, j));
      SameSpan(h, w, WindowStart(k, h, |h|), |w| - |l| + j, p, s.samples[l[j]], m);
    }
    var most := ContextTicks(k, h, x.hw, x.birth, w[p].first, w[p].last + 1) by { SpanInside(h, m, w[p]); }
    if 0 <= at < |l| {
      assert IsContextWindow(k, h, x.hw, x.birth, s.samples[l[at]], TailAt(w, l, at));
      SpanInside(h, m, w[p]);
      ContextCount(k, h, x.hw, x.birth, w[p].first, w[p].last + 1);
      WrapAtMost(most);
    }
    MatchesOnce(s.samples, l, m, at, most);
  }

  lemma SpanInside(h: seq<Item>, m: AccumulatedSamples, w: Span)
    requires SpanOf(h, m, w)
    ensures w.first <= w.last < |h|
  {
  }

  /** The window that entry j of the list is. */
  lemma ListedWindow(k: Config, s: State, h: seq<Item>, j: nat) returns (p: nat)
    requires ValidConfig(k) && Hist(k, s, h) && j < |s.graphs|
    ensures p < |Windows(k, h, |h|)| && s.graphs[j] in s.samples
    ensures var v := Windows(k, h, |h|)[p];
            && v.first < v.last < |h| && SpanOf(h, s.samples[s.graphs[j]], v)
            && s.samples[s.graphs[j]].accumulator.clock.count == Wrap64(WindowTicks(h, v.first, v.last + 1))
  {
    hide Hist, Windows, Tile, SpanOf, WindowTicks, WindowAcc, Wrap64;
    p := ListedEntry(k, s, h, j);
    var w := Windows(k, h, |h|);
    WindowsTile(k, h, |h|);
    TileEntry(w, WindowStart(k, h, |h|), p);
    SpanInside(h, s.samples[s.graphs[j]], w[p]);
    WindowCount(k, h, w[p].first, w[p].last + 1);
  }

  lemma ListedEntry(k: Config, s: State, h: seq<Item>, j: nat) returns (p: nat)
    requires ValidConfig(k) && Hist(k, s, h) && j < |s.graphs|
    ensures p < |Windows(k, h, |h|)| && s.graphs[j] in s.samples
    ensures IsWindow(k, h, s.samples[s.graphs[j]], Windows(k, h, |h|)[p])
  {
    hide ContextsPart, SegmentPart, OpenGraph, AllFaithful, StandsAt, Restamps, Windows, WindowStart, BirthsOf,
         RightBirths, IsWindow;
    var w := Windows(k, h, |h|);
    p := |w| - |s.graphs| + j;
    assert IsWindow(k, h, s.samples[s.graphs[j]], TailAt(w, s.graphs, j));
  }

  /** Of a listed window the contexts' windows over the same records have together at most what it has. */
  lemma SharesWithinListedWindow(k: Config, s: State, h: seq<Item>, j: nat, p: nat, extra: multiset<ChunkId>)
    requires ValidConfig(k) && Good(s, extra) && Hist(k, s, h) && DistinctRefs(h) && j < |s.graphs|
    requires p < |Windows(k, h, |h|)| && s.graphs[j] in s.samples
    requires SpanOf(h, s.samples[s.graphs[j]], Windows(k, h, |h|)[p])
    requires var v := Windows(k, h, |h|)[p];
             && v.first < v.last < |h| && WindowTicks(h, v.first, v.last + 1) < U64
             && s.samples[s.graphs[j]].accumulator.clock.count == Wrap64(WindowTicks(h, v.first, v.last + 1))
    ensures SumOf(s.hwContexts, ListedShares(s, s.samples[s.graphs[j]]))
         <= s.samples[s.graphs[j]].accumulator.clock.count
  {
    hide Good, Hist, SumOf, TicksOf, ClientOf, WindowTicks, Windows, SpanOf, DistinctRefs;
    var m, v := s.samples[s.graphs[j]], Windows(k, h, |h|)[p];
    var share := ListedShares(s, m);
    forall c | c in s.contexts ensures share(c) <= TicksOf(k, h, ClientOf(k, s, h, c), v.first, v.last + 1) {
      ListedShareIs(k, s, h, c, m, p);
    }
    SharesWithin(k, s, h, share, v.first, v.last + 1, m.accumulator.clock.count, extra);
  }

  // ---------------------------------------------------------------- after any run

  /** While stamps are not zero: after any run, in the window under way and in every listed one the clock
      counts of all contexts together are at most the global one. */
  lemma EveryRunShares(k: Config, events: seq<Event>)
    requires ValidConfig(k) && Moderate(k) && StampsNonzero(HistoryOf(k, events))
    ensures Run(k, InitialState(k), events).Some?
    ensures var s := Run(k, InitialState(k), events).value;
            s.currentGraph.Some? ==>
              && s.currentGraph.value in s.samples
              && SumOf(s.hwContexts, OpenShares(s)) <= s.samples[s.currentGraph.value].accumulator.clock.count
    ensures var s := Run(k, InitialState(k), events).value;
            forall j :: 0 <= j < |s.graphs| ==>
              && s.graphs[j] in s.samples
              && (var m := s.samples[s.graphs[j]]; SumOf(s.hwContexts, ListedShares(s, m)) <= m.accumulator.clock.count)
  {
    hide Good, Hist, Run, HistoryOf, SumOf, Windows, WindowTicks, WindowStart, InPlace, DistinctRefs, SpanOf, Moderate,
         StampsNonzero, OpenShares, ListedShares;
    EveryRunKeepsToHistory(k, events);
    var s, h := Run(k, InitialState(k), events).value, HistoryOf(k, events);
    HistoryInPlace(k, events);
    InPlaceDistinct(h, Chunks(events), 0);
    if s.currentGraph.Some? {
      OpenTicksFit(k, h);
      SharesWithinOpenWindow(k, s, h, multiset{});
    }
    forall j | 0 <= j < |s.graphs|
      ensures s.graphs[j] in s.samples
      ensures SumOf(s.hwContexts, ListedShares(s, s.samples[s.graphs[j]]))
           <= s.samples[s.graphs[j]].accumulator.clock.count
    {
      var p := ListedWindow(k, s, h, j);
      ClosedTicksFit(k, h, |h|, p);
      SharesWithinListedWindow(k, s, h, j, p, multiset{});
    }
  }
}
