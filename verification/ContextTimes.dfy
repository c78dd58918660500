/** The times that windows of contexts carry, when they are those of the records and when they are not: a
    context that appears later than the window it gets has its start computed again, and without CPU
    timestamps its windows end at the clock of their accumulator.
 */
module ContextTimes {
  import opened Common
  import opened OaCounters
  import opened ClientState
  import opened ClientInvariants
  import opened ClientSteps
  import opened Segmentation
  import opened ClientHistory
  import opened ClientRuns

  // ---------------------------------------------------------------- where a new context's window starts

  /** The GPU clock stands still from record s to record n. */
  ghost predicate Still(h: seq<Item>, s: nat, n: nat)
    requires s <= n < |h|
  {
    forall i :: s <= i <= n ==> h[i].report[1] == h[s].report[1]
  }

  /** How often stamps go back from record s to record n. */
  function Backsteps(h: seq<Item>, s: nat, n: nat): nat
    requires n < |h|
  {
    if n <= s then 0 else Backsteps(h, s, n - 1) + if h[n].report[1] < h[n - 1].report[1] then 1 else 0
  }

  lemma {:induction false} TimeWraps(k: Config, h: seq<Item>, n: nat)
    requires ValidConfig(k) && OaStamped(k, h) && 0 < n <= |h|
    ensures h[n - 1].time == Wrap64(UnboundedTime(k, h, n))
  {
    hide Wrap64;
    assert h[n - 1].time == h[n - 1].time;
    if n == 1 {
      NanosNone(k);
      WrapTwice(k.visiblePeriod);
    } else {
      hide ScaleNs;
      TimeWraps(k, h, n - 1);
      ModSum(UnboundedTime(k, h, n - 1), ScaleNs(k.freq, Wrap64(h[n - 1].report[1] as int - h[n - 2].report[1])));
    }
  }

  lemma WrapBelow(x: int)
    ensures Wrap64(x) < U64
  {
  }

  lemma WrapTwice(x: int)
    ensures Wrap64(Wrap64(x)) == Wrap64(x)
  {
  }

  /** One step of the clock as the code takes it: at most the scaled difference, and 2^64 ticks of a
      nanosecond more if the stamp goes back. */
  lemma StepBound(freq: nat, r0: Word, r1: Word)
    requires 0 < freq <= MAX_FREQ
    ensures var x := ScaleNs(freq, Wrap64(r1 - r0));
            && x * freq <= (r1 - r0) * NS_PER_SECOND + (if r1 < r0 then U64 else 0)
            && (r1 < r0 ==> x > 0) && (r1 == r0 ==> x == 0)
  {
    if r1 < r0 {
      var m := r0 - r1;
      ModUnique(r1 - r0, U64, -1, U64 - m);
      ModUnique((U64 - m) * NS_PER_SECOND, U64, NS_PER_SECOND - 1, U64 - m * NS_PER_SECOND);
      DivBounds(U64 - m * NS_PER_SECOND, freq);
      QuotientBounds(U64 - m * NS_PER_SECOND, 1, freq);
    } else {
      WrapSmall(r1 - r0);
      WrapSmall((r1 - r0) * NS_PER_SECOND);
      DivBounds((r1 - r0) * NS_PER_SECOND, freq);
      if r1 == r0 { DivBounds(0, freq); }
    }
  }

  /** The steps from record s to record n. */
  function Steps(k: Config, h: seq<Item>, s: nat, n: nat): nat
    requires ValidConfig(k) && n < |h|
  {
    if n <= s then 0
    else Steps(k, h, s, n - 1) + ScaleNs(k.freq, Wrap64(h[n].report[1] as int - h[n - 1].report[1]))
  }

  lemma {:induction false} StepsAdd(k: Config, h: seq<Item>, s: nat, n: nat)
    requires ValidConfig(k) && s <= n < |h|
    ensures UnboundedTime(k, h, n + 1) == UnboundedTime(k, h, s + 1) + Steps(k, h, s, n)
    decreases n
  {
    hide ScaleNs, Wrap64;
    if s < n { StepsAdd(k, h, s, n - 1); }
  }

  lemma {:induction false} StepsBound(k: Config, h: seq<Item>, s: nat, n: nat)
    requires ValidConfig(k) && k.freq <= MAX_FREQ && s <= n < |h|
    ensures Steps(k, h, s, n) * k.freq <= (h[n].report[1] - h[s].report[1]) * NS_PER_SECOND + Backsteps(h, s, n) * U64
    ensures Backsteps(h, s, n) <= n - s
    ensures Backsteps(h, s, n) > 0 ==> Steps(k, h, s, n) > 0
    decreases n
  {
    hide ScaleNs, Wrap64;
    if s < n {
      StepsBound(k, h, s, n - 1);
      var x := ScaleNs(k.freq, Wrap64(h[n].report[1] as int - h[n - 1].report[1]));
      StepBound(k.freq, h[n - 1].report[1], h[n].report[1]);
      Distributes(Steps(k, h, s, n - 1), x, k.freq);
    } else {
      assert Steps(k, h, s, n) == 0;
    }
  }

  lemma Distributes(a: nat, b: nat, f: nat)
    ensures (a + b) * f == a * f + b * f
  {
  }

  /** Without a step back stamps rise, and stand still if they end where they began. */
  lemma {:induction false} StillExact(k: Config, h: seq<Item>, s: nat, n: nat)
    requires ValidConfig(k) && k.freq <= MAX_FREQ && s <= n < |h|
    ensures Backsteps(h, s, n) == 0 ==> h[s].report[1] <= h[n].report[1]
    ensures Still(h, s, n) <==> Backsteps(h, s, n) == 0 && h[n].report[1] == h[s].report[1]
    ensures Still(h, s, n) ==> Steps(k, h, s, n) == 0
    decreases n
  {
    hide ScaleNs, Wrap64;
    if s < n {
      StillExact(k, h, s, n - 1);
      StepBound(k.freq, h[n - 1].report[1], h[n].report[1]);
      if Still(h, s, n) { assert Still(h, s, n - 1) && h[n - 1].report[1] == h[s].report[1] == h[n].report[1]; }
    }
  }

  lemma LessThanAll(total: nat, n: nat, freq: nat)
    requires total * freq <= n * U64 && n < freq
    ensures total < U64
  {
    if total >= U64 {
      MulMono(U64, total, freq);
    }
  }

  /** All steps from record s to record n and back to s are together 0 if the clock stands still, and else
      more than 0 and less than 2^64. */
  lemma RoundTrip(k: Config, h: seq<Item>, s: nat, n: nat)
    requires ValidConfig(k) && k.freq <= MAX_FREQ && s <= n < |h| && n + 1 - s < k.freq
    ensures var total := Steps(k, h, s, n) + ScaleNs(k.freq, Wrap64(h[s].report[1] as int - h[n].report[1]));
            total < U64 && (total == 0 <==> Still(h, s, n))
  {
    hide ScaleNs, Wrap64, Steps, Backsteps, Still;
    var sum, back := Steps(k, h, s, n), ScaleNs(k.freq, Wrap64(h[s].report[1] as int - h[n].report[1]));
    StepsBound(k, h, s, n);
    StillExact(k, h, s, n);
    StepBound(k.freq, h[n].report[1], h[s].report[1]);
    Distributes(sum, back, k.freq);
    LessThanAll(sum + back, n + 1 - s, k.freq);
  }

  /** Without CPU timestamps the window of a context that appears in the middle of a global window would start
      at the time of the window's first record if and only if the GPU clock has stood still since. */
  lemma ContextStartExact(k: Config, events: seq<Event>, birth: nat, s: nat)
    requires ValidConfig(k) && !k.cpuTimestamps && k.freq <= MAX_FREQ
    requires s < birth <= |HistoryOf(k, events)| && birth - s < k.freq
    ensures var h := HistoryOf(k, events);
            ContextStart(k, h, birth, s) == h[s].time <==> Still(h, s, birth - 1)
  {
    hide HistoryOf, OaStamped, UnboundedTime, Still, ScaleNs, Wrap64, Steps;
    var h := HistoryOf(k, events);
    HistoryStamped(k, events);
    TimeWraps(k, h, s + 1);
    TimeWraps(k, h, birth);
    StepsAdd(k, h, s, birth - 1);
    var start, sum := UnboundedTime(k, h, s + 1), Steps(k, h, s, birth - 1);
    var back := ScaleNs(k.freq, Wrap64(h[s].report[1] as int - h[birth - 1].report[1]));
    ModSum(start + sum, back);
    assert ContextStart(k, h, birth, s) == Wrap64(start + (sum + back));
    RoundTrip(k, h, s, birth - 1);
    if Wrap64(start + (sum + back)) == Wrap64(start + 0) {
      SameSum(start, sum + back, 0);
    }
  }

  /** When a context that exists since pair `birth` has a window that starts with the first record's time. */
  ghost predicate StartsRight(k: Config, h: seq<Item>, birth: nat, s: nat)
    requires birth <= |h|
  {
    k.cpuTimestamps || birth <= s || Still(h, s, birth - 1)
  }

  lemma StartsRightExact(k: Config, events: seq<Event>, birth: nat, s: nat)
    requires ValidConfig(k) && s < |HistoryOf(k, events)| && birth <= |HistoryOf(k, events)|
    requires !k.cpuTimestamps ==> k.freq <= MAX_FREQ && birth < s + k.freq
    ensures var h := HistoryOf(k, events); ContextStart(k, h, birth, s) == h[s].time <==> StartsRight(k, h, birth, s)
  {
    hide HistoryOf, Still, ScaleNs, Wrap64;
    if !k.cpuTimestamps && s < birth { ContextStartExact(k, events, birth, s); }
  }

  /** In the state that a run leads to: the window that a context has under way starts with the global one if
      and only if the context was there before, or the GPU clock has stood still in between. */
  lemma OpenStartExact(k: Config, events: seq<Event>, c: ContextId)
    requires ValidConfig(k)
    requires var h := HistoryOf(k, events);
             !k.cpuTimestamps ==> k.freq <= MAX_FREQ && |h| < WindowStart(k, h, |h|) + k.freq
    ensures Run(k, InitialState(k), events).Some?
    ensures var s, h := Run(k, InitialState(k), events).value, HistoryOf(k, events);
            c in s.contexts && s.currentGraph.Some? ==>
              && s.contexts[c].current.Some? && s.contexts[c].current.value in s.samples
              && s.currentGraph.value in s.samples && Born(k, h, s.contexts[c].hwId, |h|).Some?
              && (s.samples[s.contexts[c].current.value].timestampStart
                  == s.samples[s.currentGraph.value].timestampStart
                  <==> StartsRight(k, h, Born(k, h, s.contexts[c].hwId, |h|).value, WindowStart(k, h, |h|)))
  {
    hide HistoryOf, Good, Run, Hist, StartsRight, WindowStart, Born, ContextStart;
    EveryRunKeepsToHistory(k, events);
    var s, h := Run(k, InitialState(k), events).value, HistoryOf(k, events);
    if c in s.contexts && s.currentGraph.Some? {
      var birth := OpenStart(k, s, h, c, multiset{});
      StartsRightExact(k, events, birth, WindowStart(k, h, |h|));
    }
  }

  lemma OpenStart(k: Config, s: State, h: seq<Item>, c: ContextId, extra: multiset<ChunkId>) returns (birth: nat)
    requires ValidConfig(k) && Good(s, extra) && Hist(k, s, h) && c in s.contexts && s.currentGraph.Some?
    ensures s.contexts[c].current.Some? && s.contexts[c].current.value in s.samples
    ensures s.currentGraph.value in s.samples && WindowStart(k, h, |h|) < |h|
    ensures Born(k, h, s.contexts[c].hwId, |h|) == Some(birth) && birth < |h|
    ensures s.samples[s.contexts[c].current.value].timestampStart == ContextStart(k, h, birth, WindowStart(k, h, |h|))
    ensures s.samples[s.currentGraph.value].timestampStart == h[WindowStart(k, h, |h|)].time
  {
    hide Inv, SegmentPart, GraphList, ContextList, AllFaithful, StandsAt, Restamps, WindowAcc, ContextAcc, WindowStart,
         SegmentStart, Windows, ContextStart, Present;
    birth := BirthsOf(k, s, h)[c];
    assert ContextPart(k, s, h, |h|, |h|, BirthsOf(k, s, h), c);
  }

  /** And so for the windows of contexts that are listed, against the record they start with. */
  lemma ListedStartExact(k: Config, events: seq<Event>, c: ContextId, j: nat)
    requires ValidConfig(k) && (!k.cpuTimestamps ==> k.freq <= MAX_FREQ && |HistoryOf(k, events)| < k.freq)
    ensures Run(k, InitialState(k), events).Some?
    ensures var s, h := Run(k, InitialState(k), events).value, HistoryOf(k, events);
            c in s.contexts && j < |s.contexts[c].graphs| ==>
              var w, l := Windows(k, h, |h|), s.contexts[c].graphs;
              && l[j] in s.samples && |l| <= |w| && Born(k, h, s.contexts[c].hwId, |h|).Some?
              && (var first := w[|w| - |l| + j].first;
                  && first < |h| && s.samples[l[j]].start == h[first].ref
                  && (s.samples[l[j]].timestampStart == h[first].time
                      <==> StartsRight(k, h, Born(k, h, s.contexts[c].hwId, |h|).value, first)))
  {
    hide HistoryOf, Good, Run, Hist, StartsRight, Windows, Born, ContextStart, ContextAcc;
    EveryRunKeepsToHistory(k, events);
    var s, h := Run(k, InitialState(k), events).value, HistoryOf(k, events);
    if c in s.contexts && j < |s.contexts[c].graphs| {
      var birth, w := ListedWindow(k, s, h, c, j);
      StartsRightExact(k, events, birth, w.first);
    }
  }

  lemma ListedWindow(k: Config, s: State, h: seq<Item>, c: ContextId, j: nat) returns (birth: nat, w: Span)
    requires ValidConfig(k) && Hist(k, s, h) && c in s.contexts && j < |s.contexts[c].graphs|
    ensures var all, l := Windows(k, h, |h|), s.contexts[c].graphs;
            && |l| <= |all| && w == TailAt(all, l, j) && l[j] in s.samples
            && IsContextWindow(k, h, s.contexts[c].hwId, birth, s.samples[l[j]], w)
    ensures Born(k, h, s.contexts[c].hwId, |h|) == Some(birth) && birth < |h|
  {
    hide GraphPart, SegmentPart, OpenContextWindow, AllFaithful, StandsAt, Restamps, ContextAcc, WindowStart,
         SegmentStart, Windows, ContextStart, Present, IsContextWindow;
    birth := BirthsOf(k, s, h)[c];
    assert ContextPart(k, s, h, |h|, |h|, BirthsOf(k, s, h), c);
    w := TailAt(Windows(k, h, |h|), s.contexts[c].graphs, j);
  }

  // ---------------------------------------------------------------- where windows of contexts end

  /** Pair i is one that the accumulator of a context takes. */
  predicate Credits(k: Config, h: seq<Item>, hw: Word, birth: nat, i: nat)
    requires ValidConfig(k) && 0 < i < |h|
  {
    birth <= i && Attributed(k, h, i) == Some(hw) && UsablePair(h, i)
  }

  /** The last of the pairs s to n - 1 that the context gets, if it gets one. */
  function LastCredited(k: Config, h: seq<Item>, hw: Word, birth: nat, s: nat, n: nat): (i: Option<nat>)
    requires ValidConfig(k) && n <= |h|
    ensures i.Some? ==> s <= i.value < n
  {
    if n <= s || n <= 1 then None
    else if Credits(k, h, hw, birth, n - 1) then Some(n - 1)
    else LastCredited(k, h, hw, birth, s, n - 1)
  }

  /** The record up to which the context's clock has been brought. */
  function ClockAt(k: Config, h: seq<Item>, hw: Word, birth: nat, s: nat, n: nat): (i: nat)
    requires ValidConfig(k) && n <= |h|
    ensures i == s || s <= i < n
  {
    if LastCredited(k, h, hw, birth, s, n).Some? then LastCredited(k, h, hw, birth, s, n).value else s
  }

  /** How far that clock has been brought: each time by all that has passed since the time before. */
  function Brings(k: Config, h: seq<Item>, hw: Word, birth: nat, s: nat, n: nat): nat
    requires ValidConfig(k) && s < |h| && n <= |h|
  {
    if n <= s || n <= 1 then 0
    else
      Brings(k, h, hw, birth, s, n - 1)
      + if Credits(k, h, hw, birth, n - 1)
        then ScaleNs(k.freq, Wrap32(h[n - 1].report[1] as int - h[ClockAt(k, h, hw, birth, s, n - 1)].report[1]))
        else 0
  }

  lemma PairClock(k: Config, h: seq<Item>, i: nat, a: Accumulator)
    requires ValidConfig(k) && 0 < i < |h| && WellFormed(a) && a.clockSet
    ensures var b := AddPair(k, h, i, a);
            if !UsablePair(h, i) then b == a
            else
              && b.clockSet && b.clock.lastU32 == h[i].report[1] && b.last == b.clock.timestamp
              && b.clock.timestamp
                 == Wrap64(a.clock.timestamp + ScaleNs(k.freq, Wrap32(h[i].report[1] as int - a.clock.lastU32)))
  {
    hide AddDeltas, ScaleNs, Wrap64, Wrap32;
  }

  lemma OnePairMore(k: Config, h: seq<Item>, hw: Word, birth: nat, s: nat, n: nat)
    requires ValidConfig(k) && s < n <= |h| && n > 1
    ensures LastCredited(k, h, hw, birth, s, n)
         == if Credits(k, h, hw, birth, n - 1) then Some(n - 1) else LastCredited(k, h, hw, birth, s, n - 1)
    ensures Brings(k, h, hw, birth, s, n)
         == Brings(k, h, hw, birth, s, n - 1)
            + if Credits(k, h, hw, birth, n - 1)
              then ScaleNs(k.freq, Wrap32(h[n - 1].report[1] as int - h[ClockAt(k, h, hw, birth, s, n - 1)].report[1]))
              else 0
  {
    hide Credits, ClockAt, ScaleNs, Wrap32;
  }

  lemma OnePairTaken(k: Config, h: seq<Item>, hw: Word, birth: nat, s: nat, n: nat)
    requires ValidConfig(k) && s < n <= |h| && n > 1 && ContextAcc(k, h, hw, birth, s, n - 1).clockSet
    ensures var a, b := ContextAcc(k, h, hw, birth, s, n - 1), ContextAcc(k, h, hw, birth, s, n);
            if !Credits(k, h, hw, birth, n - 1) then b == a
            else
              && b.clockSet && b.clock.lastU32 == h[n - 1].report[1] && b.last == b.clock.timestamp
              && b.clock.timestamp
                 == Wrap64(a.clock.timestamp + ScaleNs(k.freq, Wrap32(h[n - 1].report[1] as int - a.clock.lastU32)))
  {
    hide AddPair, Attributed, UsablePair, ScaleNs, Wrap64, Wrap32;
    PairClock(k, h, n - 1, ContextAcc(k, h, hw, birth, s, n - 1));
  }

  /** The clock of a context's window starts with the stamp of the window's first record. */
  lemma {:induction false} ContextClock(k: Config, h: seq<Item>, hw: Word, birth: nat, s: nat, n: nat)
    requires ValidConfig(k) && s < |h| && n <= |h|
    ensures var a := ContextAcc(k, h, hw, birth, s, n);
            && a.clockSet && a.clock.lastU32 == h[ClockAt(k, h, hw, birth, s, n)].report[1]
            && a.clock.timestamp == Wrap64(ScaleNs(k.freq, h[s].report[1]) + Brings(k, h, hw, birth, s, n))
            && a.last == if LastCredited(k, h, hw, birth, s, n).Some? then a.clock.timestamp else 0
  {
    hide Credits, ScaleNs, Wrap64, Wrap32;
    if n <= s || n <= 1 {
      ScaledIsWrapped(k.freq, h[s].report[1]);
    } else {
      hide LastCredited, Brings, ContextAcc;
      ContextClock(k, h, hw, birth, s, n - 1);
      OnePairMore(k, h, hw, birth, s, n);
      OnePairTaken(k, h, hw, birth, s, n);
      var a := ContextAcc(k, h, hw, birth, s, n - 1);
      if Credits(k, h, hw, birth, n - 1) {
        ModSum(ScaleNs(k.freq, h[s].report[1]) + Brings(k, h, hw, birth, s, n - 1),
               ScaleNs(k.freq, Wrap32(h[n - 1].report[1] as int - a.clock.lastU32)));
      }
    }
  }

  lemma ScaledIsWrapped(freq: nat, ticks: nat)
    requires freq > 0
    ensures Wrap64(ScaleNs(freq, ticks)) == ScaleNs(freq, ticks) < U64
  {
    DivBounds(Wrap64(ticks * NS_PER_SECOND), freq);
  }

  /** When a context's window from record s to record e ends with the time of record e: if the context has got
      nothing of it, at time 0 only; else if the clocks of reports and of windows are as far apart at its
      start as what the context's clock has left out. */
  predicate EndsRight(k: Config, h: seq<Item>, hw: Word, birth: nat, s: nat, e: nat)
    requires ValidConfig(k) && s <= e < |h|
  {
    if k.cpuTimestamps then true
    else if LastCredited(k, h, hw, birth, s, e + 1).None? then h[e].time == 0
    else
      Wrap64(ScaleNs(k.freq, h[s].report[1]) + Brings(k, h, hw, birth, s, e + 1))
      == Wrap64(h[s].time + Steps(k, h, s, e))
  }

  lemma ContextEndExact(k: Config, h: seq<Item>, hw: Word, birth: nat, s: nat, e: nat)
    requires ValidConfig(k) && OaStamped(k, h) && s <= e < |h| && !k.cpuTimestamps
    ensures ContextAcc(k, h, hw, birth, s, e + 1).last == h[e].time <==> EndsRight(k, h, hw, birth, s, e)
  {
    hide ContextAcc, ScaleNs, Wrap64, Brings, Steps, UnboundedTime, OaStamped, LastCredited, ClockAt;
    ContextClock(k, h, hw, birth, s, e + 1);
    TimeWraps(k, h, s + 1);
    TimeWraps(k, h, e + 1);
    StepsAdd(k, h, s, e);
    ModSum(UnboundedTime(k, h, s + 1), Steps(k, h, s, e));
  }

  lemma WindowEndExact(k: Config, h: seq<Item>, hw: Word, birth: nat, m: AccumulatedSamples, w: Span)
    requires ValidConfig(k) && IsContextWindow(k, h, hw, birth, m, w) && (!k.cpuTimestamps ==> OaStamped(k, h))
    ensures m.timestampEnd == h[w.last].time <==> EndsRight(k, h, hw, birth, w.first, w.last)
  {
    hide ContextAcc, OaStamped, ContextStart, LastCredited, Brings, Steps, ScaleNs, Wrap64;
    if !k.cpuTimestamps { ContextEndExact(k, h, hw, birth, w.first, w.last); }
  }

  /** The context runs through the whole window, and no stamp goes back. */
  ghost predicate Throughout(k: Config, h: seq<Item>, hw: Word, birth: nat, s: nat, e: nat)
    requires ValidConfig(k) && s <= e < |h|
  {
    forall i :: s < i <= e ==> Credits(k, h, hw, birth, i) && h[i - 1].report[1] <= h[i].report[1]
  }

  lemma {:induction false} BringsAll(k: Config, h: seq<Item>, hw: Word, birth: nat, s: nat, e: nat)
    requires ValidConfig(k) && s <= e < |h| && Throughout(k, h, hw, birth, s, e)
    ensures Brings(k, h, hw, birth, s, e + 1) == Steps(k, h, s, e)
    ensures ClockAt(k, h, hw, birth, s, e + 1) == e
    ensures s < e ==> LastCredited(k, h, hw, birth, s, e + 1) == Some(e)
    decreases e
  {
    hide Credits, LastCredited, Brings, ScaleNs, Wrap64, Wrap32;
    if s == e {
      BringsNothing(k, h, hw, birth, s);
    } else {
      BringsAll(k, h, hw, birth, s, e - 1);
      assert Credits(k, h, hw, birth, e);
      OnePairMore(k, h, hw, birth, s, e + 1);
      Ascending(h[e - 1].report[1], h[e].report[1]);
    }
  }

  lemma Ascending(a: Word, b: Word)
    requires a <= b
    ensures Wrap32(b - a) == Wrap64(b - a)
  {
  }

  lemma BringsNothing(k: Config, h: seq<Item>, hw: Word, birth: nat, s: nat)
    requires ValidConfig(k) && s < |h|
    ensures Brings(k, h, hw, birth, s, s + 1) == 0 && ClockAt(k, h, hw, birth, s, s + 1) == s
  {
    hide Credits;
    if s > 0 {
      NoTimeAtAll(k.freq);
      OnePairMore(k, h, hw, birth, s, s + 1);
    }
  }

  lemma NoTimeAtAll(freq: nat)
    requires freq > 0
    ensures ScaleNs(freq, Wrap32(0)) == 0
  {
  }

  /** Even then its end is right if and only if the clock of the windows, which starts from the length of the
      timeline, and that of the reports have agreed at its start. */
  lemma ThroughoutExact(k: Config, events: seq<Event>, hw: Word, birth: nat, s: nat, e: nat)
    requires ValidConfig(k) && !k.cpuTimestamps && s < e < |HistoryOf(k, events)|
    requires Throughout(k, HistoryOf(k, events), hw, birth, s, e)
    ensures var h := HistoryOf(k, events);
            ContextAcc(k, h, hw, birth, s, e + 1).last == h[e].time <==> ScaleNs(k.freq, h[s].report[1]) == h[s].time
  {
    hide HistoryOf, OaStamped, ContextAcc, Throughout, ScaleNs, Wrap64, Brings, Steps, LastCredited, ClockAt;
    var h := HistoryOf(k, events);
    HistoryStamped(k, events);
    ContextEndExact(k, h, hw, birth, s, e);
    BringsAll(k, h, hw, birth, s, e);
    ScaledIsWrapped(k.freq, h[s].report[1]);
    TimeWraps(k, h, s + 1);
    WrapBelow(UnboundedTime(k, h, s + 1));
    var start, time, steps := ScaleNs(k.freq, h[s].report[1]), h[s].time, Steps(k, h, s, e);
    if Wrap64(start + steps) == Wrap64(time + steps) {
      SameSum(steps, start, time);
    }
  }

  /** In the state that a run leads to: each listed window of a context ends with the time of its last record
      if and only if its end is right. */
  lemma ListedEndExact(k: Config, events: seq<Event>, c: ContextId, j: nat)
    requires ValidConfig(k)
    ensures Run(k, InitialState(k), events).Some?
    ensures var s, h := Run(k, InitialState(k), events).value, HistoryOf(k, events);
            c in s.contexts && j < |s.contexts[c].graphs| ==>
              var w, l := Windows(k, h, |h|), s.contexts[c].graphs;
              && l[j] in s.samples && |l| <= |w| && Born(k, h, s.contexts[c].hwId, |h|).Some?
              && (var v := w[|w| - |l| + j];
                  && v.first <= v.last < |h| && s.samples[l[j]].end == Some(h[v.last].ref)
                  && (s.samples[l[j]].timestampEnd == h[v.last].time
                      <==> EndsRight(k, h, s.contexts[c].hwId, Born(k, h, s.contexts[c].hwId, |h|).value,
                                     v.first, v.last)))
  {
    hide HistoryOf, Good, Run, Hist, EndsRight, Windows, Born, ContextStart, ContextAcc, OaStamped;
    EveryRunKeepsToHistory(k, events);
    var s, h := Run(k, InitialState(k), events).value, HistoryOf(k, events);
    if c in s.contexts && j < |s.contexts[c].graphs| {
      var birth, v := ListedWindow(k, s, h, c, j);
      if !k.cpuTimestamps { HistoryStamped(k, events); }
      WindowEndExact(k, h, s.contexts[c].hwId, birth, s.samples[s.contexts[c].graphs[j]], v);
    }
  }

  // ---------------------------------------------------------------- two runs of three records

  /** Stamps 100, 200 and 300 of a clock of 12.5 MHz. */
  ghost predicate Ticking(k: Config, h: seq<Item>) {
    !k.cpuTimestamps && k.freq == 12_500_000
    && |h| == 3 && forall i :: 0 <= i < 3 ==> h[i].report[1] == 100 * (i + 1)
  }

  function RunOf(first: Record): seq<Event> {
    [Data([first, SampleOf(200, 7), SampleOf(300, 7)])]
  }

  /** The history of such a run. */
  lemma RunHistory(k: Config, first: Record)
    requires ValidConfig(k) && k.gen >= 9 && !k.cpuTimestamps && k.freq == 12_500_000
    requires first.Sample? && first.report[1] == 100
    ensures var h := HistoryOf(k, RunOf(first));
            && |h| == 3 && Ticking(k, h) && h[0].hwId == CtxId(k.gen, first.report) && h[1].hwId == h[2].hwId == 7
            && h[0].time == Wrap64(k.visiblePeriod) && h[1].time == Wrap64(h[0].time + 8_000)
            && h[2].time == Wrap64(h[1].time + 8_000)
  {
    hide ScaleNs, Wrap64, HistoryOf, ChunkHistory;
    Scaled();
    var records := [first, SampleOf(200, 7), SampleOf(300, 7)];
    OneChunk(k, records);
    NextSample(k, [], 0, records, 0);
    var h1 := Append(k, [], Ref(0, 0), records[0]);
    NextSample(k, h1, 0, records, 1);
    var h2 := Append(k, h1, Ref(0, 1), records[1]);
    NextSample(k, h2, 0, records, 2);
    ChunkDone(k, Append(k, h2, Ref(0, 2), records[2]), 0, records);
    assert HistoryOf(k, RunOf(first)) == Append(k, h2, Ref(0, 2), records[2]);
    WrapTwice(k.visiblePeriod);
  }

  lemma Scaled()
    ensures ScaleNs(12_500_000, 0) == 0
    ensures ScaleNs(12_500_000, 100) == ScaleNs(12_500_000, Wrap64(100)) == 8_000
    ensures ScaleNs(12_500_000, 200) == 16_000
    ensures ScaleNs(12_500_000, Wrap64(100 - 200)) == 1_475_739_517_896
  {
  }

  /** An accumulator that started with stamp `from` and has been brought to stamp `to`. */
  predicate Brought(a: Accumulator, from: Word, to: Word) {
    && a.clockSet && a.first == 80 * from > 0 && a.clock.lastU32 == to && a.clock.timestamp == 80 * to
    && (from < to ==> a.last == 80 * to && Elapsed(a) == 80 * (to - from))
  }

  lemma FirstBrought(k: Config, h: seq<Item>, i: nat)
    requires ValidConfig(k) && Ticking(k, h) && i < 2
    ensures Brought(Init(k.freq, h[i].report), h[i].report[1], h[i].report[1])
  {
    Scaled();
  }

  lemma PairBrought(k: Config, h: seq<Item>, i: nat, a: Accumulator, from: Word)
    requires ValidConfig(k) && Ticking(k, h) && 0 < i < 3 && WellFormed(a) && from <= 200
    requires Brought(a, from, h[i - 1].report[1])
    ensures UsablePair(h, i) && Brought(AddPair(k, h, i, a), from, h[i].report[1])
  {
    hide AddDeltas, ScaleNs;
    Scaled();
  }

  /** Windows and segments of such a run close once they take longer than the aggregation period. */
  lemma WindowBrought(k: Config, h: seq<Item>)
    requires ValidConfig(k) && Ticking(k, h) && k.aggregationPeriod >= 8_000
    ensures WindowStart(k, h, 2) == 0 && Windows(k, h, 2) == []
    ensures if k.aggregationPeriod >= 16_000 then WindowStart(k, h, 3) == 0
            else
              Windows(k, h, 3) == [Span(0, 2)]
  {
    hide Init, AddPair, Brought, Elapsed;
    FirstBrought(k, h, 0);
    var a := WindowAcc(k, h, 0, 1);
    PairBrought(k, h, 1, a, 100);
    PairBrought(k, h, 2, AddPair(k, h, 1, a), 100);
    assert WindowAcc(k, h, 0, 2) == AddPair(k, h, 1, a);
    assert WindowAcc(k, h, 0, 3) == AddPair(k, h, 2, WindowAcc(k, h, 0, 2));
    Times(WindowAcc(k, h, 0, 2), 100, 200);
    Times(WindowAcc(k, h, 0, 3), 100, 300);
    assert WindowStart(k, h, 1) == 0 && Windows(k, h, 1) == [];
  }

  lemma Times(a: Accumulator, from: Word, to: Word)
    requires Brought(a, from, to) && from < to
    ensures Elapsed(a) == 80 * (to - from) && a.last == 80 * to
  {
  }

  lemma LateSegment(k: Config, h: seq<Item>)
    requires ValidConfig(k) && Ticking(k, h) && k.aggregationPeriod >= 16_000
    requires h[0].hwId == INVALID_CTX_ID && h[1].hwId == h[2].hwId == 7
    ensures Timeline(k, h, 2) == [] && SegmentStart(k, h, 2) == None && SegmentStart(k, h, 3) == Some(1)
    ensures Born(k, h, 7, 3) == Some(2)
  {
    hide Init, AddPair, Brought, Elapsed;
    FirstBrought(k, h, 1);
    var a := SegmentAcc(k, h, 1, 2);
    PairBrought(k, h, 2, a, 200);
    assert SegmentAcc(k, h, 1, 3) == AddPair(k, h, 2, a);
    Times(SegmentAcc(k, h, 1, 3), 200, 300);
    assert SegmentStart(k, h, 1) == None && Opened(k, h, 1) == None;
    assert Opened(k, h, 2) == Some(1);
    assert Timeline(k, h, 1) == [];
    assert !HasSegment(h, [], 7) && !Present(k, h, 2, 7);
  }

  /** A window that starts without a context; the one that appears with the third record gets, for its part
      of that window, a start almost 25 minutes late. */
  lemma LateContextStart(k: Config) returns (c: ContextId)
    requires ValidConfig(k) && k.gen >= 9 && !k.cpuTimestamps && k.freq == 12_500_000 && k.aggregationPeriod >= 16_000
    ensures Run(k, InitialState(k), RunOf(SampleWith(0, 100, 0))).Some?
    ensures var s, h := Run(k, InitialState(k), RunOf(SampleWith(0, 100, 0))).value,
                        HistoryOf(k, RunOf(SampleWith(0, 100, 0)));
            && |h| == 3 && Born(k, h, 7, 3) == Some(2) && WindowStart(k, h, 3) == 0
            && c in s.contexts && s.contexts[c].hwId == 7 && s.contexts[c].current.Some? && s.currentGraph.Some?
            && s.contexts[c].current.value in s.samples && s.currentGraph.value in s.samples
            && (var start, global := s.samples[s.contexts[c].current.value].timestampStart,
                                     s.samples[s.currentGraph.value].timestampStart;
                start == Wrap64(global + 1_475_739_525_896) && start != global)
  {
    hide Good, Run, Hist, HistoryOf, Ticking, WindowStart, Windows, Timeline, SegmentStart, Born, Wrap64, CtxId;
    var events := RunOf(SampleWith(0, 100, 0));
    RunHistory(k, SampleWith(0, 100, 0));
    NoContext(k.gen, ReportWith(0, 100, 0));
    EveryRunKeepsToHistory(k, events);
    var s, h := Run(k, InitialState(k), events).value, HistoryOf(k, events);
    WindowBrought(k, h);
    LateSegment(k, h);
    c := LateContext(k, s, h);
    LateIs(k, h);
  }

  lemma LateContext(k: Config, s: State, h: seq<Item>) returns (c: ContextId)
    requires ValidConfig(k) && Good(s, multiset{}) && Hist(k, s, h)
    requires |h| == 3 && WindowStart(k, h, 3) == 0 && Born(k, h, 7, 3) == Some(2)
    ensures c in s.contexts && s.contexts[c].hwId == 7 && s.contexts[c].current.Some? && s.currentGraph.Some?
    ensures s.contexts[c].current.value in s.samples && s.currentGraph.value in s.samples
    ensures s.samples[s.contexts[c].current.value].timestampStart == ContextStart(k, h, 2, 0)
    ensures s.samples[s.currentGraph.value].timestampStart == h[0].time
  {
    hide Good, Hist, SegmentPart, WindowStart, Born, ContextStart, Present, SegmentStart;
    HistIs(k, s, h);
    GraphIsOpen(k, s, h);
    c := PresentIsContext(k, s, h, 7);
    var birth := OpenStart(k, s, h, c, multiset{});
  }

  lemma NoContext(gen: nat, r: Report)
    requires gen >= 9 && r[0] == 0
    ensures CtxId(gen, r) == INVALID_CTX_ID
  {
  }

  lemma GraphIsOpen(k: Config, s: State, h: seq<Item>)
    requires ValidConfig(k) && Hist(k, s, h)
    ensures s.currentGraph.Some? <==> WindowStart(k, h, |h|) < |h|
  {
  }

  lemma LateIs(k: Config, h: seq<Item>)
    requires ValidConfig(k) && Ticking(k, h) && h[1].time == Wrap64(h[0].time + 8_000)
    requires h[0].time == Wrap64(k.visiblePeriod)
    ensures ContextStart(k, h, 2, 0) == Wrap64(h[0].time + 1_475_739_525_896) != h[0].time
  {
    Scaled();
  }

  lemma EarlySegment(k: Config, h: seq<Item>)
    requires ValidConfig(k) && Ticking(k, h) && 8_000 <= k.aggregationPeriod < 16_000
    requires forall i :: 0 <= i < 3 ==> h[i].hwId == 7
    ensures Timeline(k, h, 3) == [Span(0, 2)] && Present(k, h, 3, 7) && Born(k, h, 7, 3) == Some(1)
    ensures Attributed(k, h, 1) == Attributed(k, h, 2) == Some(7)
  {
    hide Init, AddPair, Brought, Elapsed;
    FirstBrought(k, h, 0);
    var a := SegmentAcc(k, h, 0, 1);
    PairBrought(k, h, 1, a, 100);
    PairBrought(k, h, 2, AddPair(k, h, 1, a), 100);
    assert SegmentAcc(k, h, 0, 2) == AddPair(k, h, 1, a);
    assert SegmentAcc(k, h, 0, 3) == AddPair(k, h, 2, SegmentAcc(k, h, 0, 2));
    Times(SegmentAcc(k, h, 0, 2), 100, 200);
    Times(SegmentAcc(k, h, 0, 3), 100, 300);
    assert SegmentStart(k, h, 1) == None && Opened(k, h, 1) == Some(0) && SegmentStart(k, h, 2) == Some(0);
    assert Timeline(k, h, 1) == [] && Timeline(k, h, 2) == [] && Visible(k, h, [], h[2].time) == [];
    assert HasSegment(h, [Span(0, 2)], 7) by { assert [Span(0, 2)][0].first == 0; }
    assert !HasSegment(h, [], 7) && !Present(k, h, 1, 7) && Present(k, h, 2, 7);
    assert Born(k, h, 7, 2) == Some(1);
  }

  lemma EarlyTotals(k: Config, h: seq<Item>)
    requires ValidConfig(k) && Ticking(k, h) && Attributed(k, h, 1) == Attributed(k, h, 2) == Some(7)
    ensures ContextAcc(k, h, 7, 1, 0, 3).last == 24_000
  {
    hide Init, AddPair, Brought, Attributed;
    FirstBrought(k, h, 0);
    var a := ContextAcc(k, h, 7, 1, 0, 1);
    PairBrought(k, h, 1, a, 100);
    PairBrought(k, h, 2, AddPair(k, h, 1, a), 100);
    assert ContextAcc(k, h, 7, 1, 0, 2) == AddPair(k, h, 1, a);
    assert ContextAcc(k, h, 7, 1, 0, 3) == AddPair(k, h, 2, AddPair(k, h, 1, a));
    Times(ContextAcc(k, h, 7, 1, 0, 3), 100, 300);
  }

  /** A context that runs all the time: its window lies at the right place with its start, and ends at 24
      microseconds, before it has started. */
  lemma EndsBeforeItStarts(k: Config) returns (c: ContextId)
    requires ValidConfig(k) && k.gen >= 9 && !k.cpuTimestamps && k.freq == 12_500_000
    requires 8_000 <= k.aggregationPeriod < 16_000 && 24_000 < k.visiblePeriod < U64
    ensures Run(k, InitialState(k), RunOf(SampleOf(100, 7))).Some?
    ensures var s := Run(k, InitialState(k), RunOf(SampleOf(100, 7))).value;
            && c in s.contexts && s.contexts[c].hwId == 7 && |s.contexts[c].graphs| == 1
            && s.contexts[c].graphs[0] in s.samples
            && (var m := s.samples[s.contexts[c].graphs[0]];
                m.timestampStart == k.visiblePeriod && m.timestampEnd == 24_000 < m.timestampStart)
  {
    hide Good, Run, Hist, HistoryOf, Ticking, Windows, WindowStart, Timeline, Present, Born, Wrap64, CtxId, ContextAcc,
         Attributed;
    var events := RunOf(SampleOf(100, 7));
    RunHistory(k, SampleOf(100, 7));
    HasContext(k.gen, ReportWith(0x1_0000, 100, 7));
    EveryRunKeepsToHistory(k, events);
    var s, h := Run(k, InitialState(k), events).value, HistoryOf(k, events);
    WindowBrought(k, h);
    EarlySegment(k, h);
    EarlyTotals(k, h);
    c := OnlyWindow(k, s, h);
    WrapSmall(k.visiblePeriod);
    AtBirth(k, h);
  }

  lemma HasContext(gen: nat, r: Report)
    requires gen >= 9 && r[0] == 0x1_0000
    ensures CtxId(gen, r) == r[2]
  {
  }

  lemma AtBirth(k: Config, h: seq<Item>)
    requires ValidConfig(k) && |h| > 0 && h[0].time == Wrap64(k.visiblePeriod)
    ensures ContextStart(k, h, 1, 0) == h[0].time
  {
    hide ScaleNs;
    assert ScaleNs(k.freq, Wrap64(0)) == 0 by { NoTimeAtAll(k.freq); }
    WrapTwice(k.visiblePeriod);
  }

  lemma OnlyWindow(k: Config, s: State, h: seq<Item>) returns (c: ContextId)
    requires ValidConfig(k) && Good(s, multiset{}) && Hist(k, s, h) && !k.cpuTimestamps
    requires |h| == 3 && Windows(k, h, 3) == [Span(0, 2)] && Present(k, h, 3, 7) && Born(k, h, 7, 3) == Some(1)
    ensures c in s.contexts && s.contexts[c].hwId == 7 && |s.contexts[c].graphs| == 1
    ensures s.contexts[c].graphs[0] in s.samples
    ensures var m := s.samples[s.contexts[c].graphs[0]];
            m.timestampStart == ContextStart(k, h, 1, 0) && m.timestampEnd == ContextAcc(k, h, 7, 1, 0, 3).last
  {
    hide Good, Hist, SegmentPart, Windows, Born, ContextStart, ContextAcc, Present, SegmentStart;
    HistIs(k, s, h);
    c := PresentIsContext(k, s, h, 7);
    ListedCount(k, s, h, c);
    assert Since([Span(0, 2)], 1) == 1;
    var birth, w := ListedWindow(k, s, h, c, 0);
  }

  lemma ListedCount(k: Config, s: State, h: seq<Item>, c: ContextId)
    requires ValidConfig(k) && Hist(k, s, h) && c in s.contexts && Born(k, h, s.contexts[c].hwId, |h|).Some?
    ensures |s.contexts[c].graphs|
         == AtMost(Since(Windows(k, h, |h|), Born(k, h, s.contexts[c].hwId, |h|).value), k.maxGraphs + 1)
  {
    hide GraphPart, SegmentPart, OpenContextWindow, AllFaithful, StandsAt, Restamps, IsContextWindow, WindowStart,
         SegmentStart, Windows, Present;
    assert ContextPart(k, s, h, |h|, |h|, BirthsOf(k, s, h), c);
  }
}
