/** Iterating over the records of a sample (lib/gputop-client-context.h), which goes by the chunk list
    and by the pointer to the sample's last record.
 */
module RecordIterator {
  import opened Common
  import opened OaCounters
  import opened ClientState
  import opened ClientInvariants
  import opened ClientSteps
  import opened Segmentation
  import opened ClientHistory
  import opened ClientRuns

  // ---------------------------------------------------------------- the stream of listed records

  type Store = map<ChunkId, Chunk>

  function RefsOf(chunks: Store, c: ChunkId): (l: seq<Ref>)
    requires c in chunks
    ensures |l| == |chunks[c].data| && forall i :: 0 <= i < |l| ==> l[i] == Ref(c, i)
  {
    seq(|chunks[c].data|, i requires 0 <= i => Ref(c, i))
  }

  /** Chunks are listed in the order in which they came; none is empty. */
  ghost predicate Walkable(chunks: Store, list: seq<ChunkId>) {
    Ascending(list) && forall c :: c in list ==> c in chunks && chunks[c].data != []
  }

  /** All records of listed chunks. */
  function Stream(chunks: Store, list: seq<ChunkId>): seq<Ref>
    requires forall c :: c in list ==> c in chunks
  {
    if list == [] then [] else RefsOf(chunks, list[0]) + Stream(chunks, list[1..])
  }

  predicate IsListed(chunks: Store, list: seq<ChunkId>, r: Ref) {
    r.chunk in list && r.chunk in chunks && r.idx < |chunks[r.chunk].data|
  }

  /** r comes before e in the order of arrival. */
  predicate Before(r: Ref, e: Ref) {
    r.chunk < e.chunk || (r.chunk == e.chunk && r.idx < e.idx)
  }

  /** The listed records after r. */
  function After(chunks: Store, list: seq<ChunkId>, r: Ref): seq<Ref>
    requires forall c :: c in list ==> c in chunks
    requires IsListed(chunks, list, r)
  {
    if list[0] == r.chunk then RefsOf(chunks, r.chunk)[r.idx + 1..] + Stream(chunks, list[1..])
    else After(chunks, list[1..], r)
  }

  /** The next chunk in the list; at the last one there is only the list head. */
  function NextIn(list: seq<ChunkId>, c: ChunkId): Option<ChunkId> {
    if list == [] then None
    else if list[0] != c then NextIn(list[1..], c)
    else if |list| > 1 then Some(list[1]) else None
  }

  /** l up to the first e, which is included. */
  function UpTo(l: seq<Ref>, e: Option<Ref>): (u: seq<Ref>)
    ensures u <= l
  {
    if l == [] then [] else if Some(l[0]) == e then [l[0]] else [l[0]] + UpTo(l[1..], e)
  }

  lemma {:induction false} UpToFound(l: seq<Ref>, e: Ref) returns (q: nat)
    requires e in l
    ensures q < |l| && l[q] == e && e !in l[..q] && UpTo(l, Some(e)) == l[..q + 1]
  {
    if l[0] == e {
      q := 0;
    } else {
      var p := UpToFound(l[1..], e);
      q := p + 1;
      assert l[1..][..p] == l[1..q] && l[1..][..p + 1] == l[1..q + 1];
      assert l[..q] == [l[0]] + l[1..q] && l[..q + 1] == [l[0]] + l[1..q + 1];
    }
  }

  lemma {:induction false} UpToMissing(l: seq<Ref>, e: Option<Ref>)
    requires e.None? || e.value !in l
    ensures UpTo(l, e) == l
  {
    if l != [] {
      assert l[0] in l;
      UpToMissing(l[1..], e);
    }
  }

  lemma {:induction false} UpToPrefix(l: seq<Ref>, m: seq<Ref>, e: Ref)
    requires e in l
    ensures UpTo(l + m, Some(e)) == UpTo(l, Some(e))
  {
    assert (l + m)[0] == l[0] && (l + m)[1..] == l[1..] + m;
    if l[0] != e {
      UpToPrefix(l[1..], m, e);
    }
  }

  // ---------------------------------------------------------------- where the walk leads

  lemma {:induction false} AfterSame(chunks: Store, list: seq<ChunkId>, r: Ref)
    requires Walkable(chunks, list) && IsListed(chunks, list, r) && r.idx + 1 < |chunks[r.chunk].data|
    ensures IsListed(chunks, list, Ref(r.chunk, r.idx + 1))
    ensures After(chunks, list, r) == [Ref(r.chunk, r.idx + 1)] + After(chunks, list, Ref(r.chunk, r.idx + 1))
  {
    hide Ascending, RefsOf, Stream;
    if list[0] != r.chunk {
      WalkOn(chunks, list);
      AfterSame(chunks, list[1..], r);
    } else {
      var l := RefsOf(chunks, r.chunk);
      assert l[r.idx + 1..] == [l[r.idx + 1]] + l[r.idx + 2..];
      assert l[r.idx + 1..] + Stream(chunks, list[1..])
           == [l[r.idx + 1]] + (l[r.idx + 2..] + Stream(chunks, list[1..]));
    }
  }

  lemma WalkOn(chunks: Store, list: seq<ChunkId>)
    requires Walkable(chunks, list) && list != []
    ensures Walkable(chunks, list[1..])
  {
  }

  lemma {:induction false} AfterNext(chunks: Store, list: seq<ChunkId>, r: Ref)
    requires Walkable(chunks, list) && IsListed(chunks, list, r) && r.idx + 1 == |chunks[r.chunk].data|
    ensures NextIn(list, r.chunk).None? ==> After(chunks, list, r) == []
    ensures NextIn(list, r.chunk).Some? ==>
              var d := Ref(NextIn(list, r.chunk).value, 0);
              IsListed(chunks, list, d) && After(chunks, list, r) == [d] + After(chunks, list, d)
  {
    if list[0] != r.chunk {
      AfterNext(chunks, list[1..], r);
      if NextIn(list, r.chunk).Some? {
        NextIsLater(list, r.chunk);
      }
    } else if |list| > 1 {
      assert list[1] in list && list[1] != r.chunk;
      var l := RefsOf(chunks, list[1]);
      assert l == [l[0]] + l[1..];
      assert RefsOf(chunks, r.chunk)[r.idx + 1..] == [];
      assert list[1..][1..] == list[2..];
    }
  }

  lemma {:induction false} NextIsLater(list: seq<ChunkId>, c: ChunkId)
    requires Ascending(list) && NextIn(list, c).Some?
    ensures NextIn(list, c).value in list && NextIn(list, c).value > list[0]
  {
    if list[0] != c {
      NextIsLater(list[1..], c);
      assert list[1] > list[0];
    }
  }

  /** The stream falls into what precedes r, r, and what comes after. */
  lemma {:induction false} StreamSplits(chunks: Store, list: seq<ChunkId>, r: Ref) returns (p: nat)
    requires Walkable(chunks, list) && IsListed(chunks, list, r)
    ensures p < |Stream(chunks, list)| && Stream(chunks, list)[p] == r
    ensures Stream(chunks, list)[p + 1..] == After(chunks, list, r)
  {
    var l := RefsOf(chunks, list[0]);
    var rest := Stream(chunks, list[1..]);
    if list[0] == r.chunk {
      p := r.idx;
      assert (l + rest)[p + 1..] == l[p + 1..] + rest;
    } else {
      p := StreamSplits(chunks, list[1..], r);
      p := |l| + p;
      assert (l + rest)[p + 1..] == rest[p - |l| + 1..];
    }
  }

  lemma {:induction false} StreamHolds(chunks: Store, list: seq<ChunkId>, e: Ref)
    requires Walkable(chunks, list)
    ensures e in Stream(chunks, list) <==> IsListed(chunks, list, e)
  {
    if list != [] {
      StreamHolds(chunks, list[1..], e);
      var l := RefsOf(chunks, list[0]);
      if e.chunk == list[0] && IsListed(chunks, list, e) {
        assert l[e.idx] == e;
      }
    }
  }

  /** What comes after r is what is listed and younger. */
  lemma {:induction false} AfterIsLater(chunks: Store, list: seq<ChunkId>, r: Ref, e: Ref)
    requires Walkable(chunks, list) && IsListed(chunks, list, r) && IsListed(chunks, list, e)
    ensures e in After(chunks, list, r) <==> Before(r, e)
  {
    var l := RefsOf(chunks, list[0]);
    if list[0] == r.chunk {
      StreamHolds(chunks, list[1..], e);
      if e.chunk == r.chunk {
        assert e.chunk !in list[1..];
        if r.idx < e.idx {
          assert l[r.idx + 1..][e.idx - r.idx - 1] == e;
        }
      } else {
        assert list[0] < e.chunk;
      }
    } else {
      assert r.chunk in list[1..] && list[0] < r.chunk;
      if e.chunk == list[0] {
        if e in After(chunks, list[1..], r) { AfterListed(chunks, list[1..], r, e); }
      } else {
        AfterIsLater(chunks, list[1..], r, e);
      }
    }
  }

  lemma {:induction false} AfterListed(chunks: Store, list: seq<ChunkId>, r: Ref, e: Ref)
    requires Walkable(chunks, list) && IsListed(chunks, list, r) && e in After(chunks, list, r)
    ensures e.chunk in list
  {
    if list[0] == r.chunk {
      StreamHolds(chunks, list[1..], e);
    } else {
      AfterListed(chunks, list[1..], r, e);
    }
  }

  // ---------------------------------------------------------------- the iterator

  /** The walk leaves the first chunk only for a sample that ends in another one. */
  predicate StaysInChunk(m: AccumulatedSamples) {
    m.end.None? || m.start.chunk == m.end.value.chunk
  }

  /** What the iterator still yields when it stands at r. */
  function Remaining(chunks: Store, list: seq<ChunkId>, m: AccumulatedSamples, r: Ref): seq<Ref>
    requires forall c :: c in list ==> c in chunks
    requires IsListed(chunks, list, r)
  {
    UpTo(if StaysInChunk(m) then RefsOf(chunks, r.chunk)[r.idx + 1..] else After(chunks, list, r), m.end)
  }

  ghost predicate Iterable(chunks: Store, list: seq<ChunkId>, m: AccumulatedSamples) {
    && Walkable(chunks, list) && IsListed(chunks, list, m.start)
    && (m.end.Some? ==> IsListed(chunks, list, m.end.value) && (m.end.value == m.start || Before(m.start, m.end.value)))
  }

  /** d is what comes after r. */
  predicate Follows(chunks: Store, list: seq<ChunkId>, m: AccumulatedSamples, r: Ref, d: Ref)
    requires forall c :: c in list ==> c in chunks
    requires IsListed(chunks, list, r)
  {
    && IsListed(chunks, list, d)
    && Remaining(chunks, list, m, r) == [d] + (if Some(d) == m.end then [] else Remaining(chunks, list, m, d))
    && (!StaysInChunk(m) && Some(d) != m.end ==> m.end.value in After(chunks, list, d))
  }

  lemma RemainingSame(chunks: Store, list: seq<ChunkId>, m: AccumulatedSamples, r: Ref)
    requires Iterable(chunks, list, m) && IsListed(chunks, list, r) && r.idx + 1 < |chunks[r.chunk].data|
    requires !StaysInChunk(m) ==> m.end.value in After(chunks, list, r)
    ensures Follows(chunks, list, m, r, Ref(r.chunk, r.idx + 1))
  {
    hide Ascending, After, UpTo, Stream;
    AfterSame(chunks, list, r);
    var l, d := RefsOf(chunks, r.chunk), Ref(r.chunk, r.idx + 1);
    assert l[r.idx + 1..] == [d] + l[r.idx + 2..];
    UpToMore(d, if StaysInChunk(m) then l[r.idx + 2..] else After(chunks, list, d), m.end);
  }

  lemma RemainingNext(chunks: Store, list: seq<ChunkId>, m: AccumulatedSamples, r: Ref)
    requires Iterable(chunks, list, m) && IsListed(chunks, list, r) && r.idx + 1 == |chunks[r.chunk].data|
    requires !StaysInChunk(m) ==> m.end.value in After(chunks, list, r)
    ensures if StaysInChunk(m) then Remaining(chunks, list, m, r) == []
            else NextIn(list, r.chunk).Some? && Follows(chunks, list, m, r, Ref(NextIn(list, r.chunk).value, 0))
  {
    hide Ascending, After, NextIn;
    AfterNext(chunks, list, r);
    if !StaysInChunk(m) {
      hide UpTo;
      var d := Ref(NextIn(list, r.chunk).value, 0);
      UpToMore(d, After(chunks, list, d), m.end);
    }
  }

  lemma UpToMore(x: Ref, l: seq<Ref>, e: Option<Ref>)
    ensures UpTo([x] + l, e) == [x] + if Some(x) == e then [] else UpTo(l, e)
  {
    assert ([x] + l)[1..] == l;
  }

  class Iterator {
    const sample: AccumulatedSamples
    var header: Option<Ref>
    var done: bool

    constructor (sample: AccumulatedSamples)
      ensures this.sample == sample && header.None? && !done
    {
      this.sample, header, done := sample, None, false;
    }

    ghost predicate Valid(chunks: Store, list: seq<ChunkId>)
      reads this
    {
      && Iterable(chunks, list, sample)
      && (header.Some? && !done ==>
            && IsListed(chunks, list, header.value)
            && (!StaysInChunk(sample) ==> sample.end.value in After(chunks, list, header.value)))
    }

    ghost function Rest(chunks: Store, list: seq<ChunkId>): seq<Ref>
      requires Valid(chunks, list)
      reads this
    {
      if done then []
      else if header.None? then [sample.start] + Remaining(chunks, list, sample, sample.start)
      else Remaining(chunks, list, sample, header.value)
    }

    method Next(chunks: Store, list: seq<ChunkId>) returns (ok: bool)
      requires Valid(chunks, list)
      modifies this
      ensures Valid(chunks, list)
      ensures ok <==> old(Rest(chunks, list)) != []
      ensures ok ==> header == Some(old(Rest(chunks, list))[0]) && Rest(chunks, list) == old(Rest(chunks, list))[1..]
      ensures !ok ==> Rest(chunks, list) == []
    {
      hide Walkable, After, Remaining, NextIn;
      if done {
        return false;
      }
      if header.None? {
        header := Some(sample.start);
        if !StaysInChunk(sample) {
          AfterIsLater(chunks, list, sample.start, sample.end.value);
        }
        return true;
      }
      var r := header.value;
      if r.idx + 1 < |chunks[r.chunk].data| {
        RemainingSame(chunks, list, sample, r);
        header := Some(Ref(r.chunk, r.idx + 1));
        done := header == sample.end;
        return true;
      }
      RemainingNext(chunks, list, sample, r);
      if sample.end.None? || sample.start.chunk == sample.end.value.chunk {
        done := true;
        return false;
      }
      header := Some(Ref(NextIn(list, r.chunk).value, 0));
      done := header == sample.end;
      return true;
    }
  }

  /** All that a caller sees who iterates until there is no more. */
  method Collect(chunks: Store, list: seq<ChunkId>, m: AccumulatedSamples) returns (l: seq<Ref>)
    requires Iterable(chunks, list, m)
    ensures l == [m.start] + Remaining(chunks, list, m, m.start)
  {
    hide Iterable, Remaining, IsListed, After, Stream, UpTo, RefsOf, Walkable, StaysInChunk;
    var iter := new Iterator(m);
    l := [];
    ghost var all := iter.Rest(chunks, list);
    ghost var left := all;
    var more := iter.Next(chunks, list);
    while more
      invariant iter.Valid(chunks, list) && iter.sample == m && fresh(iter)
      invariant l + left == all && (more <==> left != [])
      invariant more ==> iter.header == Some(left[0]) && iter.Rest(chunks, list) == left[1..]
      decreases |left|
    {
      TakeFirst(l, left);
      l, left := l + [iter.header.value], left[1..];
      more := iter.Next(chunks, list);
    }
  }

  lemma TakeFirst(l: seq<Ref>, left: seq<Ref>)
    requires left != []
    ensures (l + [left[0]]) + left[1..] == l + left
  {
  }

  // ---------------------------------------------------------------- what the iterator should yield

  /** The first place of x in l. */
  function Index(l: seq<Ref>, x: Ref): (i: nat)
    requires x in l
    ensures i < |l| && l[i] == x && x !in l[..i]
  {
    if l[0] == x then 0 else 1 + Index(l[1..], x)
  }

  lemma {:induction false} IndexIs(l: seq<Ref>, x: Ref, p: nat)
    requires p < |l| && l[p] == x && x !in l[..p]
    ensures x in l && Index(l, x) == p
  {
    if p > 0 {
      assert l[..p] == [l[0]] + l[1..p] && l[1..][..p - 1] == l[1..p];
      IndexIs(l[1..], x, p - 1);
    }
  }

  /** The listed records from start to end. */
  function Between(chunks: Store, list: seq<ChunkId>, start: Ref, end: Ref): seq<Ref>
    requires forall c :: c in list ==> c in chunks
    requires start in Stream(chunks, list) && end in Stream(chunks, list)
  {
    var l := Stream(chunks, list);
    if Index(l, start) <= Index(l, end) then l[Index(l, start)..Index(l, end) + 1] else []
  }

  predicate LastInChunk(chunks: Store, r: Ref) {
    r.chunk in chunks && r.idx + 1 == |chunks[r.chunk].data|
  }

  lemma NoneBefore(chunks: Store, list: seq<ChunkId>, r: Ref, p: nat)
    requires Walkable(chunks, list) && IsListed(chunks, list, r)
    requires p < |Stream(chunks, list)| && Stream(chunks, list)[p] == r
    ensures r !in Stream(chunks, list)[..p]
  {
    var l := Stream(chunks, list);
    if r in l[..p] {
      var i :| 0 <= i < p && l[..p][i] == r;
      StreamAscends(chunks, list, i, p);
    }
  }

  lemma {:induction false} StreamAscends(chunks: Store, list: seq<ChunkId>, i: nat, j: nat)
    requires Walkable(chunks, list) && i < j < |Stream(chunks, list)|
    ensures Before(Stream(chunks, list)[i], Stream(chunks, list)[j])
  {
    var l, rest := RefsOf(chunks, list[0]), Stream(chunks, list[1..]);
    if i >= |l| {
      StreamAscends(chunks, list[1..], i - |l|, j - |l|);
    } else if j >= |l| {
      assert rest[j - |l|] in rest;
      StreamHolds(chunks, list[1..], rest[j - |l|]);
    }
  }

  /** For a finished sample the iterator yields exactly the listed records from its start to its end, once
      each and in order, if and only if these are two different records or there is nothing more in the
      chunk: the check for the end comes too late for a sample of a single record. */
  lemma IterationExact(chunks: Store, list: seq<ChunkId>, m: AccumulatedSamples)
    requires Iterable(chunks, list, m) && m.end.Some?
    ensures m.start in Stream(chunks, list) && m.end.value in Stream(chunks, list)
    ensures [m.start] + Remaining(chunks, list, m, m.start) == Between(chunks, list, m.start, m.end.value)
       <==> (m.start != m.end.value || LastInChunk(chunks, m.start))
  {
    hide Ascending, IsListed, After, Stream, Remaining, UpTo, Index;
    var start, end := m.start, m.end.value;
    var all := Stream(chunks, list);
    StreamHolds(chunks, list, start);
    StreamHolds(chunks, list, end);
    var p := StreamSplits(chunks, list, start);
    NoneBefore(chunks, list, start, p);
    IndexIs(all, start, p);
    if start == end {
      OneRecord(chunks, list, m);
      assert all[p..p + 1] == [start];
    } else {
      AfterIsLater(chunks, list, start, end);
      var after := After(chunks, list, start);
      var q := UpToFound(after, end);
      EndInReach(chunks, list, m);
      assert all[p + 1 + q] == all[p + 1..][q] == end;
      NoneBefore(chunks, list, end, p + 1 + q);
      IndexIs(all, end, p + 1 + q);
      assert all[p..p + q + 2] == [start] + all[p + 1..][..q + 1];
    }
  }

  lemma OneRecord(chunks: Store, list: seq<ChunkId>, m: AccumulatedSamples)
    requires Iterable(chunks, list, m) && m.end == Some(m.start)
    ensures Remaining(chunks, list, m, m.start) == [] <==> LastInChunk(chunks, m.start)
  {
    var l := RefsOf(chunks, m.start.chunk)[m.start.idx + 1..];
    UpToMissing(l, m.end);
  }

  lemma EndInReach(chunks: Store, list: seq<ChunkId>, m: AccumulatedSamples)
    requires Iterable(chunks, list, m) && m.end.Some? && Before(m.start, m.end.value)
    ensures Remaining(chunks, list, m, m.start) == UpTo(After(chunks, list, m.start), m.end)
  {
    hide After, UpTo, Walkable, IsListed;
    if StaysInChunk(m) {
      EndIsIn(chunks, list, m);
      AfterStarts(chunks, list, m.start, m.end.value);
    }
  }

  lemma EndIsIn(chunks: Store, list: seq<ChunkId>, m: AccumulatedSamples)
    requires Iterable(chunks, list, m) && m.end.Some? && Before(m.start, m.end.value) && StaysInChunk(m)
    ensures m.end.value in RefsOf(chunks, m.start.chunk)[m.start.idx + 1..]
  {
    hide Walkable;
    var l := RefsOf(chunks, m.start.chunk)[m.start.idx + 1..];
    assert l[m.end.value.idx - m.start.idx - 1] == m.end.value;
  }

  lemma {:induction false} AfterStarts(chunks: Store, list: seq<ChunkId>, r: Ref, e: Ref)
    requires Walkable(chunks, list) && IsListed(chunks, list, r) && e in RefsOf(chunks, r.chunk)[r.idx + 1..]
    ensures UpTo(After(chunks, list, r), Some(e)) == UpTo(RefsOf(chunks, r.chunk)[r.idx + 1..], Some(e))
  {
    hide UpTo, RefsOf, Stream;
    if list[0] == r.chunk {
      UpToPrefix(RefsOf(chunks, r.chunk)[r.idx + 1..], Stream(chunks, list[1..]), e);
    } else {
      WalkOn(chunks, list);
      AfterStarts(chunks, list[1..], r, e);
    }
  }

  // ---------------------------------------------------------------- samples of a client

  lemma Referenced(s: State, c: ChunkId)
    requires Mem(s, multiset{}) && Points(s) && c in s.chunks
    ensures s.chunks[c].data != []
  {
    hide Listed, Ascending;
    assert Count(s.chunks, c) == RefCount(s.samples, c) + LastRef(s.last, c) + multiset{}[c];
    if LastRef(s.last, c) == 0 {
      if StartSet(s.samples, c) != {} {
        var id :| id in StartSet(s.samples, c);
        assert Sound(s.chunks, s.samples[id]);
      } else {
        assert EndSet(s.samples, c) != {};
        var id :| id in EndSet(s.samples, c);
        assert Sound(s.chunks, s.samples[id]);
      }
    }
  }

  /** Between two messages every listed chunk holds records. */
  lemma ListIsWalkable(s: State)
    requires Good(s, multiset{})
    ensures Walkable(s.chunks, s.chunkList)
    ensures forall id :: id in s.samples ==>
              && IsListed(s.chunks, s.chunkList, s.samples[id].start)
              && (s.samples[id].end.Some? ==> IsListed(s.chunks, s.chunkList, s.samples[id].end.value))
  {
    hide Placed, Tabled, Rows, Counted, Filed, Allocated, Synced, Ascending;
    forall c | c in s.chunkList ensures c in s.chunks && s.chunks[c].data != [] {
      Referenced(s, c);
    }
    forall id | id in s.samples
      ensures IsListed(s.chunks, s.chunkList, s.samples[id].start)
      ensures s.samples[id].end.Some? ==> IsListed(s.chunks, s.chunkList, s.samples[id].end.value)
    {
      assert Sound(s.chunks, s.samples[id]);
    }
  }

  /** Records come in the order of their places. */
  ghost predicate InPlace(h: seq<Item>, c: ChunkId, i: nat) {
    && (forall a, b :: 0 <= a < b < |h| ==> Before(h[a].ref, h[b].ref))
    && (forall a :: 0 <= a < |h| ==> Before(h[a].ref, Ref(c, i)))
  }

  lemma {:induction false} ChunkInPlace(k: Config, h: seq<Item>, c: ChunkId, data: seq<Record>, i: nat)
    requires ValidConfig(k) && i <= |data| && InPlace(h, c, i)
    ensures InPlace(ChunkHistory(k, h, c, data, i), c + 1, 0)
    decreases |data| - i
  {
    hide Stamp, CtxId;
    if i < |data| {
      match data[i]
      case Sample(_, _) => ChunkInPlace(k, Append(k, h, Ref(c, i), data[i]), c, data, i + 1);
      case ReportLost => ChunkInPlace(k, h, c, data, i + 1);
      case BufferLost =>
      case Spurious =>
    }
  }

  lemma {:induction false} HistoryInPlace(k: Config, events: seq<Event>)
    requires ValidConfig(k)
    ensures InPlace(HistoryOf(k, events), Chunks(events), 0)
  {
    hide ChunkHistory;
    if events != [] {
      var before := events[..|events| - 1];
      HistoryInPlace(k, before);
      if events[|events| - 1].Data? {
        ChunkInPlace(k, HistoryOf(k, before), Chunks(before), events[|events| - 1].records, 0);
      }
    }
  }

  /** Iterating over sample id is possible and gives exactly its records: those from its start to its end,
      which are two different ones. */
  ghost predicate IteratesOver(s: State, id: SampleId) {
    && id in s.samples && Walkable(s.chunks, s.chunkList) && s.samples[id].end.Some?
    && (var m := s.samples[id];
        && Iterable(s.chunks, s.chunkList, m) && m.start != m.end.value
        && m.start in Stream(s.chunks, s.chunkList) && m.end.value in Stream(s.chunks, s.chunkList)
        && [m.start] + Remaining(s.chunks, s.chunkList, m, m.start)
           == Between(s.chunks, s.chunkList, m.start, m.end.value))
  }

  lemma SpanIterates(k: Config, s: State, h: seq<Item>, c: ChunkId, id: SampleId, w: Span)
    requires Good(s, multiset{}) && InPlace(h, c, 0) && id in s.samples
    requires SpanOf(h, s.samples[id], w) && w.first < w.last
    ensures IteratesOver(s, id)
  {
    hide Good, Walkable, IsListed, Remaining, Between, Stream;
    ListIsWalkable(s);
    var m := s.samples[id];
    assert Before(h[w.first].ref, h[w.last].ref);
    IterationExact(s.chunks, s.chunkList, m);
  }

  /** After any run, iterating over a listed segment gives exactly its records. */
  lemma SegmentIterates(k: Config, events: seq<Event>, j: nat)
    requires ValidConfig(k)
    ensures Run(k, InitialState(k), events).Some?
    ensures var s := Run(k, InitialState(k), events).value; j < |s.timelines| ==> IteratesOver(s, s.timelines[j])
  {
    hide Good, Hist, HistoryOf, Timeline, Run, SpanOf, TimesOf, IteratesOver, InPlace;
    EveryRunKeepsToHistory(k, events);
    var s, h := Run(k, InitialState(k), events).value, HistoryOf(k, events);
    if j < |s.timelines| {
      HistSpans(k, s, h);
      SegmentSpans(k, h, j);
      HistoryInPlace(k, events);
      SpanIterates(k, s, h, Chunks(events), s.timelines[j], Timeline(k, h, |h|)[j]);
    }
  }

  /** After any run, so does iterating over a listed global window. */
  lemma WindowIterates(k: Config, events: seq<Event>, j: nat)
    requires ValidConfig(k)
    ensures Run(k, InitialState(k), events).Some?
    ensures var s := Run(k, InitialState(k), events).value; j < |s.graphs| ==> IteratesOver(s, s.graphs[j])
  {
    hide Good, Hist, HistoryOf, Windows, Run, SpanOf, IteratesOver, InPlace;
    EveryRunKeepsToHistory(k, events);
    var s, h := Run(k, InitialState(k), events).value, HistoryOf(k, events);
    if j < |s.graphs| {
      var w := GraphSpan(k, s, h, j);
      HistoryInPlace(k, events);
      SpanIterates(k, s, h, Chunks(events), s.graphs[j], w);
    }
  }

  /** After any run, so does iterating over a listed window of a context. */
  lemma ContextWindowIterates(k: Config, events: seq<Event>, c: ContextId, j: nat)
    requires ValidConfig(k)
    ensures Run(k, InitialState(k), events).Some?
    ensures var s := Run(k, InitialState(k), events).value;
            c in s.contexts && j < |s.contexts[c].graphs| ==> IteratesOver(s, s.contexts[c].graphs[j])
  {
    hide Good, Hist, HistoryOf, Windows, Run, SpanOf, IteratesOver, InPlace;
    EveryRunKeepsToHistory(k, events);
    var s, h := Run(k, InitialState(k), events).value, HistoryOf(k, events);
    if c in s.contexts && j < |s.contexts[c].graphs| {
      var w := ContextSpan(k, s, h, c, j);
      HistoryInPlace(k, events);
      SpanIterates(k, s, h, Chunks(events), s.contexts[c].graphs[j], w);
    }
  }

  lemma GraphSpan(k: Config, s: State, h: seq<Item>, j: nat) returns (w: Span)
    requires ValidConfig(k) && Hist(k, s, h) && j < |s.graphs|
    ensures s.graphs[j] in s.samples && SpanOf(h, s.samples[s.graphs[j]], w) && w.first < w.last
  {
    hide ContextsPart, SegmentPart, OpenGraph, AllFaithful, StandsAt, Restamps, SpanOf, TimesOf, WindowAcc, Windows,
         WindowStart;
    WindowsTile(k, h, |h|);
    w := TailAt(Windows(k, h, |h|), s.graphs, j);
    assert IsWindow(k, h, s.samples[s.graphs[j]], w);
  }

  lemma ContextSpan(k: Config, s: State, h: seq<Item>, c: ContextId, j: nat) returns (w: Span)
    requires ValidConfig(k) && Hist(k, s, h) && c in s.contexts && j < |s.contexts[c].graphs|
    ensures s.contexts[c].graphs[j] in s.samples
    ensures SpanOf(h, s.samples[s.contexts[c].graphs[j]], w) && w.first < w.last
  {
    hide GraphPart, SegmentPart, OpenContextWindow, AllFaithful, StandsAt, Restamps, SpanOf, ContextAcc, Windows,
         WindowStart;
    assert ContextPart(k, s, h, |h|, |h|, BirthsOf(k, s, h), c);
    var x := s.contexts[c];
    WindowsTile(k, h, |h|);
    w := TailAt(Windows(k, h, |h|), x.graphs, j);
    assert IsContextWindow(k, h, x.hwId, BirthsOf(k, s, h)[c], s.samples[x.graphs[j]], w);
  }

  lemma SegmentSpans(k: Config, h: seq<Item>, j: nat)
    requires ValidConfig(k) && j < |Timeline(k, h, |h|)|
    ensures var w := Timeline(k, h, |h|)[j]; w.first < w.last < |h|
  {
    hide Timeline, Segments, Ordered;
    TimelineIsSuffix(k, h, |h|);
    if |h| == 0 {
      NoSegments(k, h);
    } else {
      SegmentsOrdered(k, h, |h|);
      var v := Segments(k, h, |h|);
      SpanInOrder(v, |h| - 1, |v| - |Timeline(k, h, |h|)| + j);
    }
  }
}
