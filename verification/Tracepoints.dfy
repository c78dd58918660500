/** Tracepoint data from all CPUs in one list by time, and in one list per tracepoint
    (add_tracepoint_stream_data in lib/gputop-client-context.c).
 */
module Tracepoints {
  import opened Common

  type TracepointId = nat

  /** A node; `arrival` tells nodes apart that are otherwise alike. */
  datatype Data = Data(tp: TracepointId, cpu: nat, time: nat, arrival: nat)

  // ---------------------------------------------------------------- what the lists should be

  /** By time, and for equal times by arrival: what a stable sort gives. */
  predicate Precedes(a: Data, b: Data) {
    a.time < b.time || (a.time == b.time && a.arrival < b.arrival)
  }

  ghost predicate Sorted(l: seq<Data>) {
    forall i, j :: 0 <= i < j < |l| ==> Precedes(l[i], l[j])
  }

  function Newest(received: seq<Data>): nat {
    if received == [] then 0
    else if received[|received| - 1].time > Newest(received[..|received| - 1]) then received[|received| - 1].time
    else Newest(received[..|received| - 1])
  }

  lemma {:induction false} NewestIsMax(received: seq<Data>)
    ensures forall x :: x in received ==> x.time <= Newest(received)
    ensures received != [] ==> exists x :: x in received && x.time == Newest(received)
  {
    if received != [] {
      var before, x := received[..|received| - 1], received[|received| - 1];
      NewestIsMax(before);
      assert received == before + [x];
      assert x in received;
      if before != [] {
        var y :| y in before && y.time == Newest(before);
        assert y in received;
      }
    }
  }

  /** What has been received and is not further back from the newest than the window is long. */
  predicate Recent(x: Data, received: seq<Data>, window: nat) {
    x in received && Newest(received) - x.time <= window
  }

  ghost predicate IsWindow(l: seq<Data>, received: seq<Data>, window: nat) {
    Sorted(l) && forall x :: x in l <==> Recent(x, received, window)
  }

  function OfTracepoint(l: seq<Data>, tp: TracepointId): seq<Data> {
    if l == [] then []
    else if l[0].tp == tp then [l[0]] + OfTracepoint(l[1..], tp) else OfTracepoint(l[1..], tp)
  }

  /** There is only one such list, so IsWindow says everything about it, order included. */
  lemma {:induction false} SortedIsUnique(a: seq<Data>, b: seq<Data>)
    requires Sorted(a) && Sorted(b) && forall x :: x in a <==> x in b
    ensures a == b
    decreases |a|
  {
    FirstIsIn(a);
    FirstIsIn(b);
    if a != [] && b != [] {
      forall x ensures x in a[1..] <==> x in b[1..] {
        InRest(a, x);
        InRest(b, x);
      }
      SortedIsUnique(a[1..], b[1..]);
      assert a == [a[0]] + a[1..] && b == [b[0]] + b[1..];
    }
  }

  lemma FirstIsIn(l: seq<Data>)
    ensures l == [] || l[0] in l
  {
  }

  lemma InRest(l: seq<Data>, x: Data)
    requires l != [] && Sorted(l)
    ensures x in l[1..] <==> x in l && x != l[0]
  {
    if x in l[1..] {
      var i :| 0 <= i < |l[1..]| && l[1..][i] == x;
      assert Precedes(l[0], l[i + 1]);
    }
  }

  lemma {:induction false} OfTracepointSum(a: seq<Data>, b: seq<Data>, tp: TracepointId)
    ensures OfTracepoint(a + b, tp) == OfTracepoint(a, tp) + OfTracepoint(b, tp)
  {
    if a == [] {
      assert a + b == b;
    } else {
      assert (a + b)[0] == a[0] && (a + b)[1..] == a[1..] + b;
      OfTracepointSum(a[1..], b, tp);
    }
  }

  lemma {:induction false} OfTracepointHas(l: seq<Data>, tp: TracepointId, x: Data)
    ensures x in OfTracepoint(l, tp) <==> x in l && x.tp == tp
  {
    if l != [] {
      OfTracepointHas(l[1..], tp, x);
      assert x in l <==> x == l[0] || x in l[1..];
    }
  }

  // ---------------------------------------------------------------- finding the place

  /** All of l before p is not later than `time`, all from p on is. */
  ghost predicate IsPlace(l: seq<Data>, time: nat, p: nat) {
    && p <= |l|
    && (forall i :: 0 <= i < p ==> l[i].time <= time)
    && (forall i :: p <= i < |l| ==> l[i].time > time)
  }

  ghost predicate InTime(l: seq<Data>) {
    forall i, j :: 0 <= i < j < |l| ==> l[i].time <= l[j].time
  }

  lemma PlaceIsUnique(l: seq<Data>, time: nat, p: nat, q: nat)
    requires IsPlace(l, time, p) && IsPlace(l, time, q)
    ensures p == q
  {
    hide IsPlace;
    assert p <= |l| && q <= |l| by { PlaceInside(l, time, p); PlaceInside(l, time, q); }
    if p < |l| { AtPlace(l, time, p, p); AtPlace(l, time, q, p); }
    if q < |l| { AtPlace(l, time, p, q); AtPlace(l, time, q, q); }
  }

  lemma PlaceInside(l: seq<Data>, time: nat, p: nat)
    requires IsPlace(l, time, p)
    ensures p <= |l|
  {
  }

  lemma AtPlace(l: seq<Data>, time: nat, p: nat, i: nat)
    requires IsPlace(l, time, p) && i < |l|
    ensures l[i].time <= time <==> i < p
  {
  }

  /** Walks back from the end of the list. */
  method FindPlace(l: seq<Data>, time: nat) returns (p: nat)
    requires InTime(l)
    ensures IsPlace(l, time, p)
  {
    p := |l|;
    while p > 0 && l[p - 1].time > time
      invariant p <= |l|
      invariant forall i :: p <= i < |l| ==> l[i].time > time
    {
      p := p - 1;
    }
  }

  function InsertAt(l: seq<Data>, p: nat, x: Data): seq<Data>
    requires p <= |l|
  {
    l[..p] + [x] + l[p..]
  }

  lemma InsertSorted(l: seq<Data>, p: nat, x: Data)
    requires Sorted(l) && IsPlace(l, x.time, p) && forall y :: y in l ==> y.arrival < x.arrival
    ensures Sorted(InsertAt(l, p, x))
    ensures forall y :: y in InsertAt(l, p, x) <==> y in l || y == x
  {
    var m := InsertAt(l, p, x);
    forall i, j | 0 <= i < j < |m| ensures Precedes(m[i], m[j]) {
      if i < p { assert l[i] in l; }
    }
    forall y ensures y in m <==> y in l || y == x {
      assert l == l[..p] + l[p..];
    }
  }

  /** Inserting into the tracepoint's own list does the same as inserting into the list of all. */
  lemma InsertCommutes(l: seq<Data>, p: nat, q: nat, x: Data)
    requires IsPlace(l, x.time, p) && IsPlace(OfTracepoint(l, x.tp), x.time, q)
    ensures OfTracepoint(InsertAt(l, p, x), x.tp) == InsertAt(OfTracepoint(l, x.tp), q, x)
    ensures forall tp :: tp != x.tp ==> OfTracepoint(InsertAt(l, p, x), tp) == OfTracepoint(l, tp)
  {
    assert l == l[..p] + l[p..];
    forall tp ensures OfTracepoint(InsertAt(l, p, x), tp)
                   == OfTracepoint(l[..p], tp) + (if tp == x.tp then [x] else []) + OfTracepoint(l[p..], tp)
              ensures OfTracepoint(l, tp) == OfTracepoint(l[..p], tp) + OfTracepoint(l[p..], tp)
    {
      OfTracepointSum(l[..p] + [x], l[p..], tp);
      OfTracepointSum(l[..p], [x], tp);
      OfTracepointSum(l[..p], l[p..], tp);
      assert [x][1..] == [];
    }
    var a, b := OfTracepoint(l[..p], x.tp), OfTracepoint(l[p..], x.tp);
    forall i | 0 <= i < |a| ensures a[i].time <= x.time { OfTracepointHas(l[..p], x.tp, a[i]); }
    forall i | 0 <= i < |b| ensures b[i].time > x.time { OfTracepointHas(l[p..], x.tp, b[i]); }
    PlaceIsUnique(a + b, x.time, |a|, q);
  }

  lemma SubInTime(l: seq<Data>, tp: TracepointId)
    requires Sorted(l)
    ensures InTime(OfTracepoint(l, tp))
    decreases |l|
  {
    if l != [] {
      SubInTime(l[1..], tp);
      var rest := OfTracepoint(l[1..], tp);
      forall j | 0 <= j < |rest| ensures l[0].time <= rest[j].time {
        OfTracepointHas(l[1..], tp, rest[j]);
      }
    }
  }

  lemma RemoveFirst(l: seq<Data>)
    requires l != []
    ensures Remove(OfTracepoint(l, l[0].tp), l[0]) == OfTracepoint(l[1..], l[0].tp)
    ensures forall tp :: tp != l[0].tp ==> OfTracepoint(l, tp) == OfTracepoint(l[1..], tp)
  {
    var m := OfTracepoint(l, l[0].tp);
    assert m[1..] == OfTracepoint(l[1..], l[0].tp);
  }

  // ---------------------------------------------------------------- one arrival

  /** Nothing recent is missing; what is too old may still be there, at the front. */
  ghost predicate HoldsRecent(l: seq<Data>, received: seq<Data>, window: nat) {
    && Sorted(l) && l != [] && l[|l| - 1].time == Newest(received)
    && (forall x :: x in l ==> x in received)
    && (forall x :: Recent(x, received, window) ==> x in l)
  }

  lemma NewestGrows(received: seq<Data>, x: Data)
    ensures var n := Newest(received + [x]);
            n >= Newest(received) && n >= x.time && (n == x.time || (received != [] && n == Newest(received)))
  {
    assert (received + [x])[..|received|] == received;
  }

  lemma LastIsNewest(l: seq<Data>, y: Data)
    requires Sorted(l) && y in l && forall x :: x in l ==> x.time <= y.time
    ensures l != [] && l[|l| - 1].time == y.time
  {
    var i :| 0 <= i < |l| && l[i] == y;
    assert l[|l| - 1] in l;
    if i < |l| - 1 { assert Precedes(l[i], l[|l| - 1]); }
  }

  lemma Inserted(l: seq<Data>, m: seq<Data>, received: seq<Data>, x: Data, window: nat)
    requires IsWindow(l, received, window) && Sorted(m) && forall y :: y in m <==> y in l || y == x
    ensures HoldsRecent(m, received + [x], window)
  {
    hide Sorted, Newest;
    var now := received + [x];
    NewestGrows(received, x);
    NewestIsMax(now);
    NewestIsMax(received);
    forall y | Recent(y, now, window) ensures y in m {
      if y != x { assert Recent(y, received, window); }
    }
    forall y | y in m ensures y in now {
      if y != x { assert Recent(y, received, window); }
    }
    if Newest(now) == x.time {
      LastIsNewest(m, x);
    } else {
      var y :| y in received && y.time == Newest(received);
      assert Recent(y, received, window);
      LastIsNewest(m, y);
    }
  }

  lemma DropOld(l: seq<Data>, received: seq<Data>, window: nat)
    requires HoldsRecent(l, received, window) && l[|l| - 1].time - l[0].time > window
    ensures HoldsRecent(l[1..], received, window)
  {
    hide Newest, Precedes;
    assert |l| > 1;
    forall x | Recent(x, received, window) ensures x in l[1..] {
      assert l == [l[0]] + l[1..];
    }
  }

  lemma AllRecent(l: seq<Data>, received: seq<Data>, window: nat)
    requires HoldsRecent(l, received, window) && l[|l| - 1].time - l[0].time <= window
    ensures IsWindow(l, received, window)
  {
    hide Newest;
    forall x | x in l ensures Recent(x, received, window) {
      var i :| 0 <= i < |l| && l[i] == x;
      assert i == 0 || Precedes(l[0], l[i]);
    }
  }

  // ---------------------------------------------------------------- the log

  class TracepointLog {
    /** The visible timeline, in nanoseconds. */
    const window: nat
    var data: seq<Data>
    var ofTracepoint: map<TracepointId, seq<Data>>
    /** How many nodes were allocated since the log was last cleared. */
    var nodes: nat
    /** All that has come since then, in order of arrival. */
    ghost var received: seq<Data>

    ghost predicate Arrivals()
      reads this
    {
      nodes == |received| && forall i :: 0 <= i < nodes ==> received[i].arrival == i && received[i].tp in ofTracepoint
    }

    ghost predicate Filtered()
      reads this
    {
      forall tp :: tp in ofTracepoint ==> ofTracepoint[tp] == OfTracepoint(data, tp)
    }

    ghost predicate Valid()
      reads this
    {
      Arrivals() && Filtered() && IsWindow(data, received, window)
    }

    constructor (window: nat, tracepoints: set<TracepointId>)
      ensures Valid() && this.window == window && received == [] && ofTracepoint.Keys == tracepoints
    {
      this.window, data, received, nodes := window, [], [], 0;
      ofTracepoint := map tp | tp in tracepoints :: [];
    }

    /** A tracepoint of one CPU comes in. */
    method Add(tp: TracepointId, cpu: nat, time: nat)
      requires Valid() && tp in ofTracepoint
      modifies this
      ensures Valid() && ofTracepoint.Keys == old(ofTracepoint.Keys)
      ensures received == old(received) + [Data(tp, cpu, time, old(nodes))]
    {
      hide Newest, Sorted, OfTracepoint, IsPlace, InTime, Recent, IsWindow;
      var x := Data(tp, cpu, time, nodes);
      Insert(x);
      while data[|data| - 1].time - data[0].time > window
        invariant Arrivals() && Filtered() && HoldsRecent(data, received, window)
        invariant ofTracepoint.Keys == old(ofTracepoint.Keys) && received == old(received) + [x]
        decreases |data|
      {
        DropOld(data, received, window);
        assert data[0] in data && data[0] in received;
        RemoveNode();
      }
      AllRecent(data, received, window);
    }

    /** Into both lists, at its place. */
    method Insert(x: Data)
      requires Valid() && x.tp in ofTracepoint && x.arrival == nodes
      modifies this
      ensures Arrivals() && Filtered() && HoldsRecent(data, received, window)
      ensures ofTracepoint.Keys == old(ofTracepoint.Keys) && received == old(received) + [x]
    {
      hide Newest, OfTracepoint, IsPlace, HoldsRecent, IsWindow, Sorted, InTime;
      WindowFacts(data, received, window, nodes);
      OneTracepointOrdered(data, x.tp);
      var p := FindPlace(data, x.time);
      var q := FindPlace(ofTracepoint[x.tp], x.time);
      InsertSorted(data, p, x);
      InsertCommutes(data, p, q, x);
      Inserted(data, InsertAt(data, p, x), received, x, window);
      data := InsertAt(data, p, x);
      ofTracepoint := ofTracepoint[x.tp := InsertAt(ofTracepoint[x.tp], q, x)];
      nodes, received := nodes + 1, received + [x];
    }

    /** The first node leaves both lists. */
    method RemoveNode()
      requires Filtered() && data != [] && data[0].tp in ofTracepoint
      modifies `data, `ofTracepoint
      ensures Filtered() && data == old(data)[1..] && ofTracepoint.Keys == old(ofTracepoint.Keys)
    {
      hide OfTracepoint, Remove;
      var first := data[0];
      RemoveFirst(data);
      data := data[1..];
      ofTracepoint := ofTracepoint[first.tp := Remove(ofTracepoint[first.tp], first)];
    }

    method Clear()
      requires Valid()
      modifies this
      ensures Valid() && data == [] && received == [] && ofTracepoint.Keys == old(ofTracepoint.Keys)
      ensures forall tp :: tp in ofTracepoint ==> ofTracepoint[tp] == []
    {
      hide Newest, Sorted, OfTracepoint, IsWindow;
      Known(data, received, window);
      while data != []
        invariant Filtered() && ofTracepoint.Keys == old(ofTracepoint.Keys)
        invariant forall x :: x in data ==> x.tp in ofTracepoint
        decreases |data|
      {
        RemoveNode();
      }
      nodes, received := 0, [];
      Emptiness(window);
    }

    lemma Known(data: seq<Data>, received: seq<Data>, window: nat)
      requires IsWindow(data, received, window)
      ensures forall x :: x in data ==> x in received
    {
    }
  }

  lemma Emptiness(window: nat)
    ensures IsWindow([], [], window)
    ensures forall tp :: OfTracepoint([], tp) == []
  {
  }

  lemma WindowFacts(data: seq<Data>, received: seq<Data>, window: nat, nodes: nat)
    requires IsWindow(data, received, window) && nodes == |received|
    requires forall i :: 0 <= i < nodes ==> received[i].arrival == i
    ensures Sorted(data) && InTime(data) && forall x :: x in data ==> x in received && x.arrival < nodes
  {
    hide Newest;
    forall i, j | 0 <= i < j < |data| ensures data[i].time <= data[j].time {
      assert Precedes(data[i], data[j]);
    }
    forall x | x in data ensures x in received && x.arrival < nodes {
      assert Recent(x, received, window);
    }
  }

  lemma OneTracepointOrdered(data: seq<Data>, tp: TracepointId)
    requires Sorted(data)
    ensures InTime(OfTracepoint(data, tp))
  {
    SubInTime(data, tp);
  }
}
