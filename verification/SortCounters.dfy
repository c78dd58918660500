/** Ordering counters so that each comes after those its equation mentions (sort_counters in
    scripts/mdapi-xml-convert.py).
 */
module SortCounters {
  type Name = string

  /** The counters a counter mentions; some may not be counters of the set. */
  type Dependencies = map<Name, seq<Name>>

  predicate Known(names: seq<Name>, deps: Dependencies) {
    forall x :: x in names ==> x in deps
  }

  ghost predicate Distinct(l: seq<Name>) {
    forall i, j :: 0 <= i < j < |l| ==> l[i] != l[j]
  }

  /** A rank that falls along dependencies: there are no circles. */
  ghost predicate Ranked(names: seq<Name>, deps: Dependencies, rank: map<Name, nat>)
    requires Known(names, deps)
  {
    && (forall x :: x in names ==> x in rank)
    && (forall x, y :: x in names && y in names && y in deps[x] ==> rank[y] < rank[x])
  }

  /** What counter l[i] depends on comes before it. */
  ghost predicate Served(l: seq<Name>, names: seq<Name>, deps: Dependencies, i: nat)
    requires i < |l|
  {
    l[i] in deps && forall y :: y in deps[l[i]] && y in names ==> y in l[..i]
  }

  ghost predicate DepsFirst(l: seq<Name>, names: seq<Name>, deps: Dependencies) {
    forall i :: 0 <= i < |l| ==> Served(l, names, deps, i)
  }

  // ---------------------------------------------------------------- sorted prefixes

  lemma ServedInMore(l: seq<Name>, more: seq<Name>, names: seq<Name>, deps: Dependencies, i: nat)
    requires i < |l| && Served(l, names, deps, i)
    ensures Served(l + more, names, deps, i)
  {
    assert (l + more)[..i] == l[..i];
  }

  lemma AppendServed(l: seq<Name>, x: Name, names: seq<Name>, deps: Dependencies)
    requires DepsFirst(l, names, deps) && Distinct(l) && x !in l && x in deps
    requires forall y :: y in deps[x] && y in names ==> y in l
    ensures DepsFirst(l + [x], names, deps) && Distinct(l + [x])
  {
    var m := l + [x];
    forall i | 0 <= i < |m| ensures Served(m, names, deps, i) {
      if i < |l| {
        ServedInMore(l, [x], names, deps, i);
      } else {
        assert m[..i] == l;
      }
    }
  }

  /** Distinct lists with the same elements are permutations of each other. */
  lemma {:induction false} Permutation(l: seq<Name>, names: seq<Name>)
    requires Distinct(l) && Distinct(names) && forall x :: x in l <==> x in names
    ensures multiset(l) == multiset(names)
  {
    forall x ensures multiset(l)[x] == multiset(names)[x] {
      AtMostOnce(l, x);
      AtMostOnce(names, x);
    }
  }

  lemma {:induction false} AtMostOnce(l: seq<Name>, x: Name)
    requires Distinct(l)
    ensures multiset(l)[x] == if x in l then 1 else 0
  {
    if l != [] {
      var n := |l| - 1;
      AtMostOnce(l[..n], x);
      assert l == l[..n] + [l[n]];
      assert l[n] !in l[..n];
    }
  }

  // ---------------------------------------------------------------- the sorter

  class Sorter {
    const names: seq<Name>
    const deps: Dependencies
    ghost const rank: map<Name, nat>
    var sortedArray: seq<Name>
    var sortedSet: set<Name>

    ghost predicate Valid()
      reads this
    {
      && Known(names, deps) && Ranked(names, deps, rank)
      && Distinct(sortedArray) && DepsFirst(sortedArray, names, deps)
      && (forall x :: x in sortedSet <==> x in sortedArray) && (forall x :: x in sortedArray ==> x in names)
    }

    constructor (names: seq<Name>, deps: Dependencies, ghost rank: map<Name, nat>)
      requires Known(names, deps) && Ranked(names, deps, rank)
      ensures Valid() && this.names == names && this.deps == deps && sortedArray == []
    {
      this.names, this.deps, this.rank := names, deps, rank;
      sortedArray, sortedSet := [], {};
    }

    /** The counter goes to the end, after all it depends on. */
    method AppendDepsAndCounter(x: Name)
      requires Valid() && x in names
      modifies this
      ensures Valid() && x in sortedArray && old(sortedArray) <= sortedArray
      ensures forall y :: y in sortedArray && y !in old(sortedArray) ==> rank[y] <= rank[x]
      decreases rank[x]
    {
      hide Served, Distinct, DepsFirst, Ranked;
      if x in sortedSet {
        return;
      }
      RankedFacts(names, deps, rank, x);
      for i := 0 to |deps[x]|
        invariant Valid() && old(sortedArray) <= sortedArray
        invariant forall y :: y in sortedArray && y !in old(sortedArray) ==> rank[y] < rank[x]
        invariant forall j :: 0 <= j < i && deps[x][j] in names ==> deps[x][j] in sortedArray
      {
        var d := deps[x][i];
        if d in names {
          assert rank[d] < rank[x];
          AppendDepsAndCounter(d);
        }
      }
      assert x !in sortedArray;
      forall y | y in deps[x] && y in names ensures y in sortedArray {
        var j :| 0 <= j < |deps[x]| && deps[x][j] == y;
      }
      AppendServed(sortedArray, x, names, deps);
      sortedArray := sortedArray + [x];
      sortedSet := sortedSet + {x};
    }
  }

  lemma RankedFacts(names: seq<Name>, deps: Dependencies, rank: map<Name, nat>, x: Name)
    requires Known(names, deps) && Ranked(names, deps, rank) && x in names
    ensures forall y :: y in names ==> y in rank
    ensures forall y :: y in names && y in deps[x] ==> rank[y] < rank[x]
  {
  }

  /** Without circles, whatever the order in which counters are visited: the result is a permutation of them
      in which every known dependency comes before its dependents. */
  method Sort(names: seq<Name>, deps: Dependencies, ghost rank: map<Name, nat>) returns (l: seq<Name>)
    requires Known(names, deps) && Ranked(names, deps, rank) && Distinct(names)
    ensures multiset(l) == multiset(names) && DepsFirst(l, names, deps)
  {
    hide Served, Distinct, DepsFirst, Ranked;
    var s := new Sorter(names, deps, rank);
    for i := 0 to |names|
      invariant s.Valid() && s.names == names && s.deps == deps && fresh(s)
      invariant forall j :: 0 <= j < i ==> names[j] in s.sortedArray
    {
      s.AppendDepsAndCounter(names[i]);
    }
    l := s.sortedArray;
    Permutation(l, names);
  }

  // ---------------------------------------------------------------- circles

  function IndexIn(l: seq<Name>, x: Name): (i: nat)
    requires x in l
    ensures i < |l| && l[i] == x && x !in l[..i]
  {
    if l[0] == x then 0 else 1 + IndexIn(l[1..], x)
  }

  /** If there is such an order at all then there is a rank - the place in it - so the precondition of Sort
      excludes only what cannot be sorted. */
  lemma OrderGivesRank(names: seq<Name>, deps: Dependencies, l: seq<Name>) returns (rank: map<Name, nat>)
    requires Known(names, deps) && DepsFirst(l, names, deps) && forall x :: x in l <==> x in names
    ensures Ranked(names, deps, rank)
  {
    rank := map x | x in names :: IndexIn(l, x);
    forall x, y | x in names && y in names && y in deps[x] ensures rank[y] < rank[x] {
      var i := IndexIn(l, x);
      assert Served(l, names, deps, i);
      assert y in l[..i];
      FirstIsEarlier(l, y, i);
    }
  }

  lemma {:induction false} FirstIsEarlier(l: seq<Name>, y: Name, i: nat)
    requires i <= |l| && y in l[..i]
    ensures y in l && IndexIn(l, y) < i
  {
    assert i > 0 && l[..i] == [l[0]] + l[1..][..i - 1];
    if l[0] != y {
      FirstIsEarlier(l[1..], y, i - 1);
    }
  }
}
