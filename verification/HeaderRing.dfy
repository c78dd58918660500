/** The ring of header offsets that a flight-recorder stream keeps (server/gputop-perf.c): which records of
    the perf buffer can still be read while the kernel overwrites the oldest data.

    Positions are counted in bytes since the stream was opened; in the buffer they are taken modulo its size.
    Indices into the ring are not wrapped at 2^32.
 */
module HeaderRing {
  import opened Common

  // ---------------------------------------------------------------- positions in a ring

  lemma PlaceInFirstRound(pos: nat, size: nat)
    requires pos < size
    ensures Place(pos, size) == pos
  {
    ModUnique(pos, size, 0, pos);
  }

  /** Two indices less than n apart have different places. */
  lemma DifferentPlaces(i: nat, j: nat, n: nat)
    requires i < j < i + n
    ensures Place(i, n) != Place(j, n)
  {
    var q, r := i / n, i % n;
    assert i == q * n + r;
    if r + (j - i) < n {
      ModUnique(j, n, q, r + (j - i));
    } else {
      assert j == (q + 1) * n + (r + (j - i) - n);
      ModUnique(j, n, q + 1, r + (j - i) - n);
    }
  }

  /** The place of a position d bytes back, put ahead of `end` by adding the size where needed. */
  lemma PlaceBehind(start: nat, end: nat, size: nat)
    requires 0 < end - start <= size
    ensures var o, e := Place(start, size), Place(end, size);
            (if o < e then o + size else o) == if end - start == size then e else e + size - (end - start)
  {
    var d, q, e := end - start, end / size, end % size;
    assert end == q * size + e;
    if d == size {
      assert start == (q - 1) * size + e;
      ModUnique(start, size, q - 1, e);
    } else if e >= d {
      ModUnique(start, size, q, e - d);
    } else {
      assert start == (q - 1) * size + (e - d + size);
      ModUnique(start, size, q - 1, e - d + size);
    }
  }

  // ---------------------------------------------------------------- one record more

  /** `struct gputop_perf_header_buf` next to what it is about: where each record since the stream was
      opened starts, and up to where the buffer has been read. */
  datatype Ring = Ring(size: nat, places: seq<nat>, head: nat, tail: nat, full: bool, starts: seq<nat>, end: nat)

  predicate Usable(r: Ring) {
    r.size > 0 && |r.places| >= 2
  }

  function TailOffset(r: Ring, offset: nat): nat
    requires Usable(r)
  {
    var o := r.places[Place(r.tail, |r.places|)];
    if o < offset then o + r.size else o
  }

  /** The inner loop; None if it ran past the head. */
  function Eaten(r: Ring, offset: nat, z: nat): (t: Option<Ring>)
    requires Usable(r)
    ensures t.Some? ==> r.tail <= t.value.tail && t.value == r.(tail := t.value.tail)
    decreases r.head - r.tail
  {
    if r.tail >= r.head then None
    else if offset + z < TailOffset(r, offset) then Some(r)
    else Eaten(r.(tail := r.tail + 1), offset, z)
  }

  /** The ring before the tail is eaten: a wrap is noticed, and there is a place for one more. */
  function Prepared(r: Ring, z: nat): Ring
    requires Usable(r)
  {
    r.(full := r.full || Place(r.end, r.size) + z > r.size,
       tail := if r.head == r.tail + |r.places| then r.tail + 1 else r.tail)
  }

  /** A record of z bytes lies at `end`. */
  function Added(r: Ring, z: nat): (t: Option<Ring>)
    requires Usable(r)
    ensures t.Some? ==> t.value.size == r.size && |t.value.places| == |r.places| && t.value.end == r.end + z
  {
    var offset := Place(r.end, r.size);
    var r1 := Prepared(r, z);
    var r2 :- if r1.full then Eaten(r1, offset, z) else Some(r1);
    Some(r2.(places := r2.places[Place(r2.head, |r2.places|) := offset], head := r2.head + 1,
             starts := r2.starts + [r2.end], end := r2.end + z))
  }

  /** The records up to perfHead, unless one has no size or would overshoot. */
  function Taken(r: Ring, headers: seq<nat>, perfHead: nat): Option<Ring>
    requires Usable(r) && |headers| == r.size && r.end <= perfHead
    decreases perfHead - r.end
  {
    if Place(perfHead - r.end, r.size) == 0 then Some(r)
    else
      var z := headers[Place(r.end, r.size)];
      if z == 0 || z > perfHead - r.end then Some(r)
      else
        var r1 :- Added(r, z);
        Taken(r1, headers, perfHead)
  }

  /** gputop_perf_update_header_offsets. */
  function Updated(r: Ring, headers: seq<nat>, perfHead: nat): Option<Ring>
    requires Usable(r) && |headers| == r.size && r.end <= perfHead
  {
    var r1 :- Taken(r, headers, perfHead);
    Some(r1.(end := perfHead))
  }

  // ---------------------------------------------------------------- what is kept

  ghost predicate Ascending(starts: seq<nat>) {
    forall i, j :: 0 <= i < j < |starts| ==> starts[i] < starts[j]
  }

  /** The bytes up to `end` have overwritten none of the records from index `tail` on. */
  ghost predicate IntactFrom(starts: seq<nat>, tail: nat, end: nat, size: nat) {
    forall i :: tail <= i < |starts| ==> end <= starts[i] + size
  }

  lemma IntactLater(starts: seq<nat>, tail: nat, tail': nat, end: nat, size: nat)
    requires IntactFrom(starts, tail, end, size) && tail <= tail'
    ensures IntactFrom(starts, tail', end, size)
  {
  }

  lemma IntactAtFirst(starts: seq<nat>, tail: nat, end: nat, size: nat)
    requires end <= size
    ensures IntactFrom(starts, tail, end, size)
  {
  }

  lemma OldestDecides(starts: seq<nat>, tail: nat, end: nat, size: nat)
    requires Ascending(starts) && tail < |starts|
    ensures IntactFrom(starts, tail, end, size) <==> end <= starts[tail] + size
  {
  }

  lemma AscendingMore(starts: seq<nat>, end: nat)
    requires Ascending(starts) && (starts != [] ==> starts[|starts| - 1] < end)
    ensures Ascending(starts + [end])
  {
  }

  /** The ring of `places` holds where the records from index `tail` on are. */
  ghost predicate PlacedFrom(places: seq<nat>, starts: seq<nat>, tail: nat, size: nat)
    requires places != [] && size > 0
  {
    forall i :: tail <= i < |starts| ==> places[Place(i, |places|)] == Place(starts[i], size)
  }

  lemma PlacedLater(places: seq<nat>, starts: seq<nat>, tail: nat, tail': nat, size: nat)
    requires places != [] && size > 0 && PlacedFrom(places, starts, tail, size) && tail <= tail'
    ensures PlacedFrom(places, starts, tail', size)
  {
  }

  lemma PlacedMore(places: seq<nat>, starts: seq<nat>, tail: nat, end: nat, size: nat)
    requires places != [] && size > 0 && PlacedFrom(places, starts, tail, size) && |starts| - tail < |places|
    requires tail <= |starts|
    ensures PlacedFrom(places[Place(|starts|, |places|) := Place(end, size)], starts + [end], tail, size)
  {
    var n, len := |starts|, |places|;
    forall i | tail <= i < n ensures Place(i, len) != Place(n, len) {
      DifferentPlaces(i, n, len);
    }
  }

  /** The ring holds the places of the latest records, the very last one included. */
  ghost predicate Valid(r: Ring) {
    && Usable(r) && r.head == |r.starts| && r.tail <= r.head <= r.tail + |r.places|
    && (if r.head == 0 then !r.full else r.tail < r.head && r.starts[r.head - 1] < r.end)
    && Ascending(r.starts) && PlacedFrom(r.places, r.starts, r.tail, r.size)
  }

  /** No record that is kept has been overwritten. */
  ghost predicate Intact(r: Ring) {
    IntactFrom(r.starts, r.tail, r.end, r.size)
  }

  /** The first wrap has been noticed, or is still to come. */
  predicate Watching(r: Ring) {
    r.full || r.end < r.size
  }

  /** The next record fits the buffer together with the one before it. */
  predicate Fits(r: Ring, z: nat)
    requires Usable(r)
  {
    && 0 < z < r.size
    && (if 0 < r.head == |r.starts| then r.end - r.starts[r.head - 1] + z < r.size
        else Place(r.end, r.size) + z <= r.size)
  }

  function EmptyRing(size: nat, len: nat): Ring {
    Ring(size, seq(len, _ => 0), 0, 0, false, [], 0)
  }

  lemma EmptyIsValid(size: nat, len: nat)
    requires size > 0 && len >= 2
    ensures Valid(EmptyRing(size, len)) && Intact(EmptyRing(size, len)) && Watching(EmptyRing(size, len))
  {
  }

  // ---------------------------------------------------------------- what one record does

  /** The tail stops before the head: the record before this one always stays. */
  lemma {:induction false} EatTailStops(r: Ring, z: nat)
    requires Usable(r) && r.tail < r.head == |r.starts| && Ascending(r.starts) && Fits(r, z)
    requires r.starts[r.head - 1] < r.end && PlacedFrom(r.places, r.starts, r.tail, r.size)
    ensures Eaten(r, Place(r.end, r.size), z).Some?
    ensures var t := Eaten(r, Place(r.end, r.size), z).value;
            r.tail <= t.tail < r.head && t == r.(tail := t.tail)
    decreases r.head - r.tail
  {
    hide Place, PlacedFrom;
    PlacedAt(r.places, r.starts, r.tail, r.size);
    if r.tail == r.head - 1 {
      PlaceBehind(r.starts[r.tail], r.end, r.size);
    } else if Place(r.end, r.size) + z >= TailOffset(r, Place(r.end, r.size)) {
      PlacedLater(r.places, r.starts, r.tail, r.tail + 1, r.size);
      EatTailStops(r.(tail := r.tail + 1), z);
    }
  }

  /** It runs past the head if even the record before this one does not fit the buffer together with it. */
  lemma {:induction false} EatTailRunsOff(r: Ring, z: nat)
    requires Usable(r) && r.tail <= r.head == |r.starts| && Ascending(r.starts) && z < r.size
    requires r.head > 0 && r.starts[r.head - 1] < r.end && r.end - r.starts[r.head - 1] + z >= r.size
    requires PlacedFrom(r.places, r.starts, r.tail, r.size) && Intact(r)
    ensures Eaten(r, Place(r.end, r.size), z).None?
    decreases r.head - r.tail
  {
    hide Place, PlacedFrom;
    if r.tail < r.head {
      PlacedAt(r.places, r.starts, r.tail, r.size);
      assert r.starts[r.tail] <= r.starts[r.head - 1];
      PlaceBehind(r.starts[r.tail], r.end, r.size);
      PlacedLater(r.places, r.starts, r.tail, r.tail + 1, r.size);
      EatTailRunsOff(r.(tail := r.tail + 1), z);
    }
  }

  lemma PlacedAt(places: seq<nat>, starts: seq<nat>, i: nat, size: nat)
    requires places != [] && size > 0 && PlacedFrom(places, starts, i, size) && i < |starts|
    ensures places[Place(i, |places|)] == Place(starts[i], size)
  {
    hide Place;
  }

  /** From an intact ring exactly the records are dropped that the new one runs into or runs up to. */
  lemma {:induction false} EatTailExact(r: Ring, z: nat)
    requires Usable(r) && r.tail < r.head == |r.starts| && Ascending(r.starts) && Fits(r, z)
    requires r.starts[r.head - 1] < r.end && PlacedFrom(r.places, r.starts, r.tail, r.size) && Intact(r)
    requires Eaten(r, Place(r.end, r.size), z).Some?
    ensures var t := Eaten(r, Place(r.end, r.size), z).value;
            forall i :: r.tail <= i < r.head ==> (i < t.tail <==> r.starts[i] + r.size <= r.end + z)
    decreases r.head - r.tail
  {
    hide Place, PlacedFrom;
    PlacedAt(r.places, r.starts, r.tail, r.size);
    assert r.starts[r.tail] <= r.starts[r.head - 1];
    PlaceBehind(r.starts[r.tail], r.end, r.size);
    EatTailStops(r, z);
    if Place(r.end, r.size) + z >= TailOffset(r, Place(r.end, r.size)) {
      PlacedLater(r.places, r.starts, r.tail, r.tail + 1, r.size);
      EatTailExact(r.(tail := r.tail + 1), z);
    }
  }

  lemma PreparedFacts(r: Ring, z: nat)
    requires Valid(r)
    ensures var p := Prepared(r, z);
            && r.tail <= p.tail <= p.head < p.tail + |p.places| && p == r.(full := p.full, tail := p.tail)
            && (r.head > 0 ==> p.tail < p.head) && PlacedFrom(p.places, p.starts, p.tail, p.size)
            && (Intact(r) ==> Intact(p)) && (p.full && Fits(r, z) ==> r.head > 0)
  {
    hide Place, PlacedFrom, Ascending, IntactFrom;
    var p := Prepared(r, z);
    PlacedLater(r.places, r.starts, r.tail, p.tail, r.size);
    if Intact(r) { IntactLater(r.starts, r.tail, p.tail, r.end, r.size); }
  }

  /** From an intact ring: the step ends, with the tail before the head, if and only if the wrap has not been
      seen yet or the new record fits the buffer together with the one before it - or, if it is the first
      one, does not wrap itself. */
  lemma AddRecordEnds(r: Ring, z: nat)
    requires Valid(r) && Intact(r) && 0 < z < r.size
    ensures Added(r, z).Some? <==> !Prepared(r, z).full || Fits(r, z)
  {
    hide Place, PlacedFrom, Ascending, IntactFrom, Eaten;
    PreparedFacts(r, z);
    var p := Prepared(r, z);
    if p.full && Fits(r, z) {
      EatTailStops(p, z);
    } else if p.full && r.head > 0 {
      EatTailRunsOff(p, z);
    } else if p.full {
      NothingToEat(p, z);
    }
  }

  lemma NothingToEat(p: Ring, z: nat)
    requires Usable(p) && p.tail >= p.head
    ensures Eaten(p, Place(p.end, p.size), z).None?
  {
  }

  /** Two records of 40 bytes in a buffer of 64: the loop runs past the head. */
  lemma TooLargeRunsOff()
    ensures var r := EmptyRing(64, 8);
            Added(r, 40).Some? && Valid(Added(r, 40).value) && Added(Added(r, 40).value, 40).None?
  {
    hide IntactFrom, PlacedFrom, Ascending, Added;
    EmptyIsValid(64, 8);
    AddRecordIntact(EmptyRing(64, 8), 40);
    AddRecordValid(EmptyRing(64, 8), 40);
    var r1 := Added(EmptyRing(64, 8), 40).value;
    assert r1.starts == [0] && r1.end == 40;
    AddRecordEnds(r1, 40);
  }

  /** A first record that wraps, because what came before it was not taken: the loop runs past the head too. */
  lemma FirstRecordRunsOff()
    ensures var r := EmptyRing(64, 8).(end := 40); Valid(r) && Added(r, 40).None?
  {
    AddRecordEnds(EmptyRing(64, 8).(end := 40), 40);
  }

  /** Every record finds its place; the tail is never eaten past the head, at most as many records are kept
      as the ring has places, and the places are right. */
  lemma AddRecordValid(r: Ring, z: nat)
    requires Valid(r) && Fits(r, z)
    ensures Added(r, z).Some? && Valid(Added(r, z).value)
    ensures var t := Added(r, z).value;
            && t.starts == r.starts + [r.end] && t.end == r.end + z && t.size == r.size && |t.places| == |r.places|
            && Prepared(r, z).tail <= t.tail && t.full == Prepared(r, z).full
  {
    hide Place, PlacedFrom, Ascending, Eaten;
    PreparedFacts(r, z);
    var p := Prepared(r, z);
    if p.full { EatTailStops(p, z); }
    var q := if p.full then Eaten(p, Place(r.end, r.size), z).value else p;
    PlacedLater(p.places, p.starts, p.tail, q.tail, p.size);
    PlacedMore(q.places, q.starts, q.tail, q.end, q.size);
    AscendingMore(q.starts, q.end);
  }

  /** While the first wrap is being watched for, what is kept stays intact, and once it has been seen exactly
      those are dropped that the new record runs into or up to - and the oldest if all places are taken; the
      wrap is seen with the first record that crosses the end of the buffer, and missed if and only if one
      ends just there. */
  lemma AddRecordIntact(r: Ring, z: nat)
    requires Valid(r) && Fits(r, z) && Watching(r) && Intact(r)
    ensures Added(r, z).Some?
    ensures var t := Added(r, z).value;
            && Intact(t) && (Watching(t) <==> t.full || t.end != t.size) && (t.full <==> r.full || t.end > t.size)
            && (forall i :: r.tail <= i < r.head ==>
                  (i < t.tail <==> (t.full && r.starts[i] + r.size <= t.end)
                                   || (i == r.tail && r.head - r.tail == |r.places|)))
  {
    hide Place, PlacedFrom, Ascending, IntactFrom, Eaten;
    if !r.full { PlaceInFirstRound(r.end, r.size); }
    PreparedFacts(r, z);
    AddRecordValid(r, z);
    var p := Prepared(r, z);
    if p.full {
      EatTailStops(p, z);
      EatTailExact(p, z);
      StaysIntact(p, Eaten(p, Place(r.end, r.size), z).value.tail, z);
    } else {
      IntactAtFirst(r.starts + [r.end], p.tail, r.end + z, r.size);
    }
  }

  lemma StaysIntact(p: Ring, tail: nat, z: nat)
    requires p.head == |p.starts| && p.tail <= tail && z <= p.size
    requires forall i :: p.tail <= i < p.head ==> (i < tail <==> p.starts[i] + p.size <= p.end + z)
    ensures IntactFrom(p.starts + [p.end], tail, p.end + z, p.size)
  {
  }

  /** From where on the ring keeps records when one is added without anything being eaten: room is made for
      it by dropping the oldest if there are as many as places. */
  function KeptFrom(r: Ring): nat {
    var i := if r.head == r.tail + |r.places| then r.tail + 1 else r.tail;
    if i < |r.starts| then r.starts[i] else r.end
  }

  /** While the wrap is missed nothing is dropped for being overwritten: the ring stays intact if and only if
      all that it keeps, with the new record, is no more than the buffer holds. */
  lemma MissedWrap(r: Ring, z: nat)
    requires Valid(r) && Fits(r, z) && !Prepared(r, z).full
    ensures Added(r, z).Some? && Valid(Added(r, z).value) && Added(r, z).value.tail == Prepared(r, z).tail
    ensures Intact(Added(r, z).value) <==> r.end + z - KeptFrom(r) <= r.size
  {
    hide Place, PlacedFrom, Ascending, IntactFrom, Eaten;
    AddRecordValid(r, z);
    var t := Added(r, z).value;
    OldestDecides(t.starts, t.tail, t.end, t.size);
  }

  /** Three records fill the buffer exactly; the fourth overwrites the first, which stays in the ring. */
  lemma ExactFitGoesStale()
    ensures var r := EmptyRing(64, 8);
            && Added(r, 24).Some? && Added(Added(r, 24).value, 24).Some?
            && Added(Added(Added(r, 24).value, 24).value, 16).Some?
            && (var r3 := Added(Added(Added(r, 24).value, 24).value, 16).value;
                && Valid(r3) && Intact(r3) && !Watching(r3) && Fits(r3, 16)
                && Added(r3, 16).Some? && Added(r3, 16).value.tail == 0 && !Intact(Added(r3, 16).value))
  {
    hide IntactFrom, PlacedFrom, Ascending, Added;
    var r := EmptyRing(64, 8);
    EmptyIsValid(64, 8);
    AddRecordIntact(r, 24);
    AddRecordValid(r, 24);
    var r1 := Added(r, 24).value;
    AddRecordIntact(r1, 24);
    AddRecordValid(r1, 24);
    var r2 := Added(r1, 24).value;
    AddRecordIntact(r2, 16);
    AddRecordValid(r2, 16);
    var r3 := Added(r2, 16).value;
    assert r3.starts == [0, 24, 48] && r3.end == 64 && !r3.full;
    AddRecordValid(r3, 16);
    MissedWrap(r, 24);
    MissedWrap(r1, 24);
    MissedWrap(r2, 16);
    MissedWrap(r3, 16);
  }

  // ---------------------------------------------------------------- after a missed wrap

  /** The wrap has been seen at last, but the oldest record that is kept is already overwritten: the ring
      holds up to two buffers of records. */
  ghost predicate Lagging(r: Ring) {
    && Valid(r) && r.full && r.head > 0 && IntactFrom(r.starts, r.tail, r.end, 2 * r.size)
    && r.starts[r.tail] + r.size < r.end
  }

  /** Record b is the last one that has been overwritten. */
  ghost predicate LastStale(r: Ring, b: nat) {
    b + 1 < |r.starts| && r.starts[b] + r.size < r.end <= r.starts[b + 1] + r.size
  }

  lemma FitsSmall(r: Ring, z: nat)
    requires Usable(r) && Fits(r, z)
    ensures 0 < z < r.size && forall i: nat :: i < r.head ==> Fits(r.(tail := i), z)
  {
  }

  /** While records that are overwritten are at the tail they are dropped one round late. */
  lemma {:induction false} EatTailLags(r: Ring, z: nat, b: nat)
    requires Usable(r) && r.tail < r.head == |r.starts| && Ascending(r.starts) && Fits(r, z)
    requires r.starts[r.head - 1] < r.end && PlacedFrom(r.places, r.starts, r.tail, r.size)
    requires IntactFrom(r.starts, r.tail, r.end, 2 * r.size) && LastStale(r, b) && r.tail <= b
    ensures Eaten(r, Place(r.end, r.size), z).Some?
    ensures var t := Eaten(r, Place(r.end, r.size), z).value;
            if r.starts[b] + 2 * r.size <= r.end + z
            then forall i :: r.tail <= i < r.head ==> (i < t.tail <==> r.starts[i] + r.size <= r.end + z)
            else
              t.tail <= b
              && forall i :: r.tail <= i < r.head ==> (i < t.tail <==> r.starts[i] + 2 * r.size <= r.end + z)
    decreases r.head - r.tail
  {
    hide Place, PlacedFrom, Fits;
    EatTailStops(r, z);
    FitsSmall(r, z);
    PlacedAt(r.places, r.starts, r.tail, r.size);
    assert r.starts[r.tail] <= r.starts[b];
    PlaceRoundBehind(r.starts[r.tail], r.end, r.size);
    PlaceBehind(r.starts[r.tail] + r.size, r.end, r.size);
    if Place(r.end, r.size) + z >= TailOffset(r, Place(r.end, r.size)) {
      var r1 := r.(tail := r.tail + 1);
      PlacedLater(r.places, r.starts, r.tail, r.tail + 1, r.size);
      if r.tail < b {
        EatTailLags(r1, z, b);
      } else {
        EatTailExact(r1, z);
      }
    }
  }

  lemma PlaceRoundBehind(start: nat, end: nat, size: nat)
    requires size > 0
    ensures Place(start + size, size) == Place(start, size)
  {
    ModUnique(start + size, size, start / size + 1, start % size);
  }

  /** When the wrap is seen late the ring becomes intact again with the next record if and only if that record
      reaches as far as the start of the last record that has been overwritten, one round later; until then
      it goes on lagging.  Here there is room for one more record, so none is dropped for that. */
  lemma LagEnds(r: Ring, z: nat, b: nat)
    requires Lagging(r) && Fits(r, z) && r.tail <= b && LastStale(r, b) && r.head < r.tail + |r.places|
    ensures Added(r, z).Some?
    ensures var t := Added(r, z).value;
            && (Intact(t) <==> r.starts[b] + 2 * r.size <= r.end + z)
            && (!Intact(t) ==> Lagging(t) && Prepared(r, z).tail <= t.tail <= b)
  {
    hide Place, PlacedFrom, Ascending, IntactFrom, Eaten;
    AddRecordValid(r, z);
    PreparedFacts(r, z);
    assert Prepared(r, z) == r;
    EatTailLags(r, z, b);
    var e, t := Eaten(r, Place(r.end, r.size), z).value, Added(r, z).value;
    if r.starts[b] + 2 * r.size <= r.end + z {
      StaysIntact(r, e.tail, z);
    } else {
      StaysWithin(r, e.tail, z);
      assert r.starts[e.tail] <= r.starts[b] by { StartsAscend(r.starts, e.tail, b); }
      OldestDecides(t.starts, t.tail, t.end, t.size);
    }
  }

  lemma StartsAscend(starts: seq<nat>, i: nat, j: nat)
    requires Ascending(starts) && i <= j < |starts|
    ensures starts[i] <= starts[j]
  {
  }

  lemma StaysWithin(p: Ring, tail: nat, z: nat)
    requires p.head == |p.starts| && p.tail <= tail && z <= p.size
    requires forall i :: p.tail <= i < p.head ==> (i < tail <==> p.starts[i] + 2 * p.size <= p.end + z)
    ensures IntactFrom(p.starts + [p.end], tail, p.end + z, 2 * p.size)
  {
  }

  /** All records are of at least `least` and at most `most` bytes. */
  ghost predicate Sizes(starts: seq<nat>, end: nat, least: nat, most: nat) {
    && (forall i {:trigger starts[i]} :: 0 < i < |starts| ==>
          starts[i - 1] + least <= starts[i] <= starts[i - 1] + most)
    && (starts != [] ==> starts[|starts| - 1] + least <= end <= starts[|starts| - 1] + most)
  }

  lemma {:induction false} StartsApart(starts: seq<nat>, end: nat, least: nat, most: nat, i: nat)
    requires Sizes(starts, end, least, most) && i < |starts|
    ensures starts[i] + Times(|starts| - i, least) <= end
    decreases |starts| - i
  {
    hide Times;
    OneMoreTimes(0, least);
    if i + 1 < |starts| {
      StartsApart(starts, end, least, most, i + 1);
      assert starts[i] + least <= starts[i + 1];
      OneMoreTimes(|starts| - (i + 1), least);
    }
  }

  function Times(n: nat, m: nat): nat {
    n * m
  }

  lemma OneMoreTimes(n: nat, m: nat)
    ensures Times(0, m) == 0 && Times(n + 1, m) == Times(n, m) + m
  {
  }

  lemma SizesMore(starts: seq<nat>, end: nat, z: nat, least: nat, most: nat)
    requires Sizes(starts, end, least, most) && least <= z <= most
    ensures Sizes(starts + [end], end + z, least, most)
  {
  }

  /** The last record that has been overwritten, from index i on. */
  lemma {:induction false} FindStale(r: Ring, least: nat, most: nat, i: nat) returns (b: nat)
    requires Sizes(r.starts, r.end, least, most) && most < r.size
    requires i < |r.starts| && r.starts[i] + r.size < r.end
    ensures i <= b && LastStale(r, b)
    decreases |r.starts| - i
  {
    if i + 1 < |r.starts| && r.starts[i + 1] + r.size < r.end {
      b := FindStale(r, least, most, i + 1);
    } else {
      b := i;
    }
  }

  lemma Fewer(n: nat, places: nat, least: nat, total: nat)
    requires Times(n, least) <= total < Times(places, least)
    ensures n < places
  {
    if n >= places {
      MulMono(places, n, least);
    }
  }

  /** A ring of so many places that all records of two buffers fit into it, and records of which any two fit
      the buffer together: then it goes on lagging. */
  lemma LagStays(r: Ring, z: nat, least: nat, most: nat)
    requires Lagging(r) && Sizes(r.starts, r.end, least, most) && 0 < least <= z <= most && 2 * most < r.size
    requires Times(|r.places|, least) > 2 * r.size
    ensures Added(r, z).Some? && Lagging(Added(r, z).value)
    ensures Sizes(Added(r, z).value.starts, Added(r, z).value.end, least, most)
  {
    hide Place, PlacedFrom, Ascending, Added, Times;
    var b := FindStale(r, least, most, r.tail);
    StartsApart(r.starts, r.end, least, most, r.tail);
    Fewer(r.head - r.tail, |r.places|, least, 2 * r.size);
    assert r.starts[b + 1] <= r.starts[b] + most;
    AddRecordValid(r, z);
    LagEnds(r, z, b);
    SizesMore(r.starts, r.end, z, least, most);
  }

  function AddAll(r: Ring, sizes: seq<nat>): (t: Option<Ring>)
    requires Usable(r)
    ensures t.Some? ==> t.value.size == r.size && |t.value.places| == |r.places|
  {
    if sizes == [] then Some(r)
    else
      var r1 :- AddAll(r, sizes[..|sizes| - 1]);
      Added(r1, sizes[|sizes| - 1])
  }

  /** So no number of further bytes brings such a ring back: it never is intact again. */
  lemma {:induction false} LagsForever(r: Ring, sizes: seq<nat>, least: nat, most: nat)
    requires Lagging(r) && Sizes(r.starts, r.end, least, most) && 0 < least && 2 * most < r.size
    requires Times(|r.places|, least) > 2 * r.size && forall i :: 0 <= i < |sizes| ==> least <= sizes[i] <= most
    ensures AddAll(r, sizes).Some? && !Intact(AddAll(r, sizes).value)
    ensures var t := AddAll(r, sizes).value;
            && Lagging(t) && Sizes(t.starts, t.end, least, most) && |t.places| == |r.places| && t.size == r.size
  {
    hide Added, Valid, Sizes;
    LagIsStale(r);
    if sizes != [] {
      LagsForever(r, sizes[..|sizes| - 1], least, most);
      var t := AddAll(r, sizes[..|sizes| - 1]).value;
      LagStays(t, sizes[|sizes| - 1], least, most);
      LagIsStale(Added(t, sizes[|sizes| - 1]).value);
    }
  }

  lemma LagIsStale(r: Ring)
    requires Lagging(r)
    ensures !Intact(r) && Usable(r)
  {
    hide PlacedFrom;
    assert r.tail < |r.starts|;
  }

  /** A ring that gets there: three records fill the buffer exactly, and three more of 24 bytes follow. */
  lemma LateWrapLags()
    ensures var r := AddAll(EmptyRing(64, 16), [24, 24, 16, 24, 24, 24]);
            r.Some? && Lagging(r.value) && Sizes(r.value.starts, r.value.end, 16, 24)
  {
    hide AddAll, Added, Lagging, Sizes, Valid;
    var r3 := FirstThree();
    var r5 := NextTwo(r3);
    LastOne(r5);
    AddOne(EmptyRing(64, 16), [24, 24, 16, 24, 24], 24);
    assert [24, 24, 16, 24, 24] + [24] == [24, 24, 16, 24, 24, 24];
  }

  lemma AddOne(r: Ring, sizes: seq<nat>, z: nat)
    requires Usable(r) && AddAll(r, sizes).Some?
    ensures AddAll(r, sizes + [z]) == Added(AddAll(r, sizes).value, z)
  {
    hide Added;
    assert (sizes + [z])[..|sizes|] == sizes;
  }

  lemma FirstThree() returns (r: Ring)
    ensures AddAll(EmptyRing(64, 16), [24, 24, 16]) == Some(r) && Valid(r) && !r.full
    ensures r.starts == [0, 24, 48] && r.end == 64 && r.tail == 0 && r.size == 64 && |r.places| == 16
  {
    hide AddAll, Added, PlacedFrom, Ascending, IntactFrom;
    var r0 := EmptyRing(64, 16);
    EmptyIsValid(64, 16);
    assert AddAll(r0, []) == Some(r0) by { AddNone(r0); }
    var r1 := NextOne(r0, [], 24);
    assert [] + [24] == [24];
    var r2 := NextOne(r0, [24], 24);
    assert [24] + [24] == [24, 24];
    r := NextOne(r0, [24, 24], 16);
    assert [24, 24] + [16] == [24, 24, 16];
  }

  lemma AddNone(r: Ring)
    requires Usable(r)
    ensures AddAll(r, []) == Some(r)
  {
  }

  lemma NextTwo(r3: Ring) returns (r: Ring)
    requires AddAll(EmptyRing(64, 16), [24, 24, 16]) == Some(r3) && Valid(r3) && !r3.full
    requires r3.starts == [0, 24, 48] && r3.end == 64 && r3.tail == 0 && r3.size == 64 && |r3.places| == 16
    ensures AddAll(EmptyRing(64, 16), [24, 24, 16, 24, 24]) == Some(r) && Valid(r)
    ensures r.starts == [0, 24, 48, 64, 88] && r.end == 112 && r.tail == 0 && r.size == 64 && |r.places| == 16
  {
    hide AddAll, Added, PlacedFrom, Ascending, IntactFrom;
    var r0 := EmptyRing(64, 16);
    var r4 := NextOne(r0, [24, 24, 16], 24);
    assert [24, 24, 16] + [24] == [24, 24, 16, 24];
    r := NextOne(r0, [24, 24, 16, 24], 24);
    assert [24, 24, 16, 24] + [24] == [24, 24, 16, 24, 24];
  }

  lemma NextOne(r: Ring, sizes: seq<nat>, z: nat) returns (t: Ring)
    requires Usable(r) && AddAll(r, sizes).Some? && Valid(AddAll(r, sizes).value)
    requires var s := AddAll(r, sizes).value; Fits(s, z) && !Prepared(s, z).full
    ensures AddAll(r, sizes + [z]) == Some(t) && Valid(t)
    ensures var s := AddAll(r, sizes).value;
            && t.starts == s.starts + [s.end] && t.end == s.end + z && t.size == s.size && |t.places| == |s.places|
            && t.tail == Prepared(s, z).tail && !t.full
  {
    hide AddAll, Added, PlacedFrom, Ascending;
    AddOne(r, sizes, z);
    var s := AddAll(r, sizes).value;
    AddRecordValid(s, z);
    MissedWrap(s, z);
    t := Added(s, z).value;
  }

  lemma LastOne(r: Ring)
    requires Valid(r) && r.starts == [0, 24, 48, 64, 88] && r.end == 112 && r.tail == 0 && r.size == 64
    requires |r.places| == 16
    ensures Added(r, 24).Some? && Lagging(Added(r, 24).value)
    ensures Sizes(Added(r, 24).value.starts, Added(r, 24).value.end, 16, 24)
  {
    hide PlacedFrom, Ascending;
    AddRecordValid(r, 24);
    PlacedAt(r.places, r.starts, 0, 64);
    PlacedLater(r.places, r.starts, 0, 1, 64);
    PlacedAt(r.places, r.starts, 1, 64);
    var p := Prepared(r, 24);
    assert Eaten(p.(tail := 1), 48, 24) == Some(p.(tail := 1));
    assert Eaten(p, 48, 24) == Some(p.(tail := 1));
    assert Added(r, 24).value.tail == 1;
  }

  // ---------------------------------------------------------------- many records

  /** The first of the records up to perfHead, if there is one, fits: the buffer together with the last one
      that the ring has been told of, or the rest of the buffer if there is none.  All others fit because
      together they are less than a buffer. */
  predicate FirstFits(r: Ring, headers: seq<nat>, perfHead: nat)
    requires Usable(r) && |headers| == r.size && r.end <= perfHead
  {
    var z := headers[Place(r.end, r.size)];
    r.end == perfHead || z == 0 || z > perfHead - r.end || Fits(r, z)
  }

  /** Where they start. */
  function Found(headers: seq<nat>, pos: nat, limit: nat): seq<nat>
    requires |headers| > 0 && pos <= limit
    decreases limit - pos
  {
    var z := headers[Place(pos, |headers|)];
    if pos == limit || z == 0 || z > limit - pos then [] else [pos] + Found(headers, pos + z, limit)
  }

  function SizeAt(headers: seq<nat>, pos: nat): nat
    requires |headers| > 0
  {
    headers[Place(pos, |headers|)]
  }

  /** One record after the other from pos on, each with a size and none beyond the limit. */
  ghost predicate Chain(headers: seq<nat>, pos: nat, limit: nat, f: seq<nat>)
    requires |headers| > 0
  {
    && (f != [] ==> f[0] == pos)
    && (forall i :: 0 <= i < |f| ==> 0 < SizeAt(headers, f[i]) <= limit - f[i])
    && (forall i {:trigger f[i]} :: 0 < i < |f| ==> f[i] == f[i - 1] + SizeAt(headers, f[i - 1]))
  }

  /** Where it ends. */
  function EndOf(headers: seq<nat>, pos: nat, f: seq<nat>): nat
    requires |headers| > 0
  {
    if f == [] then pos else f[|f| - 1] + SizeAt(headers, f[|f| - 1])
  }

  /** All records are found, until there is no more such record. */
  lemma {:induction false} FoundExact(headers: seq<nat>, pos: nat, limit: nat)
    requires |headers| > 0 && pos <= limit
    ensures var f := Found(headers, pos, limit);
            && Chain(headers, pos, limit, f)
            && (var end := EndOf(headers, pos, f);
                end == limit || SizeAt(headers, end) == 0 || end + SizeAt(headers, end) > limit)
    decreases limit - pos
  {
    hide SizeAt, Found, Chain;
    FoundStep(headers, pos, limit);
    var z := SizeAt(headers, pos);
    if pos != limit && 0 < z <= limit - pos {
      FoundExact(headers, pos + z, limit);
      ChainMore(headers, pos, limit, Found(headers, pos + z, limit));
    } else {
      NoChain(headers, pos, limit);
    }
  }

  lemma NoChain(headers: seq<nat>, pos: nat, limit: nat)
    requires |headers| > 0
    ensures Chain(headers, pos, limit, [])
  {
  }

  lemma FoundStep(headers: seq<nat>, pos: nat, limit: nat)
    requires |headers| > 0 && pos <= limit
    ensures var z := SizeAt(headers, pos);
            Found(headers, pos, limit) == if pos == limit || z == 0 || z > limit - pos then []
                                          else [pos] + Found(headers, pos + z, limit)
  {
  }

  lemma ChainMore(headers: seq<nat>, pos: nat, limit: nat, rest: seq<nat>)
    requires |headers| > 0 && 0 < SizeAt(headers, pos) <= limit - pos
    requires Chain(headers, pos + SizeAt(headers, pos), limit, rest)
    ensures Chain(headers, pos, limit, [pos] + rest)
    ensures EndOf(headers, pos, [pos] + rest) == EndOf(headers, pos + SizeAt(headers, pos), rest)
  {
    hide SizeAt;
    var f := [pos] + rest;
    forall i | 0 < i < |f| ensures f[i] == f[i - 1] + SizeAt(headers, f[i - 1]) {
      if i > 1 { assert rest[i - 1] == rest[i - 2] + SizeAt(headers, rest[i - 2]); }
    }
  }

  /** They fill the space between the positions, and none ends just where the buffer does. */
  predicate Complete(headers: seq<nat>, pos: nat, limit: nat)
    requires |headers| > 0 && pos <= limit
    decreases limit - pos
  {
    var z := headers[Place(pos, |headers|)];
    pos == limit || (0 < z <= limit - pos && pos + z != |headers| && Complete(headers, pos + z, limit))
  }

  ghost predicate UpdateReady(r: Ring, headers: seq<nat>, perfHead: nat) {
    && Valid(r) && |headers| == r.size && r.end <= perfHead < r.end + r.size
    && FirstFits(r, headers, perfHead)
  }

  lemma {:induction false} TakeRecordsValid(r: Ring, headers: seq<nat>, perfHead: nat)
    requires UpdateReady(r, headers, perfHead)
    ensures Taken(r, headers, perfHead).Some?
    ensures var t := Taken(r, headers, perfHead).value;
            Valid(t) && t.end <= perfHead && t.starts == r.starts + Found(headers, r.end, perfHead)
    ensures var t := Taken(r, headers, perfHead).value;
            Watching(r) && Intact(r) && Complete(headers, r.end, perfHead)
            ==> Watching(t) && Intact(t) && t.end == perfHead
    decreases perfHead - r.end
  {
    hide PlacedFrom, Ascending, IntactFrom, Eaten, Added;
    var z := headers[Place(r.end, r.size)];
    if r.end < perfHead {
      PlaceInFirstRound(perfHead - r.end, r.size);
      if 0 < z <= perfHead - r.end {
        AddRecordValid(r, z);
        if Watching(r) && Intact(r) { AddRecordIntact(r, z); }
        var r1 := Added(r, z).value;
        TakeRecordsValid(r1, headers, perfHead);
        assert r.starts + Found(headers, r.end, perfHead) == r1.starts + Found(headers, r1.end, perfHead);
      }
    } else {
      PlaceInFirstRound(0, r.size);
    }
  }

  /** Whatever the headers between tail and head of the perf buffer say, as long as the first record fits the
      buffer together with the last one: the update ends, what it kept is in place, and if the records fill
      the space and none ends just where the buffer does, nothing that is kept has been overwritten. */
  lemma UpdateKeeps(r: Ring, headers: seq<nat>, perfHead: nat)
    requires UpdateReady(r, headers, perfHead)
    ensures Updated(r, headers, perfHead).Some?
    ensures var t := Updated(r, headers, perfHead).value;
            && t.end == perfHead && t.starts == r.starts + Found(headers, r.end, perfHead)
            && Valid(t)
            && (Watching(r) && Intact(r) && Complete(headers, r.end, perfHead) ==> Watching(t) && Intact(t))
  {
    hide PlacedFrom, Ascending, IntactFrom, Taken, FirstFits, Found, Complete;
    TakeRecordsValid(r, headers, perfHead);
  }

  // ---------------------------------------------------------------- the object

  class HeaderBuffer {
    const bufferSize: nat
    const offsets: array<nat>
    var head: nat
    var tail: nat
    var full: bool
    /** data_tail of the mapped page: up to here the kernel may overwrite. */
    var dataTail: nat
    ghost var starts: seq<nat>

    ghost function State(end: nat): Ring
      reads this, offsets
    {
      Ring(bufferSize, offsets[..], head, tail, full, starts, end)
    }

    constructor (bufferSize: nat, len: nat)
      requires bufferSize > 0 && len >= 2
      ensures fresh(offsets) && State(dataTail) == EmptyRing(bufferSize, len)
    {
      this.bufferSize := bufferSize;
      offsets := new nat[len](_ => 0);
      head, tail, full, dataTail, starts := 0, 0, false, 0, [];
      new;
      assert offsets[..] == seq(len, _ => 0);
    }

    method EatTail(ghost end: nat, perfOffset: nat, z: nat)
      requires Usable(State(end)) && Eaten(State(end), perfOffset, z).Some?
      modifies `tail
      ensures Some(State(end)) == Eaten(old(State(end)), perfOffset, z)
    {
      hide Place;
      while true
        invariant Eaten(State(end), perfOffset, z) == Eaten(old(State(end)), perfOffset, z)
        decreases head - tail
      {
        assert offsets[Place(tail, offsets.Length)] == State(end).places[Place(tail, offsets.Length)];
        var tailOffset := offsets[Place(tail, offsets.Length)];
        if tailOffset < perfOffset {
          tailOffset := tailOffset + bufferSize;
        }
        if perfOffset + z < tailOffset {
          break;
        }
        tail := tail + 1;
      }
    }

    method AddRecord(perfTail: nat, z: nat)
      requires Usable(State(perfTail)) && Added(State(perfTail), z).Some?
      modifies `head, `tail, `full, `starts, offsets
      ensures Some(State(perfTail + z)) == Added(old(State(perfTail)), z)
    {
      hide Place, Eaten;
      var perfOffset: nat := Place(perfTail, bufferSize);
      if perfOffset + z > bufferSize {
        full := true;
      }
      if head == tail + offsets.Length {
        tail := tail + 1;
      }
      if full {
        EatTail(perfTail, perfOffset, z);
      }
      ghost var places := offsets[..];
      offsets[Place(head, offsets.Length)] := perfOffset;
      assert offsets[..] == places[Place(head, offsets.Length) := perfOffset];
      head, starts := head + 1, starts + [perfTail];
    }

    method Update(headers: seq<nat>, perfHead: nat)
      requires UpdateReady(State(dataTail), headers, perfHead)
      modifies this, offsets
      ensures dataTail == perfHead
      ensures Some(State(dataTail)) == Updated(old(State(dataTail)), headers, perfHead)
    {
      hide Place, Added, UpdateReady;
      Readied(State(dataTail), headers, perfHead);
      var perfTail := dataTail;
      while Place(perfHead - perfTail, bufferSize) != 0
        invariant Usable(State(perfTail)) && |headers| == bufferSize && perfTail <= perfHead
        invariant Taken(State(perfTail), headers, perfHead) == Taken(old(State(dataTail)), headers, perfHead)
        decreases perfHead - perfTail
      {
        var z := headers[Place(perfTail, bufferSize)];
        if z == 0 || z > perfHead - perfTail {
          break;
        }
        AddRecord(perfTail, z);
        perfTail := perfTail + z;
      }
      dataTail := perfHead;
    }
  }

  lemma Readied(r: Ring, headers: seq<nat>, perfHead: nat)
    requires UpdateReady(r, headers, perfHead)
    ensures Usable(r) && |headers| == r.size && r.end <= perfHead && Taken(r, headers, perfHead).Some?
  {
    TakeRecordsValid(r, headers, perfHead);
  }
}
