/** Which stream a close request closes, what that does, and which request each acknowledgement answers
    (handle_close_stream in server/gputop-server.c, gputop_perf_stream_close in server/gputop-perf.c).
 */
module CloseRequests {
  import opened Common
  import opened CloseProtocol

  // ---------------------------------------------------------------- the stream that is meant

  /** The first listed stream with the given id is at index i. */
  ghost predicate FirstWithId(s: ServerState, id: nat, i: nat) {
    && (forall j :: 0 <= j < |s.streams| ==> s.streams[j] in s.objects)
    && i < |s.streams| && s.objects[s.streams[i]].id == id
    && forall j :: 0 <= j < i ==> s.objects[s.streams[j]].id != id
  }

  ghost predicate NoneWithId(s: ServerState, id: nat) {
    forall j :: 0 <= j < |s.streams| ==> s.streams[j] in s.objects && s.objects[s.streams[j]].id != id
  }

  lemma {:induction false} WithIdIsFirst(s: ServerState, l: seq<Address>, id: nat) returns (i: nat)
    requires forall j :: 0 <= j < |l| ==> l[j] in s.objects
    ensures i <= |l| && forall j :: 0 <= j < i ==> s.objects[l[j]].id != id
    ensures if i == |l| then WithId(s, l, id).None? else s.objects[l[i]].id == id && WithId(s, l, id) == Some(l[i])
  {
    i := 0;
    if l != [] && s.objects[l[0]].id != id {
      i := WithIdIsFirst(s, l[1..], id);
      i := i + 1;
      forall j | 0 <= j < i ensures s.objects[l[j]].id != id {
        if j > 0 { assert l[j] == l[1..][j - 1]; }
      }
    }
  }

  lemma {:induction false} RemoveAt(l: seq<Address>, i: nat)
    requires NoDuplicates(l) && i < |l|
    ensures Remove(l, l[i]) == l[..i] + l[i + 1..]
  {
    if i > 0 {
      assert l[0] != l[i] && l[1..][i - 1] == l[i];
      RemoveAt(l[1..], i - 1);
      assert l[..i] == [l[0]] + l[1..][..i - 1] && l[1..][i..] == l[i + 1..];
    }
  }

  lemma {:induction false} RemoveNothing(l: seq<Address>, p: Address)
    requires p !in l
    ensures Remove(l, p) == l
  {
    if l != [] {
      RemoveNothing(l[1..], p);
    }
  }

  lemma RemoveEnd(l: seq<Address>, p: Address)
    requires p !in l
    ensures Remove(l + [p], p) == l
    decreases |l|
  {
    if l != [] {
      assert (l + [p])[1..] == l[1..] + [p];
      RemoveEnd(l[1..], p);
    } else {
      assert [p][1..] == [];
    }
  }

  // ---------------------------------------------------------------- what closing does

  /** A libuv handle has to be closed first: the timer of CPU statistics and of a fake i915 stream, or the
      poll handle of an open file. */
  predicate HasHandle(x: Stream) {
    x.kind.Cpu? || x.fd >= 0 || (x.kind.I915Perf? && x.fd == -1)
  }

  /** Stream p with the given uuid has gone, and what it was has been told in this order. */
  function ClosedDown(s: ServerState, p: Address, uuid: nat, told: seq<Action>): ServerState {
    s.(objects := s.objects - {p}, acked := s.acked[p := uuid],
       trace := s.trace + told + [Action(Closed, p), Action(Ack, p), Action(Notify, p), Action(Free, p)])
  }

  lemma FinishExact(s: ServerState, p: Address)
    requires p in s.objects && s.objects[p].refCount == 1 && s.objects[p].uuid.Some?
    ensures FinishClose(s, p)
         == Some(ClosedDown(s, p, s.objects[p].uuid.value, [])
                 .(streams := Remove(s.streams, p), closing := Remove(s.closing, p)))
  {
    hide Remove;
    var x := s.objects[p];
    var t := FinishClose(s, p).value;
    assert t.objects == s.objects - {p};
    assert t.trace == s.trace + [] + [Action(Closed, p), Action(Ack, p), Action(Notify, p), Action(Free, p)];
  }

  /** A request for an id that no listed stream has changes nothing.  Otherwise the first one that has it is
      taken off the list, gets the uuid and - unless a message is still being read - is closed: at once, or
      with its handle.  Nothing else changes. */
  lemma CloseRequestExact(s: ServerState, id: nat, uuid: nat) returns (i: nat)
    requires Valid(s)
    ensures HandleCloseStream(s, id, uuid).Some?
    ensures NoneWithId(s, id) || FirstWithId(s, id, i)
    ensures NoneWithId(s, id) ==> HandleCloseStream(s, id, uuid).value == s
    ensures FirstWithId(s, id, i) ==> HandleCloseStream(s, id, uuid).value == Requested(s, i, uuid)
  {
    hide Remove, WithId, FinishClose, PhaseOf;
    AllListed(s);
    i := WithIdIsFirst(s, s.streams, id);
    if i < |s.streams| {
      RequestMoves(s, id, uuid, i);
    }
  }

  /** The stream at index i, which is not closing yet, is asked to close. */
  lemma RequestMoves(s: ServerState, id: nat, uuid: nat, i: nat)
    requires Valid(s) && i < |s.streams| && WithId(s, s.streams, id) == Some(s.streams[i])
    ensures HandleCloseStream(s, id, uuid) == Some(Requested(s, i, uuid))
  {
    hide WithId, PhaseOf, Remove, FinishClose;
    AllListed(s);
    var p := s.streams[i];
    var x := s.objects[p];
    assert At(s, p);
    RemoveAt(s.streams, i);
    var y := x.(uuid := Some(uuid), pendingClose := true);
    var s1 := Note(s.(objects := s.objects[p := y], streams := s.streams[..i] + s.streams[i + 1..],
                      closing := s.closing + [p]), Request, p);
    if !x.flushing {
      NotListed(s, i);
      CloseMoves(s1, s.closing, p);
      if !HasHandle(x) {
        assert s1.objects - {p} == s.objects - {p};
        assert s1.trace + [Action(Close, p)] + [Action(Closed, p), Action(Ack, p), Action(Notify, p), Action(Free, p)]
            == s.trace + [Action(Request, p), Action(Close, p)]
               + [Action(Closed, p), Action(Ack, p), Action(Notify, p), Action(Free, p)];
      } else {
        assert s.trace + [Action(Request, p)] + [Action(Close, p)] == s.trace + [Action(Request, p), Action(Close, p)];
        assert s1.objects[p := y.(closingHandles := 1)] == s.objects[p := y.(closingHandles := 1)];
      }
    }
  }

  lemma NotListed(s: ServerState, i: nat)
    requires NoDuplicates(s.streams) && i < |s.streams|
    ensures s.streams[i] !in s.streams[..i] + s.streams[i + 1..]
  {
  }

  /** Closing a stream that is no longer in the middle of a message. */
  lemma CloseMoves(s: ServerState, closing: seq<Address>, p: Address)
    requires p in s.objects && s.objects[p].refCount == 1 && s.objects[p].uuid.Some? && s.objects[p].closingHandles == 0
    requires p !in s.streams && p !in closing && s.closing == closing + [p]
    ensures CloseStream(s, p) ==
              Some(if HasHandle(s.objects[p])
                   then s.(objects := s.objects[p := s.objects[p].(closingHandles := 1)],
                           handles := s.handles + multiset{p}, trace := s.trace + [Action(Close, p)])
                   else
                     ClosedDown(s, p, s.objects[p].uuid.value, [Action(Close, p)]).(closing := closing))
  {
    hide CloseStream, Remove;
    CloseFrom(s, p);
    RemoveEnd(closing, p);
  }

  /** What the request leaves. */
  function Requested(s: ServerState, i: nat, uuid: nat): ServerState
    requires i < |s.streams| && s.streams[i] in s.objects
  {
    var p, x := s.streams[i], s.objects[s.streams[i]];
    var s1 := s.(streams := s.streams[..i] + s.streams[i + 1..]);
    var y := x.(uuid := Some(uuid), pendingClose := true);
    if x.flushing then
      s1.(objects := s.objects[p := y], closing := s.closing + [p], trace := s.trace + [Action(Request, p)])
    else if HasHandle(x) then
      s1.(objects := s.objects[p := y.(closingHandles := 1)], closing := s.closing + [p],
          handles := s.handles + multiset{p}, trace := s.trace + [Action(Request, p), Action(Close, p)])
    else
      ClosedDown(s1, p, uuid, [Action(Request, p), Action(Close, p)])
  }

  lemma AllListed(s: ServerState)
    requires Valid(s)
    ensures forall j :: 0 <= j < |s.streams| ==> s.streams[j] in s.objects
    ensures NoDuplicates(s.streams)
    ensures forall p :: p in s.streams ==> p !in s.closing
  {
    hide At, NoDuplicates;
    forall j | 0 <= j < |s.streams| ensures s.streams[j] in s.objects {
      assert s.streams[j] in s.streams;
    }
  }

  /** What is known of a stream with a message or a handle. */
  lemma Occupied(s: ServerState, p: Address)
    requires Valid(s) && (p in s.sources || p in s.handles)
    ensures p in s.objects && s.objects[p].refCount == 1 && (s.objects[p].pendingClose <==> s.objects[p].uuid.Some?)
    ensures s.objects[p].pendingClose ==> p !in s.streams
    ensures p in s.sources ==> s.objects[p].closingHandles == 0
    ensures p in s.handles ==> s.objects[p].pendingClose && s.objects[p].closingHandles > 0
  {
    hide PhaseOf, NoDuplicates;
    assert At(s, p);
  }

  /** What the last piece of a message leaves: a stream that has been asked to close is now closed. */
  function LastRead(s: ServerState, p: Address): ServerState
    requires p in s.objects && (s.objects[p].pendingClose ==> s.objects[p].uuid.Some?)
  {
    var x := s.objects[p].(flushing := false);
    var s1 := s.(sources := s.sources - multiset{p});
    if !x.pendingClose then s1.(objects := s.objects[p := x], trace := s.trace + [Action(LastPiece, p)])
    else if HasHandle(x) then
      s1.(objects := s.objects[p := x.(closingHandles := 1)], handles := s.handles + multiset{p},
          trace := s.trace + [Action(LastPiece, p), Action(Close, p)])
    else
      ClosedDown(s1, p, x.uuid.value, [Action(LastPiece, p), Action(Close, p)]).(closing := Remove(s.closing, p))
  }

  lemma LastPieceExact(s: ServerState, p: Address)
    requires Valid(s) && p in s.sources
    ensures p in s.objects && (s.objects[p].pendingClose ==> s.objects[p].uuid.Some?)
    ensures ReadPiece(s, p, true) == Some(LastRead(s, p))
  {
    hide Valid, Remove, CloseStream;
    Occupied(s, p);
    var x := s.objects[p].(flushing := false);
    if x.pendingClose {
      var s1 := Note(s.(objects := s.objects[p := x], sources := s.sources - multiset{p}), LastPiece, p);
      CloseFrom(s1, p);
      assert s.trace + [Action(LastPiece, p)] + [Action(Close, p)]
          == s.trace + [Action(LastPiece, p), Action(Close, p)];
      if HasHandle(x) {
        assert s1.objects[p := x.(closingHandles := 1)] == s.objects[p := x.(closingHandles := 1)];
      } else {
        assert s1.objects - {p} == s.objects - {p};
      }
    }
  }

  lemma CloseFrom(s: ServerState, p: Address)
    requires p in s.objects && s.objects[p].refCount == 1 && s.objects[p].uuid.Some? && s.objects[p].closingHandles == 0
    requires p !in s.streams
    ensures CloseStream(s, p) ==
              Some(if HasHandle(s.objects[p])
                   then s.(objects := s.objects[p := s.objects[p].(closingHandles := 1)],
                           handles := s.handles + multiset{p}, trace := s.trace + [Action(Close, p)])
                   else
                     ClosedDown(s, p, s.objects[p].uuid.value, [Action(Close, p)]).(closing := Remove(s.closing, p)))
  {
    hide FinishClose, Remove;
    var n := OpenHandles(s.objects[p]);
    assert n == if HasHandle(s.objects[p]) then 1 else 0;
    assert Times(p, n) == if n == 1 then multiset{p} else multiset{};
    if n == 0 {
      var s1 := Note(s.(handles := s.handles + Times(p, n)), Close, p);
      assert s.objects[p := s.objects[p].(closingHandles := 0)] == s.objects;
      FinishExact(s1, p);
      RemoveNothing(s.streams, p);
      assert s.handles + Times(p, n) == s.handles;
      assert (s.trace + [Action(Close, p)]) + [] == s.trace + [Action(Close, p)];
    }
  }

  /** The last handle of a stream finishes it. */
  lemma LastHandleExact(s: ServerState, p: Address)
    requires Valid(s) && p in s.handles
    ensures p in s.objects && s.objects[p].uuid.Some? && HandleClosed(s, p).Some?
    ensures var x, s1 := s.objects[p], s.(handles := s.handles - multiset{p});
            HandleClosed(s, p).value ==
              if x.closingHandles > 1
              then s1.(objects := s.objects[p := x.(closingHandles := x.closingHandles - 1)])
              else ClosedDown(s1, p, x.uuid.value, []).(closing := Remove(s.closing, p))
  {
    hide Valid, HandleClosed, ClosedDown;
    Occupied(s, p);
    if s.objects[p].closingHandles == 1 { HandleEnds(s, p); } else { HandleLeft(s, p); }
  }

  lemma HandleLeft(s: ServerState, p: Address)
    requires p in s.objects && s.objects[p].closingHandles > 1
    ensures HandleClosed(s, p)
         == Some(s.(handles := s.handles - multiset{p},
                    objects := s.objects[p := s.objects[p].(closingHandles := s.objects[p].closingHandles - 1)]))
  {
  }

  lemma HandleEnds(s: ServerState, p: Address)
    requires p in s.objects && s.objects[p].refCount == 1 && s.objects[p].uuid.Some? && s.objects[p].closingHandles == 1
    requires p !in s.streams
    ensures HandleClosed(s, p)
         == Some(ClosedDown(s.(handles := s.handles - multiset{p}), p, s.objects[p].uuid.value, [])
                 .(closing := Remove(s.closing, p)))
  {
    hide Remove, FinishClose;
    var x := s.objects[p].(closingHandles := 0);
    var s1 := s.(objects := s.objects[p := x], handles := s.handles - multiset{p});
    FinishExact(s1, p);
    RemoveNothing(s.streams, p);
    assert s1.objects - {p} == s.objects - {p};
  }

  // ---------------------------------------------------------------- whole runs

  /** The streams that have been opened, in order: the n-th one has address n. */
  function Opens(events: seq<Event>): (o: seq<Event>)
    ensures forall i :: 0 <= i < |o| ==> o[i].OpenEvent?
  {
    if events == [] then []
    else
      var e := events[|events| - 1];
      Opens(events[..|events| - 1]) + if e.OpenEvent? then [e] else []
  }

  predicate OpenedAs(x: Stream, e: Event) {
    e.OpenEvent? && x.kind == e.kind && x.fd == e.fd && x.id == e.id && x.liveUpdates == e.liveUpdates
  }

  predicate SameStream(x: Stream, y: Stream) {
    x.kind == y.kind && x.fd == y.fd && x.id == y.id && x.liveUpdates == y.liveUpdates
  }

  predicate AsksFor(e: Event, id: nat) {
    e.CloseEvent? && e.id == id
  }

  /** Where stream p, as it is after event e, comes from. */
  predicate ComesFrom(s: ServerState, e: Event, p: Address, y: Stream) {
    if p == s.next then OpenedAs(y, e) && y.uuid.None?
    else
      && p in s.objects && SameStream(s.objects[p], y)
      && (y.uuid == s.objects[p].uuid || (AsksFor(e, y.id) && y.uuid == Some(e.uuid)))
  }

  /** And the uuid that it has been acknowledged with. */
  predicate AckFrom(s: ServerState, e: Event, p: Address, u: nat) {
    || (p in s.acked && s.acked[p] == u)
    || (p in s.objects && (s.objects[p].uuid == Some(u) || (AsksFor(e, s.objects[p].id) && e.uuid == u)))
  }

  predicate MayTell(s: ServerState, e: Event, a: Action) {
    a.what == Request ==> a.stream in s.objects && AsksFor(e, s.objects[a.stream].id)
  }

  ghost predicate Follows(s: ServerState, e: Event, t: ServerState, told: seq<Action>) {
    && t.next == s.next + (if e.OpenEvent? then 1 else 0) && t.trace == s.trace + told
    && (forall p :: p in t.objects ==> ComesFrom(s, e, p, t.objects[p]))
    && (forall p :: p in t.acked ==> AckFrom(s, e, p, t.acked[p]))
    && (forall p :: p in t.acked <==> p in s.acked || Action(Ack, p) in told)
    && (forall i :: 0 <= i < |told| ==> MayTell(s, e, told[i]))
  }

  lemma StepFollows(s: ServerState, e: Event) returns (told: seq<Action>)
    requires Valid(s)
    ensures Step(s, e).Some? && Follows(s, e, Step(s, e).value, told)
  {
    hide Valid, PhaseOf, Remove, HandleCloseStream, HandleClosed, Follows;
    told := [];
    Addresses(s);
    if Enabled(s, e) {
      match e {
        case OpenEvent(kind, fd, id, live) => told := OpenFollows(s, e);
        case UpdateEvent(p, pending) => told := UpdateFollows(s, e);
        case PieceEvent(p, eof) => told := PieceFollows(s, e);
        case CloseEvent(id, uuid) => told := RequestFollows(s, e);
        case HandleEvent(p) => told := HandleFollows(s, e);
      }
    } else {
      assert Follows(s, e, s, []) by { NothingFollows(s, e); }
    }
  }

  lemma Addresses(s: ServerState)
    requires Valid(s)
    ensures forall p :: p in s.objects ==> p != s.next && p < s.next
    ensures forall p :: p in s.streams ==> p in s.objects
  {
    hide PhaseOf;
    forall p | p in s.objects ensures p < s.next {
      assert At(s, p);
    }
  }

  lemma NothingFollows(s: ServerState, e: Event)
    requires s.next !in s.objects && !e.OpenEvent?
    ensures Follows(s, e, s, [])
  {
  }

  lemma OpenFollows(s: ServerState, e: Event) returns (told: seq<Action>)
    requires s.next !in s.objects && e.OpenEvent?
    ensures Step(s, e).Some? && Follows(s, e, Step(s, e).value, told)
  {
    told := [Action(Opened, s.next)];
  }

  /** One stream changes, and none is acknowledged. */
  lemma OneChanges(s: ServerState, e: Event, t: ServerState, p: Address, y: Stream, told: seq<Action>)
    requires s.next !in s.objects && !e.OpenEvent? && p in s.objects && ComesFrom(s, e, p, y)
    requires t.objects == s.objects[p := y] && t.next == s.next && t.acked == s.acked && t.trace == s.trace + told
    requires forall a :: a in told ==> !a.what.Ack? && MayTell(s, e, a)
    ensures Follows(s, e, t, told)
  {
    hide MayTell, AckFrom;
    forall q | q in t.acked ensures AckFrom(s, e, q, t.acked[q]) {
      StaysAcked(s, e, q);
    }
    forall q | q in t.objects ensures ComesFrom(s, e, q, t.objects[q]) {
    }
  }

  lemma StaysAcked(s: ServerState, e: Event, p: Address)
    requires p in s.acked
    ensures AckFrom(s, e, p, s.acked[p])
  {
  }

  /** One stream is finished. */
  lemma OneEnds(s: ServerState, e: Event, t: ServerState, p: Address, u: nat, told: seq<Action>)
    requires s.next !in s.objects && !e.OpenEvent? && p in s.objects && AckFrom(s, e, p, u)
    requires t.objects == s.objects - {p} && t.next == s.next && t.acked == s.acked[p := u]
    requires t.trace == s.trace + told && Action(Ack, p) in told
    requires forall a :: a in told ==> a.stream == p && MayTell(s, e, a)
    ensures Follows(s, e, t, told)
  {
    hide MayTell, AckFrom;
    forall q | q in t.acked ensures AckFrom(s, e, q, t.acked[q]) {
      if q != p { StaysAcked(s, e, q); }
    }
  }

  /** What is told when a stream is finished. */
  function Ending(p: Address, before: seq<Action>): (told: seq<Action>)
    ensures Action(Ack, p) in told
    ensures forall a :: a in told ==> a in before || (a.stream == p && a.what != Request)
  {
    assert (before + [Action(Closed, p), Action(Ack, p), Action(Notify, p), Action(Free, p)])[|before| + 1]
        == Action(Ack, p);
    before + [Action(Closed, p), Action(Ack, p), Action(Notify, p), Action(Free, p)]
  }

  lemma TellsEnding(s: ServerState, p: Address, u: nat, before: seq<Action>)
    ensures ClosedDown(s, p, u, before).trace == s.trace + Ending(p, before)
  {
    var last := [Action(Closed, p), Action(Ack, p), Action(Notify, p), Action(Free, p)];
    assert s.trace + before + last == s.trace + (before + last);
  }

  lemma UpdateFollows(s: ServerState, e: Event) returns (told: seq<Action>)
    requires Valid(s) && s.next !in s.objects && e.UpdateEvent? && e.stream in s.streams
    ensures Step(s, e).Some? && Follows(s, e, Step(s, e).value, told)
  {
    hide Valid, Follows;
    UpdateStreamValid(s, e.stream, e.pending);
    var p, t := e.stream, Step(s, e).value;
    told := t.trace[|s.trace|..];
    assert s.objects[p := s.objects[p]] == s.objects && t.trace == s.trace + told;
    OneChanges(s, e, t, p, t.objects[p], told);
  }

  lemma PieceFollows(s: ServerState, e: Event) returns (told: seq<Action>)
    requires Valid(s) && s.next !in s.objects && e.PieceEvent? && e.stream in s.sources
    ensures Step(s, e).Some? && Follows(s, e, Step(s, e).value, told)
  {
    hide Valid, Remove, Follows, ReadPiece;
    Occupied(s, e.stream);
    var p := e.stream;
    if !e.eof {
      told := [Action(Piece, p)];
      PieceTold(s, p);
      assert s.objects[p := s.objects[p]] == s.objects;
      OneChanges(s, e, Step(s, e).value, p, s.objects[p], told);
    } else {
      LastPieceExact(s, p);
      var t := LastRead(s, p);
      if p in t.objects {
        told := if s.objects[p].pendingClose then [Action(LastPiece, p), Action(Close, p)] else [Action(LastPiece, p)];
        OneChanges(s, e, t, p, t.objects[p], told);
      } else {
        var before := [Action(LastPiece, p), Action(Close, p)];
        told := Ending(p, before);
        TellsEnding(s, p, s.objects[p].uuid.value, before);
        OneEnds(s, e, t, p, s.objects[p].uuid.value, told);
      }
    }
  }

  lemma PieceTold(s: ServerState, p: Address)
    requires p in s.objects
    ensures ReadPiece(s, p, false) == Some(Note(s, Piece, p))
  {
  }

  lemma HandleFollows(s: ServerState, e: Event) returns (told: seq<Action>)
    requires Valid(s) && s.next !in s.objects && e.HandleEvent? && e.stream in s.handles
    ensures Step(s, e).Some? && Follows(s, e, Step(s, e).value, told)
  {
    hide Valid, Remove, HandleClosed, Follows;
    LastHandleExact(s, e.stream);
    var p, t := e.stream, Step(s, e).value;
    if p in t.objects {
      told := [];
      OneChanges(s, e, t, p, t.objects[p], told);
    } else {
      told := Ending(p, []);
      TellsEnding(s, p, s.objects[p].uuid.value, []);
      OneEnds(s, e, t, p, s.objects[p].uuid.value, told);
    }
  }

  lemma RequestFollows(s: ServerState, e: Event) returns (told: seq<Action>)
    requires Valid(s) && s.next !in s.objects && e.CloseEvent?
    ensures Step(s, e).Some? && Follows(s, e, Step(s, e).value, told)
  {
    hide Valid, HandleCloseStream, Follows;
    var i := CloseRequestExact(s, e.id, e.uuid);
    if NoneWithId(s, e.id) {
      told := [];
      NothingFollows(s, e);
    } else {
      var p, t := s.streams[i], Requested(s, i, e.uuid);
      var x := s.objects[p];
      if p in t.objects {
        told := if x.flushing then [Action(Request, p)] else [Action(Request, p), Action(Close, p)];
        OneChanges(s, e, t, p, t.objects[p], told);
      } else {
        var before := [Action(Request, p), Action(Close, p)];
        told := Ending(p, before);
        TellsEnding(s, p, e.uuid, before);
        OneEnds(s, e, t, p, e.uuid, told);
      }
    }
  }

  /** Event j asks for stream p, by its id, with uuid u, after p has been opened. */
  predicate IsRequest(events: seq<Event>, j: nat, p: Address, u: nat) {
    && j < |events| && p < |Opens(events[..j])|
    && events[j] == CloseEvent(Opens(events[..j])[p].id, u)
  }

  /** What the events say of the streams that there are, and of those that have been acknowledged. */
  ghost predicate Caused(events: seq<Event>, s: ServerState) {
    && s.next == |Opens(events)|
    && (forall p :: p in s.objects ==>
          && p < s.next && OpenedAs(s.objects[p], Opens(events)[p])
          && (s.objects[p].uuid.Some? ==> exists j: nat :: IsRequest(events, j, p, s.objects[p].uuid.value)))
    && (forall p :: p in s.acked ==> exists j: nat :: IsRequest(events, j, p, s.acked[p]))
    && (forall p :: p in s.acked <==> Action(Ack, p) in s.trace)
  }

  lemma RequestKept(events: seq<Event>, e: Event, j: nat, p: Address, u: nat)
    requires IsRequest(events, j, p, u)
    ensures IsRequest(events + [e], j, p, u)
  {
    assert (events + [e])[..j] == events[..j];
  }

  lemma NewRequest(events: seq<Event>, e: Event, p: Address)
    requires e.CloseEvent? && p < |Opens(events)| && Opens(events)[p].id == e.id
    ensures IsRequest(events + [e], |events|, p, e.uuid)
  {
    assert (events + [e])[..|events|] == events;
  }

  lemma CausedOn(events: seq<Event>, s: ServerState, e: Event, t: ServerState, told: seq<Action>)
    requires Caused(events, s) && Follows(s, e, t, told)
    ensures Caused(events + [e], t)
  {
    hide IsRequest;
    var more := events + [e];
    assert more[..|more| - 1] == events;
    forall p | p in t.objects
      ensures p < t.next && OpenedAs(t.objects[p], Opens(more)[p])
      ensures t.objects[p].uuid.Some? ==> exists j: nat :: IsRequest(more, j, p, t.objects[p].uuid.value)
    {
      assert ComesFrom(s, e, p, t.objects[p]);
      if p != s.next && t.objects[p].uuid.Some? { Cause(events, s, e, p, t.objects[p].uuid.value); }
    }
    forall p | p in t.acked ensures exists j: nat :: IsRequest(more, j, p, t.acked[p]) {
      assert AckFrom(s, e, p, t.acked[p]);
      Cause(events, s, e, p, t.acked[p]);
    }
  }

  lemma Cause(events: seq<Event>, s: ServerState, e: Event, p: Address, u: nat)
    requires Caused(events, s) && AckFrom(s, e, p, u)
    ensures exists j: nat :: IsRequest(events + [e], j, p, u)
  {
    hide IsRequest, Opens;
    if j: nat :| IsRequest(events, j, p, u) {
      RequestKept(events, e, j, p, u);
    } else {
      NewRequest(events, e, p);
    }
  }

  lemma {:induction false} RunCaused(events: seq<Event>)
    ensures Run(events).Some? && Valid(Run(events).value) && Caused(events, Run(events).value)
  {
    hide Valid, Step, Caused, Orderly;
    EveryRunIsOrderly(events);
    if events == [] {
      assert Caused([], InitialServer()) by { NoCauses(); }
    } else {
      var before, e := events[..|events| - 1], events[|events| - 1];
      RunCaused(before);
      var s := Run(before).value;
      var told := StepFollows(s, e);
      CausedOn(before, s, e, Step(s, e).value, told);
      assert before + [e] == events;
    }
  }

  lemma NoCauses()
    ensures Caused([], InitialServer())
  {
  }

  /** Every acknowledgement answers a request for the stream that it is about, with that request's uuid. */
  lemma AckHasCause(events: seq<Event>, p: Address) returns (j: nat)
    requires Run(events).Some? && Action(Ack, p) in Run(events).value.trace
    ensures p in Run(events).value.acked && IsRequest(events, j, p, Run(events).value.acked[p])
  {
    hide Run, IsRequest;
    RunCaused(events);
    j :| IsRequest(events, j, p, Run(events).value.acked[p]);
  }

  /** Every stream that is asked to close is, at that moment, asked for by its id. */
  lemma {:induction false} RequestHasCause(events: seq<Event>, i: nat) returns (j: nat, u: nat)
    requires Run(events).Some? && i < |Run(events).value.trace| && Run(events).value.trace[i].what == Request
    ensures IsRequest(events, j, Run(events).value.trace[i].stream, u)
    ensures Run(events[..j]).Some? && Run(events[..j + 1]).Some?
    ensures |Run(events[..j]).value.trace| <= i < |Run(events[..j + 1]).value.trace|
  {
    hide Valid, Step, IsRequest, Opens;
    var before, e := events[..|events| - 1], events[|events| - 1];
    RunCaused(before);
    var s := Run(before).value;
    var told := StepFollows(s, e);
    var p := Run(events).value.trace[i].stream;
    assert before + [e] == events;
    if i < |s.trace| {
      j, u := RequestHasCause(before, i);
      RequestKept(before, e, j, p, u);
      JIsBefore(before, j, p, u);
      assert events[..j] == before[..j] && events[..j + 1] == before[..j + 1];
    } else {
      assert told[i - |s.trace|] == Run(events).value.trace[i] && MayTell(s, e, told[i - |s.trace|]);
      j, u := |before|, e.uuid;
      NewRequest(before, e, p);
      assert events[..j + 1] == events;
    }
  }

  lemma JIsBefore(events: seq<Event>, j: nat, p: Address, u: nat)
    requires IsRequest(events, j, p, u)
    ensures j < |events|
  {
  }
}
