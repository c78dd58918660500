/** How the server closes a stream that it may be in the middle of forwarding (server/gputop-server.c,
    server/gputop-perf.c): requests of the client, pieces of messages being read, and libuv handles that
    take their time to close come in any order.

    A stream is named by its address; following the address of a freed stream, or a failing assert(), gives
    None.  The trace records what is queued for the client and what happens to streams, in order.
 */
module CloseProtocol {
  import opened Common

  type Address = nat

  datatype Kind = Perf | I915Perf | Cpu

  datatype Stream = Stream(kind: Kind, fd: int, id: nat, liveUpdates: bool, refCount: nat,
                           flushing: bool, pendingClose: bool, closed: bool, uuid: Option<nat>, closingHandles: nat)

  datatype What = Opened | CpuData | Data | Piece | LastPiece | Fill | Request | Close | Closed | Ack | Notify | Free

  datatype Action = Action(what: What, stream: Address)

  /** `sources` are the messages still being read, `handles` the libuv handles still closing, `acked` the
      uuids with which requests have been acknowledged. */
  datatype ServerState = ServerState(objects: map<Address, Stream>, next: Address, streams: seq<Address>,
                                     closing: seq<Address>, sources: multiset<Address>, handles: multiset<Address>,
                                     acked: map<Address, nat>, trace: seq<Action>)

  function InitialServer(): ServerState {
    ServerState(map[], 0, [], [], multiset{}, multiset{}, map[], [])
  }

  function Note(s: ServerState, what: What, p: Address): ServerState {
    s.(trace := s.trace + [Action(what, p)])
  }

  // ---------------------------------------------------------------- closing

  /** stream_closed_cb, which drops the server's reference. */
  function Release(s: ServerState, p: Address): Option<ServerState> {
    if p !in s.objects || s.objects[p].refCount == 0 then None
    else
      var x := s.objects[p].(refCount := s.objects[p].refCount - 1);
      var s1 := s.(streams := Remove(s.streams, p), closing := Remove(s.closing, p), objects := s.objects[p := x]);
      if x.refCount > 0 then Some(s1)
      else if !x.closed then None
      else Some(Note(s1.(objects := s1.objects - {p}), Free, p))
  }

  /** stream_closed_notify_cb. */
  function NotifyClosed(s: ServerState, p: Address): Option<ServerState> {
    if p !in s.objects then None
    else
      var x := s.objects[p];
      var s1 := if x.uuid.None? then s
                else Note(s.(objects := s.objects[p := x.(uuid := None)], acked := s.acked[p := x.uuid.value]), Ack, p);
      Release(Note(s1, Notify, p), p)
  }

  function FinishClose(s: ServerState, p: Address): Option<ServerState> {
    if p !in s.objects then None
    else NotifyClosed(Note(s.(objects := s.objects[p := s.objects[p].(closed := true)]), Closed, p), p)
  }

  function OpenHandles(x: Stream): nat {
    match x.kind
    case Perf => if x.fd >= 0 then 1 else 0
    case I915Perf => if x.fd >= -1 then 1 else 0
    case Cpu => 1
  }

  function Times(p: Address, n: nat): multiset<Address> {
    multiset{}[p := n]
  }

  /** gputop_perf_stream_close. */
  function CloseStream(s: ServerState, p: Address): Option<ServerState> {
    if p !in s.objects then None
    else
      var n := OpenHandles(s.objects[p]);
      var x := s.objects[p].(closingHandles := s.objects[p].closingHandles + n);
      var s1 := Note(s.(objects := s.objects[p := x], handles := s.handles + Times(p, n)), Close, p);
      if x.closingHandles == 0 then FinishClose(s1, p) else Some(s1)
  }

  /** stream_handle_closed_cb. */
  function HandleClosed(s: ServerState, p: Address): Option<ServerState> {
    if p !in s.objects || s.objects[p].closingHandles == 0 then None
    else
      var x := s.objects[p].(closingHandles := s.objects[p].closingHandles - 1);
      var s1 := s.(objects := s.objects[p := x], handles := s.handles - multiset{p});
      if x.closingHandles == 0 then FinishClose(s1, p) else Some(s1)
  }

  /** The first stream of the list with the given id. */
  function WithId(s: ServerState, l: seq<Address>, id: nat): Option<Address> {
    if l == [] || l[0] !in s.objects then None
    else if s.objects[l[0]].id == id then Some(l[0])
    else WithId(s, l[1..], id)
  }

  /** handle_close_stream and close_stream. */
  function HandleCloseStream(s: ServerState, id: nat, uuid: nat): Option<ServerState> {
    var found := WithId(s, s.streams, id);
    if found.None? then Some(s)
    else
      var p := found.value;
      if p !in s.objects || s.objects[p].uuid.Some? then None
      else
        var x := s.objects[p].(uuid := Some(uuid), pendingClose := true);
        var s1 := Note(s.(objects := s.objects[p := x], streams := Remove(s.streams, p),
                          closing := s.closing + [p]), Request, p);
        if x.flushing then Some(s1) else CloseStream(s1, p)
  }

  // ---------------------------------------------------------------- forwarding

  function OpenStream(s: ServerState, kind: Kind, fd: int, id: nat, liveUpdates: bool): ServerState {
    var p := s.next;
    Note(s.(next := p + 1, streams := s.streams + [p],
            objects := s.objects[p := Stream(kind, fd, id, liveUpdates, 1, false, false, false, None, 0)]), Opened, p)
  }

  /** One turn of update_streams, for a stream that may have data pending or a ring that is not yet full. */
  function UpdateStream(s: ServerState, p: Address, pending: bool): Option<ServerState> {
    if p !in s.objects then None
    else
      var x := s.objects[p];
      if !x.liveUpdates then Some(if x.kind.Perf? && pending then Note(s, Fill, p) else s)
      else if x.flushing then Some(s)
      else if x.pendingClose || x.closed then None
      else if !pending then Some(s)
      else if x.kind.Cpu? then Some(Note(s, CpuData, p))
      else Some(Note(s.(objects := s.objects[p := x.(flushing := true)], sources := s.sources + multiset{p}), Data, p))
  }

  /** The websocket library reads a piece of a message, the last one or not. */
  function ReadPiece(s: ServerState, p: Address, eof: bool): Option<ServerState> {
    if p !in s.objects then None
    else if !eof then Some(Note(s, Piece, p))
    else
      var x := s.objects[p].(flushing := false);
      var s1 := Note(s.(objects := s.objects[p := x], sources := s.sources - multiset{p}), LastPiece, p);
      if x.pendingClose then CloseStream(s1, p) else Some(s1)
  }

  // ---------------------------------------------------------------- runs

  datatype Event =
    | OpenEvent(kind: Kind, fd: int, id: nat, liveUpdates: bool)
    | UpdateEvent(stream: Address, pending: bool)
    | PieceEvent(stream: Address, eof: bool)
    | CloseEvent(id: nat, uuid: nat)
    | HandleEvent(stream: Address)

  /** Updates go over the list, pieces are read of messages that are queued, handles report once each. */
  predicate Enabled(s: ServerState, e: Event) {
    match e
    case OpenEvent(_, _, _, _) => true
    case UpdateEvent(p, _) => p in s.streams
    case PieceEvent(p, _) => p in s.sources
    case CloseEvent(_, _) => true
    case HandleEvent(p) => p in s.handles
  }

  function Step(s: ServerState, e: Event): Option<ServerState> {
    if !Enabled(s, e) then Some(s)
    else
      match e
      case OpenEvent(kind, fd, id, live) => Some(OpenStream(s, kind, fd, id, live))
      case UpdateEvent(p, pending) => UpdateStream(s, p, pending)
      case PieceEvent(p, eof) => ReadPiece(s, p, eof)
      case CloseEvent(id, uuid) => HandleCloseStream(s, id, uuid)
      case HandleEvent(p) => HandleClosed(s, p)
  }

  function Run(events: seq<Event>): Option<ServerState> {
    if events == [] then Some(InitialServer())
    else
      var s :- Run(events[..|events| - 1]);
      Step(s, events[|events| - 1])
  }

  // ---------------------------------------------------------------- the life of a stream

  datatype Phase = Absent | Live | Flushing | AskedFlushing | Asked | Closing | Ended | Acked | Notified | Gone | Bad

  /** The order in which things may happen to one stream. */
  function Move(f: Phase, what: What): Phase {
    match what
    case Opened => if f == Absent then Live else Bad
    case CpuData => if f == Live then Live else Bad
    case Data => if f == Live then Flushing else Bad
    case Fill => if f == Live || f == Flushing then f else Bad
    case Piece => if f == Flushing || f == AskedFlushing then f else Bad
    case LastPiece => if f == Flushing then Live else if f == AskedFlushing then Asked else Bad
    case Request => if f == Live then Asked else if f == Flushing then AskedFlushing else Bad
    case Close => if f == Asked then Closing else Bad
    case Closed => if f == Closing then Ended else Bad
    case Ack => if f == Ended then Acked else Bad
    case Notify => if f == Acked then Notified else Bad
    case Free => if f == Notified then Gone else Bad
  }

  function PhaseOf(trace: seq<Action>, p: Address): Phase {
    if trace == [] then Absent
    else
      var a, before := trace[|trace| - 1], PhaseOf(trace[..|trace| - 1], p);
      if a.stream == p then Move(before, a.what) else before
  }

  /** Nothing has ever happened to any stream out of order. */
  ghost predicate Orderly(trace: seq<Action>) {
    forall p: Address :: PhaseOf(trace, p) != Bad
  }

  // ---------------------------------------------------------------- what an orderly trace means

  function Rank(f: Phase): nat {
    match f
    case Absent => 0 case Live => 1 case Flushing => 1 case AskedFlushing => 2 case Asked => 2 case Closing => 3
    case Ended => 4 case Acked => 5 case Notified => 6 case Gone => 7 case Bad => 8
  }

  lemma {:induction false} RankGrows(trace: seq<Action>, p: Address, i: nat)
    requires i <= |trace|
    ensures Rank(PhaseOf(trace[..i], p)) <= Rank(PhaseOf(trace, p))
    decreases |trace|
  {
    if i < |trace| {
      var before := trace[..|trace| - 1];
      assert before[..i] == trace[..i];
      RankGrows(before, p, i);
    } else {
      assert trace[..i] == trace;
    }
  }

  lemma PhaseAt(trace: seq<Action>, p: Address, i: nat)
    requires i < |trace| && trace[i].stream == p
    ensures PhaseOf(trace[..i + 1], p) == Move(PhaseOf(trace[..i], p), trace[i].what)
  {
    assert trace[..i + 1][..i] == trace[..i];
  }

  lemma AllGood(trace: seq<Action>, p: Address, i: nat)
    requires i <= |trace| && PhaseOf(trace, p) != Bad
    ensures PhaseOf(trace[..i], p) != Bad
  {
    RankGrows(trace, p, i);
  }

  /** Between two actions on the same stream the phase goes on. */
  lemma Later(trace: seq<Action>, p: Address, i: nat, j: nat)
    requires Orderly(trace) && i < j < |trace| && trace[i].stream == p == trace[j].stream
    ensures var f, g := PhaseOf(trace[..i], p), PhaseOf(trace[..j], p);
            && Move(f, trace[i].what) != Bad && Move(g, trace[j].what) != Bad && Rank(Move(f, trace[i].what)) <= Rank(g)
  {
    PhaseAt(trace, p, i);
    PhaseAt(trace, p, j);
    AllGood(trace, p, i + 1);
    AllGood(trace, p, j + 1);
    RankGrows(trace[..j], p, i + 1);
    assert trace[..j][..i + 1] == trace[..i + 1];
  }

  predicate IsForwarding(what: What) {
    what == CpuData || what == Data || what == Piece || what == LastPiece || what == Fill
  }

  predicate IsClosing(what: What) {
    what == Close || what == Closed || what == Ack || what == Notify || what == Free
  }

  /** The places in the order of closing. */
  function Place(what: What): nat {
    match what
    case Close => 1 case Closed => 2 case Ack => 3 case Notify => 4 case Free => 5
    case _ => 0
  }

  /** Of one stream: it is asked to close, closed, acknowledged and notified at most once and in this order,
      nothing of it is forwarded once closing has begun, and nothing follows when it is freed. */
  lemma OrderlyMeans(trace: seq<Action>, p: Address, i: nat, j: nat)
    requires Orderly(trace) && i < j < |trace| && trace[i].stream == p == trace[j].stream
    ensures trace[i].what == trace[j].what ==> IsForwarding(trace[i].what)
    ensures IsClosing(trace[i].what) ==> IsClosing(trace[j].what) && Place(trace[i].what) < Place(trace[j].what)
    ensures trace[i].what == Request ==> !(trace[j].what == Opened || trace[j].what == Data || trace[j].what == CpuData)
    ensures trace[i].what != Free && trace[j].what != Opened
  {
    hide PhaseOf;
    Later(trace, p, i, j);
  }

  /** What must have come just before in a stream's life. */
  predicate Causes(cause: What, what: What) {
    || (cause == Close && what == Closed) || (cause == Closed && what == Ack)
    || (cause == Ack && what == Notify) || (cause == Notify && what == Free)
  }

  function PhaseBefore(what: What): Phase {
    match what
    case Close => Asked case Closed => Closing case Ack => Ended case Notify => Acked
    case _ => Absent
  }

  /** A notification is preceded by the acknowledgement, that by the end of closing, and so on back to the
      start of closing. */
  lemma {:induction false} NotifyHasCause(trace: seq<Action>, p: Address, j: nat, cause: What) returns (i: nat)
    requires Orderly(trace) && j < |trace| && trace[j].stream == p && Causes(cause, trace[j].what)
    ensures i < j && trace[i] == Action(cause, p)
  {
    PhaseAt(trace, p, j);
    AllGood(trace, p, j + 1);
    i := Reached(trace[..j], p, cause);
    assert trace[..j][i] == trace[i];
  }

  /** The phase after `cause` is only reached by it. */
  lemma {:induction false} Reached(trace: seq<Action>, p: Address, cause: What) returns (i: nat)
    requires cause == Close || cause == Closed || cause == Ack || cause == Notify
    requires PhaseOf(trace, p) == Move(PhaseBefore(cause), cause)
    ensures i < |trace| && trace[i] == Action(cause, p)
  {
    var n := |trace| - 1;
    if trace[n] == Action(cause, p) {
      i := n;
    } else {
      i := Reached(trace[..n], p, cause);
    }
  }

  lemma ClosedWhileIdle(trace: seq<Action>, p: Address, j: nat)
    requires Orderly(trace) && j < |trace| && trace[j] == Action(Close, p)
    ensures PhaseOf(trace[..j], p) == Asked
  {
    PhaseAt(trace, p, j);
    AllGood(trace, p, j + 1);
  }

  /** A message that was begun is read to its end before its stream is closed. */
  lemma BegunIsRead(trace: seq<Action>, p: Address, i: nat, j: nat) returns (m: nat)
    requires Orderly(trace) && i < j < |trace| && trace[i] == Action(Data, p) && trace[j] == Action(Close, p)
    ensures i < m < j && trace[m] == Action(LastPiece, p)
  {
    ClosedWhileIdle(trace, p, j);
    AllGood(trace, p, j);
    m := EndOfMessage(trace[..j], p, i);
    assert trace[..j][m] == trace[m];
  }

  lemma {:induction false} EndOfMessage(trace: seq<Action>, p: Address, i: nat) returns (m: nat)
    requires i < |trace| && trace[i] == Action(Data, p)
    requires PhaseOf(trace, p) != Bad && PhaseOf(trace, p) != Flushing && PhaseOf(trace, p) != AskedFlushing
    ensures i < m < |trace| && trace[m] == Action(LastPiece, p)
  {
    var n := |trace| - 1;
    if trace[n] == Action(LastPiece, p) && i < n {
      m := n;
    } else {
      m := EndOfMessage(trace[..n], p, i);
    }
  }

  // ---------------------------------------------------------------- the invariant

  ghost predicate NoDuplicates(l: seq<Address>) {
    forall i, j :: 0 <= i < j < |l| ==> l[i] != l[j]
  }

  /** Every stream is in one of the two lists, once. */
  ghost predicate Lists(s: ServerState) {
    && NoDuplicates(s.streams) && NoDuplicates(s.closing)
    && (forall p: Address :: !(p in s.streams && p in s.closing))
    && (forall p: Address :: p in s.objects <==> p in s.streams || p in s.closing)
  }

  function PhaseFor(x: Stream): Phase {
    if x.pendingClose then (if x.flushing then AskedFlushing else Closing)
    else if x.flushing then Flushing else Live
  }

  /** A stream between calls. */
  ghost predicate StreamAt(s: ServerState, p: Address)
    requires p in s.objects
  {
    var x := s.objects[p];
    && p < s.next && x.refCount == 1 && !x.closed && (x.kind.Cpu? ==> !x.flushing)
    && s.sources[p] == (if x.flushing then 1 else 0) && s.handles[p] == x.closingHandles
    && (x.pendingClose <==> p in s.closing) && (x.pendingClose <==> x.uuid.Some?)
    && (x.closingHandles > 0 <==> x.pendingClose && !x.flushing)
    && PhaseOf(s.trace, p) == PhaseFor(x)
  }

  ghost predicate At(s: ServerState, p: Address) {
    if p in s.objects then StreamAt(s, p)
    else s.sources[p] == 0 && s.handles[p] == 0 && PhaseOf(s.trace, p) == if p < s.next then Gone else Absent
  }

  ghost predicate Valid(s: ServerState) {
    Lists(s) && forall p: Address :: At(s, p)
  }

  /** All but stream p are between calls. */
  ghost predicate ValidBut(s: ServerState, p: Address) {
    Lists(s) && forall q: Address :: q != p ==> At(s, q)
  }

  lemma PhaseNoted(s: ServerState, what: What, p: Address, q: Address)
    ensures PhaseOf(Note(s, what, p).trace, q)
            == if q == p then Move(PhaseOf(s.trace, p), what) else PhaseOf(s.trace, q)
  {
    var t := s.trace + [Action(what, p)];
    assert t[..|t| - 1] == s.trace;
  }

  /** Nothing that concerns stream q has changed. */
  ghost predicate Apart(s: ServerState, t: ServerState, q: Address) {
    && (q in t.objects <==> q in s.objects) && (q in s.objects ==> t.objects[q] == s.objects[q])
    && t.sources[q] == s.sources[q] && t.handles[q] == s.handles[q] && (q in t.closing <==> q in s.closing)
    && PhaseOf(t.trace, q) == PhaseOf(s.trace, q) && t.next == s.next
  }

  lemma OthersStay(s: ServerState, t: ServerState, p: Address)
    requires ValidBut(s, p) && Lists(t) && forall q: Address :: q != p ==> Apart(s, t, q)
    ensures ValidBut(t, p)
  {
    hide Lists, PhaseOf;
    forall q: Address | q != p ensures At(t, q) {
      assert At(s, q) && Apart(s, t, q);
    }
  }

  lemma {:induction false} Removed(l: seq<Address>, p: Address)
    requires NoDuplicates(l)
    ensures NoDuplicates(Remove(l, p))
    ensures forall q: Address :: q in Remove(l, p) <==> q in l && q != p
  {
    if l != [] {
      if l[0] == p {
        forall q ensures q in l[1..] <==> q in l && q != p {
          if q in l[1..] { var i :| 0 <= i < |l[1..]| && l[1..][i] == q; assert l[i + 1] != l[0]; }
        }
      } else {
        Removed(l[1..], p);
        var r := Remove(l[1..], p);
        forall i | 0 <= i < |r| ensures r[i] != l[0] {
          assert r[i] in l[1..];
          var k :| 0 <= k < |l[1..]| && l[1..][k] == r[i];
          assert l[k + 1] != l[0];
        }
      }
    }
  }

  // ---------------------------------------------------------------- closing keeps it

  lemma ReleaseValid(s: ServerState, p: Address)
    requires ValidBut(s, p) && p in s.objects && s.objects[p].refCount == 1 && s.objects[p].closed
    requires s.sources[p] == 0 && s.handles[p] == 0 && p < s.next && PhaseOf(s.trace, p) == Notified
    ensures Release(s, p).Some? && Valid(Release(s, p).value)
  {
    hide PhaseOf, Remove, NoDuplicates;
    Removed(s.streams, p);
    Removed(s.closing, p);
    var t := Release(s, p).value;
    forall q ensures PhaseOf(t.trace, q) == if q == p then Gone else PhaseOf(s.trace, q) {
      PhaseNoted(s, Free, p, q);
    }
    OthersStay(s, t, p);
  }

  /** The state that finish_stream_close finds. */
  ghost predicate ReadyToFinish(s: ServerState, p: Address, phase: Phase) {
    && ValidBut(s, p) && p in s.objects && s.objects[p].refCount == 1 && s.objects[p].uuid.Some?
    && s.sources[p] == 0 && s.handles[p] == 0 && p < s.next && PhaseOf(s.trace, p) == phase
  }

  lemma FinishCloseValid(s: ServerState, p: Address)
    requires ReadyToFinish(s, p, Closing)
    ensures FinishClose(s, p).Some? && Valid(FinishClose(s, p).value)
  {
    hide PhaseOf, Lists, Release;
    var s1 := Note(s.(objects := s.objects[p := s.objects[p].(closed := true)]), Closed, p);
    var s2 := Note(s1.(objects := s1.objects[p := s1.objects[p].(uuid := None)],
                       acked := s1.acked[p := s1.objects[p].uuid.value]), Ack, p);
    var s3 := Note(s2, Notify, p);
    forall q ensures PhaseOf(s3.trace, q) == if q == p then Notified else PhaseOf(s.trace, q) {
      PhaseNoted(s, Closed, p, q);
      PhaseNoted(s1, Ack, p, q);
      PhaseNoted(s2, Notify, p, q);
    }
    SameLists(s, s3);
    OthersStay(s, s3, p);
    ReleaseValid(s3, p);
  }

  lemma SameLists(s: ServerState, t: ServerState)
    requires Lists(s) && t.streams == s.streams && t.closing == s.closing && t.objects.Keys == s.objects.Keys
    ensures Lists(t)
  {
  }

  /** The state that gputop_perf_stream_close finds: asked for, and no longer in the middle of a message. */
  lemma CloseStreamValid(s: ServerState, p: Address)
    requires ReadyToFinish(s, p, Asked) && p in s.closing
    requires var x := s.objects[p]; x.pendingClose && !x.flushing && !x.closed && x.closingHandles == 0
    ensures CloseStream(s, p).Some? && Valid(CloseStream(s, p).value)
  {
    hide PhaseOf, Lists, FinishClose;
    var n := OpenHandles(s.objects[p]);
    var x := s.objects[p].(closingHandles := n);
    var s1 := Note(s.(objects := s.objects[p := x], handles := s.handles + Times(p, n)), Close, p);
    forall q ensures PhaseOf(s1.trace, q) == if q == p then Closing else PhaseOf(s.trace, q) {
      PhaseNoted(s, Close, p, q);
    }
    SameLists(s, s1);
    OthersStay(s, s1, p);
    if n == 0 {
      FinishCloseValid(s1, p);
    } else {
      assert At(s1, p);
    }
  }

  lemma HandleClosedValid(s: ServerState, p: Address)
    requires Valid(s) && p in s.handles
    ensures HandleClosed(s, p).Some? && Valid(HandleClosed(s, p).value)
  {
    hide PhaseOf, Lists, FinishClose;
    assert At(s, p);
    var x := s.objects[p].(closingHandles := s.objects[p].closingHandles - 1);
    var s1 := s.(objects := s.objects[p := x], handles := s.handles - multiset{p});
    SameLists(s, s1);
    OthersStay(s, s1, p);
    if x.closingHandles == 0 {
      FinishCloseValid(s1, p);
    } else {
      assert At(s1, p);
    }
  }

  lemma {:induction false} WithIdFound(s: ServerState, l: seq<Address>, id: nat)
    ensures WithId(s, l, id).Some? ==> WithId(s, l, id).value in l && WithId(s, l, id).value in s.objects
  {
    if l != [] && l[0] in s.objects && s.objects[l[0]].id != id {
      WithIdFound(s, l[1..], id);
    }
  }

  lemma HandleCloseStreamValid(s: ServerState, id: nat, uuid: nat)
    requires Valid(s)
    ensures HandleCloseStream(s, id, uuid).Some? && Valid(HandleCloseStream(s, id, uuid).value)
  {
    hide PhaseOf, CloseStream, WithId, Remove;
    WithIdFound(s, s.streams, id);
    if WithId(s, s.streams, id).Some? {
      var p := WithId(s, s.streams, id).value;
      assert At(s, p);
      var x := s.objects[p].(uuid := Some(uuid), pendingClose := true);
      var s1 := Note(s.(objects := s.objects[p := x], streams := Remove(s.streams, p),
                        closing := s.closing + [p]), Request, p);
      Removed(s.streams, p);
      forall q
        ensures PhaseOf(s1.trace, q) == if q == p then Move(PhaseOf(s.trace, p), Request) else PhaseOf(s.trace, q)
      {
        PhaseNoted(s, Request, p, q);
      }
      OthersStay(s, s1, p);
      if x.flushing {
        assert At(s1, p);
      } else {
        CloseStreamValid(s1, p);
      }
    }
  }

  // ---------------------------------------------------------------- forwarding keeps it

  lemma OpenStreamValid(s: ServerState, kind: Kind, fd: int, id: nat, live: bool)
    requires Valid(s)
    ensures Valid(OpenStream(s, kind, fd, id, live))
  {
    hide PhaseOf;
    var p, t := s.next, OpenStream(s, kind, fd, id, live);
    assert At(s, p);
    forall q ensures PhaseOf(t.trace, q) == if q == p then Live else PhaseOf(s.trace, q) {
      PhaseNoted(s, Opened, p, q);
    }
    forall q ensures At(t, q) {
      assert At(s, q);
    }
  }

  lemma UpdateStreamValid(s: ServerState, p: Address, pending: bool)
    requires Valid(s) && p in s.streams
    ensures UpdateStream(s, p, pending).Some? && Valid(UpdateStream(s, p, pending).value)
  {
    hide PhaseOf, NoDuplicates;
    assert At(s, p);
    var t := UpdateStream(s, p, pending).value;
    forall q ensures q != p ==> PhaseOf(t.trace, q) == PhaseOf(s.trace, q) {
      PhaseNoted(s, Fill, p, q);
      PhaseNoted(s, CpuData, p, q);
      PhaseNoted(s, Data, p, q);
    }
    PhaseNoted(s, Fill, p, p);
    PhaseNoted(s, CpuData, p, p);
    PhaseNoted(s, Data, p, p);
    SameLists(s, t);
    OthersStay(s, t, p);
    assert At(t, p);
  }

  lemma ReadPieceValid(s: ServerState, p: Address, eof: bool)
    requires Valid(s) && p in s.sources
    ensures ReadPiece(s, p, eof).Some? && Valid(ReadPiece(s, p, eof).value)
  {
    hide PhaseOf, Lists, CloseStream;
    assert At(s, p);
    if eof {
      var x := s.objects[p].(flushing := false);
      var s1 := Note(s.(objects := s.objects[p := x], sources := s.sources - multiset{p}), LastPiece, p);
      forall q
        ensures PhaseOf(s1.trace, q) == if q == p then Move(PhaseOf(s.trace, p), LastPiece) else PhaseOf(s.trace, q)
      {
        PhaseNoted(s, LastPiece, p, q);
      }
      SameLists(s, s1);
      OthersStay(s, s1, p);
      if x.pendingClose { CloseStreamValid(s1, p); } else { assert At(s1, p); }
    } else {
      var t := Note(s, Piece, p);
      forall q ensures PhaseOf(t.trace, q) == PhaseOf(s.trace, q) {
        PhaseNoted(s, Piece, p, q);
      }
      SameLists(s, t);
      OthersStay(s, t, p);
      assert At(t, p);
    }
  }

  // ---------------------------------------------------------------- all interleavings

  lemma StepValid(s: ServerState, e: Event)
    requires Valid(s)
    ensures Step(s, e).Some? && Valid(Step(s, e).value)
  {
    hide Valid, OpenStream, UpdateStream, ReadPiece, HandleCloseStream, HandleClosed;
    if Enabled(s, e) {
      match e
      case OpenEvent(kind, fd, id, live) => OpenStreamValid(s, kind, fd, id, live);
      case UpdateEvent(p, pending) => UpdateStreamValid(s, p, pending);
      case PieceEvent(p, eof) => ReadPieceValid(s, p, eof);
      case CloseEvent(id, uuid) => HandleCloseStreamValid(s, id, uuid);
      case HandleEvent(p) => HandleClosedValid(s, p);
    }
  }

  lemma ValidIsOrderly(s: ServerState)
    requires Valid(s)
    ensures Orderly(s.trace)
  {
    hide Lists, PhaseOf;
    forall p: Address ensures PhaseOf(s.trace, p) != Bad {
      assert At(s, p);
    }
  }

  /** In whatever order requests, pieces and handles come: no assertion fails, no freed stream is touched,
      and to each stream things happen in the order of its life. */
  lemma {:induction false} EveryRunIsOrderly(events: seq<Event>)
    ensures Run(events).Some? && Valid(Run(events).value) && Orderly(Run(events).value.trace)
  {
    hide Valid, Step, Orderly;
    if events == [] {
      InitialValid();
    } else {
      EveryRunIsOrderly(events[..|events| - 1]);
      StepValid(Run(events[..|events| - 1]).value, events[|events| - 1]);
    }
    ValidIsOrderly(Run(events).value);
  }

  lemma EveryAddress(s: ServerState, p: Address)
    requires Valid(s)
    ensures At(s, p)
  {
  }

  lemma InitialValid()
    ensures Valid(InitialServer())
  {
  }

  /** A stream that is being closed waits for something that will come: the rest of a message, or a handle. */
  lemma NothingIsStuck(s: ServerState, p: Address)
    requires Valid(s) && p in s.closing
    ensures p in s.sources || p in s.handles
    ensures !(p in s.sources && p in s.handles)
  {
    hide PhaseOf;
    assert At(s, p);
  }

  // ---------------------------------------------------------------- the server as an object

  class Server {
    var objects: map<Address, Stream>
    var nextAddress: Address
    var streams: seq<Address>
    var closing: seq<Address>
    var sources: multiset<Address>
    var handles: multiset<Address>
    ghost var acked: map<Address, nat>
    ghost var trace: seq<Action>

    ghost function State(): ServerState
      reads this
    {
      ServerState(objects, nextAddress, streams, closing, sources, handles, acked, trace)
    }

    constructor ()
      ensures State() == InitialServer() && Valid(State())
    {
      objects, nextAddress, streams, closing, sources, handles := map[], 0, [], [], multiset{}, multiset{};
      acked, trace := map[], [];
      new;
      InitialValid();
    }

    method Unref(p: Address)
      requires Release(State(), p).Some?
      modifies this
      ensures Some(State()) == Release(old(State()), p)
    {
      streams, closing := Remove(streams, p), Remove(closing, p);
      objects := objects[p := objects[p].(refCount := objects[p].refCount - 1)];
      if objects[p].refCount == 0 {
        objects := objects - {p};
        trace := trace + [Action(Free, p)];
      }
    }

    method FinishStreamClose(p: Address)
      requires FinishClose(State(), p).Some?
      modifies this
      ensures Some(State()) == FinishClose(old(State()), p)
    {
      hide Release;
      objects := objects[p := objects[p].(closed := true)];
      trace := trace + [Action(Closed, p)];
      if objects[p].uuid.Some? {
        acked := acked[p := objects[p].uuid.value];
        objects := objects[p := objects[p].(uuid := None)];
        trace := trace + [Action(Ack, p)];
      }
      trace := trace + [Action(Notify, p)];
      Unref(p);
    }

    method PerfStreamClose(p: Address)
      requires CloseStream(State(), p).Some?
      modifies this
      ensures Some(State()) == CloseStream(old(State()), p)
    {
      hide FinishClose;
      var n := OpenHandles(objects[p]);
      objects := objects[p := objects[p].(closingHandles := objects[p].closingHandles + n)];
      handles := handles + Times(p, n);
      trace := trace + [Action(Close, p)];
      if objects[p].closingHandles == 0 {
        FinishStreamClose(p);
      }
    }

    /** A libuv handle of the stream has closed. */
    method OnHandleClosed(p: Address)
      requires Valid(State()) && p in handles
      modifies this
      ensures Valid(State()) && Some(State()) == HandleClosed(old(State()), p)
    {
      hide Valid, FinishClose;
      HandleClosedValid(State(), p);
      objects := objects[p := objects[p].(closingHandles := objects[p].closingHandles - 1)];
      handles := handles - multiset{p};
      if objects[p].closingHandles == 0 {
        FinishStreamClose(p);
      }
    }

    /** The client asks for a stream to be closed. */
    method OnCloseStream(id: nat, uuid: nat)
      requires Valid(State())
      modifies this
      ensures Valid(State()) && Some(State()) == HandleCloseStream(old(State()), id, uuid)
    {
      hide Valid, CloseStream;
      HandleCloseStreamValid(State(), id, uuid);
      var i := 0;
      while i < |streams| && streams[i] in objects && objects[streams[i]].id != id
        invariant i <= |streams|
        invariant WithId(State(), streams[i..], id) == WithId(State(), streams, id)
      {
        assert streams[i..][1..] == streams[i + 1..];
        i := i + 1;
      }
      if i == |streams| || streams[i] !in objects {
        return;
      }
      var p := streams[i];
      objects := objects[p := objects[p].(uuid := Some(uuid), pendingClose := true)];
      streams, closing := Remove(streams, p), closing + [p];
      trace := trace + [Action(Request, p)];
      if !objects[p].flushing {
        PerfStreamClose(p);
      }
    }

    method Open(kind: Kind, fd: int, id: nat, liveUpdates: bool)
      requires Valid(State())
      modifies this
      ensures Valid(State()) && State() == OpenStream(old(State()), kind, fd, id, liveUpdates)
      ensures var p := old(nextAddress);
              && streams == old(streams) + [p] && nextAddress == p + 1 && trace == old(trace) + [Action(Opened, p)]
              && p !in old(objects) && objects.Keys == old(objects.Keys) + {p}
              && (forall q :: q in old(objects) ==> objects[q] == old(objects)[q])
              && objects[p].kind == kind && objects[p].fd == fd && objects[p].id == id
              && objects[p].liveUpdates == liveUpdates && objects[p].refCount == 1 && objects[p].uuid.None?
              && !objects[p].flushing && !objects[p].pendingClose && !objects[p].closed
    {
      hide Valid, PhaseOf;
      assert At(State(), nextAddress) by { EveryAddress(State(), nextAddress); }
      OpenStreamValid(State(), kind, fd, id, liveUpdates);
      var p := nextAddress;
      nextAddress := p + 1;
      objects := objects[p := Stream(kind, fd, id, liveUpdates, 1, false, false, false, None, 0)];
      streams := streams + [p];
      trace := trace + [Action(Opened, p)];
    }

    method Update(p: Address, pending: bool)
      requires Valid(State()) && p in streams
      modifies this
      ensures Valid(State()) && Some(State()) == UpdateStream(old(State()), p, pending)
      ensures p in old(objects) && objects.Keys == old(objects.Keys)
      ensures var x := old(objects)[p];
              var begins := x.liveUpdates && !x.flushing && pending && !x.kind.Cpu?;
              && trace == old(trace) + (if begins then [Action(Data, p)]
                                        else if x.liveUpdates && !x.flushing && pending then [Action(CpuData, p)]
                                        else if !x.liveUpdates && x.kind.Perf? && pending then [Action(Fill, p)]
                                        else [])
              && sources == old(sources) + (if begins then multiset{p} else multiset{})
              && objects[p] == x.(flushing := x.flushing || begins)
              && (forall q :: q in objects && q != p ==> objects[q] == old(objects)[q])
              && streams == old(streams) && closing == old(closing) && handles == old(handles)
    {
      hide Valid;
      UpdateStreamValid(State(), p, pending);
      var x := objects[p];
      if !x.liveUpdates {
        if x.kind.Perf? && pending {
          trace := trace + [Action(Fill, p)];
        }
      } else if x.flushing {
      } else if pending {
        if x.kind.Cpu? {
          trace := trace + [Action(CpuData, p)];
        } else {
          objects := objects[p := x.(flushing := true)];
          sources := sources + multiset{p};
          trace := trace + [Action(Data, p)];
        }
      }
    }

    /** The websocket library reads on in a message about stream p. */
    method OnRead(p: Address, eof: bool)
      requires Valid(State()) && p in sources
      modifies this
      ensures Valid(State()) && Some(State()) == ReadPiece(old(State()), p, eof)
    {
      hide Valid, CloseStream;
      ReadPieceValid(State(), p, eof);
      if !eof {
        trace := trace + [Action(Piece, p)];
        return;
      }
      objects := objects[p := objects[p].(flushing := false)];
      sources := sources - multiset{p};
      trace := trace + [Action(LastPiece, p)];
      if objects[p].pendingClose {
        PerfStreamClose(p);
      }
    }
  }
}
