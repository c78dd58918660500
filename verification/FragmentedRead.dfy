/** Forwarding a perf ring buffer as one websocket message that is read piece by piece
    (fragmented_perf_read_cb in server/gputop-server.c).
 */
module FragmentedRead {
  import opened Common

  type Byte = x: nat | x < 256

  const WS_MESSAGE_PERF: Byte := 1
  const U32 := 0x1_0000_0000

  /** The message type, three zeroes, and the stream id as a little-endian 32-bit word. */
  function Header(id: nat): seq<Byte> {
    [WS_MESSAGE_PERF, 0, 0, 0, id % 256, id / 256 % 256, id / 0x1_0000 % 256, id / 0x100_0000 % 256]
  }

  /** It is eight bytes: type 1, and the id with its lowest byte first. */
  lemma HeaderBytes(id: nat)
    requires id < U32
    ensures var b := Header(id);
            && |b| == 8 && b[0] == 1 && b[1] == b[2] == b[3] == 0
            && b[4] as int + 0x100 * b[5] as int + 0x1_0000 * b[6] as int + 0x100_0000 * b[7] as int == id
  {
    var b1, b2, b3 := id / 0x100, id / 0x1_0000, id / 0x100_0000;
    assert id == 0x100 * b1 + id % 0x100 && b1 == 0x100 * b2 + b1 % 0x100 && b2 == 0x100 * b3 + b2 % 0x100;
    assert b3 < 0x100;
  }

  /** TAKEN: what lies between tail and head, in a ring of the given size. */
  function Taken(head: nat, tail: nat, size: nat): (n: nat)
    requires size > 0
    ensures n < size
  {
    (head - tail) % size
  }

  /** n bytes of the ring from position `tail` on. */
  function RingBytes(ring: seq<Byte>, tail: nat, n: nat): (b: seq<Byte>)
    requires |ring| > 0
    ensures |b| == n && forall i :: 0 <= i < n ==> b[i] == ring[Place(tail + i, |ring|)]
  {
    seq(n, i requires 0 <= i => ring[Place(tail + i, |ring|)])
  }

  lemma RingSplits(ring: seq<Byte>, tail: nat, m: nat, n: nat)
    requires |ring| > 0 && m <= n
    ensures RingBytes(ring, tail, n) == RingBytes(ring, tail, m) + RingBytes(ring, tail + m, n - m)
  {
    hide Place;
    var a, b, c := RingBytes(ring, tail, n), RingBytes(ring, tail, m), RingBytes(ring, tail + m, n - m);
    forall i | 0 <= i < n ensures a[i] == (b + c)[i] {
      if i >= m { assert tail + m + (i - m) == tail + i; }
    }
  }

  /** Up to the end of the buffer the ring is the buffer. */
  lemma Straight(ring: seq<Byte>, tail: nat, n: nat)
    requires |ring| > 0 && Place(tail, |ring|) + n <= |ring|
    ensures var p := Place(tail, |ring|); RingBytes(ring, tail, n) == ring[p..p + n]
  {
    hide Place;
    var p := Place(tail, |ring|);
    forall i | 0 <= i < n ensures RingBytes(ring, tail, n)[i] == ring[p..p + n][i] {
      PlaceAhead(tail, i, |ring|);
    }
  }

  lemma Append(all: seq<Byte>, a: seq<Byte>, b: seq<Byte>, r: seq<Byte>, r': seq<Byte>)
    requires all == a + r && r == b + r'
    ensures all == (a + b) + r'
  {
  }

  // ---------------------------------------------------------------- positions

  /** Up to the end of the buffer the places go up one by one. */
  lemma PlaceAhead(tail: nat, i: nat, size: nat)
    requires size > 0 && Place(tail, size) + i < size
    ensures Place(tail + i, size) == Place(tail, size) + i
  {
    ModUnique(tail + i, size, tail / size, tail % size + i);
  }

  lemma PlaceWraps(tail: nat, size: nat)
    requires size > 0
    ensures Place(tail + (size - Place(tail, size)), size) == 0
  {
    assert tail + (size - tail % size) == (tail / size + 1) * size;
    ModUnique(tail + (size - tail % size), size, tail / size + 1, 0);
  }

  /** What is taken depends on the places only. */
  lemma TakenByPlace(head: nat, tail: nat, size: nat)
    requires size > 0
    ensures var h, t := Place(head, size), Place(tail, size);
            Taken(head, tail, size) == if h < t then h + size - t else h - t
  {
    var h, t := head % size, tail % size;
    var qh, qt := head / size, tail / size;
    assert head == qh * size + h && tail == qt * size + t;
    if h < t {
      assert head - tail == (qh - qt - 1) * size + (h + size - t);
      ModUnique(head - tail, size, qh - qt - 1, h + size - t);
    } else {
      assert head - tail == (qh - qt) * size + (h - t);
      ModUnique(head - tail, size, qh - qt, h - t);
    }
  }

  lemma TakenAfter(head: nat, tail: nat, size: nat, n: nat)
    requires size > 0 && n <= Taken(head, tail, size)
    ensures Taken(head, tail + n, size) == Taken(head, tail, size) - n
  {
    var q, r := (head - tail) / size, (head - tail) % size;
    assert head - tail == q * size + r;
    ModUnique(head - (tail + n), size, q, r - n);
  }

  /** All that the kernel has written is seen if and only if the ring is not quite full: a full one looks
      like an empty one. */
  lemma TakenAll(head: nat, tail: nat, size: nat)
    requires size > 0 && tail <= head
    ensures Taken(head, tail, size) == head - tail <==> head - tail < size
    ensures head - tail == size ==> Taken(head, tail, size) == 0
  {
    if head - tail < size {
      ModUnique(head - tail, size, 0, head - tail);
    } else if head - tail == size {
      ModUnique(head - tail, size, 1, 0);
    }
  }

  /** A page that the kernel has filled to the last byte: nothing of it is forwarded. */
  lemma FullRingIsEmpty(ring: seq<Byte>)
    requires |ring| == 4096
    ensures var head, tail := 4096, 0;
            && head - tail == |ring| && Taken(head, tail, |ring|) == 0
            && RingBytes(ring, tail, Taken(head, tail, |ring|)) == [] != ring
  {
    TakenAll(4096, 0, 4096);
  }

  // ---------------------------------------------------------------- positions of 32 bits

  /** The low 32 bits of a position are in the same place of a ring whose size divides 2^32. */
  lemma PlaceOfWord(pos: nat, size: nat)
    requires size > 0 && U32 % size == 0
    ensures Place(pos % U32, size) == Place(pos, size)
  {
    var a, b := pos / U32, pos % U32 / size;
    var k, r := U32 / size, pos % U32 % size;
    assert U32 == k * size && pos == a * U32 + pos % U32 && pos % U32 == b * size + r;
    assert a * (k * size) == (a * k) * size;
    ModUnique(pos, size, a * k + b, r);
  }

  lemma RingOfWord(ring: seq<Byte>, tail: nat, n: nat)
    requires |ring| > 0 && U32 % |ring| == 0
    ensures RingBytes(ring, tail % U32, n) == RingBytes(ring, tail, n)
  {
    hide Place;
    var a, b := RingBytes(ring, tail % U32, n), RingBytes(ring, tail, n);
    PlaceOfWord(tail, |ring|);
    forall i | 0 <= i < n ensures a[i] == b[i] {
      PlaceOfSum(tail % U32, tail, i, |ring|);
    }
  }

  /** Positions in the same place stay in the same place. */
  lemma PlaceOfSum(a: nat, b: nat, i: nat, size: nat)
    requires size > 0 && Place(a, size) == Place(b, size)
    ensures Place(a + i, size) == Place(b + i, size)
  {
    var q := (a + i) / size - a / size;
    assert a + i == (a + i) / size * size + (a + i) % size;
    assert a == a / size * size + a % size && b == b / size * size + b % size;
    assert (b / size + q) * size == b / size * size + ((a + i) / size * size - a / size * size);
    ModUnique(b + i, size, b / size + q, (a + i) % size);
  }

  /** From the low 32 bits of head and tail one sees what lies between them. */
  lemma TakenOfWords(head: nat, tail: nat, size: nat)
    requires size > 0 && U32 % size == 0 && tail <= head < tail + size
    ensures Taken(head % U32, tail % U32, size) == head - tail
  {
    hide Place, Taken;
    TakenByPlace(head % U32, tail % U32, size);
    TakenByPlace(head, tail, size);
    PlaceOfWord(head, size);
    PlaceOfWord(tail, size);
    TakenAll(head, tail, size);
  }

  lemma WordOf(cut: nat, word: nat)
    requires cut % U32 == 0 && word < U32
    ensures (cut + word) % U32 == word
  {
    ModUnique(cut + word, U32, cut / U32, word);
  }

  lemma CutMore(cut: nat, tail: nat)
    requires cut % U32 == 0
    ensures (cut + (tail - tail % U32)) % U32 == 0
  {
    ModUnique(cut + (tail - tail % U32), U32, cut / U32 + tail / U32, 0);
  }

  ghost predicate SeesAll(size: nat)
    requires size > 0
  {
    forall head: nat, tail: nat {:trigger Taken(head % U32, tail % U32, size)} ::
      tail <= head < tail + size ==> Taken(head % U32, tail % U32, size) == head - tail
  }

  /** Head and tail are kept in 32 bits: whatever lies between the true ones is seen if and only if the size
      of the buffer divides 2^32. */
  lemma TruncationExact(size: nat)
    requires size > 0
    ensures SeesAll(size) <==> U32 % size == 0
  {
    if U32 % size == 0 {
      forall head: nat, tail: nat | tail <= head < tail + size
        ensures Taken(head % U32, tail % U32, size) == head - tail
      {
        TakenOfWords(head, tail, size);
      }
    } else if SeesAll(size) {
      var head, tail := U32, U32 - 1;
      assert Taken(head % U32, tail % U32, size) == head - tail;
      assert 0 - tail == (0 - tail) / size * size + 1;
      ModUnique(U32, size, -((0 - tail) / size), 0);
    }
  }

  /** A size for which it is not: of two bytes around 2^32 only one is seen. */
  lemma OddSizeMissesOne()
    ensures var head, tail := U32 + 1, U32 - 1; head - tail == 2 && Taken(head % U32, tail % U32, 3) == 1
  {
  }

  function Min(a: nat, b: nat): nat {
    if a < b then a else b
  }

  // ---------------------------------------------------------------- the reader

  class Reader {
    const id: nat
    const ring: array<Byte>
    var headerWritten: bool
    var head: nat
    var tail: nat
    /** data_tail of the mapped page, which gives the kernel the space back. */
    var dataTail: nat
    /** What has been cut off data_tail so far by keeping it in 32 bits. */
    ghost var cut: nat

    ghost predicate Valid()
      reads this
    {
      ring.Length > 0 && cut % U32 == 0 && dataTail < U32
    }

    /** How many bytes of the stream have been given back. */
    ghost function Consumed(): nat
      reads this
    {
      cut + dataTail
    }

    constructor (id: nat, ring: array<Byte>)
      requires ring.Length > 0
      ensures Valid() && this.id == id && this.ring == ring && dataTail == 0 && Consumed() == 0
    {
      this.id, this.ring := id, ring;
      headerWritten, head, tail, dataTail, cut := false, 0, 0, 0, 0;
    }

    /** What the message has still to deliver. */
    ghost function Remaining(): seq<Byte>
      requires Valid()
      reads this, ring
    {
      (if headerWritten then [] else Header(id)) + InRing()
    }

    ghost function InRing(): seq<Byte>
      requires Valid()
      reads this, ring
    {
      RingBytes(ring[..], tail, Taken(head, tail, ring.Length))
    }

    /** The true position of the head lies less than a buffer ahead of what has been given back, and the size
        of the buffer is one for which 32 bits are enough. */
    ghost predicate InReach(dataHead: nat)
      requires Valid()
      reads this
    {
      U32 % ring.Length == 0 && Consumed() <= dataHead < Consumed() + ring.Length
    }

    /** flush_perf_stream_samples: a new message, over what there is now: all bytes of the stream between what
        has been given back and the true head. */
    method Begin(dataHead: nat)
      requires Valid()
      modifies this
      ensures Valid() && dataTail == old(dataTail) && cut == old(cut) && InReach(dataHead) == old(InReach(dataHead))
      ensures InReach(dataHead) ==>
                && Remaining() == Header(id) + RingBytes(ring[..], Consumed(), dataHead - Consumed())
                && Taken(head, tail, ring.Length) == dataHead - Consumed()
      ensures var size := ring.Length;
              && Remaining() == Header(id) + RingBytes(ring[..], dataTail, Taken(dataHead % U32, dataTail, size))
              && tail == dataTail && head == dataHead % U32 && !headerWritten
    {
      hide Taken, RingBytes;
      headerWritten := false;
      head := dataHead % U32;
      tail := dataTail;
      if InReach(dataHead) {
        WordOf(cut, dataTail);
        TakenOfWords(dataHead, Consumed(), ring.Length);
        RingOfWord(ring[..], Consumed(), dataHead - Consumed());
      }
    }

    /** `all` is what is at the front of `data`, and then what is left in the ring. */
    ghost predicate Split(all: seq<Byte>, data: array<Byte>, at: nat)
      requires Valid() && at <= data.Length
      reads this, ring, data
    {
      data[..at] + InRing() == all
    }

    /** memcpy of n bytes of the ring that do not go beyond its end. */
    method Copy(data: array<Byte>, at: nat, n: nat, ghost all: seq<Byte>)
      requires Valid() && data != ring && at + n <= data.Length && Place(tail, ring.Length) + n <= ring.Length
      requires n <= Taken(head, tail, ring.Length) && Split(all, data, at)
      modifies data, `tail
      ensures tail == old(tail) + n && Taken(head, tail, ring.Length) == old(Taken(head, tail, ring.Length)) - n
      ensures Split(all, data, at + n)
    {
      hide Place, Taken;
      var p := Place(tail, ring.Length);
      ghost var before, ring0 := data[..at], InRing();
      for i := 0 to n
        modifies data
        invariant data[..at + i] == before + ring[p..p + i]
      {
        data[at + i] := ring[p + i];
        assert data[..at + i + 1] == data[..at + i] + [data[at + i]];
      }
      TakenAfter(head, tail, ring.Length, n);
      RingSplits(ring[..], tail, n, Taken(head, tail, ring.Length));
      Straight(ring[..], tail, n);
      assert ring[..][p..p + n] == ring[p..p + n];
      tail := tail + n;
      Append(all, before, ring[p..p + n], ring0, InRing());
    }

    method WriteHeader(data: array<Byte>)
      requires data.Length > 8
      modifies data, `headerWritten
      ensures data[..8] == Header(id) && headerWritten
    {
      for i := 0 to 8
        invariant forall j :: 0 <= j < i ==> data[j] == 0
      {
        data[i] := 0;
      }
      data[0] := WS_MESSAGE_PERF;
      data[4], data[5], data[6], data[7] := id % 256, id / 256 % 256, id / 0x1_0000 % 256, id / 0x100_0000 % 256;
      headerWritten := true;
    }

    /** Up to the end of the buffer, and then from its start. */
    method ReadRing(data: array<Byte>, at: nat, ghost all: seq<Byte>) returns (n: nat)
      requires Valid() && data != ring && at <= data.Length && Split(all, data, at)
      modifies data, `tail
      ensures n == Min(data.Length - at, old(Taken(head, tail, ring.Length))) && tail == old(tail) + n
      ensures Split(all, data, at + n)
      ensures Taken(head, tail, ring.Length) == old(Taken(head, tail, ring.Length)) - n
    {
      hide Place, Taken, Split;
      n := 0;
      TakenByPlace(head, tail, ring.Length);
      if Place(head, ring.Length) < Place(tail, ring.Length) {
        var before := ring.Length - Place(tail, ring.Length);
        n := Min(before, data.Length - at);
        if n == before { PlaceWraps(tail, ring.Length); }
        Copy(data, at, n, all);
      }
      TakenByPlace(head, tail, ring.Length);
      var m := Min(Taken(head, tail, ring.Length), data.Length - at - n);
      Copy(data, at + n, m, all);
      n := n + m;
    }

    /** One callback: as much of what remains as fits, at the front of `data`. */
    method Read(data: array<Byte>) returns (total: nat, eof: bool)
      requires Valid() && data != ring && (!headerWritten ==> data.Length > 8)
      modifies this, data
      ensures Valid() && headerWritten && head == old(head)
      ensures tail + Taken(head, tail, ring.Length) == old(tail + Taken(head, tail, ring.Length))
      ensures total == Min(data.Length, |old(Remaining())|)
      ensures data[..total] + Remaining() == old(Remaining())
      ensures eof <==> Remaining() == []
      ensures tail == old(tail) + total - if old(headerWritten) then 0 else 8
      ensures dataTail == if eof then tail % U32 else old(dataTail)
      ensures Consumed() == if eof then old(cut) + tail else old(Consumed())
      ensures !eof ==> cut == old(cut)
    {
      hide Place, Taken, RingBytes;
      total := 0;
      ghost var all := Remaining();
      if !headerWritten {
        WriteHeader(data);
        total := 8;
      }
      var n := ReadRing(data, total, all);
      total := total + n;
      eof := false;
      if Taken(head, tail, ring.Length) == 0 {
        eof := true;
        dataTail := tail % U32;
        CutMore(cut, tail);
        cut := cut + (tail - tail % U32);
      }
    }
  }

  /** The websocket library reads until the end, with buffers of whatever lengths. */
  method Deliver(r: Reader, lens: seq<nat>) returns (message: seq<Byte>, eof: bool)
    requires r.Valid() && (forall i :: 0 <= i < |lens| ==> lens[i] > 0)
    requires (lens != [] && !r.headerWritten ==> lens[0] > 8)
    modifies r
    ensures r.Valid() && message + r.Remaining() == old(r.Remaining())
    ensures lens != [] ==> (eof <==> r.Remaining() == [])
    ensures r.dataTail == if eof then r.tail % U32 else old(r.dataTail)
    ensures eof ==> message == old(r.Remaining())
    ensures eof ==> r.Consumed() == old(r.cut + r.tail + Taken(r.head, r.tail, r.ring.Length))
  {
    hide RingBytes, Header, Taken, Place;
    message, eof := [], false;
    var i := 0;
    while i < |lens| && !eof
      invariant i <= |lens| && r.Valid() && (i > 0 ==> r.headerWritten)
      invariant i == 0 ==> r.headerWritten == old(r.headerWritten)
      invariant message + r.Remaining() == old(r.Remaining())
      invariant i > 0 ==> (eof <==> r.Remaining() == [])
      invariant eof ==> i > 0
      invariant r.dataTail == if eof then r.tail % U32 else old(r.dataTail)
      invariant r.tail + Taken(r.head, r.tail, r.ring.Length) == old(r.tail + Taken(r.head, r.tail, r.ring.Length))
      invariant !eof ==> r.cut == old(r.cut)
      invariant eof ==> r.Consumed() == old(r.cut) + r.tail && Taken(r.head, r.tail, r.ring.Length) == 0
      decreases |lens| - i, !eof
    {
      var data := new Byte[lens[i]](_ => 0);
      var total;
      ghost var before := r.Remaining();
      total, eof := r.Read(data);
      Append(old(r.Remaining()), message, data[..total], before, r.Remaining());
      message := message + data[..total];
      i := i + 1;
    }
  }

  /** A flush, and then reads until the end: what is forwarded is the header and all bytes of the stream from
      the first that has not been given back to the true head, which are then given back. */
  method Forward(r: Reader, dataHead: nat, lens: seq<nat>) returns (message: seq<Byte>, eof: bool)
    requires r.Valid() && r.InReach(dataHead) && (forall i :: 0 <= i < |lens| ==> lens[i] > 0)
    requires lens != [] ==> lens[0] > 8
    modifies r
    ensures r.Valid()
    ensures var whole := Header(r.id) + RingBytes(r.ring[..], old(r.Consumed()), dataHead - old(r.Consumed()));
            message <= whole && (eof ==> message == whole)
    ensures eof ==> r.Consumed() == dataHead
  {
    hide RingBytes, Header, Taken, Place;
    r.Begin(dataHead);
    message, eof := Deliver(r, lens);
  }
}
