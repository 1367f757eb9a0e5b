/**
 The ring buffer as an object: an array, two offsets and two flags, with the branches of the C code. The other
 thread runs between the statements of these methods, as often and as far as a schedule says; what it does there is
 a list of turns, each a publication it makes. Copies are single statements here: the `Prefetch` modules interleave
 them byte by byte.
 */
module CircularBuffer {
  import opened RingGeometry
  import opened RingContents
  import opened RingSchedule

  /** `memcpy` between two arrays. */
  method Memcpy(dst: array<Byte>, d: nat, src: array<Byte>, s: nat, n: nat)
    requires dst != src && d + n <= dst.Length && s + n <= src.Length
    modifies dst
    ensures dst[..] == Splice(old(dst[..]), d, src[..][s..s + n])
  {
    hide Splice;
    ghost var (was, x) := (dst[..], src[..][s..s + n]);
    SpliceNothing(was, d);
    var i := 0;
    while i < n
      invariant i <= n
      invariant dst[..] == Splice(was, d, x[..i])
    {
      SpliceStep(was, d, x, i);
      dst[d + i] := src[s + i];
      i := i + 1;
    }
    assert x[..n] == x;
  }

  /** `+=` and `%=` on the write offset. */
  lemma WriteWraps(size: nat, woff: nat, n: nat)
    requires woff < size && n <= size
    ensures (woff + n) % size == AdvanceWrite(size, woff, n)
  {
  }

  lemma TwoCalls(given: seq<Byte>, calls: seq<Call>, one: Fetched, two: Fetched)
    ensures (given + one.bytes) + two.bytes == given + (one.bytes + two.bytes)
    ensures (calls + one.calls) + two.calls == calls + (one.calls + two.calls)
  {
  }

  lemma AdvanceNowhere(size: nat, woff: nat)
    requires woff < size
    ensures AdvanceWrite(size, woff, 0) == woff
  {
  }

  lemma AdvanceFromStart(size: nat, woff: nat, m: nat)
    requires woff < size && m <= woff
    ensures AdvanceWrite(size, woff, size - woff + m) == AdvanceWrite(size, 0, m)
  {
  }

  lemma AdvanceIsOnward(size: nat, woff: nat, n: nat)
    requires woff < size && n <= size
    ensures AdvanceWrite(size, woff, n) == Onward(size, woff, n)
  {
  }

  /** A writer callback: it supplies what its script says, never more than asked, and nothing when the script ends. */
  class Writer {
    var script: seq<seq<Byte>>
    ghost var given: seq<Byte>
    ghost var calls: seq<Call>

    constructor (script: seq<seq<Byte>>)
      ensures this.script == script && given == [] && calls == []
    {
      this.script, given, calls := script, [], [];
    }

    method Supply(dst: array<Byte>, d: nat, n: nat) returns (got: nat)
      requires d + n <= dst.Length
      modifies this, dst
      ensures var f := Ask(old(script), n);
              && script == f.script && given == old(given) + f.bytes && calls == old(calls) + f.calls
              && got == |f.bytes| && dst[..] == Splice(old(dst[..]), d, f.bytes)
    {
      var reply := Head(script);
      script := Tail(script);
      got := Min(n, |reply|);
      hide Splice;
      var b := new Byte[got](i requires 0 <= i < got => reply[i]);
      assert b[..][0..0 + got] == reply[..got];
      Memcpy(dst, d, b, 0, got);
      given, calls := given + reply[..got], calls + [Call(n, got)];
    }
  }

  class CircBuf {
    const data: array<Byte>
    var woff: nat
    var roff: nat
    var wdone: bool
    var rdone: bool

    ghost predicate Valid()
      reads this
    {
      Offsets(data.Length, roff, woff)
    }

    ghost function Queue(): seq<Byte>
      requires Valid()
      reads this, data
    {
      Contents(data[..], roff, woff)
    }

    /** The ring as its users see it. */
    ghost function Abs(): Ring
      requires Valid()
      reads this, data
    {
      Ring(data.Length - 1, Queue(), rdone, wdone)
    }

    /** Bytes that still fit. */
    ghost function Room(): nat
      requires Valid()
      reads this, data
    {
      data.Length - 1 - |Queue()|
    }

    constructor (capacity: nat)
      requires capacity > 0
      ensures Valid() && fresh(data) && Queue() == [] && data.Length == capacity + 1 && !wdone && !rdone
      ensures roff == woff == 0
    {
      data := new Byte[capacity + 1];
      woff, roff, wdone, rdone := 0, 0, false, false;
    }

    /** `circbuf_init`: null for a size of zero. */
    static method Init(capacity: nat) returns (b: CircBuf?)
      ensures b == null <==> capacity == 0
      ensures b != null ==>
                && fresh(b) && fresh(b.data) && b.Valid() && b.Queue() == [] && b.Room() == capacity
                && !b.wdone && !b.rdone
    {
      if capacity == 0 {
        return null;
      }
      b := new CircBuf(capacity);
    }

    /** `circbuf_reset` throws everything away and opens both sides. */
    method Reset()
      requires Valid()
      modifies this
      ensures Valid() && Queue() == [] && !wdone && !rdone && roff == woff == 0
    {
      rdone, wdone := false, false;
      woff, roff := 0, 0;
    }

    method GetLength() returns (n: nat)
      requires Valid()
      ensures n == |Queue()|
    {
      if woff >= roff {
        return woff - roff;
      }
      return data.Length - roff + woff;
    }

    /** `circbuf_close_read` and `circbuf_close_write`: an error if closed already. */
    method CloseRead() returns (ok: bool)
      modifies this`rdone
      ensures rdone && ok == !old(rdone)
    {
      ok := !rdone;
      rdone := true;
    }

    method CloseWrite() returns (ok: bool)
      modifies this`wdone
      ensures wdone && ok == !old(wdone)
    {
      ok := !wdone;
      wdone := true;
    }

    // ----- the other side ---------------------------------------------------------------------------------

    /** One turn of the reader: the offset of a partial read published, or reading closed. */
    method ReaderMoves(turn: ReaderTurn)
      requires Valid()
      modifies this`roff, this`rdone
      ensures Valid() && Abs() == ReaderTurned(old(Abs()), turn)
    {
      hide Contents, ReadRegions;
      ghost var (d, r, w) := (data[..], roff, woff);
      match turn
      case CloseReading =>
        rdone := true;
      case Take(n) =>
        LeaveRest(d, r, w, n);
        roff := ReadRegions(data.Length, roff, woff, n).next;
        assert data[..] == d;
    }

    /** The reader runs where the schedule `others` says what it does next. */
    method ReaderRuns(others: seq<seq<ReaderTurn>>) returns (rest: seq<seq<ReaderTurn>>)
      requires Valid()
      modifies this`roff, this`rdone
      ensures Valid() && rest == Tail(others) && Abs() == ByReader(old(Abs()), Head(others))
      ensures |Queue()| <= |old(Queue())|
      ensures Head(others) == [] ==> roff == old(roff)
    {
      hide Contents;
      rest := Tail(others);
      var turns := Head(others);
      ghost var r0 := Abs();
      var i := 0;
      while i < |turns|
        invariant i <= |turns| && Valid() && Abs() == ByReader(r0, turns[..i])
        invariant i == 0 ==> roff == old(roff)
      {
        ReaderMoves(turns[i]);
        assert turns[..i + 1][..i] == turns[..i];
        i := i + 1;
      }
      assert turns[..i] == turns;
      ReaderTakes(r0, turns);
    }

    /** One turn of the writer: bytes put in and their offset published, or writing closed. */
    method WriterMoves(turn: WriterTurn)
      requires Valid()
      modifies this`woff, this`wdone, data
      ensures Valid() && Abs() == WriterTurned(old(Abs()), turn)
      ensures |Queue()| >= |old(Queue())| && woff == AdvanceWrite(data.Length, old(woff), |Queue()| - |old(Queue())|)
    {
      hide Splice, Place, Contents, WriteRegions;
      match turn
      case CloseWriting =>
        wdone := true;
      case Put(bytes) =>
        if !wdone {
          var buf := new Byte[|bytes|](i requires 0 <= i < |bytes| => bytes[i]);
          WriteRegionsExact(data.Length, roff, woff, |bytes|);
          ghost var g := WriteRegions(data.Length, roff, woff, |bytes|);
          assert buf[..][0..0 + g.Count()] == bytes[..g.Count()];
          PlaceAppends(data[..], roff, woff, g.first, buf[..][0..0 + g.Count()]);
          hide AdvanceWrite;
          var n, next := CopyIn(roff, woff, buf, 0, |bytes|);
          woff := next;
        }
    }

    /** The writer runs where the schedule `others` says what it does next. */
    method WriterRuns(others: seq<seq<WriterTurn>>) returns (rest: seq<seq<WriterTurn>>)
      requires Valid()
      modifies this`woff, this`wdone, data
      ensures Valid() && rest == Tail(others) && Abs() == ByWriter(old(Abs()), Head(others))
      ensures |Queue()| >= |old(Queue())| && woff == AdvanceWrite(data.Length, old(woff), |Queue()| - |old(Queue())|)
    {
      hide Contents;
      rest := Tail(others);
      var turns := Head(others);
      ghost var (r0, w0) := (Abs(), woff);
      var i := 0;
      while i < |turns|
        invariant i <= |turns| && Valid() && Abs() == ByWriter(r0, turns[..i])
        invariant |Queue()| >= |r0.queue| && woff == AdvanceWrite(data.Length, w0, |Queue()| - |r0.queue|)
      {
        WriterMoves(turns[i]);
        assert turns[..i + 1][..i] == turns[..i];
        i := i + 1;
      }
      assert turns[..i] == turns;
    }

    // ----- partial reads and writes ------------------------------------------------------------------------

    /** `read_some_`: copy out of the regions for a snapshot of both offsets. */
    method CopyOut(r: nat, w: nat, buf: array<Byte>, at: nat, len: nat) returns (n: nat, next: nat)
      requires Offsets(data.Length, r, w) && buf != data && at + len <= buf.Length
      modifies buf
      ensures var g := ReadRegions(data.Length, r, w, len);
              && n == g.Count() && next == g.next && n <= len && r + g.first <= data.Length && g.second <= data.Length
              && buf[..] == Splice(old(buf[..]), at, Gather(data[..], r, g.first, g.second))
    {
      hide Splice, Gather;
      if r == w {
        GatherOne(data[..], r, 0);
        SpliceNothing(buf[..], at);
        return 0, r;
      }
      if r < w {
        var avail := w - r;
        if avail >= len {
          GatherOne(data[..], r, len);
          Memcpy(buf, at, data, r, len);
          return len, r + len;
        }
        GatherOne(data[..], r, avail);
        Memcpy(buf, at, data, r, avail);
        return avail, r + avail;
      }
      var avail := data.Length - r;
      if avail >= len {
        GatherOne(data[..], r, len);
        Memcpy(buf, at, data, r, len);
        return len, r + len;
      }
      ghost var before := buf[..];
      Memcpy(buf, at, data, r, avail);
      if w > len - avail {
        SpliceGather(before, at, data[..], r, avail, len - avail);
        Memcpy(buf, at + avail, data, 0, len - avail);
        return len, len - avail;
      }
      SpliceGather(before, at, data[..], r, avail, w);
      Memcpy(buf, at + avail, data, 0, w);
      return avail + w, w;
    }

    /** What `read_some_` copies out for an earlier write offset `w` are the oldest bytes there are now. */
    method CopyOldest(w: nat, buf: array<Byte>, at: nat, len: nat) returns (n: nat, next: nat)
      requires Valid() && buf != data && at + len <= buf.Length
      requires Offsets(data.Length, roff, w) && Length(data.Length, roff, w) <= |Queue()|
      modifies buf
      ensures n == Min(len, Length(data.Length, roff, w)) && next == ReadRegions(data.Length, roff, w, len).next
      ensures next <= data.Length && Advanced(data.Length, roff, n, next)
      ensures buf[..] == Splice(old(buf[..]), at, Queue()[..n])
    {
      hide Splice, Gather, Contents, ReadRegions;
      ghost var d := data[..];
      ReadRegionsExact(data.Length, roff, w, len);
      EarlierIsPrefix(d, roff, w, woff);
      GatherIsPrefix(d, roff, w, ReadRegions(data.Length, roff, w, len));
      n, next := CopyOut(roff, w, buf, at, len);
      assert data[..] == d;
      assert Queue()[..Length(data.Length, roff, w)][..n] == Queue()[..n];
    }

    /**
     `circbuf_read_some` takes the oldest bytes, as many as are asked for and were there when it looked. The writer may
     run between the look at its offset and the copy, and again before the publication.
     */
    method ReadSome(buf: array<Byte>, at: nat, len: nat, others: seq<seq<WriterTurn>>)
      returns (n: nat, rest: seq<seq<WriterTurn>>)
      requires Valid() && buf != data && at + len <= buf.Length
      modifies this`roff, this`woff, this`wdone, data, buf
      ensures Valid() && n == Min(len, |old(Queue())|) && rest == Tail(Tail(others))
      ensures Abs() == ByWriter(old(Abs()), Head(others) + Head(Tail(others))).Drop(n)
      ensures buf[..] == Splice(old(buf[..]), at, old(Queue())[..n])
      ensures roff == ReadRegions(data.Length, old(roff), old(woff), len).next
      ensures var more := |Queue()| + n - |old(Queue())|;
              more >= 0 && woff == AdvanceWrite(data.Length, old(woff), more)
    {
      hide Splice, Contents, ReadRegions;
      ghost var (r0, b0, w0) := (Abs(), buf[..], woff);
      var w := woff;
      rest := WriterRuns(others);
      ghost var first := WriterGives(r0, Head(others));
      assert buf[..] == b0;
      var next;
      n, next := CopyOldest(w, buf, at, len);
      assert (r0.queue + first)[..n] == r0.queue[..n];
      rest := WriterRuns(rest);
      ByWriterJoin(r0, Head(others), Head(Tail(others)));
      DropOldest(data[..], roff, woff, n, next);
      roff := next;
    }

    /** `piece` has been placed in the free cells of `d`, and is not published yet. */
    ghost predicate Placed(d: seq<Byte>, piece: seq<Byte>)
      requires Valid()
      reads this, data
    {
      && |d| == data.Length && Length(data.Length, roff, woff) + |piece| < data.Length
      && data[..] == Place(d, woff, Min(|piece|, data.Length - woff), piece)
    }

    lemma PlacedUnseen(d: seq<Byte>, piece: seq<Byte>)
      requires Valid() && Placed(d, piece)
      ensures Queue() == Contents(d, roff, woff)
    {
      hide Contents, Place;
      PlaceKeepsUnread(d, roff, woff, Min(|piece|, data.Length - woff), piece);
    }

    /** The reader runs before the publication of what is placed, and then it is published. */
    method Publish(next: nat, others: seq<seq<ReaderTurn>>, ghost d: seq<Byte>, ghost piece: seq<Byte>)
      returns (rest: seq<seq<ReaderTurn>>)
      requires Valid() && Placed(d, piece) && next == AdvanceWrite(data.Length, woff, |piece|)
      modifies this`woff, this`roff, this`rdone
      ensures Valid() && rest == Tail(others) && woff == next
      ensures Abs() == ByReader(old(Abs()), Head(others)).Add(piece)
      ensures Head(others) == [] ==> roff == old(roff)
    {
      hide Contents, Place, AdvanceWrite, ByReader;
      ghost var d1 := data[..];
      rest := ReaderRuns(others);
      assert data[..] == d1 && Placed(d, piece);
      PlacedUnseen(d, piece);
      PlaceAppends(d, roff, woff, Min(|piece|, data.Length - woff), piece);
      woff := next;
    }

    /** `write_some_`: copy into the regions for a snapshot of both offsets. */
    method CopyIn(r: nat, w: nat, buf: array<Byte>, at: nat, len: nat) returns (n: nat, next: nat)
      requires Offsets(data.Length, r, w) && buf != data && at + len <= buf.Length
      modifies data
      ensures var g := WriteRegions(data.Length, r, w, len);
              && n == g.Count() && next == g.next && n <= len && w + g.first <= data.Length && g.second <= w
              && data[..] == Place(old(data[..]), w, g.first, Chunk(buf[..], at, n))
    {
      hide Splice, Place;
      ghost var before := data[..];
      if w + 1 == r || (w == data.Length - 1 && r == 0) {
        PlaceNothing(before, w, buf[..][at..at]);
        return 0, w;
      }
      if w < r {
        var avail := r - w - 1;
        if avail >= len {
          PlaceOne(before, w, buf[..][at..at + len]);
          Memcpy(data, w, buf, at, len);
          return len, w + len;
        }
        PlaceOne(before, w, buf[..][at..at + avail]);
        Memcpy(data, w, buf, at, avail);
        return avail, w + avail;
      }
      var avail := data.Length - w;
      if avail > len {
        PlaceOne(before, w, buf[..][at..at + len]);
        Memcpy(data, w, buf, at, len);
        return len, w + len;
      }
      if r == 0 {
        PlaceOne(before, w, buf[..][at..at + (avail - 1)]);
        Memcpy(data, w, buf, at, avail - 1);
        return avail - 1, w + avail - 1;
      }
      Memcpy(data, w, buf, at, avail);
      if r > len - avail {
        PlaceTwo(before, w, buf[..], at, avail, len - avail);
        Memcpy(data, 0, buf, at + avail, len - avail);
        return len, len - avail;
      }
      PlaceTwo(before, w, buf[..], at, avail, r - 1);
      Memcpy(data, 0, buf, at + avail, r - 1);
      return avail + r - 1, r - 1;
    }

    /**
     `circbuf_write_some` appends the first bytes offered, as many as fitted when it looked. The reader may run between
     the look at its offset and the copy, and again before the publication.
     */
    method WriteSome(buf: array<Byte>, at: nat, len: nat, others: seq<seq<ReaderTurn>>)
      returns (n: nat, rest: seq<seq<ReaderTurn>>)
      requires Valid() && buf != data && at + len <= buf.Length
      modifies this`woff, this`roff, this`rdone, data
      ensures Valid() && n == Min(len, old(Room())) && rest == Tail(Tail(others))
      ensures Abs() == ByReader(old(Abs()), Head(others) + Head(Tail(others))).Add(Chunk(buf[..], at, n))
      ensures woff == AdvanceWrite(data.Length, old(woff), n)
      ensures Head(others) == Head(Tail(others)) == [] ==> roff == old(roff)
    {
      hide Place, Contents, Chunk, WriteRegions, AdvanceWrite, ByReader;
      ghost var (r0, d, src) := (Abs(), data[..], buf[..]);
      WriteRegionsExact(data.Length, roff, woff, len);
      var r := roff;
      rest := ReaderRuns(others);
      ghost var r1 := Abs();
      assert data[..] == d && buf[..] == src && r1.queue == Contents(d, roff, woff);
      var next;
      n, next := CopyIn(r, woff, buf, at, len);
      assert Placed(d, Chunk(src, at, n));
      PlacedUnseen(d, Chunk(src, at, n));
      assert Abs() == r1;
      rest := Publish(next, rest, d, Chunk(src, at, n));
      ByReaderJoin(r0, Head(others), Head(Tail(others)));
    }

    // ----- writing from a callback ------------------------------------------------------------------------

    /** One call of the writer for the `length` cells at `w`, and what it moves. */
    method Fetch(w: nat, writer: Writer, length: nat, eofIn: bool) returns (n: nat, next: nat, eof: bool)
      requires w + length <= data.Length && w < data.Length
      modifies data, writer
      ensures var f := Ask(old(writer.script), length);
              && writer.script == f.script
              && writer.given == old(writer.given) + f.bytes && writer.calls == old(writer.calls) + f.calls
              && n == |f.bytes| && data[..] == Splice(old(data[..]), w, f.bytes)
              && eof == (eofIn || n < length)
      ensures n <= length && next == AdvanceWrite(data.Length, w, n)
    {
      hide Splice;
      n := writer.Supply(data, w, length);
      next, eof := (w + n) % data.Length, eofIn;
      WriteWraps(data.Length, w, n);
      if n < length {
        eof := true;
      }
    }

    /** After a first call that has reached the array's end, the one for the cells from 0 on. */
    method FetchRest(w: nat, writer: Writer, length: nat, eofIn: bool, ghost before: seq<Byte>, ghost head: seq<Byte>)
      returns (n: nat, next: nat, eof: bool)
      requires |before| == data.Length && w < data.Length && |head| == data.Length - w && length <= w
      requires data[..] == Place(before, w, |head|, head)
      modifies data, writer
      ensures var f := Ask(old(writer.script), length);
              && writer.script == f.script
              && writer.given == old(writer.given) + f.bytes && writer.calls == old(writer.calls) + f.calls
              && n == |f.bytes| && eof == (eofIn || n < length)
              && data[..] == Place(before, w, |head|, head + f.bytes)
      ensures n <= length && next == AdvanceWrite(data.Length, w, |head| + n)
    {
      hide Splice, Place, Ask, AdvanceWrite;
      ghost var f := Ask(writer.script, length);
      PlaceOne(before, w, head);
      n, next, eof := Fetch(0, writer, length, eofIn);
      AdvanceFromStart(data.Length, w, n);
      PlaceJoined(before, w, head, f.bytes);
    }

    /** The first call, for the `length` cells at `w`. */
    method FetchFirst(w: nat, writer: Writer, length: nat, eofIn: bool) returns (n: nat, next: nat, eof: bool)
      requires w + length <= data.Length && w < data.Length
      modifies data, writer
      ensures var f := Ask(old(writer.script), length);
              && writer.script == f.script
              && writer.given == old(writer.given) + f.bytes && writer.calls == old(writer.calls) + f.calls
              && n == |f.bytes| && eof == (eofIn || n < length)
              && data[..] == Place(old(data[..]), w, n, f.bytes)
      ensures n <= length && next == AdvanceWrite(data.Length, w, n)
    {
      hide Splice, Place, Ask, AdvanceWrite;
      ghost var (before, f) := (data[..], Ask(writer.script, length));
      n, next, eof := Fetch(w, writer, length, eofIn);
      PlaceOne(before, w, f.bytes);
    }

    /** The length of the first region, and whether it is the only one. */
    method FirstLength(r: nat, w: nat, len: nat) returns (length: nat, whole: bool)
      requires Offsets(data.Length, r, w) && !Full(data.Length, r, w)
      ensures length == Min(WriteRegions(data.Length, r, w, len).Count(), data.Length - w)
      ensures whole <==> WriteRegions(data.Length, r, w, len).Count() < data.Length - w
      ensures !whole ==> w >= r > 0 && len >= data.Length - w
    {
      if w < r {
        var avail := r - w - 1;
        return if avail >= len then len else avail, true;
      }
      var avail := data.Length - w;
      if avail > len {
        return len, true;
      }
      if r == 0 {
        return avail - 1, true;
      }
      return avail, false;
    }

    /**
     `write_some2_`: let `writer` fill the regions for a snapshot of both offsets. The write offset moves after each
     call and the first short call is the last.
     */
    method FillIn(r: nat, w: nat, writer: Writer, len: nat, eofIn: bool)
      returns (n: nat, next: nat, eof: bool, ghost f: Fetched)
      requires Offsets(data.Length, r, w)
      modifies data, writer
      ensures f == Supplied(old(writer.script), len, data.Length - 1 - Length(data.Length, r, w), data.Length - w)
      ensures writer.script == f.script
      ensures writer.given == old(writer.given) + f.bytes && writer.calls == old(writer.calls) + f.calls
      ensures n == |f.bytes| < data.Length && next == AdvanceWrite(data.Length, w, n)
      ensures eof == (eofIn || EndsShort(f.calls))
      ensures data[..] == Place(old(data[..]), w, Min(n, data.Length - w), f.bytes)
    {
      hide Place, EndsShort, StopsWhenShort, Got, Ask, AskAll, Length, Contiguous, AdvanceWrite;
      ghost var (before, script, given, calls) := (data[..], writer.script, writer.given, writer.calls);
      ghost var (count, edge) := (WriteRegions(data.Length, r, w, len).Count(), data.Length - w);
      WriteRegionsExact(data.Length, r, w, len);
      f := Supplied(script, len, data.Length - 1 - Length(data.Length, r, w), edge);
      SuppliedAccounts(script, len, data.Length - 1 - Length(data.Length, r, w), edge);
      n, next, eof := 0, w, eofIn;
      if w + 1 == r || (w == data.Length - 1 && r == 0) {
        PlaceNothing(before, w, []);
        AdvanceNowhere(data.Length, w);
        return;
      }
      assert f == AskAll(script, count, edge);
      hide Supplied;
      AskOnce(script, count, edge);
      var length, whole := FirstLength(r, w, len);
      n, next, eof := FetchFirst(w, writer, length, eof);
      if n < length || whole {
        return;
      }
      ghost var one := Ask(script, length);
      AskTwice(script, count, edge);
      var avail := data.Length - w;
      length := if r > len - avail then len - avail else r - 1;
      assert length == count - n <= w;
      hide WriteRegions;
      var m;
      m, next, eof := FetchRest(w, writer, length, eof, before, one.bytes);
      TwoCalls(given, calls, one, Ask(one.script, length));
      n := n + m;
    }

    /**
     `circbuf_write_some2` asks the writer for as many bytes as are wanted and fitted when it looked, and appends what
     it supplies. The reader may run between the look at its offset and the calls of the writer, and again before the
     publication.
     */
    method WriteSome2(writer: Writer, len: nat, eofIn: bool, others: seq<seq<ReaderTurn>>)
      returns (n: nat, eof: bool, rest: seq<seq<ReaderTurn>>, ghost f: Fetched)
      requires Valid()
      modifies this`woff, this`roff, this`rdone, data, writer
      ensures Valid() && rest == Tail(Tail(others))
      ensures f == Supplied(old(writer.script), len, old(Room()), data.Length - old(woff))
      ensures Abs() == ByReader(old(Abs()), Head(others) + Head(Tail(others))).Add(f.bytes)
      ensures writer.script == f.script
      ensures writer.given == old(writer.given) + f.bytes && writer.calls == old(writer.calls) + f.calls
      ensures n == |f.bytes| == Got(f.calls) <= Min(len, old(Room()))
      ensures StopsWhenShort(f.calls) && eof == (eofIn || EndsShort(f.calls))
      ensures EndsShort(f.calls) <==> n < Min(len, old(Room()))
      ensures woff == AdvanceWrite(data.Length, old(woff), n)
    {
      hide Place, Contents, AdvanceWrite, ByReader, Got, EndsShort, StopsWhenShort, Supplied;
      ghost var (r0, d) := (Abs(), data[..]);
      SuppliedAccounts(writer.script, len, Room(), data.Length - woff);
      var r := roff;
      rest := ReaderRuns(others);
      ghost var r1 := Abs();
      assert data[..] == d && r1.queue == Contents(d, roff, woff);
      var next;
      n, next, eof, f := FillIn(r, woff, writer, len, eofIn);
      assert Placed(d, f.bytes);
      PlacedUnseen(d, f.bytes);
      assert Abs() == r1;
      rest := Publish(next, rest, d, f.bytes);
      ByReaderJoin(r0, Head(others), Head(Tail(others)));
    }

    // ----- reading in place --------------------------------------------------------------------------------

    /**
     `circbuf_input_some`: the longest block of the array that holds the oldest bytes, up to `len`, of those that were
     there when it looked. The writer may run before it looks and after, and leaves the block as it is.
     */
    method InputSome(len: nat, others: seq<seq<WriterTurn>>)
      returns (start: nat, n: nat, rest: seq<seq<WriterTurn>>)
      requires Valid()
      modifies this`woff, this`wdone, data
      ensures Valid() && rest == Tail(Tail(others))
      ensures Abs() == ByWriter(old(Abs()), Head(others) + Head(Tail(others)))
      ensures start == roff && start + n <= data.Length
      ensures n == Min(len, Min(|ByWriter(old(Abs()), Head(others)).queue|, data.Length - start))
      ensures n <= |Queue()| && data[..][start..start + n] == Queue()[..n]
    {
      hide Contents;
      ghost var r0 := Abs();
      start := roff;
      rest := WriterRuns(others);
      var w := woff;
      ghost var r1 := Abs();
      n := if w < start then (if data.Length - start > len then len else data.Length - start)
           else if w - start > len then len else w - start;
      assert n == InputLength(data.Length, roff, w, len) && |r1.queue| == Length(data.Length, roff, w);
      assert n == Min(len, Min(|r1.queue|, data.Length - start));
      rest := WriterRuns(rest);
      ByWriterJoin(r0, Head(others), Head(Tail(others)));
      hide InputLength;
      BlockIsPrefix(data[..], roff, w, woff, len);
    }

    /**
     `circbuf_dispose_some` drops what reading as many bytes would have taken. The writer may run before it looks at
     the length and again before the publication.
     */
    method DisposeSome(len: nat, others: seq<seq<WriterTurn>>) returns (n: nat, rest: seq<seq<WriterTurn>>)
      requires Valid()
      modifies this`roff, this`woff, this`wdone, data
      ensures Valid() && rest == Tail(Tail(others))
      ensures n == Min(len, |ByWriter(old(Abs()), Head(others)).queue|)
      ensures Abs() == ByWriter(old(Abs()), Head(others) + Head(Tail(others))).Drop(n)
    {
      hide Contents;
      ghost var r0 := Abs();
      rest := WriterRuns(others);
      var length := GetLength();
      n := Min(len, length);
      var next := roff + n;
      if next >= data.Length {
        next := next - data.Length;
      }
      assert next == DisposeOffset(data.Length, roff, n);
      hide DisposeOffset, ReadRegions, AdvanceWrite, ByWriter;
      rest := WriterRuns(rest);
      ByWriterJoin(r0, Head(others), Head(Tail(others)));
      DisposeIsRead(data[..], roff, woff, n);
      roff := next;
    }

    // ----- blocking calls ---------------------------------------------------------------------------------

    /** Under this condition a producer sleeps, unless reading is closed. */
    predicate IsFull()
      reads this
    {
      Full(data.Length, roff, woff)
    }

    lemma FullIsNoRoom()
      requires Valid()
      ensures IsFull() <==> Abs().Room() == 0
      ensures Room() == Abs().Room()
    {
      WriteRegionsExact(data.Length, roff, woff, 0);
    }

    /**
     Sleep while the ring is full and open for reading; `awake` is false if it still is when the schedule ends. The
     part `used` of the schedule is slept through, and before each step of it there was cause to sleep.
     */
    method AwaitRoom(others: seq<seq<ReaderTurn>>)
      returns (awake: bool, rest: seq<seq<ReaderTurn>>, ghost used: seq<seq<ReaderTurn>>)
      requires Valid()
      modifies this`roff, this`rdone
      ensures Valid() && others == used + rest && Abs() == ByReader(old(Abs()), Flat(used))
      ensures SleptThrough(old(Abs()), used)
      ensures awake <==> !Stops(Abs())
      ensures !awake ==> rest == []
    {
      hide Contents, Full, ByReader, Flat;
      rest, used := others, [];
      ghost var r0 := Abs();
      NobodyReads(r0);
      assert Flat<ReaderTurn>([]) == [] by { NoTurns<ReaderTurn>(); }
      FullIsNoRoom();
      while IsFull() && !rdone && rest != []
        invariant Valid() && others == used + rest && Abs() == ByReader(r0, Flat(used))
        invariant SleptThrough(r0, used)
        decreases |rest|
      {
        FullIsNoRoom();
        SleptOn(r0, used, rest[0]);
        used := used + [rest[0]];
        rest := ReaderRuns(rest);
      }
      FullIsNoRoom();
      awake := !IsFull() || rdone;
    }

    /** The wait of a producer, with the reader running before the lock is taken and after it is released. */
    method ComeToRoom(others: seq<seq<ReaderTurn>>)
      returns (awake: bool, rest: seq<seq<ReaderTurn>>, ghost turns: seq<ReaderTurn>)
      requires Valid()
      modifies this`roff, this`rdone
      ensures Valid() && Flat(others) == turns + Flat(rest) && Abs() == ByReader(old(Abs()), turns)
      ensures awake <==> !Stops(Abs())
      ensures !awake ==> rest == []
    {
      hide Contents, Full, Flat, ByReader;
      ghost var r0 := Abs();
      FlatHead(others);
      rest := ReaderRuns(others);
      turns := Head(others);
      ghost var (r1, was, used) := (Abs(), rest, []);
      awake, rest, used := AwaitRoom(rest);
      FlatJoin(used, rest);
      ByReaderJoin(r0, turns, Flat(used));
      turns := turns + Flat(used);
      if awake {
        ghost var (r2, more) := (Abs(), Head(rest));
        FlatHead(rest);
        rest := ReaderRuns(rest);
        ByReaderJoin(r0, turns, more);
        StaysAwake(r2, more);
        turns := turns + more;
      }
    }

    /** One pass of the loop of `circbuf_write`; with the reader open it moves a byte or goes on sleeping. */
    method WriteRound(buf: array<Byte>, at: nat, len: nat, others: seq<seq<ReaderTurn>>)
      returns (n: nat, awake: bool, rest: seq<seq<ReaderTurn>>, ghost p: Pass<ReaderTurn>)
      requires Valid() && buf != data && at + len <= buf.Length && 0 < len
      modifies this`woff, this`roff, this`rdone, data
      ensures Valid() && Flat(others) == p.before + p.after + Flat(rest)
      ensures Writing(Abs(), n) == WritePass(Writing(old(Abs()), 0), Chunk(buf[..], at, len), p)
      ensures n <= len && (old(rdone) ==> rdone) && (awake ==> n > 0 || rdone)
      ensures !awake ==> n == 0 && rest == [] && Stops(Abs())
    {
      hide Contents, Full, AdvanceWrite, Flat, ByReader, IsFull;
      ghost var (r0, src, turns) := (Abs(), buf[..], []);
      awake, rest, turns := ComeToRoom(others);
      ReaderCloses(r0, turns);
      ghost var r1 := Abs();
      assert buf[..] == src;
      n, p := 0, Pass(turns, []);
      assert ByReader(r1, []) == r1 by { NobodyReads(r1); }
      if awake && !rdone {
        FullIsNoRoom();
        ghost var (first, second) := (Head(rest), Head(Tail(rest)));
        FlatHead(rest);
        FlatHead(Tail(rest));
        n, rest := WriteSome(buf, at, len, rest);
        p := Pass(turns, first + second);
        ChunkOfChunk(src, at, len, 0, n);
        ReaderCloses(r1, first + second);
        assert buf[..] == src;
      }
    }

    /**
     One trip round the loop of `circbuf_write`: the reader runs, the loop test stops it or a pass follows.
     */
    method WriteTrip(buf: array<Byte>, at: nat, len: nat, others: seq<seq<ReaderTurn>>)
      returns (n: nat, stop: bool, awake: bool, rest: seq<seq<ReaderTurn>>, ghost turns: seq<ReaderTurn>,
               ghost p: Pass<ReaderTurn>)
      requires Valid() && buf != data && at + len <= buf.Length
      modifies this`woff, this`roff, this`rdone, data
      ensures Valid() && n <= len && (old(rdone) ==> stop)
      ensures stop ==> n == 0 && (len == 0 || rdone)
      ensures stop ==> Flat(others) == turns + Flat(rest) && Abs() == ByReader(old(Abs()), turns)
      ensures !stop ==> turns == [] && Flat(others) == p.before + p.after + Flat(rest)
      ensures !stop ==> Writing(Abs(), n) == WritePass(Writing(old(Abs()), 0), Chunk(buf[..], at, len), p)
      ensures !stop && awake ==> n > 0 || rdone
      ensures !awake ==> !stop && n == 0 && len > 0 && rest == [] && Stops(Abs())
    {
      hide Contents, Full, Flat, ByReader, Chunk, WritePass, IsFull;
      ghost var (r0, src, first) := (Abs(), buf[..], Head(others));
      FlatHead(others);
      rest := ReaderRuns(others);
      ReaderCloses(r0, first);
      assert buf[..] == src;
      n, stop, awake, turns, p := 0, len == 0 || rdone, true, first, Pass([], []);
      if !stop {
        n, awake, rest, p := WriteRound(buf, at, len, rest);
        assert buf[..] == src;
        WritePassOn(Writing(r0, 0), Chunk(src, at, len), first, p);
        assert Chunk(src, at, len)[0..] == Chunk(src, at, len);
        turns, p := [], Pass(first + p.before, p.after);
      }
    }

    /**
     `circbuf_write`. The ring is what the passes make of it: each puts in all that is still to be written and fits.
     So nothing is lost, repeated or reordered; reading is closed only if a turn that was run closed it; the result is
     short only when it is; and a call that has not returned has run the whole schedule and sleeps over a full ring.
     */
    method Write(buf: array<Byte>, at: nat, len: nat, others: seq<seq<ReaderTurn>>)
      returns (written: nat, done: bool, rest: seq<seq<ReaderTurn>>, ghost passes: seq<Pass<ReaderTurn>>,
               ghost tail: seq<ReaderTurn>, ghost eaten: seq<Byte>)
      requires Valid() && buf != data && at + len <= buf.Length
      modifies this`woff, this`roff, this`rdone, data
      ensures Valid() && Flat(others) == Turns(passes) + tail + Flat(rest)
      ensures var s := WritePasses(old(Abs()), Chunk(buf[..], at, len), passes);
              written == s.put && Abs() == ByReader(s.ring, tail)
      ensures written <= len && eaten + Queue() == old(Queue()) + Chunk(buf[..], at, written)
      ensures rdone == (old(rdone) || CloseReading in Turns(passes) + tail)
      ensures done && written < len ==> rdone
      ensures old(rdone) ==> done && written == 0 && rest == others
      ensures !done ==> written < len && rest == [] && IsFull() && !rdone
    {
      hide Contents, Full, Flat, ByReader, Chunk, WritePass, WritePasses, Turns, IsFull;
      ghost var (src, r0, source) := (buf[..], Abs(), Chunk(buf[..], at, len));
      written, done, rest, passes, tail := 0, true, others, [], [];
      NoPasses(r0, source);
      NobodyReads(r0);
      ghost var s := WritePasses(r0, source, passes);
      var stop := rdone;
      while !stop
        invariant Valid() && buf[..] == src && Flat(others) == Turns(passes) + tail + Flat(rest)
        invariant s == WritePasses(r0, source, passes) && s.put == written <= len && Abs() == ByReader(s.ring, tail)
        invariant !stop ==> done && tail == [] && Abs() == s.ring
        invariant stop && done && written < len ==> rdone
        invariant old(rdone) ==> stop && done && written == 0 && rest == others
        invariant !done ==> written < len && rest == [] && Stops(Abs())
        decreases !stop, len - written, !rdone
      {
        ghost var (p, left, was) := (Pass([], []), Flat(rest), s);
        var n, awake;
        n, stop, awake, rest, tail, p := WriteTrip(buf, at + written, len - written, rest);
        assert buf[..] == src;
        if !stop {
          ChunkTail(src, at, len, written);
          s := OneMoreWrite(r0, source, passes, p);
          TurnsAre(Flat(others), passes, left, p, Flat(rest));
          NobodyReads(s.ring);
          passes, written := passes + [p], written + n;
          if !awake {
            stop, done := true, false;
          }
        }
      }
      eaten := WritesFlow(r0, source, passes, tail);
      ChunkOfChunk(src, at, len, 0, written);
      ChunkIs(source[..written], source, 0);
      FullIsNoRoom();
    }

    /** What the passes of `circbuf_write2` start from. */
    ghost function Unfilled(writer: Writer): Filling
      requires Valid()
      reads this, data, writer
    {
      Filling(Abs(), [], [], writer.script, woff)
    }

    /** One pass of the loop of `circbuf_write2`. */
    method WriteRound2(writer: Writer, len: nat, others: seq<seq<ReaderTurn>>)
      returns (n: nat, eof: bool, awake: bool, rest: seq<seq<ReaderTurn>>, ghost p: Pass<ReaderTurn>,
               ghost x: Filling)
      requires Valid() && 0 < len
      modifies this`woff, this`roff, this`rdone, data, writer
      ensures Valid() && Flat(others) == p.before + p.after + Flat(rest)
      ensures x == FillPass(old(Unfilled(writer)), len, p) == Filling(Abs(), x.put, x.calls, writer.script, woff)
      ensures writer.given == old(writer.given) + x.put && writer.calls == old(writer.calls) + x.calls
      ensures n == |x.put| == Got(x.calls) <= len && StopsWhenShort(x.calls)
      ensures eof == EndsShort(x.calls) && (eof ==> n < len)
      ensures (old(rdone) ==> rdone) && (awake ==> n > 0 || eof || rdone)
      ensures !awake ==> x.calls == [] && rest == [] && Stops(Abs())
    {
      hide Got, EndsShort, StopsWhenShort, Contents, Full, AdvanceWrite, Flat, ByReader, IsFull, AskAll;
      ghost var (r0, s0, turns, script, w) := (Abs(), Unfilled(writer), [], writer.script, woff);
      awake, rest, turns := ComeToRoom(others);
      ReaderCloses(r0, turns);
      ghost var r1 := Abs();
      NobodyReads(r1);
      n, eof, p := 0, false, Pass(turns, []);
      ghost var f := Asked(r1, len, script, w);
      AskedAccounts(r1, len, script, w);
      if awake && !rdone {
        FullIsNoRoom();
        ghost var (first, second, got) := (Head(rest), Head(Tail(rest)), f);
        FlatHead(rest);
        FlatHead(Tail(rest));
        n, eof, rest, got := WriteSome2(writer, len, false, rest);
        p := Pass(turns, first + second);
        ReaderCloses(r1, first + second);
        AdvanceIsOnward(data.Length, w, n);
        assert f == got;
      } else {
        assert f == Fetched([], [], script);
        NoCalls();
      }
      assert [] + f.bytes == f.bytes && [] + f.calls == f.calls;
      x := FillPass(s0, len, p);
    }

    /** One trip round the loop of `circbuf_write2`: the reader runs, the loop test stops it or a pass follows. */
    method WriteTrip2(writer: Writer, len: nat, eofIn: bool, others: seq<seq<ReaderTurn>>)
      returns (n: nat, eof: bool, stop: bool, awake: bool, rest: seq<seq<ReaderTurn>>, ghost turns: seq<ReaderTurn>,
               ghost p: Pass<ReaderTurn>, ghost x: Filling)
      requires Valid()
      modifies this`woff, this`roff, this`rdone, data, writer
      ensures Valid() && n <= len && (old(rdone) ==> stop)
      ensures stop ==> n == 0 && eof == eofIn && (len == 0 || rdone || eofIn)
      ensures stop ==> Flat(others) == turns + Flat(rest) && Abs() == ByReader(old(Abs()), turns)
      ensures stop ==> writer.script == old(writer.script) && writer.given == old(writer.given)
                       && writer.calls == old(writer.calls) && woff == old(woff)
      ensures !stop ==> turns == [] && Flat(others) == p.before + p.after + Flat(rest) && !eofIn
      ensures !stop ==> x == FillPass(old(Unfilled(writer)), len, p)
                          == Filling(Abs(), x.put, x.calls, writer.script, woff)
      ensures !stop ==> writer.given == old(writer.given) + x.put && writer.calls == old(writer.calls) + x.calls
      ensures !stop ==> n == |x.put| == Got(x.calls) && StopsWhenShort(x.calls)
      ensures !stop ==> eof == EndsShort(x.calls) && (eof ==> n < len)
      ensures !stop && awake ==> n > 0 || eof || rdone
      ensures !awake ==> !stop && !eof && n == 0 && len > 0 && rest == [] && Stops(Abs())
    {
      hide Got, EndsShort, StopsWhenShort, Contents, Full, Flat, ByReader, FillPass, IsFull;
      ghost var (r0, s0, first) := (Abs(), Unfilled(writer), Head(others));
      FlatHead(others);
      rest := ReaderRuns(others);
      ReaderCloses(r0, first);
      n, eof, stop, awake, turns, p, x := 0, eofIn, len == 0 || rdone || eofIn, true, first, Pass([], []), s0;
      if !stop {
        n, eof, awake, rest, p, x := WriteRound2(writer, len, rest);
        NoCalls();
        FillPassOn(s0, len, first, p);
        assert [] + x.put == x.put && [] + x.calls == x.calls;
        turns, p := [], Pass(first + p.before, p.after);
      }
    }

    /**
     `circbuf_write2`. The ring, the writer and its calls are what the passes make of them: each asks for all that is
     still wanted and fits. So the result is the number of bytes the writer supplied; after a short call there is no
     other; a short result means a short call or a closed reader, and only a turn that was run closes it.
     */
    method Write2(writer: Writer, len: nat, others: seq<seq<ReaderTurn>>)
      returns (written: nat, done: bool, rest: seq<seq<ReaderTurn>>, ghost passes: seq<Pass<ReaderTurn>>,
               ghost tail: seq<ReaderTurn>, ghost eaten: seq<Byte>, ghost s: Filling)
      requires Valid()
      modifies this`woff, this`roff, this`rdone, data, writer
      ensures Valid() && Flat(others) == Turns(passes) + tail + Flat(rest)
      ensures s == FillPasses(old(Unfilled(writer)), len, passes)
      ensures Abs() == ByReader(s.ring, tail) && writer.script == s.script && woff == s.woff
      ensures writer.given == old(writer.given) + s.put && writer.calls == old(writer.calls) + s.calls
      ensures written == |s.put| == Got(s.calls) <= len && eaten + Queue() == old(Queue()) + s.put
      ensures rdone == (old(rdone) || CloseReading in Turns(passes) + tail)
      ensures StopsWhenShort(s.calls) && (EndsShort(s.calls) ==> done && written < len)
      ensures done && written < len ==> EndsShort(s.calls) || rdone
      ensures old(rdone) ==> done && s.calls == [] && rest == others
      ensures !done ==> written < len && rest == [] && IsFull() && !rdone
    {
      hide Got, EndsShort, StopsWhenShort, Contents, Full, Flat, ByReader, FillPass, FillPasses, Turns, IsFull;
      ghost var (s0, g0, c0) := (Unfilled(writer), writer.given, writer.calls);
      written, done, rest, passes, tail, s := 0, true, others, [], [], s0;
      NoFillPasses(s0, len);
      NobodyReads(s0.ring);
      NoCalls();
      var stop, eof := rdone, false;
      while !stop
        invariant Valid() && Flat(others) == Turns(passes) + tail + Flat(rest)
        invariant s == FillPasses(s0, len, passes) && Abs() == ByReader(s.ring, tail)
        invariant writer.script == s.script && woff == s.woff
        invariant writer.given == g0 + s.put && writer.calls == c0 + s.calls
        invariant written == |s.put| == Got(s.calls) <= len
        invariant StopsWhenShort(s.calls) && eof == EndsShort(s.calls) && (eof ==> done && written < len)
        invariant !stop ==> done && tail == [] && Abs() == s.ring
        invariant stop && done && written < len ==> eof || rdone
        invariant old(rdone) ==> stop && done && s.calls == [] && rest == others
        invariant !done ==> stop && written < len && rest == [] && Stops(Abs())
        decreases !stop, len - written, !rdone, !eof
      {
        ghost var (p, left, x) := (Pass([], []), Flat(rest), s);
        var n, awake;
        n, eof, stop, awake, rest, tail, p, x := WriteTrip2(writer, len - written, eof, rest);
        if !stop {
          GotJoin(s.calls, x.calls);
          StopsJoin(s.calls, x.calls);
          s := OneMoreFill(s0, len, passes, p);
          TurnsAre(Flat(others), passes, left, p, Flat(rest));
          NobodyReads(s.ring);
          passes, written := passes + [p], written + n;
          if !awake {
            stop, done := true, false;
          }
        }
      }
      eaten := FillsFlow(s0, len, passes, tail);
      FullIsNoRoom();
    }

    /**
     Sleep while the ring is empty and open for writing; `awake` is false if it still is when the schedule ends. The
     part `used` of the schedule is slept through, and before each step of it there was cause to sleep.
     */
    method AwaitBytes(others: seq<seq<WriterTurn>>)
      returns (awake: bool, rest: seq<seq<WriterTurn>>, ghost used: seq<seq<WriterTurn>>)
      requires Valid()
      modifies this`woff, this`wdone, data
      ensures Valid() && others == used + rest && Abs() == ByWriter(old(Abs()), Flat(used))
      ensures IdledThrough(old(Abs()), used) && (used != [] ==> old(roff == woff))
      ensures awake <==> roff != woff || wdone
      ensures !awake ==> rest == [] && Idles(Abs())
    {
      hide Contents, ByWriter, Flat;
      rest, used := others, [];
      ghost var r0 := Abs();
      NobodyWrites(r0);
      assert Flat<WriterTurn>([]) == [] by { NoTurns<WriterTurn>(); }
      while roff == woff && !wdone && rest != []
        invariant Valid() && others == used + rest && Abs() == ByWriter(r0, Flat(used))
        invariant IdledThrough(r0, used) && (used != [] ==> old(roff == woff))
        invariant used == [] ==> roff == old(roff) && woff == old(woff)
        decreases |rest|
      {
        IdledOn(r0, used, rest[0]);
        used := used + [rest[0]];
        rest := WriterRuns(rest);
      }
      awake := roff != woff || wdone;
    }

    /**
     One pass of the loop of `circbuf_read`. It moves a byte, or turns the offset `size` into 0, or has found the
     ring empty and writing closed, or goes on sleeping.
     */
    method ReadRound(buf: array<Byte>, at: nat, len: nat, others: seq<seq<WriterTurn>>)
      returns (n: nat, awake: bool, rest: seq<seq<WriterTurn>>, ghost p: Pass<WriterTurn>, ghost x: Reading)
      requires Valid() && buf != data && at + len <= buf.Length && 0 < len
      modifies this`roff, this`woff, this`wdone, data, buf
      ensures Valid() && Flat(others) == p.before + p.after + Flat(rest)
      ensures x == ReadPass(Reading(old(Abs()), []), len, p) == Reading(Abs(), x.taken) && n == |x.taken| <= len
      ensures buf[..] == Splice(old(buf[..]), at, x.taken)
      ensures old(wdone) ==> wdone
      ensures awake && n == 0 ==>
                || (old(roff) == data.Length && roff == 0)
                || (wdone && roff == old(roff) && (old(wdone) ==> old(roff == woff)))
      ensures !awake ==> n == 0 && rest == [] && Idles(Abs())
      ensures others == [] ==> rest == []
    {
      hide Splice, ReadRegions, Contents, Advanced, Contiguous, Flat, ByWriter;
      ghost var (r0, b0, used) := (Abs(), buf[..], []);
      SpliceNothing(b0, at);
      awake, rest, used := AwaitBytes(others);
      FlatJoin(used, rest);
      WriterCloses(r0, Flat(used));
      ghost var r1 := Abs();
      NobodyWrites(r1);
      assert buf[..] == b0;
      n, p := 0, Pass(Flat(used), []);
      if awake {
        if r1.queue == [] {
          ReadNothing(data.Length, roff, woff, len);
        }
        ghost var (first, second) := (Head(rest), Head(Tail(rest)));
        FlatHead(rest);
        FlatHead(Tail(rest));
        WriterCloses(r1, first + second);
        ghost var more := WriterGives(r1, first + second);
        n, rest := ReadSome(buf, at, len, rest);
        p := Pass(Flat(used), first + second);
      }
      x := ReadPass(Reading(r0, []), len, p);
      assert [] + r1.queue[..n] == r1.queue[..n];
    }

    /**
     One trip round the loop of `circbuf_read`: the load of the write offset, the writer runs, the load of the flag;
     these stop it or a pass follows.
     */
    method ReadTrip(buf: array<Byte>, at: nat, len: nat, others: seq<seq<WriterTurn>>)
      returns (n: nat, stop: bool, awake: bool, rest: seq<seq<WriterTurn>>, ghost turns: seq<WriterTurn>,
               ghost p: Pass<WriterTurn>, ghost x: Reading)
      requires Valid() && buf != data && at + len <= buf.Length && 0 < len
      modifies this`roff, this`woff, this`wdone, data, buf
      ensures Valid() && n <= len && (old(wdone) ==> wdone) && (others == [] ==> rest == [])
      ensures stop ==> n == 0 && wdone && Flat(others) == turns + Flat(rest) && Abs() == ByWriter(old(Abs()), turns)
      ensures stop && (old(wdone) || others == []) ==> Queue() == []
      ensures stop ==> buf[..] == old(buf[..])
      ensures !stop ==> turns == [] && Flat(others) == p.before + p.after + Flat(rest)
      ensures !stop ==> x == ReadPass(Reading(old(Abs()), []), len, p) == Reading(Abs(), x.taken) && n == |x.taken|
      ensures !stop ==> buf[..] == Splice(old(buf[..]), at, x.taken)
      ensures !stop && awake && n == 0 ==> (old(roff) == data.Length && roff == 0)
                                            || (!old(wdone) && wdone && roff == old(roff))
      ensures !awake ==> !stop && n == 0 && rest == [] && Idles(Abs())
    {
      hide Splice, Flat, ByWriter, ReadPass, ReadRegions;
      ghost var (r0, b0, first) := (Abs(), buf[..], Head(others));
      var empty := roff == woff;
      FlatHead(others);
      rest := WriterRuns(others);
      WriterCloses(r0, first);
      assert others == [] ==> ByWriter(r0, first) == r0 by { NobodyWrites(r0); }
      assert buf[..] == b0;
      n, stop, awake, turns, p, x := 0, empty && wdone, true, first, Pass([], []), Reading(r0, []);
      if !stop {
        n, awake, rest, p, x := ReadRound(buf, at, len, rest);
        ReadPassOn(Reading(r0, []), len, first, p);
        assert [] + x.taken == x.taken;
        turns, p := [], Pass(first + p.before, p.after);
      }
    }

    /**
     `circbuf_read`. What it delivers and the ring are what the passes make of it: each takes all that is still wanted
     and there. Writing is closed only if a turn that was run closed it. The result is short only when it is: the outer
     test loads the write offset and then the flag, and the writer may run in between, so the ring is surely empty then
     only if writing was closed from the beginning, or nobody ran. A call that has not returned has run the whole
     schedule and sleeps over an empty ring.
     */
    method Read(buf: array<Byte>, at: nat, len: nat, others: seq<seq<WriterTurn>>)
      returns (read: nat, done: bool, rest: seq<seq<WriterTurn>>, ghost passes: seq<Pass<WriterTurn>>,
               ghost tail: seq<WriterTurn>, ghost given: seq<Byte>)
      requires Valid() && buf != data && at + len <= buf.Length
      modifies this`roff, this`woff, this`wdone, data, buf
      ensures Valid() && Flat(others) == Turns(passes) + tail + Flat(rest)
      ensures var s := ReadPasses(old(Abs()), len, passes);
              && read == |s.taken| <= len && Abs() == ByWriter(s.ring, tail)
              && buf[..] == Splice(old(buf[..]), at, s.taken)
              && s.taken + Queue() == old(Queue()) + given
      ensures wdone == (old(wdone) || CloseWriting in Turns(passes) + tail)
      ensures done && read < len ==> wdone
      ensures done && read < len && (old(wdone) || others == []) ==> Queue() == []
      ensures !done ==> read < len && rest == [] && Queue() == [] && !wdone
    {
      hide Splice, Contents, Flat, ByWriter, ReadPass, ReadPasses, Turns;
      ghost var (b0, r0) := (buf[..], Abs());
      read, done, rest, passes, tail := 0, true, others, [], [];
      NoReadPasses(r0, len);
      NobodyWrites(r0);
      ghost var s := ReadPasses(r0, len, passes);
      SpliceNothing(b0, at);
      var stop := false;
      while read < len && !stop
        invariant Valid() && Flat(others) == Turns(passes) + tail + Flat(rest)
        invariant s == ReadPasses(r0, len, passes) && read == |s.taken| <= len && Abs() == ByWriter(s.ring, tail)
        invariant buf[..] == Splice(b0, at, s.taken)
        invariant !stop ==> done && tail == [] && Abs() == s.ring
        invariant stop && done ==> wdone && (old(wdone) || others == [] ==> Queue() == [])
        invariant !done ==> stop && read < len && rest == [] && Idles(Abs())
        invariant (others == [] ==> rest == []) && (old(wdone) ==> wdone)
        decreases !stop, len - read, if roff == data.Length then 1 else 0, !wdone
      {
        ghost var (p, left, x) := (Pass([], []), Flat(rest), s);
        var n, awake;
        n, stop, awake, rest, tail, p, x := ReadTrip(buf, at + read, len - read, rest);
        if !stop {
          SpliceTwice(b0, at, s.taken, x.taken);
          s := OneMoreRead(r0, len, passes, p);
          TurnsAre(Flat(others), passes, left, p, Flat(rest));
          NobodyWrites(s.ring);
          passes, read := passes + [p], read + n;
          if !awake {
            stop, done := true, false;
          }
        }
      }
      given := ReadsFlow(r0, len, passes, tail);
    }
  }

  // ----- nobody running ---------------------------------------------------------------------------------

  /** A writer that fills each call, with room for all and nobody running: all is written, in at most two calls. */
  method FillAlone(b: CircBuf, writer: Writer, len: nat) returns (written: nat)
    requires b.Valid() && !b.rdone && 0 < len <= b.Room()
    requires Fills(writer.script, len, b.data.Length - b.woff)
    modifies b`woff, b`roff, b`rdone, b.data, writer
    ensures b.Valid() && written == len && |writer.calls| <= |old(writer.calls)| + 2
    ensures |writer.given| == |old(writer.given)| + len
    ensures b.Queue() == old(b.Queue()) + writer.given[|old(writer.given)|..]
  {
    hide Contents, Full, FillPasses, FillPass, ByReader, Got, StopsWhenShort;
    ghost var s0 := b.Unfilled(writer);
    assert s0.ring.Room() == b.Room();
    assert Flat<ReaderTurn>([]) == [] by { NoTurns<ReaderTurn>(); }
    var done, rest;
    ghost var passes, tail, eaten, s;
    written, done, rest, passes, tail, eaten, s := b.Write2(writer, len, []);
    assert Turns(passes) == tail == [] == Flat(rest);
    NobodyReads(s.ring);
    NoFillPasses(s0, len);
    NoCalls();
    b.FullIsNoRoom();
    if passes != [] {
      FirstPassFills(s0, len, passes);
      OnePassFills(s0.ring, len, s0.script, s0.woff);
    }
  }

  // ----- which offsets occur ----------------------------------------------------------------------------

  /** Every pair of offsets the invariant allows occurs, the read offset `size` included. */
  method Arrange(capacity: nat, roff: nat, woff: nat) returns (b: CircBuf)
    requires capacity > 0 && Offsets(capacity + 1, roff, woff)
    ensures fresh(b) && fresh(b.data) && b.Valid() && b.data.Length == capacity + 1 && b.roff == roff && b.woff == woff
  {
    hide Contents, Splice;
    b := new CircBuf(capacity);
    var size := capacity + 1;
    var buf := new Byte[size];
    var from := if roff == size then capacity else roff;
    assert b.Room() == capacity && b.roff == b.woff == 0;
    var _, _ := b.WriteSome(buf, 0, from, []);
    assert b.roff == 0 && b.woff == from;
    var _, _ := b.ReadSome(buf, 0, from, []);
    assert b.roff == b.woff == from;
    if roff == size {
      var _, _ := b.WriteSome(buf, 0, 1, []);
      var _, _ := b.ReadSome(buf, 0, 1, []);
    }
    var more := if b.woff <= woff then woff - b.woff else size - b.woff + woff;
    var _, _ := b.WriteSome(buf, 0, more, []);
  }

  /** A partial read, disposal and write in which the documented boundary is passed. */
  method PassBoundary(capacity: nat, roff: nat, woff: nat, len: nat)
    returns (read: nat, disposed: nat, written: nat)
    requires capacity > 0 && Offsets(capacity + 1, roff, woff)
    ensures !ReadStaysRight(capacity + 1, roff, woff, len) ==>
              read > capacity + 1 - roff && disposed > capacity + 1 - roff
    ensures !WriteStaysRight(capacity + 1, roff, woff, len) ==> written > capacity + 1 - woff
  {
    hide Contents, Splice;
    var size := capacity + 1;
    var buf := new Byte[len];
    ReadStopsAtBoundaryIff(size, roff, woff, len);
    WriteStopsAtBoundaryIff(size, roff, woff, len);
    ReadRegionsExact(size, roff, woff, len);
    WriteRegionsExact(size, roff, woff, len);
    var b := Arrange(capacity, roff, woff);
    var r, _ := b.ReadSome(buf, 0, len, []);
    b := Arrange(capacity, roff, woff);
    var d, _ := b.DisposeSome(len, []);
    b := Arrange(capacity, roff, woff);
    var w, _ := b.WriteSome(buf, 0, len, []);
    return r, d, w;
  }
}
