/** What a ring holds, as a sequence, and what the region copies do to it. */
module RingContents {
  import opened RingGeometry

  /** The unread bytes, oldest first. */
  function Contents(data: seq<Byte>, roff: nat, woff: nat): (q: seq<Byte>)
    requires Offsets(|data|, roff, woff)
    ensures |q| == Length(|data|, roff, woff)
  {
    seq(Length(|data|, roff, woff), k requires 0 <= k < Length(|data|, roff, woff) => data[Cell(|data|, roff, k)])
  }

  /** The bytes of two regions, one after the other. */
  function Gather(data: seq<Byte>, off: nat, first: nat, second: nat): seq<Byte>
    requires off + first <= |data| && second <= |data|
  {
    data[off..off + first] + data[..second]
  }

  /** `s` with `x` written over it from index `at` on. */
  function Splice(s: seq<Byte>, at: nat, x: seq<Byte>): (r: seq<Byte>)
    requires at + |x| <= |s|
    ensures |r| == |s|
  {
    s[..at] + x + s[at + |x|..]
  }

  lemma SpliceTwice(s: seq<Byte>, at: nat, x: seq<Byte>, y: seq<Byte>)
    requires at + |x| + |y| <= |s|
    ensures Splice(Splice(s, at, x), at + |x|, y) == Splice(s, at, x + y)
  {
  }

  lemma SpliceNothing(s: seq<Byte>, at: nat)
    requires at <= |s|
    ensures Splice(s, at, []) == s
  {
  }

  /** One more byte of a copy. */
  lemma SpliceStep(s: seq<Byte>, at: nat, x: seq<Byte>, i: nat)
    requires i < |x| && at + |x| <= |s|
    ensures Splice(s, at, x[..i])[at + i := x[i]] == Splice(s, at, x[..i + 1])
  {
  }

  lemma SpliceHead(s: seq<Byte>, x: seq<Byte>)
    requires |x| <= |s|
    ensures Splice(s, 0, x)[..|x|] == x
  {
  }

  /** `n` elements of `s` from index `at` on. */
  function Chunk(s: seq<Byte>, at: nat, n: nat): (c: seq<Byte>)
    requires at + n <= |s|
    ensures |c| == n
  {
    s[at..at + n]
  }

  lemma ChunkNone(s: seq<Byte>, at: nat)
    requires at <= |s|
    ensures Chunk(s, at, 0) == []
  {
  }

  lemma ChunkOn(s: seq<Byte>, at: nat, m: nat, n: nat)
    requires at + m + n <= |s|
    ensures Chunk(s, at, m) + Chunk(s, at + m, n) == Chunk(s, at, m + n)
  {
  }

  lemma ChunkIs(c: seq<Byte>, s: seq<Byte>, at: nat)
    requires at + |c| <= |s| && forall i | 0 <= i < |c| :: c[i] == s[at + i]
    ensures c == Chunk(s, at, |c|)
  {
  }

  lemma ChunkTail(s: seq<Byte>, at: nat, m: nat, k: nat)
    requires at + m <= |s| && k <= m
    ensures Chunk(s, at, m)[k..] == Chunk(s, at + k, m - k)
  {
  }

  lemma ChunkOfChunk(s: seq<Byte>, at: nat, m: nat, off: nat, n: nat)
    requires at + m <= |s| && off + n <= m
    ensures Chunk(Chunk(s, at, m), off, n) == Chunk(s, at + off, n)
  {
    var c := Chunk(s, at, m);
    forall i | 0 <= i < n ensures Chunk(c, off, n)[i] == Chunk(s, at + off, n)[i] {
      assert c[off + i] == s[at + off + i];
    }
  }

  /** `bytes` put into two regions, the first at `off` and the second at cell 0. */
  function Place(data: seq<Byte>, off: nat, first: nat, bytes: seq<Byte>): (after: seq<Byte>)
    requires off + first <= |data| && first <= |bytes| && |bytes| - first <= off
    ensures |after| == |data|
  {
    Splice(Splice(data, off, bytes[..first]), 0, bytes[first..])
  }

  lemma GatherOne(data: seq<Byte>, off: nat, first: nat)
    requires off + first <= |data|
    ensures Gather(data, off, first, 0) == data[off..off + first]
  {
  }

  lemma SpliceGather(s: seq<Byte>, at: nat, data: seq<Byte>, off: nat, first: nat, second: nat)
    requires off + first <= |data| && second <= |data| && at + first + second <= |s|
    ensures Splice(Splice(s, at, data[off..off + first]), at + first, data[0..0 + second])
            == Splice(s, at, Gather(data, off, first, second))
  {
    assert data[0..0 + second] == data[..second];
    SpliceTwice(s, at, data[off..off + first], data[..second]);
  }

  lemma PlaceOne(data: seq<Byte>, off: nat, bytes: seq<Byte>)
    requires off + |bytes| <= |data|
    ensures Place(data, off, |bytes|, bytes) == Splice(data, off, bytes)
  {
    assert bytes[..|bytes|] == bytes;
    SpliceNothing(Splice(data, off, bytes), 0);
  }

  lemma PlaceNothing(data: seq<Byte>, off: nat, bytes: seq<Byte>)
    requires off <= |data| && bytes == []
    ensures Place(data, off, 0, bytes) == data
  {
    PlaceOne(data, off, bytes);
    SpliceNothing(data, off);
  }

  lemma PlaceTwo(data: seq<Byte>, off: nat, src: seq<Byte>, at: nat, first: nat, second: nat)
    requires off + first <= |data| && second <= off && at + first + second <= |src|
    ensures Place(data, off, first, src[at..at + (first + second)])
            == Splice(Splice(data, off, src[at..at + first]), 0, src[at + first..at + first + second])
  {
    var bytes := src[at..at + (first + second)];
    assert bytes[..first] == src[at..at + first];
    assert bytes[first..] == src[at + first..at + first + second];
  }

  lemma PlaceJoined(data: seq<Byte>, off: nat, head: seq<Byte>, tail: seq<Byte>)
    requires off + |head| <= |data| && |tail| <= off
    ensures Place(data, off, |head|, head + tail) == Splice(Splice(data, off, head), 0, tail)
  {
    assert (head + tail)[..|head|] == head;
    assert (head + tail)[|head|..] == tail;
  }

  /** Contiguous regions at the read offset hold the oldest bytes. */
  lemma GatherIsPrefix(data: seq<Byte>, roff: nat, woff: nat, r: Regions)
    requires Offsets(|data|, roff, woff) && Contiguous(|data|, roff, r) && r.Count() <= Length(|data|, roff, woff)
    ensures Gather(data, roff, r.first, r.second) == Contents(data, roff, woff)[..r.Count()]
  {
  }

  /** Moving the read offset on by `n` drops the `n` oldest bytes. */
  lemma DropOldest(data: seq<Byte>, roff: nat, woff: nat, n: nat, next: nat)
    requires Offsets(|data|, roff, woff) && n <= Length(|data|, roff, woff)
    requires next <= |data| && Advanced(|data|, roff, n, next)
    ensures Contents(data, next, woff) == Contents(data, roff, woff)[n..]
  {
    LengthAfterRead(|data|, roff, woff, n, next);
    forall k: nat | k < Length(|data|, next, woff)
      ensures Contents(data, next, woff)[k] == Contents(data, roff, woff)[n..][k]
    {
      CellAfterAdvance(|data|, roff, n, next, k);
    }
  }

  /** So a partial read leaves all but the oldest bytes, as many as it was asked for and found. */
  lemma LeaveRest(data: seq<Byte>, roff: nat, woff: nat, len: nat)
    requires Offsets(|data|, roff, woff)
    ensures var g := ReadRegions(|data|, roff, woff, len);
            var q := Contents(data, roff, woff);
            && Offsets(|data|, g.next, woff)
            && Contents(data, g.next, woff) == q[if len <= |q| then len else |q|..]
  {
    hide Contents, ReadRegions, Advanced, Contiguous;
    var g := ReadRegions(|data|, roff, woff, len);
    ReadRegionsExact(|data|, roff, woff, len);
    DropOldest(data, roff, woff, g.Count(), g.next);
  }

  /** Bytes placed at the write offset are appended, and nothing unread is overwritten. */
  lemma PlaceAppends(data: seq<Byte>, roff: nat, woff: nat, first: nat, bytes: seq<Byte>)
    requires Offsets(|data|, roff, woff) && Length(|data|, roff, woff) + |bytes| < |data|
    requires first <= |bytes| && first <= |data| - woff && (|bytes| > first ==> first == |data| - woff)
    ensures |bytes| - first <= woff
    ensures Contents(Place(data, woff, first, bytes), roff, AdvanceWrite(|data|, woff, |bytes|))
            == Contents(data, roff, woff) + bytes
  {
    var size, n := |data|, Length(|data|, roff, woff);
    var after := Place(data, woff, first, bytes);
    LengthAfterWrite(size, roff, woff, |bytes|);
    forall k: nat | k < n ensures after[Cell(size, roff, k)] == data[Cell(size, roff, k)] {
    }
    forall k: nat | k < |bytes| ensures after[Cell(size, roff, n + k)] == bytes[k] {
      WriteCellIsNextCell(size, roff, woff, k);
      RegionCellIsCell(size, woff, Regions(first, |bytes| - first, 0), k);
    }
  }

  /** Until they are published they change nothing that is unread. */
  lemma PlaceKeepsUnread(data: seq<Byte>, roff: nat, woff: nat, first: nat, bytes: seq<Byte>)
    requires Offsets(|data|, roff, woff) && Length(|data|, roff, woff) + |bytes| < |data|
    requires first <= |bytes| && first <= |data| - woff && (|bytes| > first ==> first == |data| - woff)
    ensures |bytes| - first <= woff
    ensures Contents(Place(data, woff, first, bytes), roff, woff) == Contents(data, roff, woff)
  {
    var size, n := |data|, Length(|data|, roff, woff);
    var after := Place(data, woff, first, bytes);
    forall k: nat | k < n ensures after[Cell(size, roff, k)] == data[Cell(size, roff, k)] {
    }
  }

  /** What was there at an earlier write offset is the beginning of what is there now. */
  lemma EarlierIsPrefix(data: seq<Byte>, roff: nat, earlier: nat, woff: nat)
    requires Offsets(|data|, roff, woff) && Offsets(|data|, roff, earlier)
    requires Length(|data|, roff, earlier) <= Length(|data|, roff, woff)
    ensures Contents(data, roff, earlier) == Contents(data, roff, woff)[..Length(|data|, roff, earlier)]
  {
  }

  // ----- circbuf_input_some and circbuf_dispose_some ----------------------------------------------------

  /** Length of the block `circbuf_input_some` exposes at the read offset. */
  function InputLength(size: nat, roff: nat, woff: nat, len: nat): nat
    requires Offsets(size, roff, woff)
  {
    if woff < roff then (if size - roff > len then len else size - roff)
    else if woff - roff > len then len else woff - roff
  }

  /** The read offset `circbuf_dispose_some` leaves for `n` bytes. */
  function DisposeOffset(size: nat, roff: nat, n: nat): nat {
    if roff + n >= size then roff + n - size else roff + n
  }

  /** The block is a prefix of what is unread. */
  lemma InputIsPrefix(data: seq<Byte>, roff: nat, woff: nat, len: nat)
    requires Offsets(|data|, roff, woff)
    ensures var n := InputLength(|data|, roff, woff, len);
            && roff + n <= |data| && n <= len && n <= Length(|data|, roff, woff)
            && data[roff..roff + n] == Contents(data, roff, woff)[..n]
  {
  }

  /** And stays one while the writer goes on. */
  lemma BlockIsPrefix(data: seq<Byte>, roff: nat, earlier: nat, woff: nat, len: nat)
    requires Offsets(|data|, roff, woff) && Offsets(|data|, roff, earlier)
    requires Length(|data|, roff, earlier) <= Length(|data|, roff, woff)
    ensures var n := InputLength(|data|, roff, earlier, len);
            && roff + n <= |data| && n <= Length(|data|, roff, woff)
            && data[roff..roff + n] == Contents(data, roff, woff)[..n]
  {
    var n := InputLength(|data|, roff, earlier, len);
    InputIsPrefix(data, roff, earlier, len);
    EarlierIsPrefix(data, roff, earlier, woff);
    assert Contents(data, roff, woff)[..Length(|data|, roff, earlier)][..n] == Contents(data, roff, woff)[..n];
  }

  /** Disposing of `n` bytes leaves what reading `n` bytes leaves. */
  lemma DisposeIsRead(data: seq<Byte>, roff: nat, woff: nat, n: nat)
    requires Offsets(|data|, roff, woff) && n <= Length(|data|, roff, woff)
    ensures Offsets(|data|, DisposeOffset(|data|, roff, n), woff)
    ensures Contents(data, DisposeOffset(|data|, roff, n), woff)
            == Contents(data, ReadRegions(|data|, roff, woff, n).next, woff)
            == Contents(data, roff, woff)[n..]
  {
    ReadRegionsExact(|data|, roff, woff, n);
    DropOldest(data, roff, woff, n, DisposeOffset(|data|, roff, n));
    DropOldest(data, roff, woff, n, ReadRegions(|data|, roff, woff, n).next);
  }

  /** From any offsets, `roff == size` included, two rounds of unlimited input and disposal drain the ring in order. */
  lemma TwoRoundsDrain(data: seq<Byte>, roff: nat, woff: nat, len: nat)
    requires Offsets(|data|, roff, woff) && len >= |data|
    ensures var size := |data|;
            var n := InputLength(size, roff, woff, len);
            var roff' := DisposeOffset(size, roff, n);
            && Offsets(size, roff', woff)
            && var n' := InputLength(size, roff', woff, len);
            && Offsets(size, DisposeOffset(size, roff', n'), woff)
            && roff + n <= size && roff' + n' <= size
            && data[roff..roff + n] + data[roff'..roff' + n'] == Contents(data, roff, woff)
            && Contents(data, DisposeOffset(size, roff', n'), woff) == []
  {
    var n := InputLength(|data|, roff, woff, len);
    var roff' := DisposeOffset(|data|, roff, n);
    InputIsPrefix(data, roff, woff, len);
    DisposeIsRead(data, roff, woff, n);
    var n' := InputLength(|data|, roff', woff, len);
    InputIsPrefix(data, roff', woff, len);
    DisposeIsRead(data, roff', woff, n');
  }
}
