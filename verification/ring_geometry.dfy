/**
 The offset arithmetic of the ring buffer: how many bytes lie between a read and a write offset, which cell
 holds the k-th of them, and which two regions one partial read or write copies.

 The invariant on offsets is `woff < size` and `roff <= size`: a read may leave `roff == size`, an alias of 0
 that the next read normalises.
 */
module RingGeometry {

  newtype Byte = b: int | 0 <= b < 256

  predicate Offsets(size: nat, roff: nat, woff: nat) {
    size >= 2 && roff <= size && woff < size
  }

  /** Number of unread bytes. */
  function Length(size: nat, roff: nat, woff: nat): nat
    requires Offsets(size, roff, woff)
  {
    if woff >= roff then woff - roff else size - roff + woff
  }

  /** The test under which a producer blocks. */
  predicate Full(size: nat, roff: nat, woff: nat) {
    woff + 1 == roff || (woff + 1 == size && roff == 0)
  }

  /** The cell `k` places after offset `off`, going round. */
  function Cell(size: nat, off: nat, k: nat): (c: nat)
    requires off <= size && k < size
    ensures c < size
  {
    if off + k < size then off + k else off + k - size
  }

  /** Offset `to` lies `n` places after `from`. */
  predicate Advanced(size: nat, from: nat, n: nat, to: nat) {
    to == from + n || to == from + n - size
  }

  /** The write offset after `n` more bytes, modulo the size. */
  function AdvanceWrite(size: nat, woff: nat, n: nat): (to: nat)
    requires woff < size && n <= size
    ensures to < size && Advanced(size, woff, n, to)
  {
    if woff + n < size then woff + n else woff + n - size
  }

  /** The two regions of one partial copy: `first` bytes at the offset itself, then `second` bytes at cell 0. */
  datatype Regions = Regions(first: nat, second: nat, next: nat) {
    function Count(): nat {
      first + second
    }
  }

  /** The regions `read_some_` copies from, and the read offset it leaves. */
  function ReadRegions(size: nat, roff: nat, woff: nat, len: nat): Regions
    requires Offsets(size, roff, woff)
  {
    if roff == woff then Regions(0, 0, roff)
    else if roff < woff then
      if woff - roff >= len then Regions(len, 0, roff + len) else Regions(woff - roff, 0, woff)
    else
      var avail := size - roff;
      if avail >= len then Regions(len, 0, roff + len)
      else if woff > len - avail then Regions(avail, len - avail, len - avail)
      else Regions(avail, woff, woff)
  }

  /** The regions `write_some_` and `write_some2_` copy to, and the write offset they leave when both are filled. */
  function WriteRegions(size: nat, roff: nat, woff: nat, len: nat): Regions
    requires Offsets(size, roff, woff)
  {
    if woff + 1 == roff || (woff == size - 1 && roff == 0) then Regions(0, 0, woff)
    else if woff < roff then
      var avail := roff - woff - 1;
      if avail >= len then Regions(len, 0, woff + len) else Regions(avail, 0, woff + avail)
    else
      var avail := size - woff;
      if avail > len then Regions(len, 0, woff + len)
      else if roff == 0 then Regions(avail - 1, 0, woff + avail - 1)
      else if roff > len - avail then Regions(avail, len - avail, len - avail)
      else Regions(avail, roff - 1, roff - 1)
  }

  /** Address of the k-th byte of a two-region copy starting at `off`. */
  function RegionCell(off: nat, first: nat, k: nat): nat {
    if k < first then off + k else k - first
  }

  /** What both region functions promise: the regions are consecutive cells that stay inside the array. */
  ghost predicate Contiguous(size: nat, off: nat, r: Regions) {
    && r.first <= size - off
    && (r.second > 0 ==> r.first == size - off)
    && r.Count() < size
  }

  /** A partial read takes exactly as many bytes as were asked for and are there. */
  lemma ReadRegionsExact(size: nat, roff: nat, woff: nat, len: nat)
    requires Offsets(size, roff, woff)
    ensures var r := ReadRegions(size, roff, woff, len);
            && r.Count() == (if len < Length(size, roff, woff) then len else Length(size, roff, woff))
            && roff <= size && Contiguous(size, roff, r)
            && r.next <= size && Advanced(size, roff, r.Count(), r.next)
            && (r.Count() == 0 && 0 < len && roff != woff ==> roff == size && woff == 0 && r.next == 0)
  {
    var r := ReadRegions(size, roff, woff, len);
  }

  /** Over an empty ring it leaves the read offset alone, or turns `size` into 0. */
  lemma ReadNothing(size: nat, roff: nat, woff: nat, len: nat)
    requires Offsets(size, roff, woff) && Length(size, roff, woff) == 0 && 0 < len
    ensures var next := ReadRegions(size, roff, woff, len).next;
            (roff == woff && next == roff) || (roff == size && woff == 0 && next == 0)
  {
  }

  /** A partial write takes exactly as many bytes as are offered and fit. */
  lemma WriteRegionsExact(size: nat, roff: nat, woff: nat, len: nat)
    requires Offsets(size, roff, woff)
    ensures var room := size - 1 - Length(size, roff, woff);
            var r := WriteRegions(size, roff, woff, len);
            && r.Count() == (if len < room then len else room)
            && Contiguous(size, woff, r)
            && r.next == AdvanceWrite(size, woff, r.Count())
            && (Full(size, roff, woff) <==> room == 0)
  {
    var r := WriteRegions(size, roff, woff, len);
  }

  // ----- the right boundary of the array ----------------------------------------------------------------

  /** Where a partial read that stops at the right boundary, as documented, would stop too. */
  predicate ReadStaysRight(size: nat, roff: nat, woff: nat, len: nat)
    requires roff <= size
  {
    len <= size - roff || woff == 0 || roff <= woff
  }

  predicate WriteStaysRight(size: nat, roff: nat, woff: nat, len: nat)
    requires woff < size
  {
    len <= size - woff || woff < roff || roff <= 1
  }

  /** A partial read takes nothing beyond the right boundary if and only if nothing is asked for or there beyond it. */
  lemma ReadStopsAtBoundaryIff(size: nat, roff: nat, woff: nat, len: nat)
    requires Offsets(size, roff, woff)
    ensures ReadRegions(size, roff, woff, len).Count() <= size - roff <==> ReadStaysRight(size, roff, woff, len)
  {
  }

  /** A partial write places nothing beyond it if and only if nothing is offered or fits beyond it. */
  lemma WriteStopsAtBoundaryIff(size: nat, roff: nat, woff: nat, len: nat)
    requires Offsets(size, roff, woff)
    ensures WriteRegions(size, roff, woff, len).Count() <= size - woff <==> WriteStaysRight(size, roff, woff, len)
  {
  }

  /** Disposing is like reading. */
  lemma DisposeStopsAtBoundaryIff(size: nat, roff: nat, woff: nat, len: nat)
    requires Offsets(size, roff, woff)
    ensures var length := Length(size, roff, woff);
            (if length < len then length else len) <= size - roff <==> ReadStaysRight(size, roff, woff, len)
  {
  }

  /** The two regions are the ring's own cell order. */
  lemma RegionCellIsCell(size: nat, off: nat, r: Regions, k: nat)
    requires off <= size && Contiguous(size, off, r) && k < r.Count()
    ensures RegionCell(off, r.first, k) == Cell(size, off, k)
  {
  }

  /** Moving the read offset on by `n` shifts every cell by `n`. */
  lemma CellAfterAdvance(size: nat, roff: nat, n: nat, next: nat, k: nat)
    requires roff <= size && next <= size && Advanced(size, roff, n, next) && n + k < size
    ensures Cell(size, next, k) == Cell(size, roff, n + k)
  {
  }

  lemma LengthAfterRead(size: nat, roff: nat, woff: nat, n: nat, next: nat)
    requires Offsets(size, roff, woff) && n <= Length(size, roff, woff)
    requires next <= size && Advanced(size, roff, n, next)
    ensures Length(size, next, woff) == Length(size, roff, woff) - n
  {
  }

  lemma LengthAfterWrite(size: nat, roff: nat, woff: nat, n: nat)
    requires Offsets(size, roff, woff) && Length(size, roff, woff) + n < size
    ensures var to := AdvanceWrite(size, woff, n);
            && Length(size, roff, to) == Length(size, roff, woff) + n
  {
  }

  /** The free cells begin where the unread ones end. */
  lemma WriteCellIsNextCell(size: nat, roff: nat, woff: nat, k: nat)
    requires Offsets(size, roff, woff) && Length(size, roff, woff) + k < size
    ensures Cell(size, woff, k) == Cell(size, roff, Length(size, roff, woff) + k)
  {
  }

  lemma CellInjective(size: nat, off: nat, j: nat, k: nat)
    requires off <= size && j < k < size
    ensures Cell(size, off, j) != Cell(size, off, k)
  {
  }
}
