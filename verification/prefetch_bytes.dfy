/** Small facts on what the ring holds and on slices of the content. */
module PrefetchBytes {
  import opened RingGeometry
  import opened PrefetchModel
  import opened PrefetchInvariant

  /** The next content byte, put into the first free cell, extends what the ring holds. */
  lemma HoldsMore(c: Config, data: seq<Byte>, roff: nat, base: nat, n: nat)
    requires c.Valid() && |data| == c.size && roff <= c.size && n < c.size
    requires Holds(c, data, roff, base, n) && base + n < |c.content|
    ensures Holds(c, data[Cell(c.size, roff, n) := c.content[base + n]], roff, base, n + 1)
  {
    forall k | 0 <= k < n ensures Cell(c.size, roff, k) != Cell(c.size, roff, n) {
      CellInjective(c.size, roff, k, n);
    }
  }

  /** Moving the read offset on by `m` leaves the ring holding the content from `m` further on. */
  lemma HoldsShift(c: Config, data: seq<Byte>, roff: nat, base: nat, n: nat, m: nat, next: nat)
    requires c.Valid() && |data| == c.size && roff <= c.size && m <= n < c.size
    requires next <= c.size && Advanced(c.size, roff, m, next)
    requires Holds(c, data, roff, base, n)
    ensures Holds(c, data, next, base + m, n - m)
  {
    forall k: nat | k < n - m
      ensures data[Cell(c.size, next, k)] == c.content[base + m + k]
    {
      CellAfterAdvance(c.size, roff, m, next, k);
      assert data[Cell(c.size, roff, m + k)] == c.content[base + (m + k)];
    }
  }

  lemma SliceJoin(content: seq<Byte>, from: nat, part: seq<Byte>, more: seq<Byte>)
    requires IsSlice(content, from, part) && IsSlice(content, from + |part|, more)
    ensures IsSlice(content, from, part + more)
  {
    if |part| > 0 && |more| > 0 {
      var mid, to := from + |part|, from + |part| + |more|;
      assert content[from..to] == content[from..mid] + content[mid..to];
    } else {
      assert part + more == if |part| > 0 then part else more;
    }
  }
}
