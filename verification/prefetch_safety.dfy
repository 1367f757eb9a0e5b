/** What the invariant says about every reachable state of the buffered stream. */
module PrefetchSafety {
  import opened RingGeometry
  import opened PrefetchModel
  import opened PrefetchInvariant
  import opened PrefetchRuns

  function Unread(c: Config, s: State): nat
    requires WellTyped(c, s)
  {
    Length(c.size, s.roff, s.woff)
  }

  /**
   Cursor conservation, in every reachable state. Between a successful inner seek and the reset the inner cursor is at
   the offset sought. Else every byte the inner stream has given is before the client's position (the offset sought,
   until the client is told), copied out by the running read, unread in the ring, or fetched and not yet published.
   */
  lemma CursorConservation(c: Config, s: State)
    requires Reachable(c, s)
    ensures WellTyped(c, s)
    ensures Moving(s) ==> s.cur == s.seekOff
    ensures !Moving(s) ==>
              var from := if Moved(s) then s.seekOff else s.pos + |s.cout|;
              && from >= 0 && s.cur == from + Unread(c, s) + s.fi
              && Holds(c, s.data, s.roff, from, Unread(c, s))
  {
    hide Reachable, EndOfFile, Accounting, Sleep;
    ReachableInv(c, s);
  }

  /** Both are confined to a seek whose request has been stored, or that has done the inner seek itself. */
  lemma OutsideSeek(c: Config, s: State)
    requires Reachable(c, s) && !s.cpc.CWaiting? && !(s.cpc.CClosing? && s.cpc.closer.BySeek?)
    ensures !Moving(s) && !Moved(s)
  {
    hide Reachable, EndOfFile, Accounting, Sleep, Regional, Delivery;
    ReachableInv(c, s);
  }

  /** The bytes a running read has delivered are the content at the position the client knows. */
  lemma ReadDelivers(c: Config, s: State)
    requires Reachable(c, s) && Reading(s.cpc)
    ensures IsSlice(c.content, s.pos, s.cout) && |s.cout| <= s.clen
  {
    hide Reachable, EndOfFile, Accounting, Sleep, Locks, Handshake, IsSlice;
    ReachableInv(c, s);
  }

  /**
   The cells a partial write has chosen are inside the array and none of them is unread; the cells a partial read
   has chosen are all unread. So the two threads never touch one cell, however stale their snapshots are.
   */
  lemma DisjointRegions(c: Config, s: State)
    requires Reachable(c, s)
    ensures WellTyped(c, s)
    ensures Filling(s.fpc) ==>
              && (forall j: nat :: j < s.fn1 + s.fn2 ==> RegionCell(s.woff, s.fn1, j) < c.size)
              && (forall j: nat, k: nat :: j < s.fn1 + s.fn2 && k < Unread(c, s) ==>
                    RegionCell(s.woff, s.fn1, j) != Cell(c.size, s.roff, k))
    ensures Draining(s.cpc) ==>
              && s.cn1 + s.cn2 <= Unread(c, s)
              && forall k :: 0 <= k < s.cn1 + s.cn2 ==> RegionCell(s.roff, s.cn1, k) == Cell(c.size, s.roff, k)
  {
    hide Reachable, EndOfFile, Accounting, Sleep, Delivery, Handshake, Locks;
    ReachableInv(c, s);
    if Filling(s.fpc) {
      forall j: nat, k: nat | j < s.fn1 + s.fn2 && k < Unread(c, s)
        ensures RegionCell(s.woff, s.fn1, j) != Cell(c.size, s.roff, k)
      {
        RegionCellIsCell(c.size, s.woff, Regions(s.fn1, s.fn2, 0), j);
        WriteCellIsNextCell(c.size, s.roff, s.woff, j);
        CellInjective(c.size, s.roff, k, Unread(c, s) + j);
      }
    }
  }

  /** The filler is about to use, or using, the inner stream. */
  predicate FillerInside(p: FillerPc) { p == FServing(FSeek) || p == FCopying(FCopy) }
  /** So is the consumer: a seek with the filler not yet started. */
  predicate ConsumerInside(p: ConsumerPc) { p == CSeeking(CSDirect) }

  /** The inner stream is never used by both threads at once. */
  lemma InnerStreamExclusive(c: Config, s: State)
    requires Reachable(c, s)
    ensures !(FillerInside(s.fpc) && ConsumerInside(s.cpc))
    ensures FillerInside(s.fpc) ==> s.started.On?
    ensures ConsumerInside(s.cpc) ==> s.started.Off? && s.slock.Consumer?
  {
    hide Reachable, EndOfFile, Accounting, Sleep, Regional, Delivery;
    ReachableInv(c, s);
  }

  /**
   Exclusive reset: while `circbuf_reset` runs, a seek is being waited for, the consumer sleeps on the seek
   condition or asks for the lock the filler holds, and nobody sleeps on a condition of the ring.
   */
  lemma ExclusiveReset(c: Config, s: State)
    requires Reachable(c, s) && Resetting(s.fpc)
    ensures s.req.On? && s.slock.Filler?
    ensures s.cpc == CWaiting(CSAsleep) || s.cpc == CWaiting(CSRelock)
    ensures s.rlock.Free? && s.wlock.Free?
  {
    hide Reachable, EndOfFile, Accounting, Sleep, Regional, Delivery;
    ReachableInv(c, s);
  }

  /**
   No lost wake-up: when a mutex is free, a thread asleep on its condition without a wake-up on the way has
   something to wait for; and the two threads are never both asleep like that on the condition they share.
   */
  lemma NoLostWakeUp(c: Config, s: State)
    requires Reachable(c, s)
    ensures s.rlock.Free? && s.fpc == FWriting(FWAsleep) && s.fsig.Off? ==>
              Full(c.size, s.roff, s.woff) && s.rdone.Off?
    ensures s.wlock.Free? && s.cpc == CReading(CRAsleep) && s.csig.Off? ==> s.roff == s.woff && s.wdone.Off?
    ensures s.slock.Free? && s.fpc == FEnding(FEAsleep) && s.fsig.Off? ==> s.rdone.Off?
    ensures s.slock.Free? && s.cpc == CWaiting(CSAsleep) && s.csig.Off? ==> s.req.On?
    ensures !(s.fpc == FEnding(FEAsleep) && s.fsig.Off? && s.cpc == CWaiting(CSAsleep) && s.csig.Off?)
  {
    hide Reachable, EndOfFile, Accounting, Regional, Delivery;
    ReachableInv(c, s);
  }

  /**
   End of file. Under the mark every byte the inner stream gave is with the client or unread in the ring. With reading
   open the inner stream has come up short since the last successful seek and nothing but the ring's bytes remains.
   (Reading is not open between calls only after a failed seek, and then the mark may be false: exactly when is
   `PrefetchMarks.FalseMarkIff`.)
   */
  lemma EofIsSound(c: Config, s: State)
    requires Reachable(c, s) && s.cpc.CIdle? && s.eof.On?
    ensures WellTyped(c, s) && s.cur == s.pos + Unread(c, s)
    ensures Remaining(c.content, s.pos) == Unread(c, s) <==> s.cur >= |c.content|
    ensures s.rdone.Off? ==>
              s.short.On? && s.cur >= |c.content| && Remaining(c.content, s.pos) == Unread(c, s)
  {
    hide Reachable, Sleep;
    ReachableInv(c, s);
  }

  /**
   A closed writing side seen by a reading consumer is the end of the content, while reading is open: it is never
   the forced closing that follows a closed reading side.
   */
  lemma ReaderSeesRealEnd(c: Config, s: State)
    requires Reachable(c, s) && Reading(s.cpc) && s.wdone.On? && s.rdone.Off?
    ensures s.short.On? && s.cur >= |c.content|
  {
    hide Reachable, Sleep, Regional, Delivery, Accounting;
    ReachableInv(c, s);
  }

  /**
   With reading open a read comes up short only at the end of the content: whatever it did not deliver of what
   remains is in the ring, and that is less than the ring could hold.
   */
  lemma ShortReadIsAccounted(c: Config, s: State)
    requires Reachable(c, s) && s.cpc == CReading(CRFinish) && |s.cout| < s.clen && s.rdone.Off?
    ensures WellTyped(c, s)
    ensures s.short.On? && s.cur >= |c.content|
    ensures |s.cout| + Unread(c, s) == Remaining(c.content, s.pos)
    ensures Unread(c, s) <= c.size - 2
  {
    hide Reachable, Sleep;
    ReachableInv(c, s);
    ReachableEnds(c, s);
  }

  /**
   With reading open, a read begun after the writing side was closed, so in particular one begun at end of file,
   returns exactly the bytes asked for or all that remain. (A read begun before may come up short with bytes still in
   the ring; see `PrefetchDrained.ShortMeansDrainedIff`.)
   */
  lemma SealedReadIsExact(c: Config, s: State)
    requires Reachable(c, s) && s.cpc == CReading(CRFinish) && s.sealed.On? && s.rdone.Off?
    ensures var rest := Remaining(c.content, s.pos); |s.cout| == if s.clen < rest then s.clen else rest
  {
    hide Reachable, Sleep;
    ReachableInv(c, s);
  }

  lemma EofSealsNextRead(c: Config, s: State, len: nat)
    requires Reachable(c, s) && s.cpc.CIdle? && s.eof.On?
    ensures Begin(s, Read(len)).sealed.On?
  {
    hide Reachable, Sleep, Regional, Delivery, Accounting;
    ReachableInv(c, s);
  }

  /**
   The result of `circbuf_write2` is the number of bytes the writer supplied during the call; a writer that comes
   up short ends the call with a result below what was asked for; and a result below that means a short writer or
   a closed reader. While reading is open the two are one. (`PrefetchWrite.DocumentedIff` has the rest.)
   */
  lemma WriteTwoAccounts(c: Config, s: State)
    requires Reachable(c, s) && s.fpc == FWriting(FWDone)
    ensures s.written == s.cur - s.entry && s.written <= c.step
    ensures s.feof.On? ==> s.written < c.step && s.cur >= |c.content|
    ensures s.written < c.step ==> s.feof.On? || s.rdone.On?
    ensures s.rdone.Off? ==> (s.written < c.step <==> s.feof.On?)
  {
    hide Reachable, Sleep, Regional, Delivery, Locks, Handshake;
    ReachableInv(c, s);
  }

  /**
   Each pass of the filler's write asks the inner stream for all that is still wanted and fits, at least one byte, in
   regions inside the free cells.
   */
  lemma WritePassAsksAll(c: Config, s: State, ch: Choice)
    requires Reachable(c, s) && s.fpc == FCopying(FWSome) && FillerMay(c, s, ch)
    ensures WellTyped(c, s)
    ensures var t := FillerStep(c, s, ch);
            && t == s.(fn1 := t.fn1, fn2 := t.fn2, fpc := FCopying(FCopy))
            && t.fn1 + t.fn2 == Least(c.step - s.written, c.size - 1 - Unread(c, s)) >= 1
  {
    hide Reachable, Delivery, Locks, Handshake, EndOfFile;
    ReachableInv(c, s);
    WriteRegionsExact(c.size, s.roff, s.woff, c.step - s.written);
  }

  /**
   Each pass of the client's read takes all that is still wanted and there: at least one byte, or it turns the offset
   `size` into 0, or has found the writing side closed with nothing left to move.
   */
  lemma ReadPassTakesAll(c: Config, s: State, ch: Choice)
    requires Reachable(c, s) && s.cpc == CDraining(CRSome) && ConsumerMay(c, s, ch)
    ensures WellTyped(c, s)
    ensures var t := ConsumerStep(c, s, ch);
            && t == s.(cn1 := t.cn1, cn2 := t.cn2, cnext := t.cnext, cpc := CDraining(CRCopy))
            && t.cn1 + t.cn2 == Least(s.clen - |s.cout|, Unread(c, s))
            && (|| t.cn1 + t.cn2 >= 1
                || (s.roff == c.size && s.woff == 0 && t.cnext == 0)
                || (s.wdone.On? && s.roff == s.woff))
  {
    hide Reachable, Delivery, Locks, Handshake, EndOfFile, Accounting;
    ReachableInv(c, s);
    ReadRegionsExact(c.size, s.roff, s.woff, s.clen - |s.cout|);
  }

  /** A seek is always served: unless the last seek failed, the filler exits only for the destruction. */
  lemma FillerOutlivesRequests(c: Config, s: State)
    requires Reachable(c, s) && s.fpc == FDone && (s.seekOk.On? || s.failed.Off?)
    ensures Dying(s.cpc) && s.req.Off?
  {
    hide Reachable, Sleep, Regional, Delivery, Accounting, EndOfFile;
    ReachableInv(c, s);
    ReachableEnds(c, s);
  }

  /** Nothing the filler uses is freed before the filler has exited. */
  lemma FreedAfterExit(c: Config, s: State)
    requires Reachable(c, s) && Freed(s.cpc)
    ensures s.fpc == FDone || s.fpc == FAbsent
  {
    hide Reachable, Sleep, Regional, Delivery, Accounting, EndOfFile;
    ReachableInv(c, s);
  }
}
