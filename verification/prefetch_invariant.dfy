/**
 What holds in every reachable state of the two threads, in groups: who holds which mutex, the seek handshake,
 the end-of-file flags, what `circbuf_write2` has counted, what a sleeping thread waits for, and where every
 byte is.
 */
module PrefetchInvariant {
  import opened RingGeometry
  import opened PrefetchModel

  // ----- regions of the program -------------------------------------------------------------------------

  predicate FillerHasR(p: FillerPc) { p.FWriting? && (p.write.FWTest? || p.write.FWCondWait? || p.write.FWUnlock?) }

  predicate FillerHasW(p: FillerPc) {
    match p
    case FCopying(at) => at.FPStore? || at.FPSignal? || at.FPUnlock?
    case FEnding(at) => at.FKStore? || at.FKSignal? || at.FKUnlock?
    case _ => false
  }

  predicate FillerHasS(p: FillerPc) {
    match p
    case FStarting(at) => !at.FStart?
    case FServing(at) => !at.FSeek? && !at.FSLock?
    case FEnding(at) => !at.FELock? && !at.FEAsleep? && !at.FERelock?
    case _ => false
  }

  predicate NotStarted(p: FillerPc) { p.FAbsent? || (p.FStarting? && !p.start.FStartUnlock?) }

  /** Between finding a request and clearing it. */
  predicate Serving(p: FillerPc) { p.FServing? && !Served(p) }
  predicate Served(p: FillerPc) { p.FServing? && (p.serve.FSSignal? || p.serve.FSUnlock?) }
  /** `circbuf_reset` is running, or has just run if the seek succeeded. */
  predicate Resetting(p: FillerPc) { Serving(p) && !p.serve.FSeek? && !p.serve.FSLock? && !p.serve.FClear? }

  /** The regions of a partial write are chosen and not yet published. */
  predicate Filling(p: FillerPc) { p.FCopying? && (p.copy.FCopy? || p.copy.FPLock? || p.copy.FPStore?) }
  /** A partial write follows in this pass of the `circbuf_write2` loop. */
  predicate BeforeCopy(p: FillerPc) {
    || (p.FWriting? && !p.write.FWEntry? && !p.write.FWLoop? && !p.write.FWDone?)
    || (p.FCopying? && (p.copy.FWSome? || p.copy.FCopy?))
  }
  /** Inside `circbuf_write2`, past its first test. */
  predicate InWrite(p: FillerPc) { p.FCopying? || (p.FWriting? && !p.write.FWEntry? && !p.write.FWDone?) }
  /** On the way from a short write to the closing of the writing side. */
  predicate ClosingWrite(p: FillerPc) {
    p.FEnding? && (p.end.FELock? || p.end.FKTest? || p.end.FKLock? || p.end.FKStore?)
  }
  /** Writing is closed and the reader's closing not yet seen. */
  predicate AwaitingClose(p: FillerPc) { p.FEnding? && !ClosingWrite(p) && !p.end.FEUnlock? }
  /** Between the store under wlock and the signal after it. */
  predicate FillerWaking(p: FillerPc) { p == FCopying(FPSignal) || p == FEnding(FKSignal) }

  predicate ConsumerHasR(p: ConsumerPc) {
    match p
    case CDraining(at) => at.CRPStore? || at.CRPSignal? || at.CRPUnlock?
    case CClosing(at, _) => at.CKStore? || at.CKSignal? || at.CKUnlock?
    case _ => false
  }

  predicate ConsumerHasW(p: ConsumerPc) { p.CReading? && (p.read.CRTest? || p.read.CRCondWait? || p.read.CRUnlock?) }

  predicate ConsumerHasS(p: ConsumerPc) {
    match p
    case CSeeking(at) => at.CSStarted? || at.CSDirect? || at.CSReq?
    case CClosing(_, _) => true
    case CWaiting(at) => at.CSSignal? || at.CSTest? || at.CSCondWait? || at.CSUnlock?
    case CDestroying(at) => at.CDSignal? || at.CDUnlock?
    case _ => false
  }

  predicate Reading(p: ConsumerPc) { p.CReading? || p.CDraining? }
  /** The regions of a partial read are chosen and not yet published. */
  predicate Draining(p: ConsumerPc) { p.CDraining? && (p.drain.CRCopy? || p.drain.CRPLock? || p.drain.CRPStore?) }
  /** In a pass of the `circbuf_read` loop, before its publication. */
  predicate InPass(p: ConsumerPc) {
    (p.CReading? && !p.read.CROuter? && !p.read.CRFinish?) || (p.CDraining? && (p.drain.CRSome? || Draining(p)))
  }
  /** Waiting for the request to be cleared. */
  predicate SeekWait(p: ConsumerPc) {
    p.CWaiting? && (p.wait.CSTest? || p.wait.CSCondWait? || p.wait.CSAsleep? || p.wait.CSRelock?)
  }
  /** From the store of the request on, up to the end of the wait. */
  predicate Asking(p: ConsumerPc) {
    (p.CClosing? && p.closer.BySeek?) || (p.CWaiting? && !p.wait.CSUnlock? && !p.wait.CSFinish?)
  }
  predicate ClosedNow(p: ConsumerPc) { p.CClosing? && (p.close.CKSignal? || p.close.CKUnlock?) }
  /** The part of asking after reading was closed. */
  predicate AskingClosed(p: ConsumerPc) { Asking(p) && (p.CWaiting? || ClosedNow(p)) }
  /** The wait is over, or about to find out that it is. */
  predicate SeekServed(p: ConsumerPc) { p.CWaiting? && !p.wait.CSSignal? }
  /** Destroying, with reading closed. */
  predicate Dying(p: ConsumerPc) {
    (ClosedNow(p) && p.closer.ByDestroy?) || (p.CDestroying? && !p.destroy.CDLock?) || p.CDead?
  }
  /** The filler has been joined, or never was. */
  predicate Freed(p: ConsumerPc) {
    p.CDead? || (p.CDestroying? && (p.destroy.CDFreeRing? || p.destroy.CDFreeLock?))
  }
  /** Reading was closed and the signal on the seek condition is still to come. */
  predicate ConsumerWakingSeek(p: ConsumerPc) {
    ClosedNow(p) || p == CWaiting(CSSignal) || p == CDestroying(CDSignal)
  }
  /** Between the store under rlock and the signal after it. */
  predicate ConsumerWakingRing(p: ConsumerPc) { p == CDraining(CRPSignal) || (p.CClosing? && p.close.CKSignal?) }

  // ----- the groups -------------------------------------------------------------------------------------

  predicate Locks(s: State) {
    && (s.rlock.Filler? <==> FillerHasR(s.fpc)) && (s.rlock.Consumer? <==> ConsumerHasR(s.cpc))
    && (s.wlock.Filler? <==> FillerHasW(s.fpc)) && (s.wlock.Consumer? <==> ConsumerHasW(s.cpc))
    && (s.slock.Filler? <==> FillerHasS(s.fpc)) && (s.slock.Consumer? <==> ConsumerHasS(s.cpc))
  }

  predicate Handshake(s: State) {
    && (s.started.On? <==> !NotStarted(s.fpc))
    && (Asking(s.cpc) || s.cpc == CSeeking(CSReq) ==> s.started.On?)
    && (s.cpc == CSeeking(CSDirect) ==> s.started.Off?)
    // A request stands from its store until the filler clears it.
    && (s.req.On? ==> Asking(s.cpc))
    && (Asking(s.cpc) && (!SeekWait(s.cpc) || s.cpc.wait.CSCondWait?) ==> s.req.On?)
    && (Serving(s.fpc) ==> s.req.On?)
    && (Served(s.fpc) ==> s.req.Off?)
    && ((s.cpc.CSeeking? && !s.cpc.seek.CSParam?) || Asking(s.cpc) || s.cpc.CWaiting? ==> s.seekOff == s.coff)
    // Reading is closed once asked for, until the reset; and by nobody else, if every seek succeeded.
    && (s.req.On? && AskingClosed(s.cpc) && s.rdone.Off? ==>
          (Resetting(s.fpc) && !s.fpc.serve.FReset0?) || s.fpc == FServing(FClear))
    && (Dying(s.cpc) && !s.fpc.FAbsent? ==> s.rdone.On?)
    && (s.rdone.On? && s.failed.Off? ==> Dying(s.cpc) || (s.req.On? && AskingClosed(s.cpc)))
    && (Resetting(s.fpc) ==> s.seekOk.On?)
    && ((Resetting(s.fpc) && !s.fpc.serve.FReset0?) || (s.fpc == FServing(FClear) && s.seekOk.On?) ==> s.rdone.Off?)
    && ((s.fpc == FServing(FSLock) || s.fpc == FServing(FClear)) && s.seekOk.Off? ==> s.failed.On?)
    // The filler's exit.
    && (s.fpc == FTop(FTestQ) || s.fpc == FDone || s.fpc == FEnding(FEUnlock) ==> s.rdone.On?)
    && (s.fpc == FDone && s.failed.Off? ==> Dying(s.cpc))
    && (Freed(s.cpc) ==> s.fpc == FDone || s.fpc == FAbsent)
    && (s.fpc == FAbsent ==> !s.cpc.CClosing? && (s.cpc.CDestroying? ==> Freed(s.cpc)))
  }

  predicate EndOfFile(c: Config, s: State) {
    && (s.short.On? ==> s.cur >= |c.content|)
    && (s.started.Off? ==> s.wdone.Off?)
    && (s.wdone.On? ==> s.rdone.On? || s.fpc == FServing(FReset1) || AwaitingClose(s.fpc))
    && (s.wdone.On? ==> s.rdone.On? || s.short.On? || s.fpc == FServing(FReset1))
    && (InWrite(s.fpc) || s.fpc == FEnding(FKLock) || s.fpc == FEnding(FKStore) ==> s.wdone.Off?)
    && (AwaitingClose(s.fpc) || s.fpc == FEnding(FEUnlock) ==> s.wdone.On?)
    && (s.fpc == FServing(FReset2) || s.fpc == FServing(FReset3) || (s.fpc == FServing(FClear) && s.seekOk.On?)
        ==> s.wdone.Off?)
    && (ClosingWrite(s.fpc) || (s.fpc == FWriting(FWDone) && s.written < c.step) ==> s.short.On? || s.rdone.On?)
    // After a failed seek the filler closes the writing side before it can exit.
    && (s.rdone.On? && s.req.Off? && !Dying(s.cpc) && s.wdone.Off? ==>
          || Served(s.fpc) || s.fpc == FWriting(FWEntry) || ClosingWrite(s.fpc)
          || (s.fpc == FWriting(FWDone) && s.written < c.step))
    // A short result, and eof, come from a closed writing side.
    && (s.cpc == CReading(CRFinish) && |s.cout| < s.clen ==> s.wdone.On?)
    && (Reading(s.cpc) && s.sealed.On? ==> s.wdone.On?)
    && (s.sealed.On? && (s.cpc == CReading(CROuterW) || (s.cpc == CReading(CRFinish) && |s.cout| < s.clen)) ==>
          s.roff == s.woff)
    // A partial read that moves nothing turns the offset `size` into 0, or has met the end.
    && (Draining(s.cpc) && s.cn1 + s.cn2 == 0 ==>
          (s.roff == c.size && s.cnext == 0) || (s.wdone.On? && s.roff == s.woff))
    && (s.eof.On? && s.wdone.Off? ==>
          && s.seekOk.On?
          && (if s.req.On? then (|| s.fpc == FServing(FReset2) || s.fpc == FServing(FReset3)
                                 || s.fpc == FServing(FClear))
              else SeekServed(s.cpc)))
  }

  /** A result of `circbuf_write2` is the number of bytes the inner stream gave since its beginning. */
  predicate Accounting(c: Config, s: State) {
    && (!Filling(s.fpc) ==> s.fi == 0 && s.fn1 == 0 && s.fn2 == 0)
    && (InWrite(s.fpc) || s.fpc == FWriting(FWDone) ==>
          && s.written <= c.step && s.cur == s.entry + s.written + s.fi
          && (s.feof.On? ==> s.short.On? && s.written < c.step))
    && (BeforeCopy(s.fpc) ==> s.feof.Off? && s.written < c.step)
    && (Filling(s.fpc) ==>
          s.written < c.step && 1 <= s.fn1 + s.fn2 <= c.step - s.written && s.fi <= s.fn1 + s.fn2)
    && (s.fpc == FCopying(FPLock) || s.fpc == FCopying(FPStore) ==> (s.feof.On? <==> s.fi < s.fn1 + s.fn2))
    && (s.fpc == FWriting(FWDone) && s.written < c.step ==> s.feof.On? || s.rdone.On?)
  }

  /** A sleeper's condition is still true, unless the other thread is on its way to waking it. */
  predicate Sleep(c: Config, s: State) {
    && (s.fpc == FWriting(FWCondWait) ==> Full(c.size, s.roff, s.woff) && s.rdone.Off?)
    && (s.fpc == FWriting(FWAsleep) && s.fsig.Off? ==>
          (Full(c.size, s.roff, s.woff) && s.rdone.Off?) || ConsumerWakingRing(s.cpc))
    && (s.cpc == CReading(CRCondWait) ==> s.roff == s.woff && s.wdone.Off?)
    && (s.cpc == CReading(CRAsleep) && s.csig.Off? ==>
          (s.roff == s.woff && s.wdone.Off?) || FillerWaking(s.fpc))
    && (s.fpc == FEnding(FECondWait) ==> s.rdone.Off?)
    && (s.fpc == FEnding(FEAsleep) && s.fsig.Off? ==> s.rdone.Off? || ConsumerWakingSeek(s.cpc))
    && (s.cpc == CWaiting(CSAsleep) && s.csig.Off? ==> s.req.On? || s.fpc == FServing(FSSignal))
    // What the end of a wait guarantees to the partial copy after it.
    && (s.fpc == FWriting(FWUnlock) || s.fpc == FWriting(FWCheck) ==> !Full(c.size, s.roff, s.woff) || s.rdone.On?)
    && (s.fpc == FCopying(FWSome) ==> !Full(c.size, s.roff, s.woff))
    && (s.cpc == CReading(CRUnlock) || s.cpc == CDraining(CRSome) ==> s.roff != s.woff || s.wdone.On?)
  }

  /** The regions of the two partial copies lie inside the free and the unread cells. */
  predicate Regional(c: Config, s: State)
    requires WellTyped(c, s)
  {
    var length := Length(c.size, s.roff, s.woff);
    && (Filling(s.fpc) ==>
          && length + s.fn1 + s.fn2 < c.size && s.fi <= s.fn1 + s.fn2
          && s.fn1 <= c.size - s.woff && (s.fn2 > 0 ==> s.fn1 == c.size - s.woff))
    && (!Draining(s.cpc) ==> s.cn1 == 0 && s.cn2 == 0 && s.cpart == [])
    && (Draining(s.cpc) ==>
          && s.cn1 + s.cn2 <= length && s.cn1 <= c.size - s.roff && (s.cn2 > 0 ==> s.cn1 == c.size - s.roff)
          && s.cnext <= c.size && Advanced(c.size, s.roff, s.cn1 + s.cn2, s.cnext)
          && |s.cout| + s.cn1 + s.cn2 <= s.clen && |s.cpart| <= s.cn1 + s.cn2)
    && (s.cpc == CDraining(CRPLock) || s.cpc == CDraining(CRPStore) ==> |s.cpart| == s.cn1 + s.cn2)
    && (s.fpc == FServing(FReset3) ==> s.woff == 0)
    && (s.started.Off? ==> s.roff == 0 && s.woff == 0)
    && |s.cout| <= (if Reading(s.cpc) then s.clen else 0)
    && (InPass(s.cpc) ==> |s.cout| < s.clen)
  }

  /** `part` is the content from offset `from` on. */
  predicate IsSlice(content: seq<Byte>, from: nat, part: seq<Byte>) {
    |part| > 0 ==> from + |part| <= |content| && part == content[from..from + |part|]
  }

  /** The `n` cells from `roff` on hold the content from `base` on. */
  predicate Holds(c: Config, data: seq<Byte>, roff: nat, base: nat, n: nat)
    requires c.Valid() && |data| == c.size && roff <= c.size && n <= c.size
  {
    && (n > 0 ==> base + n <= |c.content|)
    && (forall k :: 0 <= k < n ==> data[Cell(c.size, roff, k)] == c.content[base + k])
  }

  /** A successful seek has moved the inner cursor and the ring is not yet reset. */
  predicate Moving(s: State) { s.seekOk.On? && (s.fpc == FServing(FSLock) || Resetting(s.fpc)) }

  /** The reset for a successful seek is done and the client does not know its new position yet. */
  predicate Moved(s: State) {
    s.seekOk.On? && (s.fpc == FServing(FClear) || (s.req.Off? && SeekServed(s.cpc)))
  }

  /** Where the bytes are: everything the inner stream gave is in the ring, in order, or with the client. */
  predicate Delivery(c: Config, s: State)
    requires WellTyped(c, s)
  {
    var length := Length(c.size, s.roff, s.woff);
    && (!Moving(s) ==>
          && length + s.fi < c.size
          && s.cur == s.base + length + s.fi
          && Holds(c, s.data, s.roff, s.base, length + s.fi))
    && (Moving(s) ==> s.cur == s.seekOff)
    && IsSlice(c.content, s.base, s.cpart)
    && IsSlice(c.content, s.pos, s.cout)
    && s.base == (if Moved(s) then s.seekOff else s.pos + |s.cout|)
  }

  predicate Inv(c: Config, s: State) {
    && WellTyped(c, s) && Locks(s) && Handshake(s) && EndOfFile(c, s) && Accounting(c, s) && Sleep(c, s)
    && Regional(c, s) && Delivery(c, s)
  }
}
