/** Every step of the consumer, and every call of the client, keeps `Inv`. */
module PrefetchConsumer {
  import opened RingGeometry
  import opened PrefetchModel
  import opened PrefetchInvariant
  import opened PrefetchBytes

  // ----- `circbuf_read` around its partial reads --------------------------------------------------------

  lemma ReadKeepsLocks(c: Config, s: State, at: ReadPc, ch: Choice)
    requires Locks(s)
    requires s.cpc == CReading(at) && ConsumerMay(c, s, ch)
    ensures var t := ReadStep(s, at); Locks(t)
  {
  }

  lemma ReadKeepsHandshake(c: Config, s: State, at: ReadPc, ch: Choice)
    requires Locks(s) && Handshake(s)
    requires s.cpc == CReading(at) && ConsumerMay(c, s, ch)
    ensures var t := ReadStep(s, at); Handshake(t)
  {
  }

  lemma ReadKeepsEndOfFile(c: Config, s: State, at: ReadPc, ch: Choice)
    requires WellTyped(c, s) && Locks(s) && Handshake(s) && EndOfFile(c, s) && Accounting(c, s)
    requires s.cpc == CReading(at) && ConsumerMay(c, s, ch)
    ensures var t := ReadStep(s, at); EndOfFile(c, t)
  {
    hide Length;
  }

  lemma ReadKeepsSleep(c: Config, s: State, at: ReadPc, ch: Choice)
    requires WellTyped(c, s) && Locks(s) && Handshake(s) && EndOfFile(c, s) && Accounting(c, s) && Sleep(c, s)
    requires s.cpc == CReading(at) && ConsumerMay(c, s, ch)
    ensures var t := ReadStep(s, at); Accounting(c, t) && Sleep(c, t)
  {
    hide Length, EndOfFile, Full;
  }

  lemma ReadKeepsBytes(c: Config, s: State, at: ReadPc, ch: Choice)
    requires WellTyped(c, s) && Locks(s) && Handshake(s) && Accounting(c, s) && Regional(c, s) && Delivery(c, s)
    requires s.cpc == CReading(at) && ConsumerMay(c, s, ch)
    ensures var t := ReadStep(s, at); WellTyped(c, t) && Regional(c, t) && Delivery(c, t)
  {
    hide Holds, IsSlice, Cell;
  }

  lemma ReadKeeps(c: Config, s: State, at: ReadPc, ch: Choice)
    requires Inv(c, s) && s.cpc == CReading(at) && ConsumerMay(c, s, ch)
    ensures Inv(c, ReadStep(s, at))
  {
    hide Locks, Handshake, EndOfFile, Accounting, Sleep, Regional, Delivery;
    ReadKeepsLocks(c, s, at, ch);
    ReadKeepsHandshake(c, s, at, ch);
    ReadKeepsEndOfFile(c, s, at, ch);
    ReadKeepsSleep(c, s, at, ch);
    ReadKeepsBytes(c, s, at, ch);
  }

  // ----- A seek up to the request -----------------------------------------------------------------------

  lemma SeekKeepsProtocol(c: Config, s: State, at: SeekPc, ch: Choice)
    requires Locks(s) && Handshake(s)
    requires s.cpc == CSeeking(at) && ConsumerMay(c, s, ch)
    ensures var t := SeekStep(s, at, ch); Locks(t) && Handshake(t)
  {
  }

  lemma SeekKeepsFlags(c: Config, s: State, at: SeekPc, ch: Choice)
    requires WellTyped(c, s) && Locks(s) && Handshake(s) && EndOfFile(c, s) && Accounting(c, s) && Sleep(c, s)
    requires s.cpc == CSeeking(at) && ConsumerMay(c, s, ch)
    ensures var t := SeekStep(s, at, ch); EndOfFile(c, t) && Accounting(c, t) && Sleep(c, t)
  {
    hide Length;
  }

  lemma SeekKeepsBytes(c: Config, s: State, at: SeekPc, ch: Choice)
    requires WellTyped(c, s) && Locks(s) && Handshake(s) && Accounting(c, s) && Regional(c, s) && Delivery(c, s)
    requires s.cpc == CSeeking(at) && ConsumerMay(c, s, ch)
    ensures var t := SeekStep(s, at, ch); WellTyped(c, t) && Regional(c, t) && Delivery(c, t)
  {
    if !at.CSDirect? {
      hide Holds, IsSlice, Cell;
    }
  }

  lemma SeekKeeps(c: Config, s: State, at: SeekPc, ch: Choice)
    requires Inv(c, s) && s.cpc == CSeeking(at) && ConsumerMay(c, s, ch)
    ensures Inv(c, SeekStep(s, at, ch))
  {
    hide Locks, Handshake, EndOfFile, Accounting, Sleep, Regional, Delivery;
    SeekKeepsProtocol(c, s, at, ch);
    SeekKeepsFlags(c, s, at, ch);
    SeekKeepsBytes(c, s, at, ch);
  }

  // ----- Closing the reading side -----------------------------------------------------------------------

  lemma CloseKeepsProtocol(c: Config, s: State, at: ClosePc, who: Closer, ch: Choice)
    requires Locks(s) && Handshake(s)
    requires s.cpc == CClosing(at, who) && ConsumerMay(c, s, ch)
    ensures var t := CloseStep(s, at, who); Locks(t) && Handshake(t)
  {
  }

  lemma CloseKeepsEndOfFile(c: Config, s: State, at: ClosePc, who: Closer, ch: Choice)
    requires WellTyped(c, s) && Locks(s) && Handshake(s) && EndOfFile(c, s) && Accounting(c, s)
    requires s.cpc == CClosing(at, who) && ConsumerMay(c, s, ch)
    ensures var t := CloseStep(s, at, who); EndOfFile(c, t)
  {
    hide Length;
  }

  lemma CloseKeepsSleep(c: Config, s: State, at: ClosePc, who: Closer, ch: Choice)
    requires WellTyped(c, s) && Locks(s) && Handshake(s) && EndOfFile(c, s) && Accounting(c, s) && Sleep(c, s)
    requires s.cpc == CClosing(at, who) && ConsumerMay(c, s, ch)
    ensures var t := CloseStep(s, at, who); Accounting(c, t) && Sleep(c, t)
  {
    hide Length;
  }

  lemma CloseKeepsBytes(c: Config, s: State, at: ClosePc, who: Closer, ch: Choice)
    requires WellTyped(c, s) && Locks(s) && Handshake(s) && Accounting(c, s) && Regional(c, s) && Delivery(c, s)
    requires s.cpc == CClosing(at, who) && ConsumerMay(c, s, ch)
    ensures var t := CloseStep(s, at, who); WellTyped(c, t) && Regional(c, t) && Delivery(c, t)
  {
    hide Holds, IsSlice, Cell;
  }

  lemma CloseKeeps(c: Config, s: State, at: ClosePc, who: Closer, ch: Choice)
    requires Inv(c, s) && s.cpc == CClosing(at, who) && ConsumerMay(c, s, ch)
    ensures Inv(c, CloseStep(s, at, who))
  {
    hide Locks, Handshake, EndOfFile, Accounting, Sleep, Regional, Delivery;
    CloseKeepsProtocol(c, s, at, who, ch);
    CloseKeepsEndOfFile(c, s, at, who, ch);
    CloseKeepsSleep(c, s, at, who, ch);
    CloseKeepsBytes(c, s, at, who, ch);
  }

  // ----- A seek from the signal on ----------------------------------------------------------------------

  lemma WaitKeepsLocks(c: Config, s: State, at: WaitPc, ch: Choice)
    requires Locks(s)
    requires s.cpc == CWaiting(at) && ConsumerMay(c, s, ch)
    ensures var t := WaitStep(s, at, ch); Locks(t)
  {
  }

  lemma WaitKeepsHandshake(c: Config, s: State, at: WaitPc, ch: Choice)
    requires Locks(s) && Handshake(s)
    requires s.cpc == CWaiting(at) && ConsumerMay(c, s, ch)
    ensures var t := WaitStep(s, at, ch); Handshake(t)
  {
    match at
    case CSSignal => {}
    case CSTest => {}
    case CSCondWait => {}
    case CSAsleep => {}
    case CSRelock => {}
    case CSUnlock => {}
    case CSFinish => {}
  }

  lemma FinishSeekKeepsEndOfFile(c: Config, s: State, ch: Choice)
    requires WellTyped(c, s) && Locks(s) && Handshake(s) && EndOfFile(c, s) && Accounting(c, s)
    requires s.cpc == CWaiting(CSFinish) && ConsumerMay(c, s, ch)
    ensures var t := WaitStep(s, CSFinish, ch); EndOfFile(c, t)
  {
    hide Length, Accounting, Locks, Full, FillerHasR, FillerHasW, FillerHasS, ConsumerHasR, ConsumerHasW, ConsumerHasS;
    if s.seekOk.On? {
      assert WaitStep(s, CSFinish, ch).eof.Off?;
    } else {
      assert s.eof.On? ==> s.wdone.On?;
    }
  }

  lemma WaitKeepsEndOfFile(c: Config, s: State, at: WaitPc, ch: Choice)
    requires WellTyped(c, s) && Locks(s) && Handshake(s) && EndOfFile(c, s) && Accounting(c, s)
    requires s.cpc == CWaiting(at) && ConsumerMay(c, s, ch) && !at.CSFinish?
    ensures var t := WaitStep(s, at, ch); EndOfFile(c, t)
  {
    hide Length, Accounting;
  }

  lemma WaitKeepsAccounting(c: Config, s: State, at: WaitPc, ch: Choice)
    requires Accounting(c, s)
    requires s.cpc == CWaiting(at) && ConsumerMay(c, s, ch)
    ensures var t := WaitStep(s, at, ch); Accounting(c, t)
  {
    hide Length;
  }

  lemma SignalSeekKeepsSleep(c: Config, s: State, ch: Choice)
    requires WellTyped(c, s) && Locks(s) && Handshake(s) && EndOfFile(c, s) && Sleep(c, s)
    requires s.cpc == CWaiting(CSSignal) && ConsumerMay(c, s, ch)
    ensures var t := WaitStep(s, CSSignal, ch); Sleep(c, t)
  {
    hide Length, EndOfFile, Full;
  }

  lemma WaitKeepsSleep(c: Config, s: State, at: WaitPc, ch: Choice)
    requires WellTyped(c, s) && Locks(s) && Handshake(s) && EndOfFile(c, s) && Sleep(c, s)
    requires s.cpc == CWaiting(at) && ConsumerMay(c, s, ch) && !at.CSSignal?
    ensures var t := WaitStep(s, at, ch); Sleep(c, t)
  {
    hide Length, EndOfFile, Full;
  }

  lemma WaitKeepsRegional(c: Config, s: State, at: WaitPc, ch: Choice)
    requires WellTyped(c, s) && Locks(s) && Handshake(s) && Regional(c, s)
    requires s.cpc == CWaiting(at) && ConsumerMay(c, s, ch)
    ensures var t := WaitStep(s, at, ch); WellTyped(c, t) && Regional(c, t)
  {
    hide Holds;
  }

  lemma WaitKeepsDelivery(c: Config, s: State, at: WaitPc, ch: Choice)
    requires WellTyped(c, s) && Locks(s) && Handshake(s) && Accounting(c, s) && Regional(c, s) && Delivery(c, s)
    requires s.cpc == CWaiting(at) && ConsumerMay(c, s, ch)
    ensures var t := WaitStep(s, at, ch); WellTyped(c, t) && Delivery(c, t)
  {
    hide Holds, Cell;
  }

  lemma WaitKeeps(c: Config, s: State, at: WaitPc, ch: Choice)
    requires Inv(c, s) && s.cpc == CWaiting(at) && ConsumerMay(c, s, ch)
    ensures Inv(c, WaitStep(s, at, ch))
  {
    hide Locks, Handshake, EndOfFile, Accounting, Sleep, Regional, Delivery;
    WaitKeepsLocks(c, s, at, ch);
    WaitKeepsHandshake(c, s, at, ch);
    if at.CSFinish? {
      FinishSeekKeepsEndOfFile(c, s, ch);
    } else {
      WaitKeepsEndOfFile(c, s, at, ch);
    }
    WaitKeepsAccounting(c, s, at, ch);
    if at.CSSignal? {
      SignalSeekKeepsSleep(c, s, ch);
    } else {
      WaitKeepsSleep(c, s, at, ch);
    }
    WaitKeepsRegional(c, s, at, ch);
    WaitKeepsDelivery(c, s, at, ch);
  }

  // ----- Destroying -------------------------------------------------------------------------------------

  lemma DestroyKeepsProtocol(c: Config, s: State, at: DestroyPc, ch: Choice)
    requires Locks(s) && Handshake(s)
    requires s.cpc == CDestroying(at) && ConsumerMay(c, s, ch)
    ensures var t := DestroyStep(s, at, ch); Locks(t) && Handshake(t)
  {
  }

  lemma DestroyKeepsEndOfFile(c: Config, s: State, at: DestroyPc, ch: Choice)
    requires WellTyped(c, s) && Locks(s) && Handshake(s) && EndOfFile(c, s) && Accounting(c, s)
    requires s.cpc == CDestroying(at) && ConsumerMay(c, s, ch)
    ensures var t := DestroyStep(s, at, ch); EndOfFile(c, t)
  {
    hide Length;
  }

  lemma DestroyKeepsSleep(c: Config, s: State, at: DestroyPc, ch: Choice)
    requires WellTyped(c, s) && Locks(s) && Handshake(s) && EndOfFile(c, s) && Accounting(c, s) && Sleep(c, s)
    requires s.cpc == CDestroying(at) && ConsumerMay(c, s, ch)
    ensures var t := DestroyStep(s, at, ch); Accounting(c, t) && Sleep(c, t)
  {
    hide Length, EndOfFile, Full;
  }

  lemma DestroyKeepsBytes(c: Config, s: State, at: DestroyPc, ch: Choice)
    requires WellTyped(c, s) && Locks(s) && Handshake(s) && Accounting(c, s) && Regional(c, s) && Delivery(c, s)
    requires s.cpc == CDestroying(at) && ConsumerMay(c, s, ch)
    ensures var t := DestroyStep(s, at, ch); WellTyped(c, t) && Regional(c, t) && Delivery(c, t)
  {
    hide Holds, IsSlice, Cell;
  }

  lemma DestroyKeeps(c: Config, s: State, at: DestroyPc, ch: Choice)
    requires Inv(c, s) && s.cpc == CDestroying(at) && ConsumerMay(c, s, ch)
    ensures Inv(c, DestroyStep(s, at, ch))
  {
    hide Locks, Handshake, EndOfFile, Accounting, Sleep, Regional, Delivery;
    DestroyKeepsProtocol(c, s, at, ch);
    DestroyKeepsEndOfFile(c, s, at, ch);
    DestroyKeepsSleep(c, s, at, ch);
    DestroyKeepsBytes(c, s, at, ch);
  }

  // ----- `circbuf_read_some` ----------------------------------------------------------------------------

  /** Any contiguous regions inside the unread cells will do. */
  lemma ChooseDrainControl(c: Config, s: State, r: Regions)
    requires WellTyped(c, s) && Locks(s) && Handshake(s) && EndOfFile(c, s) && Accounting(c, s) && Sleep(c, s)
    requires s.cpc == CDraining(CRSome)
    requires r.Count() == 0 ==> (s.roff == c.size && r.next == 0) || (s.wdone.On? && s.roff == s.woff)
    ensures var t := ChooseDrain(s, r); Locks(t) && Handshake(t) && EndOfFile(c, t) && Accounting(c, t) && Sleep(c, t)
  {
    hide Length;
  }

  lemma ChooseDrainBytes(c: Config, s: State, r: Regions)
    requires WellTyped(c, s) && Handshake(s) && Accounting(c, s) && Regional(c, s) && Delivery(c, s)
    requires s.cpc == CDraining(CRSome)
    requires Contiguous(c.size, s.roff, r)
    requires r.Count() <= Length(c.size, s.roff, s.woff) && r.Count() <= s.clen - |s.cout|
    requires r.next <= c.size && Advanced(c.size, s.roff, r.Count(), r.next)
    ensures var t := ChooseDrain(s, r); WellTyped(c, t) && Regional(c, t) && Delivery(c, t)
  {
    hide Holds, IsSlice, Cell;
  }

  lemma ChooseDrainKeeps(c: Config, s: State, r: Regions)
    requires Inv(c, s) && s.cpc == CDraining(CRSome)
    requires Contiguous(c.size, s.roff, r)
    requires r.Count() <= Length(c.size, s.roff, s.woff) && r.Count() <= s.clen - |s.cout|
    requires r.next <= c.size && Advanced(c.size, s.roff, r.Count(), r.next)
    requires r.Count() == 0 ==> (s.roff == c.size && r.next == 0) || (s.wdone.On? && s.roff == s.woff)
    ensures Inv(c, ChooseDrain(s, r))
  {
    hide Locks, Handshake, EndOfFile, Accounting, Sleep, Regional, Delivery;
    ChooseDrainControl(c, s, r);
    ChooseDrainBytes(c, s, r);
  }

  lemma TakeByteControl(c: Config, s: State, b: Byte)
    requires WellTyped(c, s) && Locks(s) && Handshake(s) && EndOfFile(c, s) && Accounting(c, s) && Sleep(c, s)
    requires s.cpc == CDraining(CRCopy) && |s.cpart| < s.cn1 + s.cn2
    ensures var t := Drain(s, b); Locks(t) && Handshake(t) && EndOfFile(c, t) && Accounting(c, t) && Sleep(c, t)
  {
    hide Length;
  }

  lemma TakeByteBytes(c: Config, s: State, b: Byte)
    requires WellTyped(c, s) && Handshake(s) && Accounting(c, s) && Regional(c, s) && Delivery(c, s)
    requires s.cpc == CDraining(CRCopy) && |s.cpart| < s.cn1 + s.cn2
    requires IsSlice(c.content, s.base, s.cpart + [b])
    ensures var t := Drain(s, b); WellTyped(c, t) && Regional(c, t) && Delivery(c, t)
  {
    hide Holds, IsSlice, Cell;
  }

  lemma TakeByteKeeps(c: Config, s: State, b: Byte)
    requires Inv(c, s) && s.cpc == CDraining(CRCopy) && |s.cpart| < s.cn1 + s.cn2
    requires IsSlice(c.content, s.base, s.cpart + [b])
    ensures Inv(c, Drain(s, b))
  {
    hide Locks, Handshake, EndOfFile, Accounting, Sleep, Regional, Delivery;
    TakeByteControl(c, s, b);
    TakeByteBytes(c, s, b);
  }

  lemma PublishDrainControl(c: Config, s: State)
    requires WellTyped(c, s) && Locks(s) && Handshake(s) && EndOfFile(c, s) && Accounting(c, s) && Sleep(c, s)
    requires s.cpc == CDraining(CRPStore)
    requires Offsets(c.size, s.cnext, s.woff)
    requires Length(c.size, s.cnext, s.woff) <= Length(c.size, s.roff, s.woff)
    ensures var t := PublishDrain(s); Locks(t) && Handshake(t) && EndOfFile(c, t) && Accounting(c, t) && Sleep(c, t)
  {
  }

  lemma PublishDrainBytes(c: Config, s: State)
    requires WellTyped(c, s) && Handshake(s) && Accounting(c, s) && Regional(c, s) && Delivery(c, s)
    requires s.cpc == CDraining(CRPStore)
    requires Length(c.size, s.cnext, s.woff) == Length(c.size, s.roff, s.woff) - |s.cpart|
    requires Holds(c, s.data, s.cnext, s.base + |s.cpart|, Length(c.size, s.roff, s.woff) - |s.cpart| + s.fi)
    requires IsSlice(c.content, s.pos, s.cout + s.cpart)
    ensures var t := PublishDrain(s); WellTyped(c, t) && Regional(c, t) && Delivery(c, t)
  {
    hide Holds, Cell;
  }

  lemma PublishDrainKeeps(c: Config, s: State)
    requires Inv(c, s) && s.cpc == CDraining(CRPStore)
    requires Length(c.size, s.cnext, s.woff) == Length(c.size, s.roff, s.woff) - |s.cpart|
    requires Holds(c, s.data, s.cnext, s.base + |s.cpart|, Length(c.size, s.roff, s.woff) - |s.cpart| + s.fi)
    requires IsSlice(c.content, s.pos, s.cout + s.cpart)
    requires Offsets(c.size, s.cnext, s.woff)
    ensures Inv(c, PublishDrain(s))
  {
    hide Locks, Handshake, EndOfFile, Accounting, Sleep, Regional, Delivery;
    PublishDrainControl(c, s);
    PublishDrainBytes(c, s);
  }

  /** Steps that neither choose regions, nor copy a byte, nor publish. */
  predicate DrainMovesNothing(s: State, at: DrainPc) {
    !at.CRSome? && !at.CRPStore? && (at.CRCopy? ==> |s.cpart| >= s.cn1 + s.cn2)
  }

  lemma DrainKeepsProtocol(c: Config, s: State, at: DrainPc, ch: Choice)
    requires Locks(s) && Handshake(s)
    requires s.cpc == CDraining(at) && ConsumerMay(c, s, ch) && DrainMovesNothing(s, at)
    ensures var t := DrainStep(c, s, at); Locks(t) && Handshake(t)
  {
    hide ReadRegions, ChooseDrain, Drain, PublishDrain, RegionCell, Length;
  }

  lemma DrainKeepsFlags(c: Config, s: State, at: DrainPc, ch: Choice)
    requires WellTyped(c, s) && Locks(s) && Handshake(s) && EndOfFile(c, s) && Accounting(c, s) && Sleep(c, s)
    requires s.cpc == CDraining(at) && ConsumerMay(c, s, ch) && DrainMovesNothing(s, at)
    ensures var t := DrainStep(c, s, at); EndOfFile(c, t) && Accounting(c, t) && Sleep(c, t)
  {
    hide ReadRegions, ChooseDrain, Drain, PublishDrain, RegionCell, Length;
  }

  lemma DrainKeepsBytes(c: Config, s: State, at: DrainPc, ch: Choice)
    requires WellTyped(c, s) && Handshake(s) && Accounting(c, s) && Regional(c, s) && Delivery(c, s)
    requires s.cpc == CDraining(at) && ConsumerMay(c, s, ch) && DrainMovesNothing(s, at)
    ensures var t := DrainStep(c, s, at); WellTyped(c, t) && Regional(c, t) && Delivery(c, t)
  {
    hide ReadRegions, ChooseDrain, Drain, PublishDrain, RegionCell, Holds, IsSlice, Cell;
  }

  lemma DrainRestKeeps(c: Config, s: State, at: DrainPc, ch: Choice)
    requires Inv(c, s) && s.cpc == CDraining(at) && ConsumerMay(c, s, ch) && DrainMovesNothing(s, at)
    ensures Inv(c, DrainStep(c, s, at))
  {
    hide Locks, Handshake, EndOfFile, Accounting, Sleep, Regional, Delivery, DrainStep;
    DrainKeepsProtocol(c, s, at, ch);
    DrainKeepsFlags(c, s, at, ch);
    DrainKeepsBytes(c, s, at, ch);
  }

  lemma ReadRegionsKeep(c: Config, s: State)
    requires Inv(c, s) && s.cpc == CDraining(CRSome) && DrainInside(c, s, CRSome)
    ensures Inv(c, ChooseDrain(s, ReadRegions(c.size, s.roff, s.woff, s.clen - |s.cout|)))
  {
    hide Locks, Handshake, EndOfFile, Accounting, Delivery, IsSlice, Holds;
    var r := ReadRegions(c.size, s.roff, s.woff, s.clen - |s.cout|);
    ReadRegionsExact(c.size, s.roff, s.woff, s.clen - |s.cout|);
    ChooseDrainKeeps(c, s, r);
  }

  /** What `Inv` says about the bytes being copied out. */
  lemma DrainFacts(c: Config, s: State)
    requires Inv(c, s) && Draining(s.cpc)
    ensures WellTyped(c, s) && Length(c.size, s.roff, s.woff) + s.fi < c.size
    ensures Holds(c, s.data, s.roff, s.base, Length(c.size, s.roff, s.woff) + s.fi)
    ensures s.cnext <= c.size && Advanced(c.size, s.roff, s.cn1 + s.cn2, s.cnext)
    ensures |s.cpart| <= s.cn1 + s.cn2 <= Length(c.size, s.roff, s.woff)
    ensures |s.cpart| < s.cn1 + s.cn2 ==> DrainCell(s) == Cell(c.size, s.roff, |s.cpart|)
    ensures s.cpc == CDraining(CRPStore) ==> |s.cpart| == s.cn1 + s.cn2
    ensures IsSlice(c.content, s.base, s.cpart) && IsSlice(c.content, s.pos, s.cout) && s.base == s.pos + |s.cout|
  {
    hide EndOfFile, Sleep, Accounting, Holds, IsSlice;
  }

  lemma DrainByteKeeps(c: Config, s: State)
    requires Inv(c, s) && s.cpc == CDraining(CRCopy) && |s.cpart| < s.cn1 + s.cn2 && DrainInside(c, s, CRCopy)
    ensures Inv(c, Drain(s, s.data[DrainCell(s)]))
  {
    hide Inv;
    DrainFacts(c, s);
    SliceJoin(c.content, s.base, s.cpart, [s.data[DrainCell(s)]]);
    TakeByteKeeps(c, s, s.data[DrainCell(s)]);
  }

  lemma AdvanceReadKeeps(c: Config, s: State)
    requires Inv(c, s) && s.cpc == CDraining(CRPStore)
    ensures Inv(c, PublishDrain(s))
  {
    hide Inv, Holds, IsSlice;
    DrainFacts(c, s);
    LengthAfterRead(c.size, s.roff, s.woff, |s.cpart|, s.cnext);
    HoldsShift(c, s.data, s.roff, s.base, Length(c.size, s.roff, s.woff) + s.fi, |s.cpart|, s.cnext);
    SliceJoin(c.content, s.pos, s.cout, s.cpart);
    PublishDrainKeeps(c, s);
  }

  lemma DrainKeeps(c: Config, s: State, at: DrainPc, ch: Choice)
    requires Inv(c, s) && s.cpc == CDraining(at) && ConsumerMay(c, s, ch)
    ensures Inv(c, DrainStep(c, s, at))
  {
    hide Inv, ReadRegions, RegionCell;
    if at.CRSome? {
      ReadRegionsKeep(c, s);
    } else if at.CRPStore? {
      AdvanceReadKeeps(c, s);
    } else if DrainMovesNothing(s, at) {
      DrainRestKeeps(c, s, at, ch);
    } else {
      DrainByteKeeps(c, s);
    }
  }

  lemma ConsumerKeeps(c: Config, s: State, ch: Choice)
    requires Inv(c, s) && ConsumerMay(c, s, ch)
    ensures Inv(c, ConsumerStep(c, s, ch))
  {
    hide Inv, ReadStep, DrainStep, SeekStep, CloseStep, WaitStep, DestroyStep;
    match s.cpc
    case CReading(at) => ReadKeeps(c, s, at, ch);
    case CDraining(at) => DrainKeeps(c, s, at, ch);
    case CSeeking(at) => SeekKeeps(c, s, at, ch);
    case CClosing(at, who) => CloseKeeps(c, s, at, who, ch);
    case CWaiting(at) => WaitKeeps(c, s, at, ch);
    case CDestroying(at) => DestroyKeeps(c, s, at, ch);
  }

  lemma BeginKeepsProtocol(c: Config, s: State, call: Call)
    requires Locks(s) && Handshake(s) && MayCall(s, call)
    ensures var t := Begin(s, call); Locks(t) && Handshake(t)
  {
  }

  lemma BeginKeepsFlags(c: Config, s: State, call: Call)
    requires WellTyped(c, s) && Locks(s) && Handshake(s) && EndOfFile(c, s) && Accounting(c, s) && Sleep(c, s)
    requires MayCall(s, call)
    ensures var t := Begin(s, call); EndOfFile(c, t) && Accounting(c, t) && Sleep(c, t)
  {
    hide Length;
  }

  lemma BeginKeepsBytes(c: Config, s: State, call: Call)
    requires Inv(c, s) && MayCall(s, call)
    ensures var t := Begin(s, call); WellTyped(c, t) && Regional(c, t) && Delivery(c, t)
  {
    hide Locks, EndOfFile, Accounting, Sleep, Holds, Cell;
  }

  lemma BeginKeeps(c: Config, s: State, call: Call)
    requires Inv(c, s) && MayCall(s, call)
    ensures Inv(c, Begin(s, call))
  {
    hide Locks, Handshake, EndOfFile, Accounting, Sleep, Regional, Delivery;
    BeginKeepsProtocol(c, s, call);
    BeginKeepsFlags(c, s, call);
    BeginKeepsBytes(c, s, call);
  }
}
