/** Every step of the filler keeps `Inv`: phase by phase, one group of the invariant after the other. */
module PrefetchFiller {
  import opened RingGeometry
  import opened PrefetchModel
  import opened PrefetchInvariant
  import opened PrefetchBytes

  // ----- Announcing the filler --------------------------------------------------------------------------

  lemma StartKeepsProtocol(c: Config, s: State, at: StartPc, ch: Choice)
    requires Locks(s) && Handshake(s)
    requires s.fpc == FStarting(at) && FillerMay(c, s, ch)
    ensures var t := StartStep(s, at); Locks(t) && Handshake(t)
  {
  }

  lemma StartKeepsFlags(c: Config, s: State, at: StartPc, ch: Choice)
    requires WellTyped(c, s) && Locks(s) && Handshake(s) && EndOfFile(c, s) && Accounting(c, s) && Sleep(c, s)
    requires s.fpc == FStarting(at) && FillerMay(c, s, ch)
    ensures var t := StartStep(s, at); EndOfFile(c, t) && Accounting(c, t) && Sleep(c, t)
  {
    hide Length;
  }

  lemma StartKeepsBytes(c: Config, s: State, at: StartPc, ch: Choice)
    requires WellTyped(c, s) && Locks(s) && Handshake(s) && Accounting(c, s) && Regional(c, s) && Delivery(c, s)
    requires s.fpc == FStarting(at) && FillerMay(c, s, ch)
    ensures var t := StartStep(s, at); WellTyped(c, t) && Regional(c, t) && Delivery(c, t)
  {
    hide Holds, IsSlice, Cell;
  }

  lemma StartKeeps(c: Config, s: State, at: StartPc, ch: Choice)
    requires Inv(c, s) && s.fpc == FStarting(at) && FillerMay(c, s, ch)
    ensures Inv(c, StartStep(s, at))
  {
    hide Locks, Handshake, EndOfFile, Accounting, Sleep, Regional, Delivery;
    StartKeepsProtocol(c, s, at, ch);
    StartKeepsFlags(c, s, at, ch);
    StartKeepsBytes(c, s, at, ch);
  }

  // ----- The loop test of the filler --------------------------------------------------------------------

  lemma TopKeepsProtocol(c: Config, s: State, at: TopPc, ch: Choice)
    requires Locks(s) && Handshake(s)
    requires s.fpc == FTop(at) && FillerMay(c, s, ch)
    ensures var t := TopStep(s, at); Locks(t) && Handshake(t)
  {
  }

  lemma TopKeepsFlags(c: Config, s: State, at: TopPc, ch: Choice)
    requires WellTyped(c, s) && Locks(s) && Handshake(s) && EndOfFile(c, s) && Accounting(c, s) && Sleep(c, s)
    requires s.fpc == FTop(at) && FillerMay(c, s, ch)
    ensures var t := TopStep(s, at); EndOfFile(c, t) && Accounting(c, t) && Sleep(c, t)
  {
    hide Length;
  }

  lemma TopKeepsBytes(c: Config, s: State, at: TopPc, ch: Choice)
    requires WellTyped(c, s) && Locks(s) && Handshake(s) && Accounting(c, s) && Regional(c, s) && Delivery(c, s)
    requires s.fpc == FTop(at) && FillerMay(c, s, ch)
    ensures var t := TopStep(s, at); WellTyped(c, t) && Regional(c, t) && Delivery(c, t)
  {
    hide Holds, IsSlice, Cell;
  }

  lemma TopKeeps(c: Config, s: State, at: TopPc, ch: Choice)
    requires Inv(c, s) && s.fpc == FTop(at) && FillerMay(c, s, ch)
    ensures Inv(c, TopStep(s, at))
  {
    hide Locks, Handshake, EndOfFile, Accounting, Sleep, Regional, Delivery;
    TopKeepsProtocol(c, s, at, ch);
    TopKeepsFlags(c, s, at, ch);
    TopKeepsBytes(c, s, at, ch);
  }

  // ----- Serving a seek request -------------------------------------------------------------------------

  lemma ServeKeepsLocks(c: Config, s: State, at: ServePc, ch: Choice)
    requires Locks(s)
    requires s.fpc == FServing(at) && FillerMay(c, s, ch)
    ensures var t := ServeStep(s, at, ch); Locks(t)
  {
  }

  lemma ServeKeepsHandshake(c: Config, s: State, at: ServePc, ch: Choice)
    requires Locks(s) && Handshake(s)
    requires s.fpc == FServing(at) && FillerMay(c, s, ch)
    ensures var t := ServeStep(s, at, ch); Handshake(t)
  {
  }

  lemma ServeKeepsEndOfFile(c: Config, s: State, at: ServePc, ch: Choice)
    requires WellTyped(c, s) && Locks(s) && Handshake(s) && EndOfFile(c, s) && Accounting(c, s)
    requires s.fpc == FServing(at) && FillerMay(c, s, ch)
    ensures var t := ServeStep(s, at, ch); EndOfFile(c, t)
  {
    hide Length, Accounting, WellTyped;
  }

  lemma ServeKeepsAccounting(c: Config, s: State, at: ServePc, ch: Choice)
    requires Accounting(c, s)
    requires s.fpc == FServing(at) && FillerMay(c, s, ch)
    ensures var t := ServeStep(s, at, ch); Accounting(c, t)
  {
    hide Length;
  }

  lemma ServeKeepsSleep(c: Config, s: State, at: ServePc, ch: Choice)
    requires WellTyped(c, s) && Locks(s) && Handshake(s) && EndOfFile(c, s) && Sleep(c, s)
    requires s.fpc == FServing(at) && FillerMay(c, s, ch)
    ensures var t := ServeStep(s, at, ch); Sleep(c, t)
  {
    hide Length;
  }

  lemma ServeKeepsRegional(c: Config, s: State, at: ServePc, ch: Choice)
    requires WellTyped(c, s) && Locks(s) && Handshake(s) && Regional(c, s)
    requires s.fpc == FServing(at) && FillerMay(c, s, ch)
    ensures var t := ServeStep(s, at, ch); WellTyped(c, t) && Regional(c, t)
  {
    hide Holds;
  }

  lemma InnerSeekKeepsDelivery(c: Config, s: State, ch: Choice)
    requires WellTyped(c, s) && Locks(s) && Handshake(s) && Accounting(c, s) && Regional(c, s) && Delivery(c, s)
    requires s.fpc == FServing(FSeek) && FillerMay(c, s, ch)
    ensures var t := ServeStep(s, FSeek, ch); WellTyped(c, t) && Delivery(c, t)
  {
    hide Holds, IsSlice, Cell;
  }

  lemma BeginResetKeepsDelivery(c: Config, s: State, at: ServePc, ch: Choice)
    requires WellTyped(c, s) && Locks(s) && Handshake(s) && Accounting(c, s) && Regional(c, s) && Delivery(c, s)
    requires s.fpc == FServing(at) && FillerMay(c, s, ch) && (at.FSLock? || at.FReset0? || at.FReset1? || at.FReset2?)
    ensures var t := ServeStep(s, at, ch); WellTyped(c, t) && Delivery(c, t)
  {
    hide Holds, IsSlice, Cell;
  }

  lemma ClearKeepsDelivery(c: Config, s: State, at: ServePc, ch: Choice)
    requires WellTyped(c, s) && Locks(s) && Handshake(s) && Accounting(c, s) && Regional(c, s) && Delivery(c, s)
    requires s.fpc == FServing(at) && FillerMay(c, s, ch) && (at.FClear? || at.FSSignal? || at.FSUnlock?)
    ensures var t := ServeStep(s, at, ch); WellTyped(c, t) && Delivery(c, t)
  {
    hide Holds, IsSlice, Cell;
  }

  /** The last store of the reset makes the empty ring stand at the offset sought. */
  lemma ResetKeepsDelivery(c: Config, s: State, ch: Choice)
    requires WellTyped(c, s) && Locks(s) && Handshake(s) && Accounting(c, s) && Regional(c, s) && Delivery(c, s)
    requires s.fpc == FServing(FReset3) && FillerMay(c, s, ch)
    ensures var t := ServeStep(s, FReset3, ch); WellTyped(c, t) && Delivery(c, t)
  {
  }

  lemma ServeKeeps(c: Config, s: State, at: ServePc, ch: Choice)
    requires Inv(c, s) && s.fpc == FServing(at) && FillerMay(c, s, ch)
    ensures Inv(c, ServeStep(s, at, ch))
  {
    hide Locks, Handshake, EndOfFile, Accounting, Sleep, Regional, Delivery;
    ServeKeepsLocks(c, s, at, ch);
    ServeKeepsHandshake(c, s, at, ch);
    ServeKeepsEndOfFile(c, s, at, ch);
    ServeKeepsAccounting(c, s, at, ch);
    ServeKeepsSleep(c, s, at, ch);
    ServeKeepsRegional(c, s, at, ch);
    if at.FReset3? {
      ResetKeepsDelivery(c, s, ch);
    } else if at.FSeek? {
      InnerSeekKeepsDelivery(c, s, ch);
    } else if at.FClear? || at.FSSignal? || at.FSUnlock? {
      ClearKeepsDelivery(c, s, at, ch);
    } else {
      BeginResetKeepsDelivery(c, s, at, ch);
    }
  }

  // ----- `circbuf_write2` around its partial writes -----------------------------------------------------

  lemma WriteKeepsLocks(c: Config, s: State, at: WritePc, ch: Choice)
    requires Locks(s)
    requires s.fpc == FWriting(at) && FillerMay(c, s, ch)
    ensures var t := WriteStep(c, s, at); Locks(t)
  {
  }

  lemma WriteKeepsHandshake(c: Config, s: State, at: WritePc, ch: Choice)
    requires Locks(s) && Handshake(s)
    requires s.fpc == FWriting(at) && FillerMay(c, s, ch)
    ensures var t := WriteStep(c, s, at); Handshake(t)
  {
  }

  lemma WriteKeepsFlags(c: Config, s: State, at: WritePc, ch: Choice)
    requires WellTyped(c, s) && Locks(s) && Handshake(s) && EndOfFile(c, s) && Accounting(c, s)
    requires s.fpc == FWriting(at) && FillerMay(c, s, ch)
    ensures var t := WriteStep(c, s, at); EndOfFile(c, t) && Accounting(c, t)
  {
    hide Length;
  }

  lemma WriteKeepsSleep(c: Config, s: State, at: WritePc, ch: Choice)
    requires WellTyped(c, s) && Locks(s) && Handshake(s) && EndOfFile(c, s) && Sleep(c, s)
    requires s.fpc == FWriting(at) && FillerMay(c, s, ch)
    ensures var t := WriteStep(c, s, at); Sleep(c, t)
  {
    hide Length;
  }

  lemma WriteKeepsRegional(c: Config, s: State, at: WritePc, ch: Choice)
    requires WellTyped(c, s) && Locks(s) && Handshake(s) && Regional(c, s)
    requires s.fpc == FWriting(at) && FillerMay(c, s, ch)
    ensures var t := WriteStep(c, s, at); WellTyped(c, t) && Regional(c, t)
  {
    hide Holds;
  }

  lemma WriteKeepsDelivery(c: Config, s: State, at: WritePc, ch: Choice)
    requires WellTyped(c, s) && Locks(s) && Handshake(s) && Accounting(c, s) && Regional(c, s) && Delivery(c, s)
    requires s.fpc == FWriting(at) && FillerMay(c, s, ch)
    ensures var t := WriteStep(c, s, at); WellTyped(c, t) && Delivery(c, t)
  {
    hide Holds, IsSlice;
  }

  lemma WriteKeeps(c: Config, s: State, at: WritePc, ch: Choice)
    requires Inv(c, s) && s.fpc == FWriting(at) && FillerMay(c, s, ch)
    ensures Inv(c, WriteStep(c, s, at))
  {
    hide Locks, Handshake, EndOfFile, Accounting, Sleep, Regional, Delivery;
    WriteKeepsLocks(c, s, at, ch);
    WriteKeepsHandshake(c, s, at, ch);
    WriteKeepsFlags(c, s, at, ch);
    WriteKeepsSleep(c, s, at, ch);
    WriteKeepsRegional(c, s, at, ch);
    WriteKeepsDelivery(c, s, at, ch);
  }

  // ----- Closing the writing side and waiting for the reader to close -----------------------------------

  lemma EndKeepsLocks(c: Config, s: State, at: EndPc, ch: Choice)
    requires Locks(s)
    requires s.fpc == FEnding(at) && FillerMay(c, s, ch)
    ensures var t := EndStep(s, at); Locks(t)
  {
  }

  lemma EndKeepsHandshake(c: Config, s: State, at: EndPc, ch: Choice)
    requires Locks(s) && Handshake(s)
    requires s.fpc == FEnding(at) && FillerMay(c, s, ch)
    ensures var t := EndStep(s, at); Handshake(t)
  {
  }

  lemma EndKeepsEndOfFile(c: Config, s: State, at: EndPc, ch: Choice)
    requires WellTyped(c, s) && Locks(s) && Handshake(s) && EndOfFile(c, s) && Accounting(c, s)
    requires s.fpc == FEnding(at) && FillerMay(c, s, ch)
    ensures var t := EndStep(s, at); EndOfFile(c, t)
  {
    hide Length, Accounting, Locks, WellTyped;
  }

  lemma EndKeepsAccounting(c: Config, s: State, at: EndPc, ch: Choice)
    requires Accounting(c, s)
    requires s.fpc == FEnding(at) && FillerMay(c, s, ch)
    ensures var t := EndStep(s, at); Accounting(c, t)
  {
    hide Length;
  }

  lemma EndKeepsSleep(c: Config, s: State, at: EndPc, ch: Choice)
    requires WellTyped(c, s) && Locks(s) && Handshake(s) && EndOfFile(c, s) && Sleep(c, s)
    requires s.fpc == FEnding(at) && FillerMay(c, s, ch)
    ensures var t := EndStep(s, at); Sleep(c, t)
  {
    hide Length;
  }

  lemma EndKeepsRegional(c: Config, s: State, at: EndPc, ch: Choice)
    requires WellTyped(c, s) && Locks(s) && Handshake(s) && Regional(c, s)
    requires s.fpc == FEnding(at) && FillerMay(c, s, ch)
    ensures var t := EndStep(s, at); WellTyped(c, t) && Regional(c, t)
  {
    hide Holds;
  }

  lemma EndKeepsDelivery(c: Config, s: State, at: EndPc, ch: Choice)
    requires WellTyped(c, s) && Locks(s) && Handshake(s) && Accounting(c, s) && Regional(c, s) && Delivery(c, s)
    requires s.fpc == FEnding(at) && FillerMay(c, s, ch)
    ensures var t := EndStep(s, at); WellTyped(c, t) && Delivery(c, t)
  {
    hide Holds, IsSlice;
  }

  lemma EndKeeps(c: Config, s: State, at: EndPc, ch: Choice)
    requires Inv(c, s) && s.fpc == FEnding(at) && FillerMay(c, s, ch)
    ensures Inv(c, EndStep(s, at))
  {
    hide Locks, Handshake, EndOfFile, Accounting, Sleep, Regional, Delivery;
    EndKeepsLocks(c, s, at, ch);
    EndKeepsHandshake(c, s, at, ch);
    EndKeepsEndOfFile(c, s, at, ch);
    EndKeepsAccounting(c, s, at, ch);
    EndKeepsSleep(c, s, at, ch);
    EndKeepsRegional(c, s, at, ch);
    EndKeepsDelivery(c, s, at, ch);
  }

  // ----- `circbuf_write_some2` --------------------------------------------------------------------------

  /** Any contiguous regions inside the free cells will do. */
  lemma ChooseFillControl(c: Config, s: State, r: Regions)
    requires WellTyped(c, s) && Locks(s) && Handshake(s) && EndOfFile(c, s) && Accounting(c, s) && Sleep(c, s)
    requires s.fpc == FCopying(FWSome)
    requires 1 <= r.Count() <= c.step - s.written
    ensures var t := ChooseFill(s, r); Locks(t) && Handshake(t) && EndOfFile(c, t) && Accounting(c, t) && Sleep(c, t)
  {
    hide Length;
  }

  lemma ChooseFillBytes(c: Config, s: State, r: Regions)
    requires WellTyped(c, s) && Handshake(s) && Accounting(c, s) && Regional(c, s) && Delivery(c, s)
    requires s.fpc == FCopying(FWSome)
    requires Length(c.size, s.roff, s.woff) + r.Count() < c.size && 1 <= r.Count() <= c.step - s.written
    requires Contiguous(c.size, s.woff, r)
    ensures var t := ChooseFill(s, r); WellTyped(c, t) && Regional(c, t) && Delivery(c, t)
  {
    hide Holds, IsSlice, Cell;
  }

  lemma ChooseFillKeeps(c: Config, s: State, r: Regions)
    requires Inv(c, s) && s.fpc == FCopying(FWSome)
    requires Length(c.size, s.roff, s.woff) + r.Count() < c.size && 1 <= r.Count() <= c.step - s.written
    requires Contiguous(c.size, s.woff, r)
    ensures Inv(c, ChooseFill(s, r))
  {
    hide Locks, Handshake, EndOfFile, Accounting, Sleep, Regional, Delivery;
    ChooseFillControl(c, s, r);
    ChooseFillBytes(c, s, r);
  }

  lemma FillControl(c: Config, s: State, data: seq<Byte>)
    requires WellTyped(c, s) && Locks(s) && Handshake(s) && EndOfFile(c, s) && Accounting(c, s) && Sleep(c, s)
    requires s.fpc == FCopying(FCopy) && s.fi < s.fn1 + s.fn2 && s.cur < |c.content|
    requires |data| == c.size
    ensures var t := Fill(s, data); Locks(t) && Handshake(t) && EndOfFile(c, t) && Accounting(c, t) && Sleep(c, t)
  {
    hide Length;
  }

  lemma FillBytes(c: Config, s: State, data: seq<Byte>)
    requires WellTyped(c, s) && Handshake(s) && Accounting(c, s) && Regional(c, s) && Delivery(c, s)
    requires s.fpc == FCopying(FCopy) && s.fi < s.fn1 + s.fn2 && s.cur < |c.content|
    requires |data| == c.size && Length(c.size, s.roff, s.woff) + s.fi < c.size
    requires Holds(c, data, s.roff, s.base, Length(c.size, s.roff, s.woff) + s.fi + 1)
    ensures var t := Fill(s, data); WellTyped(c, t) && Regional(c, t) && Delivery(c, t)
  {
    hide Holds, IsSlice, Cell;
  }

  lemma FillKeeps(c: Config, s: State, data: seq<Byte>)
    requires Inv(c, s) && s.fpc == FCopying(FCopy) && s.fi < s.fn1 + s.fn2 && s.cur < |c.content|
    requires |data| == c.size && Length(c.size, s.roff, s.woff) + s.fi < c.size
    requires Holds(c, data, s.roff, s.base, Length(c.size, s.roff, s.woff) + s.fi + 1)
    ensures Inv(c, Fill(s, data))
  {
    hide Locks, Handshake, EndOfFile, Accounting, Sleep, Regional, Delivery;
    FillControl(c, s, data);
    FillBytes(c, s, data);
  }

  lemma PublishFillControl(c: Config, s: State, to: nat)
    requires WellTyped(c, s) && Locks(s) && Handshake(s) && EndOfFile(c, s) && Accounting(c, s) && Sleep(c, s)
    requires s.fpc == FCopying(FPStore)
    requires to < c.size && (s.roff != s.woff ==> s.roff != to)
    ensures var t := PublishFill(s, to); Locks(t) && Handshake(t) && EndOfFile(c, t) && Accounting(c, t) && Sleep(c, t)
  {
    hide Length;
  }

  lemma PublishFillBytes(c: Config, s: State, to: nat)
    requires WellTyped(c, s) && Handshake(s) && Accounting(c, s) && Regional(c, s) && Delivery(c, s)
    requires s.fpc == FCopying(FPStore)
    requires to < c.size && Length(c.size, s.roff, to) == Length(c.size, s.roff, s.woff) + s.fi
    ensures var t := PublishFill(s, to); WellTyped(c, t) && Regional(c, t) && Delivery(c, t)
  {
    hide Holds, IsSlice, Cell;
  }

  lemma PublishFillKeeps(c: Config, s: State, to: nat)
    requires Inv(c, s) && s.fpc == FCopying(FPStore)
    requires to < c.size && Length(c.size, s.roff, to) == Length(c.size, s.roff, s.woff) + s.fi
    requires s.roff != s.woff ==> s.roff != to
    ensures Inv(c, PublishFill(s, to))
  {
    hide Locks, Handshake, EndOfFile, Accounting, Sleep, Regional, Delivery;
    PublishFillControl(c, s, to);
    PublishFillBytes(c, s, to);
  }

  /** Steps that neither choose regions, nor place a byte, nor publish. */
  predicate CopyMovesNothing(c: Config, s: State, at: CopyPc) {
    !at.FWSome? && !at.FPStore? && (at.FCopy? ==> s.fi >= s.fn1 + s.fn2 || s.cur >= |c.content|)
  }

  lemma CopyKeepsLocks(c: Config, s: State, at: CopyPc, ch: Choice)
    requires Locks(s)
    requires s.fpc == FCopying(at) && FillerMay(c, s, ch) && CopyMovesNothing(c, s, at)
    ensures var t := CopyStep(c, s, at); Locks(t)
  {
    hide WriteRegions, AdvanceWrite, ChooseFill, Fill, PublishFill, RegionCell, Length;
  }

  lemma CopyKeepsHandshake(c: Config, s: State, at: CopyPc, ch: Choice)
    requires Handshake(s)
    requires s.fpc == FCopying(at) && FillerMay(c, s, ch) && CopyMovesNothing(c, s, at)
    ensures var t := CopyStep(c, s, at); Handshake(t)
  {
    hide WriteRegions, AdvanceWrite, ChooseFill, Fill, PublishFill, RegionCell, Length;
  }

  lemma CopyKeepsEndOfFile(c: Config, s: State, at: CopyPc, ch: Choice)
    requires WellTyped(c, s) && Locks(s) && Handshake(s) && EndOfFile(c, s) && Accounting(c, s)
    requires s.fpc == FCopying(at) && FillerMay(c, s, ch) && CopyMovesNothing(c, s, at)
    ensures var t := CopyStep(c, s, at); EndOfFile(c, t) && Accounting(c, t)
  {
    hide WriteRegions, AdvanceWrite, ChooseFill, Fill, PublishFill, RegionCell, Length,
      Full, CopyInside, Handshake, Locks, WellTyped;
  }

  lemma CopyKeepsSleep(c: Config, s: State, at: CopyPc, ch: Choice)
    requires WellTyped(c, s) && Locks(s) && Handshake(s) && EndOfFile(c, s) && Accounting(c, s) && Sleep(c, s)
    requires s.fpc == FCopying(at) && FillerMay(c, s, ch) && CopyMovesNothing(c, s, at)
    ensures var t := CopyStep(c, s, at); Sleep(c, t)
  {
    hide WriteRegions, AdvanceWrite, ChooseFill, Fill, PublishFill, RegionCell, Length,
      EndOfFile, Accounting, Handshake, Full;
  }

  lemma CopyKeepsRegional(c: Config, s: State, at: CopyPc, ch: Choice)
    requires WellTyped(c, s) && Handshake(s) && Accounting(c, s) && Regional(c, s) && Delivery(c, s)
    requires s.fpc == FCopying(at) && FillerMay(c, s, ch) && CopyMovesNothing(c, s, at)
    ensures var t := CopyStep(c, s, at); WellTyped(c, t) && Regional(c, t)
  {
    hide WriteRegions, AdvanceWrite, ChooseFill, Fill, PublishFill, RegionCell,
      Holds, IsSlice, Cell, CopyInside, Delivery;
  }

  lemma CopyKeepsDelivery(c: Config, s: State, at: CopyPc, ch: Choice)
    requires WellTyped(c, s) && Handshake(s) && Accounting(c, s) && Regional(c, s) && Delivery(c, s)
    requires s.fpc == FCopying(at) && FillerMay(c, s, ch) && CopyMovesNothing(c, s, at)
    ensures var t := CopyStep(c, s, at); WellTyped(c, t) && Delivery(c, t)
  {
    hide WriteRegions, AdvanceWrite, ChooseFill, Fill, PublishFill, RegionCell,
      Holds, IsSlice, Cell, CopyInside, Handshake;
  }

  lemma CopyRestKeeps(c: Config, s: State, at: CopyPc, ch: Choice)
    requires Inv(c, s) && s.fpc == FCopying(at) && FillerMay(c, s, ch) && CopyMovesNothing(c, s, at)
    ensures Inv(c, CopyStep(c, s, at))
  {
    hide Locks, Handshake, EndOfFile, Accounting, Sleep, Regional, Delivery, CopyStep;
    CopyKeepsLocks(c, s, at, ch);
    CopyKeepsHandshake(c, s, at, ch);
    CopyKeepsEndOfFile(c, s, at, ch);
    CopyKeepsSleep(c, s, at, ch);
    CopyKeepsRegional(c, s, at, ch);
    CopyKeepsDelivery(c, s, at, ch);
  }

  lemma WriteRegionsKeep(c: Config, s: State)
    requires Inv(c, s) && s.fpc == FCopying(FWSome) && CopyInside(c, s, FWSome)
    ensures Inv(c, ChooseFill(s, WriteRegions(c.size, s.roff, s.woff, c.step - s.written)))
  {
    hide Locks, Handshake, EndOfFile, Regional, Delivery;
    WriteRegionsExact(c.size, s.roff, s.woff, c.step - s.written);
    ChooseFillKeeps(c, s, WriteRegions(c.size, s.roff, s.woff, c.step - s.written));
  }

  /** What `Inv` says about a byte about to be placed. */
  lemma FillCellIsNext(c: Config, s: State)
    requires Inv(c, s) && s.fpc == FCopying(FCopy) && s.fi < s.fn1 + s.fn2
    ensures WellTyped(c, s) && Length(c.size, s.roff, s.woff) + s.fi + 1 < c.size
    ensures FillCell(s) == Cell(c.size, s.roff, Length(c.size, s.roff, s.woff) + s.fi)
    ensures s.cur == s.base + Length(c.size, s.roff, s.woff) + s.fi
    ensures Holds(c, s.data, s.roff, s.base, Length(c.size, s.roff, s.woff) + s.fi)
  {
    hide Handshake, EndOfFile, Sleep, Holds, IsSlice;
  }

  lemma FillByteKeeps(c: Config, s: State)
    requires Inv(c, s) && s.fpc == FCopying(FCopy) && CopyInside(c, s, FCopy)
    requires s.fi < s.fn1 + s.fn2 && s.cur < |c.content|
    ensures Inv(c, Fill(s, s.data[FillCell(s) := c.content[s.cur]]))
  {
    hide Inv, Holds;
    FillCellIsNext(c, s);
    HoldsMore(c, s.data, s.roff, s.base, Length(c.size, s.roff, s.woff) + s.fi);
    FillKeeps(c, s, s.data[FillCell(s) := c.content[s.cur]]);
  }

  lemma AdvanceWriteKeeps(c: Config, s: State)
    requires Inv(c, s) && s.fpc == FCopying(FPStore) && CopyInside(c, s, FPStore)
    ensures Inv(c, PublishFill(s, AdvanceWrite(c.size, s.woff, s.fi)))
  {
    hide Handshake, EndOfFile, Sleep, Locks, Holds, IsSlice;
    LengthAfterWrite(c.size, s.roff, s.woff, s.fi);
    PublishFillKeeps(c, s, AdvanceWrite(c.size, s.woff, s.fi));
  }

  lemma CopyKeeps(c: Config, s: State, at: CopyPc, ch: Choice)
    requires Inv(c, s) && s.fpc == FCopying(at) && FillerMay(c, s, ch)
    ensures Inv(c, CopyStep(c, s, at))
  {
    hide Inv, WriteRegions, AdvanceWrite, RegionCell;
    if at.FWSome? {
      WriteRegionsKeep(c, s);
    } else if at.FPStore? {
      AdvanceWriteKeeps(c, s);
    } else if CopyMovesNothing(c, s, at) {
      CopyRestKeeps(c, s, at, ch);
    } else {
      FillByteKeeps(c, s);
    }
  }

  lemma FillerKeeps(c: Config, s: State, ch: Choice)
    requires Inv(c, s) && FillerMay(c, s, ch)
    ensures Inv(c, FillerStep(c, s, ch))
  {
    hide Inv, StartStep, TopStep, ServeStep, WriteStep, CopyStep, EndStep;
    match s.fpc
    case FStarting(at) => StartKeeps(c, s, at, ch);
    case FTop(at) => TopKeeps(c, s, at, ch);
    case FServing(at) => ServeKeeps(c, s, at, ch);
    case FWriting(at) => WriteKeeps(c, s, at, ch);
    case FCopying(at) => CopyKeeps(c, s, at, ch);
    case FEnding(at) => EndKeeps(c, s, at, ch);
  }
}
