/** What the end of the content and a failed seek leave behind: facts that every step keeps, given `Inv`. */
module PrefetchEnds {
  import opened RingGeometry
  import opened PrefetchModel
  import opened PrefetchInvariant

  /** The inner stream can only come up short where there is room for a byte: the ring keeps a cell to spare. */
  predicate ShortLeavesRoom(c: Config, s: State) {
    && WellTyped(c, s)
    && (s.short.On? ==> Length(c.size, s.roff, s.woff) + s.fi <= c.size - 2)
    && (Moving(s) ==> s.short.Off?)
  }

  /** A read begun under the end-of-file mark was begun with the writing side closed. */
  predicate MarkIsSealed(s: State) {
    Reading(s.cpc) && s.eof.On? ==> s.sealed.On?
  }

  /** The filler fetches nothing while reading stays closed. */
  predicate Halted(p: FillerPc) {
    p.FTop? || p.FServing? || p.FEnding? || p.FDone? || (p.FWriting? && (p.write.FWEntry? || p.write.FWDone?))
  }

  /**
   Reading is closed only for the destruction, for a request outstanding, or because the last seek failed; with no
   request the filler has then halted; and it exits for no other reason.
   */
  predicate ClosedForReason(s: State) {
    && (s.rdone.On? ==> Dying(s.cpc) || s.req.On? || s.seekOk.Off?)
    && (s.rdone.On? && s.started.Off? ==> Dying(s.cpc))
    && (s.rdone.On? && s.req.Off? ==> Dying(s.cpc) || Halted(s.fpc))
    && (s.fpc == FDone ==> Dying(s.cpc) || s.seekOk.Off?)
  }

  /** With reading closed, a read about to give up, or that has come short, has emptied the ring. */
  predicate ClosedIsDrained(s: State) {
    s.rdone.On? && (s.cpc == CReading(CROuterW) || (s.cpc == CReading(CRFinish) && |s.cout| < s.clen)) ==>
      s.roff == s.woff
  }

  predicate InCall(p: FillerPc) { InWrite(p) || p == FWriting(FWDone) }

  /** A write that has fetched anything is not past the content. */
  predicate FetchesContent(c: Config, s: State) {
    InCall(s.fpc) ==> s.cur == s.entry || s.cur <= |c.content|
  }

  predicate Ends(c: Config, s: State) {
    ShortLeavesRoom(c, s) && MarkIsSealed(s) && ClosedForReason(s) && ClosedIsDrained(s) && FetchesContent(c, s)
  }

  lemma InitEnds(c: Config, s: State)
    requires Init(c, s)
    ensures Ends(c, s)
  {
  }

  // ----- the filler -------------------------------------------------------------------------------------

  /** A step of the filler that touches none of what `Ends` speaks of. */
  predicate FillerLeaves(s: State, t: State) {
    && t.data == s.data && t.roff == s.roff && t.woff == s.woff && t.fi == s.fi && t.short == s.short
    && t.cpc == s.cpc && t.clen == s.clen && t.cout == s.cout && t.eof == s.eof && t.sealed == s.sealed
    && t.rdone == s.rdone && t.req == s.req
    && t.seekOk == s.seekOk && (t.started == s.started || t.started.On?) && (Moving(t) ==> Moving(s))
    && (s.rdone.On? && Halted(s.fpc) ==> Halted(t.fpc))
    && (t.fpc == FDone ==> s.fpc == FTop(FTestQ) && s.req.Off?)
    && t.cur == s.cur && (InCall(t.fpc) ==> t.entry == t.cur || (InCall(s.fpc) && t.entry == s.entry))
  }

  lemma LeftEnds(c: Config, s: State, t: State)
    requires Ends(c, s) && Handshake(s) && FillerLeaves(s, t)
    ensures Ends(c, t)
  {
    hide Length;
  }

  lemma CopyKeepsRoom(c: Config, s: State, at: CopyPc)
    requires ShortLeavesRoom(c, s) && EndOfFile(c, s) && Accounting(c, s) && Regional(c, s)
    requires s.fpc == FCopying(at) && CopyInside(c, s, at)
    ensures ShortLeavesRoom(c, CopyStep(c, s, at))
  {
    hide WriteRegions, RegionCell, AdvanceWrite;
    if at.FPStore? {
      LengthAfterWrite(c.size, s.roff, s.woff, s.fi);
    }
  }

  lemma CopyKeepsMarks(c: Config, s: State, at: CopyPc)
    requires MarkIsSealed(s) && ClosedForReason(s) && FetchesContent(c, s)
    requires s.fpc == FCopying(at) && CopyInside(c, s, at)
    ensures var t := CopyStep(c, s, at); MarkIsSealed(t) && ClosedForReason(t) && FetchesContent(c, t)
  {
    hide WriteRegions, AdvanceWrite, RegionCell;
  }

  lemma CopyKeepsDrained(c: Config, s: State, at: CopyPc)
    requires Handshake(s) && ClosedForReason(s) && s.fpc == FCopying(at) && CopyInside(c, s, at)
    ensures ClosedIsDrained(CopyStep(c, s, at))
  {
    hide WriteRegions, AdvanceWrite, RegionCell;
    assert Reading(s.cpc) ==> s.req.Off? && s.rdone.Off?;
    hide Handshake;
  }

  lemma ServeKeepsEnds(c: Config, s: State, at: ServePc, ch: Choice)
    requires Ends(c, s) && Handshake(s) && s.fpc == FServing(at) && FillerMay(c, s, ch)
    ensures Ends(c, ServeStep(s, at, ch))
  {
    hide Length, MayWake;
  }

  lemma WriteLeavesEnds(c: Config, s: State, at: WritePc)
    requires s.fpc == FWriting(at)
    ensures FillerLeaves(s, WriteStep(c, s, at))
  {
    hide Full;
  }

  lemma EndLeavesEnds(s: State, at: EndPc)
    requires s.fpc == FEnding(at)
    ensures FillerLeaves(s, EndStep(s, at))
  {
  }

  lemma StartLeavesEnds(s: State, at: StartPc)
    requires s.fpc == FStarting(at)
    ensures FillerLeaves(s, StartStep(s, at))
  {
  }

  lemma TopLeavesEnds(s: State, at: TopPc)
    requires s.fpc == FTop(at)
    ensures FillerLeaves(s, TopStep(s, at))
  {
  }

  lemma FillerKeepsEnds(c: Config, s: State, ch: Choice)
    requires Inv(c, s) && Ends(c, s) && FillerMay(c, s, ch)
    ensures Ends(c, FillerStep(c, s, ch))
  {
    hide Locks, Handshake, EndOfFile, Accounting, Sleep, Regional, Delivery, ShortLeavesRoom, MarkIsSealed,
      ClosedForReason, ClosedIsDrained, FetchesContent, FillerLeaves, CopyInside, MayWake,
      StartStep, TopStep, ServeStep, WriteStep, CopyStep, EndStep;
    if s.fpc.FCopying? {
      CopyKeepsRoom(c, s, s.fpc.copy);
      CopyKeepsMarks(c, s, s.fpc.copy);
      CopyKeepsDrained(c, s, s.fpc.copy);
    } else if s.fpc.FServing? {
      ServeKeepsEnds(c, s, s.fpc.serve, ch);
    } else {
      if s.fpc.FStarting? {
        StartLeavesEnds(s, s.fpc.start);
      } else if s.fpc.FTop? {
        TopLeavesEnds(s, s.fpc.top);
      } else if s.fpc.FWriting? {
        WriteLeavesEnds(c, s, s.fpc.write);
      } else if s.fpc.FEnding? {
        EndLeavesEnds(s, s.fpc.end);
      }
      LeftEnds(c, s, FillerStep(c, s, ch));
    }
  }

  // ----- the consumer -----------------------------------------------------------------------------------

  lemma DrainKeepsEnds(c: Config, s: State, at: DrainPc)
    requires Ends(c, s) && Regional(c, s) && s.cpc == CDraining(at) && DrainInside(c, s, at)
    ensures Ends(c, DrainStep(c, s, at))
  {
    hide ReadRegions, RegionCell, Length;
    if at.CRPStore? {
      LengthAfterRead(c.size, s.roff, s.woff, s.cn1 + s.cn2, s.cnext);
    }
  }

  lemma SeekKeepsEnds(c: Config, s: State, at: SeekPc, ch: Choice)
    requires Ends(c, s) && Handshake(s) && s.cpc == CSeeking(at) && ConsumerMay(c, s, ch)
    ensures Ends(c, SeekStep(s, at, ch))
  {
    hide Length;
  }

  lemma ReadKeepsEnds(c: Config, s: State, at: ReadPc, ch: Choice)
    requires Ends(c, s) && s.cpc == CReading(at) && ConsumerMay(c, s, ch)
    ensures Ends(c, ReadStep(s, at))
  {
    hide Length;
  }

  lemma CloseKeepsEnds(c: Config, s: State, at: ClosePc, who: Closer, ch: Choice)
    requires Ends(c, s) && Handshake(s) && s.cpc == CClosing(at, who) && ConsumerMay(c, s, ch)
    ensures Ends(c, CloseStep(s, at, who))
  {
    hide Length;
  }

  lemma WaitKeepsEnds(c: Config, s: State, at: WaitPc, ch: Choice)
    requires Ends(c, s) && Handshake(s) && s.cpc == CWaiting(at) && ConsumerMay(c, s, ch)
    ensures Ends(c, WaitStep(s, at, ch))
  {
    hide Length, MayWake;
  }

  lemma DestroyKeepsEnds(c: Config, s: State, at: DestroyPc, ch: Choice)
    requires Ends(c, s) && s.cpc == CDestroying(at) && ConsumerMay(c, s, ch)
    ensures Ends(c, DestroyStep(s, at, ch))
  {
    hide Length, MayWake;
  }

  lemma ConsumerKeepsEnds(c: Config, s: State, ch: Choice)
    requires Inv(c, s) && Ends(c, s) && ConsumerMay(c, s, ch)
    ensures Ends(c, ConsumerStep(c, s, ch))
  {
    hide Locks, Handshake, EndOfFile, Accounting, Sleep, Regional, Delivery, Ends, DrainInside, MayWake,
      ReadStep, DrainStep, SeekStep, CloseStep, WaitStep, DestroyStep;
    match s.cpc
    case CReading(at) => ReadKeepsEnds(c, s, at, ch);
    case CDraining(at) => DrainKeepsEnds(c, s, at);
    case CSeeking(at) => SeekKeepsEnds(c, s, at, ch);
    case CClosing(at, who) => CloseKeepsEnds(c, s, at, who, ch);
    case CWaiting(at) => WaitKeepsEnds(c, s, at, ch);
    case CDestroying(at) => DestroyKeepsEnds(c, s, at, ch);
  }

  lemma BeginKeepsEnds(c: Config, s: State, call: Call)
    requires Inv(c, s) && Ends(c, s) && MayCall(s, call)
    ensures Ends(c, Begin(s, call))
  {
    hide Locks, Accounting, Sleep, Regional, Delivery, Length;
  }
}
