/**
 The buffered stream as two threads over shared memory: the filler (`fill_buffer` with the writing half of the
 ring) and the consumer (`sl_buffer_read_cb`, `sl_buffer_seek_cb`, `sl_buffer_destroy` with the reading half).

 A program counter names the statement about to run. A step makes at most one access to memory the other thread
 may be writing at the same time; variables guarded by a mutex the thread holds are read together. Bytes are
 copied one a step, and an offset is published in a step of its own, after the copy.
 */
module PrefetchModel {
  import opened RingGeometry

  /** The content behind the inner stream, the allocated ring size and the filler's step size. */
  datatype Config = Config(content: seq<Byte>, size: nat, step: nat) {
    predicate Valid() {
      size >= 2 && step >= 1
    }
  }

  /** The C flags: zero or not. */
  datatype Flag = Off | On

  datatype Owner = Free | Filler | Consumer

  /** Setting `filler_started` under seek_lock. */
  datatype StartPc = FStart | FStartSet | FStartUnlock
  /** The loop test of `fill_buffer`, load by load, and the test for a request. */
  datatype TopPc = FTestR | FTestQ | FIf
  /** Serving a request, with `circbuf_reset` store by store. */
  datatype ServePc = FSeek | FSLock | FReset0 | FReset1 | FReset2 | FReset3 | FClear | FSSignal | FSUnlock
  /** `circbuf_write2`. */
  datatype WritePc =
    | FWEntry | FWLoop | FWLock | FWTest | FWCondWait | FWAsleep | FWRelock | FWUnlock | FWCheck | FWDone
  /** `circbuf_write_some2`. */
  datatype CopyPc = FWSome | FCopy | FPLock | FPStore | FPSignal | FPUnlock
  /** `circbuf_close_write`, and the wait until reading is closed. */
  datatype EndPc =
    | FELock | FKTest | FKLock | FKStore | FKSignal | FKUnlock | FETest | FECondWait | FEAsleep | FERelock | FEUnlock

  datatype FillerPc =
    | FAbsent                                                   // no thread created yet
    | FStarting(start: StartPc) | FTop(top: TopPc) | FServing(serve: ServePc) | FWriting(write: WritePc)
    | FCopying(copy: CopyPc) | FEnding(end: EndPc)
    | FDone

  /** `circbuf_read`, and the end of `sl_buffer_read_cb`. */
  datatype ReadPc =
    | CROuter | CROuterW | CRLock | CRTest | CRCondWait | CRAsleep | CRRelock | CRUnlock | CRFinish
  /** `circbuf_read_some`. */
  datatype DrainPc = CRSome | CRCopy | CRPLock | CRPStore | CRPSignal | CRPUnlock
  /** `sl_buffer_seek_cb` up to the request. */
  datatype SeekPc = CSParam | CSLock | CSStarted | CSDirect | CSReq
  /** `circbuf_close_read`, called with seek_lock held. */
  datatype ClosePc = CKTest | CKLock | CKStore | CKSignal | CKUnlock
  datatype Closer = BySeek | ByDestroy
  /** `sl_buffer_seek_cb` from the signal to the filler on. */
  datatype WaitPc = CSSignal | CSTest | CSCondWait | CSAsleep | CSRelock | CSUnlock | CSFinish
  /** `sl_buffer_destroy`. */
  datatype DestroyPc = CDLock | CDSignal | CDUnlock | CDJoin | CDFreeRing | CDFreeLock

  datatype ConsumerPc =
    | CIdle
    | CReading(read: ReadPc) | CDraining(drain: DrainPc)
    | CSeeking(seek: SeekPc) | CClosing(close: ClosePc, closer: Closer) | CWaiting(wait: WaitPc)
    | CDestroying(destroy: DestroyPc)
    | CDead

  datatype State = State(
    // the ring
    data: seq<Byte>, roff: nat, woff: nat, rdone: Flag, wdone: Flag, rlock: Owner, wlock: Owner,
    // sl_buffer_t
    slock: Owner, started: Flag, pos: nat, eof: Flag, req: Flag, seekOff: int, seekOk: Flag,
    // the inner stream's cursor
    cur: nat,
    // history: stream offset of the byte at roff; the inner stream came up short since its last successful seek;
    // a seek served by the filler has failed; cursor when the running circbuf_write2 began; writing was closed
    // when the running read began
    base: nat, short: Flag, failed: Flag, entry: nat, sealed: Flag,
    // filler: program counter, wake-up delivered, regions and bytes placed by this partial write, result so far
    fpc: FillerPc, fsig: Flag, fn1: nat, fn2: nat, fi: nat, written: nat, feof: Flag,
    // consumer: program counter, wake-up delivered, arguments, bytes delivered, regions and bytes copied by this
    // partial read and the offset it will publish
    cpc: ConsumerPc, csig: Flag, clen: nat, coff: int, cout: seq<Byte>,
    cn1: nat, cn2: nat, cnext: nat, cpart: seq<Byte>)

  /** A stream just created over an inner stream at its beginning; the ring's memory holds anything. */
  predicate Init(c: Config, s: State) {
    && c.Valid() && |s.data| == c.size
    && s == State(s.data, 0, 0, Off, Off, Free, Free, Free, Off, 0, Off, Off, 0, Off, 0, 0, Off, Off, 0, Off,
                  FAbsent, Off, 0, 0, 0, 0, Off, CIdle, Off, 0, 0, [], 0, 0, 0, [])
  }

  /** What indexing the ring takes. */
  predicate WellTyped(c: Config, s: State) {
    && c.Valid() && |s.data| == c.size && Offsets(c.size, s.roff, s.woff)
  }

  /** What the program itself does not decide: whether an inner seek succeeds and whom a signal wakes. */
  datatype Choice = Choice(ok: bool, wakeFiller: bool, wakeConsumer: bool)

  /**
   A legal outcome of `pthread_cond_signal` on the condition both threads may wait on: threads already woken are
   not waiting any more, and at least one of those still waiting, if any, is woken.
   */
  predicate MayWake(s: State, ch: Choice) {
    var f := s.fpc == FEnding(FEAsleep) && s.fsig.Off?;
    var k := s.cpc == CWaiting(CSAsleep) && s.csig.Off?;
    (ch.wakeFiller ==> f) && (ch.wakeConsumer ==> k) && (f || k ==> ch.wakeFiller || ch.wakeConsumer)
  }

  function Raise(f: Flag, b: bool): Flag { if b then On else f }

  /** `rcond` has one possible waiter, the filler; `wcond` has one, the consumer. */
  function SignalRcond(s: State): Flag { Raise(s.fsig, s.fpc == FWriting(FWAsleep)) }
  function SignalWcond(s: State): Flag { Raise(s.csig, s.cpc == CReading(CRAsleep)) }

  // ----- the filler -------------------------------------------------------------------------------------

  function StartStep(s: State, at: StartPc): State {
    match at
    case FStart => s.(slock := Filler, fpc := FStarting(FStartSet))
    case FStartSet => s.(started := On, fpc := FStarting(FStartUnlock))
    case FStartUnlock => s.(slock := Free, fpc := FTop(FTestR))
  }

  function TopStep(s: State, at: TopPc): State {
    match at
    case FTestR => s.(fpc := FTop(if s.rdone.On? then FTestQ else FIf))
    case FTestQ => s.(fpc := if s.req.On? then FTop(FIf) else FDone)
    case FIf => s.(fpc := if s.req.On? then FServing(FSeek) else FWriting(FWEntry))
  }

  function ServeStep(s: State, at: ServePc, ch: Choice): State
    requires (at.FSeek? && ch.ok) || at.FReset3? ==> s.seekOff >= 0
  {
    match at
    case FSeek =>
      if ch.ok then s.(cur := s.seekOff, seekOk := On, short := Off, fpc := FServing(FSLock))
      else s.(seekOk := Off, failed := On, fpc := FServing(FSLock))
    case FSLock => s.(slock := Filler, fpc := FServing(if s.seekOk.On? then FReset0 else FClear))
    case FReset0 => s.(rdone := Off, fpc := FServing(FReset1))
    case FReset1 => s.(wdone := Off, fpc := FServing(FReset2))
    case FReset2 => s.(woff := 0, fpc := FServing(FReset3))
    case FReset3 => s.(roff := 0, base := s.seekOff, fpc := FServing(FClear))
    case FClear => s.(req := Off, fpc := FServing(FSSignal))
    case FSSignal =>
      s.(fsig := Raise(s.fsig, ch.wakeFiller), csig := Raise(s.csig, ch.wakeConsumer), fpc := FServing(FSUnlock))
    case FSUnlock => s.(slock := Free, fpc := FWriting(FWEntry))
  }

  function WriteStep(c: Config, s: State, at: WritePc): State {
    match at
    case FWEntry =>
      s.(written := 0, feof := Off, entry := s.cur, fpc := FWriting(if s.rdone.On? then FWDone else FWLoop))
    case FWLoop => s.(fpc := FWriting(if s.written < c.step && s.rdone.Off? && s.feof.Off? then FWLock else FWDone))
    case FWLock => s.(rlock := Filler, fpc := FWriting(FWTest))
    case FWTest =>
      s.(fpc := FWriting(if Full(c.size, s.roff, s.woff) && s.rdone.Off? then FWCondWait else FWUnlock))
    case FWCondWait => s.(rlock := Free, fsig := Off, fpc := FWriting(FWAsleep))
    case FWAsleep => s.(fpc := FWriting(FWRelock))
    case FWRelock => s.(rlock := Filler, fpc := FWriting(FWTest))
    case FWUnlock => s.(rlock := Free, fpc := FWriting(FWCheck))
    case FWCheck => s.(fpc := if s.rdone.On? then FWriting(FWLoop) else FCopying(FWSome))
    case FWDone => s.(fpc := if s.written < c.step then FEnding(FELock) else FTop(FTestR))
  }

  /** Cell for the next byte the writer callback delivers. */
  function FillCell(s: State): nat { RegionCell(s.woff, s.fn1, s.fi) }

  predicate CopyInside(c: Config, s: State, at: CopyPc) {
    && WellTyped(c, s)
    && (at.FWSome? ==> s.written <= c.step)
    && (at.FCopy? && s.fi < s.fn1 + s.fn2 ==> FillCell(s) < c.size)
    && (at.FPStore? ==> s.fi <= c.size)
  }

  function ChooseFill(s: State, r: Regions): State { s.(fn1 := r.first, fn2 := r.second, fpc := FCopying(FCopy)) }
  function Fill(s: State, data: seq<Byte>): State { s.(data := data, cur := s.cur + 1, fi := s.fi + 1) }
  function PublishFill(s: State, to: nat): State {
    s.(woff := to, written := s.written + s.fi, fi := 0, fn1 := 0, fn2 := 0, fpc := FCopying(FPSignal))
  }

  function CopyStep(c: Config, s: State, at: CopyPc): State
    requires CopyInside(c, s, at)
  {
    match at
    case FWSome => ChooseFill(s, WriteRegions(c.size, s.roff, s.woff, c.step - s.written))
    case FCopy =>
      if s.fi >= s.fn1 + s.fn2 then s.(fpc := FCopying(FPLock))
      else if s.cur >= |c.content| then s.(feof := On, short := On, fpc := FCopying(FPLock))
      else Fill(s, s.data[FillCell(s) := c.content[s.cur]])
    case FPLock => s.(wlock := Filler, fpc := FCopying(FPStore))
    case FPStore => PublishFill(s, AdvanceWrite(c.size, s.woff, s.fi))
    case FPSignal => s.(csig := SignalWcond(s), fpc := FCopying(FPUnlock))
    case FPUnlock => s.(wlock := Free, fpc := FWriting(FWLoop))
  }

  function EndStep(s: State, at: EndPc): State {
    match at
    case FELock => s.(slock := Filler, fpc := FEnding(FKTest))
    case FKTest => s.(fpc := FEnding(if s.wdone.On? then FETest else FKLock))
    case FKLock => s.(wlock := Filler, fpc := FEnding(FKStore))
    case FKStore => s.(wdone := On, fpc := FEnding(FKSignal))
    case FKSignal => s.(csig := SignalWcond(s), fpc := FEnding(FKUnlock))
    case FKUnlock => s.(wlock := Free, fpc := FEnding(FETest))
    case FETest => s.(fpc := FEnding(if s.rdone.On? then FEUnlock else FECondWait))
    case FECondWait => s.(slock := Free, fsig := Off, fpc := FEnding(FEAsleep))
    case FEAsleep => s.(fpc := FEnding(FERelock))
    case FERelock => s.(slock := Filler, fpc := FEnding(FETest))
    case FEUnlock => s.(slock := Free, fpc := FTop(FTestR))
  }

  /**
   The filler's next statement can run: the mutex it takes is free, an inner seek to a negative offset does not
   succeed, a signal wakes whom it must, and memory is touched only inside the ring. A thread asleep on a
   condition can always run, since POSIX allows spurious wake-ups.
   */
  predicate FillerMay(c: Config, s: State, ch: Choice) {
    match s.fpc
    case FAbsent => false
    case FStarting(at) => at.FStart? ==> s.slock.Free?
    case FTop(at) => true
    case FServing(at) =>
      && (at.FSLock? ==> s.slock.Free?)
      && ((at.FSeek? && ch.ok) || at.FReset3? ==> s.seekOff >= 0)
      && (at.FSSignal? ==> MayWake(s, ch))
    case FWriting(at) => at.FWLock? || at.FWRelock? ==> s.rlock.Free?
    case FCopying(at) => (at.FPLock? ==> s.wlock.Free?) && CopyInside(c, s, at)
    case FEnding(at) => (at.FELock? || at.FERelock? ==> s.slock.Free?) && (at.FKLock? ==> s.wlock.Free?)
    case FDone => false
  }

  function FillerStep(c: Config, s: State, ch: Choice): State
    requires FillerMay(c, s, ch)
  {
    match s.fpc
    case FStarting(at) => StartStep(s, at)
    case FTop(at) => TopStep(s, at)
    case FServing(at) => ServeStep(s, at, ch)
    case FWriting(at) => WriteStep(c, s, at)
    case FCopying(at) => CopyStep(c, s, at)
    case FEnding(at) => EndStep(s, at)
  }

  // ----- the consumer -----------------------------------------------------------------------------------

  function ReadStep(s: State, at: ReadPc): State {
    match at
    case CROuter =>
      s.(cpc := CReading(if |s.cout| >= s.clen then CRFinish else if s.roff != s.woff then CRLock else CROuterW))
    case CROuterW => s.(cpc := CReading(if s.wdone.On? then CRFinish else CRLock))
    case CRLock => s.(wlock := Consumer, cpc := CReading(CRTest))
    case CRTest => s.(cpc := CReading(if s.roff == s.woff && s.wdone.Off? then CRCondWait else CRUnlock))
    case CRCondWait => s.(wlock := Free, csig := Off, cpc := CReading(CRAsleep))
    case CRAsleep => s.(cpc := CReading(CRRelock))
    case CRRelock => s.(wlock := Consumer, cpc := CReading(CRTest))
    case CRUnlock => s.(wlock := Free, cpc := CDraining(CRSome))
    case CRFinish => s.(eof := Raise(s.eof, |s.cout| < s.clen), pos := s.pos + |s.cout|, cout := [], cpc := CIdle)
  }

  /** Cell of the next byte a partial read copies out. */
  function DrainCell(s: State): nat { RegionCell(s.roff, s.cn1, |s.cpart|) }

  predicate DrainInside(c: Config, s: State, at: DrainPc) {
    && WellTyped(c, s)
    && (at.CRSome? ==> |s.cout| <= s.clen)
    && (at.CRCopy? && |s.cpart| < s.cn1 + s.cn2 ==> DrainCell(s) < c.size)
  }

  function ChooseDrain(s: State, r: Regions): State {
    s.(cn1 := r.first, cn2 := r.second, cnext := r.next, cpc := CDraining(CRCopy))
  }
  function Drain(s: State, b: Byte): State { s.(cpart := s.cpart + [b]) }
  function PublishDrain(s: State): State {
    s.(roff := s.cnext, base := s.base + |s.cpart|, cout := s.cout + s.cpart, cn1 := 0, cn2 := 0, cpart := [],
       cpc := CDraining(CRPSignal))
  }

  function DrainStep(c: Config, s: State, at: DrainPc): State
    requires DrainInside(c, s, at)
  {
    match at
    case CRSome => ChooseDrain(s, ReadRegions(c.size, s.roff, s.woff, s.clen - |s.cout|))
    case CRCopy =>
      if |s.cpart| < s.cn1 + s.cn2 then Drain(s, s.data[DrainCell(s)]) else s.(cpc := CDraining(CRPLock))
    case CRPLock => s.(rlock := Consumer, cpc := CDraining(CRPStore))
    case CRPStore => PublishDrain(s)
    case CRPSignal => s.(fsig := SignalRcond(s), cpc := CDraining(CRPUnlock))
    case CRPUnlock => s.(rlock := Free, cpc := CReading(CROuter))
  }

  function SeekStep(s: State, at: SeekPc, ch: Choice): State
    requires at.CSDirect? && ch.ok ==> s.seekOff >= 0
  {
    match at
    case CSParam => s.(seekOff := s.coff, cpc := CSeeking(CSLock))
    case CSLock => s.(slock := Consumer, cpc := CSeeking(CSStarted))
    case CSStarted => s.(cpc := CSeeking(if s.started.On? then CSReq else CSDirect))
    case CSDirect =>
      if ch.ok then s.(cur := s.seekOff, base := s.seekOff, seekOk := On, short := Off, cpc := CWaiting(CSUnlock))
      else s.(seekOk := Off, cpc := CWaiting(CSUnlock))
    case CSReq => s.(req := On, cpc := CClosing(CKTest, BySeek))
  }

  function AfterClose(closer: Closer): ConsumerPc {
    if closer.BySeek? then CWaiting(CSSignal) else CDestroying(CDSignal)
  }

  function CloseStep(s: State, at: ClosePc, who: Closer): State {
    match at
    case CKTest => s.(cpc := if s.rdone.Off? then CClosing(CKLock, who) else AfterClose(who))
    case CKLock => s.(rlock := Consumer, cpc := CClosing(CKStore, who))
    case CKStore => s.(rdone := On, cpc := CClosing(CKSignal, who))
    case CKSignal => s.(fsig := SignalRcond(s), cpc := CClosing(CKUnlock, who))
    case CKUnlock => s.(rlock := Free, cpc := AfterClose(who))
  }

  function WaitStep(s: State, at: WaitPc, ch: Choice): State
    requires at.CSFinish? && s.seekOk.On? ==> s.coff >= 0
  {
    match at
    case CSSignal =>
      s.(fsig := Raise(s.fsig, ch.wakeFiller), csig := Raise(s.csig, ch.wakeConsumer), cpc := CWaiting(CSTest))
    case CSTest => s.(cpc := CWaiting(if s.req.On? then CSCondWait else CSUnlock))
    case CSCondWait => s.(slock := Free, csig := Off, cpc := CWaiting(CSAsleep))
    case CSAsleep => s.(cpc := CWaiting(CSRelock))
    case CSRelock => s.(slock := Consumer, cpc := CWaiting(CSTest))
    case CSUnlock => s.(slock := Free, cpc := CWaiting(CSFinish))
    case CSFinish => if s.seekOk.On? then s.(pos := s.coff, eof := Off, cpc := CIdle) else s.(cpc := CIdle)
  }

  function DestroyStep(s: State, at: DestroyPc, ch: Choice): State {
    match at
    case CDLock => s.(slock := Consumer, cpc := CClosing(CKTest, ByDestroy))
    case CDSignal =>
      s.(fsig := Raise(s.fsig, ch.wakeFiller), csig := Raise(s.csig, ch.wakeConsumer), cpc := CDestroying(CDUnlock))
    case CDUnlock => s.(slock := Free, cpc := CDestroying(CDJoin))
    case CDJoin => s.(cpc := CDestroying(CDFreeRing))
    case CDFreeRing => s.(cpc := CDestroying(CDFreeLock))
    case CDFreeLock => s.(cpc := CDead)
  }

  /** As `FillerMay`; joining waits for the filler's exit. */
  predicate ConsumerMay(c: Config, s: State, ch: Choice) {
    match s.cpc
    case CIdle => false
    case CReading(at) => at.CRLock? || at.CRRelock? ==> s.wlock.Free?
    case CDraining(at) => (at.CRPLock? ==> s.rlock.Free?) && DrainInside(c, s, at)
    case CSeeking(at) => (at.CSLock? ==> s.slock.Free?) && (at.CSDirect? && ch.ok ==> s.seekOff >= 0)
    case CClosing(at, who) => at.CKLock? ==> s.rlock.Free?
    case CWaiting(at) =>
      && (at.CSRelock? ==> s.slock.Free?)
      && (at.CSFinish? && s.seekOk.On? ==> s.coff >= 0)
      && (at.CSSignal? ==> MayWake(s, ch))
    case CDestroying(at) =>
      && (at.CDLock? ==> s.slock.Free?)
      && (at.CDSignal? ==> MayWake(s, ch))
      && (at.CDJoin? ==> s.fpc.FDone?)
    case CDead => false
  }

  function ConsumerStep(c: Config, s: State, ch: Choice): State
    requires ConsumerMay(c, s, ch)
  {
    match s.cpc
    case CReading(at) => ReadStep(s, at)
    case CDraining(at) => DrainStep(c, s, at)
    case CSeeking(at) => SeekStep(s, at, ch)
    case CClosing(at, who) => CloseStep(s, at, who)
    case CWaiting(at) => WaitStep(s, at, ch)
    case CDestroying(at) => DestroyStep(s, at, ch)
  }

  /** What the client asks for next. */
  datatype Call = Create | Read(len: nat) | Seek(off: int) | Destroy

  /** One call at a time, and the thread is created once. */
  predicate MayCall(s: State, call: Call) {
    s.cpc.CIdle? && (call.Create? ==> s.fpc.FAbsent?)
  }

  function Begin(s: State, call: Call): State {
    match call
    case Create => s.(fpc := FStarting(FStart))
    case Read(len) => s.(clen := len, sealed := s.wdone, cpc := CReading(CROuter))
    case Seek(off) => s.(coff := off, cpc := CSeeking(CSParam))
    case Destroy => s.(cpc := CDestroying(if s.fpc.FAbsent? then CDFreeRing else CDLock))
  }

  // ----- runs -------------------------------------------------------------------------------------------

  datatype Step = ByFiller(ch: Choice) | ByConsumer(ch: Choice) | ByClient(call: Call)

  predicate May(c: Config, s: State, step: Step) {
    match step
    case ByFiller(ch) => FillerMay(c, s, ch)
    case ByConsumer(ch) => ConsumerMay(c, s, ch)
    case ByClient(call) => MayCall(s, call)
  }

  function Do(c: Config, s: State, step: Step): State
    requires May(c, s, step)
  {
    match step
    case ByFiller(ch) => FillerStep(c, s, ch)
    case ByConsumer(ch) => ConsumerStep(c, s, ch)
    case ByClient(call) => Begin(s, call)
  }
}
