/**
 Every read returns. A read under way has a potential that each step of either thread lowers, spurious wake-ups
 aside: bytes still with the inner stream pay for passes of the filler and for the wake-ups it sends, bytes still
 to deliver pay for passes of the consumer and for its wake-ups, and the program counters do the rest.
 */
module PrefetchTermination {
  import opened RingGeometry
  import opened PrefetchModel
  import opened PrefetchInvariant
  import opened PrefetchRuns
  import opened PrefetchProgress

  /** Not a spurious wake-up. */
  predicate Genuine(s: State, step: Step) {
    match step
    case ByFiller(_) => !FillerSleeps(s)
    case ByConsumer(_) => !ConsumerSleeps(s)
    case ByClient(_) => true
  }

  // ----- the potential ----------------------------------------------------------------------------------

  function StartWork(at: StartPc): nat { match at case FStart => 67 case FStartSet => 66 case FStartUnlock => 65 }

  function TopWork(at: TopPc): nat { match at case FTestQ => 70 case FTestR => 64 case FIf => 63 }

  function ServeWork(at: ServePc): nat { match at case FSSignal => 64 case FSUnlock => 63 case _ => 0 }

  function WriteWork(at: WritePc, fsig: Flag, feof: Flag, more: bool): nat {
    match at
    case FWEntry => 62
    case FWLoop => if feof.On? then 30 else if more then 61 else 66
    case FWAsleep => if fsig.On? then 61 else 0
    case FWLock => 60
    case FWRelock => 60
    case FWTest => 59
    case FWCondWait => 58
    case FWUnlock => 58
    case FWCheck => 57
    case FWDone => if more then 29 else 65
  }

  function CopyWork(at: CopyPc, feof: Flag, i: nat): nat {
    match at
    case FWSome => 56
    case FCopy => if i == 0 then 55 else 91
    case FPLock => if feof.On? then 54 else 90
    case FPStore => if feof.On? then 53 else 89
    case FPSignal => if feof.On? then 52 else 88
    case FPUnlock => if feof.On? then 31 else 67
  }

  function EndWork(at: EndPc, fsig: Flag): nat {
    match at
    case FEUnlock => 65
    case FELock => 28
    case FKTest => 27
    case FKLock => 26
    case FKStore => 25
    case FKSignal => 24
    case FEAsleep => if fsig.On? then 4 else 0
    case FKUnlock => 3
    case FERelock => 3
    case FETest => 2
    case FECondWait => 1
  }

  /** What the filler can still do with the bytes it has, while reading is open. */
  function OpenWork(c: Config, s: State): nat {
    match s.fpc
    case FAbsent => 0
    case FStarting(at) => StartWork(at)
    case FTop(at) => TopWork(at)
    case FServing(at) => ServeWork(at)
    case FWriting(at) => WriteWork(at, s.fsig, s.feof, s.written < c.step)
    case FCopying(at) => CopyWork(at, s.feof, s.fi)
    case FEnding(at) => EndWork(at, s.fsig)
    case FDone => 0
  }

  function FillerWork(c: Config, s: State): nat { if s.rdone.On? then 20 * Rank(c, s) else OpenWork(c, s) }

  /** The writing side is closed and the ring is empty. */
  predicate Ended(s: State) { s.wdone.On? && s.roff == s.woff }

  function ReadWork(s: State): nat {
    match s.cpc
    case CReading(at) => (match at
      case CROuter => if Ended(s) then 2 else 13
      case CROuterW => if Ended(s) then 1 else 12
      case CRLock => 11
      case CRRelock => 11
      case CRTest => 10
      case CRCondWait => 9
      case CRUnlock => 9
      case CRAsleep => if s.csig.On? then 12 else 0
      case CRFinish => 0)
    case CDraining(at) => (match at
      case CRSome => 8
      case CRCopy => if s.cpart == [] then 7 else 162
      case CRPLock => if s.cpart == [] then 6 else 161
      case CRPStore => if s.cpart == [] then 5 else 160
      case CRPSignal => if Ended(s) then 4 else 77
      case CRPUnlock => if Ended(s) then 3 else 14)
    case _ => 0
  }

  function Undelivered(s: State): nat {
    if |s.cout| + |s.cpart| <= s.clen then s.clen - |s.cout| - |s.cpart| else 0
  }

  function Work(c: Config, s: State): nat {
    100 * Remaining(c.content, s.cur) + FillerWork(c, s) + 200 * Undelivered(s)
    + (if s.roff == c.size then 80 else 0) + ReadWork(s)
  }

  // ----- the filler's steps -----------------------------------------------------------------------------

  /** What a step of the filler leaves alone, and the flags it may raise, outside the serving of a request. */
  predicate ConsumerFrame(s: State, t: State) {
    && t.cpc == s.cpc && t.clen == s.clen && t.cout == s.cout && t.cpart == s.cpart && t.roff == s.roff
    && t.rdone == s.rdone
    && (t.wdone == s.wdone || t.wdone.On?) && (t.woff == s.woff || t.wdone.Off?)
    && (|| t.csig == s.csig || (FillerWaking(s.fpc) && s.cpc.CReading?)
        || (s.fpc == FServing(FSSignal) && s.cpc == CWaiting(CSAsleep)))
  }

  /** A wake-up sent to a sleeping reader costs at most 12. */
  lemma FrameWork(s: State, t: State)
    requires ConsumerFrame(s, t) && Reading(s.cpc)
    ensures ReadWork(t) <= ReadWork(s) + if FillerWaking(s.fpc) then 12 else 0
  {
  }

  lemma StartWorkDrops(c: Config, s: State, at: StartPc)
    requires s.fpc == FStarting(at)
    ensures var t := StartStep(s, at); ConsumerFrame(s, t) && t.cur == s.cur && OpenWork(c, t) < OpenWork(c, s)
  {
  }

  lemma TopWorkDrops(c: Config, s: State, at: TopPc)
    requires s.fpc == FTop(at) && (s.req.Off? || !at.FIf?) && (at.FTestQ? ==> s.rdone.On?)
    ensures var t := TopStep(s, at);
            && ConsumerFrame(s, t) && t.cur == s.cur
            && (s.rdone.Off? ==> OpenWork(c, t) < OpenWork(c, s))
  {
  }

  lemma ServeWorkDrops(c: Config, s: State, at: ServePc, ch: Choice)
    requires s.fpc == FServing(at) && FillerMay(c, s, ch) && Served(s.fpc)
    ensures var t := ServeStep(s, at, ch); ConsumerFrame(s, t) && t.cur == s.cur && OpenWork(c, t) < OpenWork(c, s)
  {
  }

  lemma WriteWorkDrops(c: Config, s: State, at: WritePc)
    requires c.Valid() && Accounting(c, s) && s.fpc == FWriting(at) && !FillerSleeps(s)
    ensures var t := WriteStep(c, s, at);
            && ConsumerFrame(s, t) && t.cur == s.cur
            && (s.rdone.Off? ==> OpenWork(c, t) < OpenWork(c, s))
  {
  }

  lemma CopyWorkDrops(c: Config, s: State, at: CopyPc)
    requires s.fpc == FCopying(at) && CopyInside(c, s, at) && Accounting(c, s) && s.wdone.Off?
    ensures var t := CopyStep(c, s, at);
            && ConsumerFrame(s, t) && Remaining(c.content, t.cur) <= Remaining(c.content, s.cur)
            && 100 * Remaining(c.content, t.cur) + OpenWork(c, t) + (if FillerWaking(s.fpc) then 13 else 1)
               <= 100 * Remaining(c.content, s.cur) + OpenWork(c, s)
  {
    hide WriteRegions, RegionCell, AdvanceWrite, Length;
  }

  lemma EndWorkDrops(c: Config, s: State, at: EndPc)
    requires s.fpc == FEnding(at) && (at.FEUnlock? ==> s.rdone.On?) && !FillerSleeps(s)
    ensures var t := EndStep(s, at);
            && ConsumerFrame(s, t) && t.cur == s.cur
            && (s.rdone.Off? ==> OpenWork(c, t) + (if FillerWaking(s.fpc) then 13 else 1) <= OpenWork(c, s))
  {
  }

  /** Phase by phase: the consumer is left alone, and with reading open the filler's own work drops. */
  lemma OpenWorkDrops(c: Config, s: State, ch: Choice)
    requires Inv(c, s) && FillerMay(c, s, ch) && !FillerSleeps(s)
    requires s.req.Off? || (!Serving(s.fpc) && s.fpc != FTop(FIf))
    ensures var t := FillerStep(c, s, ch);
            && !AtService(s.fpc) && ConsumerFrame(s, t)
            && Remaining(c.content, t.cur) <= Remaining(c.content, s.cur)
            && (s.rdone.Off? ==>
                  100 * Remaining(c.content, t.cur) + OpenWork(c, t) + (if FillerWaking(s.fpc) then 13 else 1)
                  <= 100 * Remaining(c.content, s.cur) + OpenWork(c, s))
  {
    hide Locks, Accounting, Sleep, Regional, Delivery, ConsumerFrame, OpenWork, Remaining, FillerSleeps,
      StartStep, TopStep, ServeStep, WriteStep, CopyStep, EndStep, CopyInside, MayWake;
    match s.fpc
    case FStarting(at) => StartWorkDrops(c, s, at);
    case FTop(at) => TopWorkDrops(c, s, at);
    case FServing(at) => ServeWorkDrops(c, s, at, ch);
    case FWriting(at) => WriteWorkDrops(c, s, at);
    case FCopying(at) => CopyWorkDrops(c, s, at);
    case FEnding(at) => EndWorkDrops(c, s, at);
  }

  lemma ReadingHasNoRequest(c: Config, s: State)
    requires Inv(c, s) && Reading(s.cpc)
    ensures s.req.Off?
  {
    hide Locks, EndOfFile, Accounting, Sleep, Regional, Delivery;
  }

  lemma FillerLowersWork(c: Config, s: State, ch: Choice)
    requires Inv(c, s) && Reading(s.cpc) && FillerMay(c, s, ch) && !FillerSleeps(s)
    ensures var t := FillerStep(c, s, ch); Reading(t.cpc) && Work(c, t) < Work(c, s)
  {
    hide Inv, FillerMay, FillerStep, ReadWork, OpenWork, Rank, Remaining, FillerWaking, FillerSleeps;
    ReadingHasNoRequest(c, s);
    OpenWorkDrops(c, s, ch);
    FrameWork(s, FillerStep(c, s, ch));
    if s.rdone.On? {
      FillerRankDrops(c, s, ch);
    }
  }

  // ----- the consumer's steps ---------------------------------------------------------------------------

  /** What a step of a read leaves alone: a sleeping filler may be woken. */
  predicate WriterFrame(s: State, t: State) {
    && t.fpc == s.fpc && t.fn1 == s.fn1 && t.fn2 == s.fn2 && t.fi == s.fi && t.feof == s.feof && t.written == s.written
    && t.req == s.req && t.rdone == s.rdone && t.cur == s.cur && t.clen == s.clen
  }

  /** A wake-up sent to a sleeping filler costs at most 61. */
  lemma FrameFillerWork(c: Config, s: State, t: State)
    requires WriterFrame(s, t)
    ensures t.fsig == s.fsig ==> FillerWork(c, t) == FillerWork(c, s)
    ensures s.fpc == FWriting(FWAsleep) ==> FillerWork(c, t) <= FillerWork(c, s) + 61
  {
  }

  lemma ReadWorkDrops(s: State, at: ReadPc)
    requires s.cpc == CReading(at) && !ConsumerSleeps(s) && !at.CRFinish?
    ensures var t := ReadStep(s, at);
            && WriterFrame(s, t) && t.fsig == s.fsig && Reading(t.cpc)
            && t.roff == s.roff && t.cout == s.cout && t.cpart == s.cpart
            && ReadWork(t) < ReadWork(s)
  {
  }

  /** In a partial read, up to its publication. */
  lemma CopyOutWorkDrops(c: Config, s: State, at: DrainPc)
    requires s.cpc == CDraining(at) && DrainInside(c, s, at) && Regional(c, s) && EndOfFile(c, s)
    requires at.CRSome? || at.CRCopy? || at.CRPLock?
    ensures var t := DrainStep(c, s, at);
            && WriterFrame(s, t) && t.fsig == s.fsig && Reading(t.cpc) && t.roff == s.roff
            && 200 * Undelivered(t) + ReadWork(t) < 200 * Undelivered(s) + ReadWork(s)
  {
    hide ReadRegions, RegionCell, Length;
  }

  lemma PublishWorkDrops(c: Config, s: State)
    requires WellTyped(c, s) && s.cpc == CDraining(CRPStore) && Regional(c, s) && EndOfFile(c, s)
    ensures var t := PublishDrain(s);
            && WriterFrame(s, t) && t.fsig == s.fsig && Reading(t.cpc) && Undelivered(t) == Undelivered(s)
            && ReadWork(t) + (if t.roff == c.size then 80 else 0) < ReadWork(s) + if s.roff == c.size then 80 else 0
  {
    hide Length;
  }

  /** The wake-up of the filler is paid for, unless the writing side is closed and no filler waits for room. */
  lemma PublishedWorkDrops(c: Config, s: State, at: DrainPc)
    requires s.cpc == CDraining(at) && DrainInside(c, s, at) && (at.CRPSignal? || at.CRPUnlock?)
    requires EndOfFile(c, s)
    ensures var t := DrainStep(c, s, at);
            && WriterFrame(s, t) && Reading(t.cpc)
            && (t.fsig == s.fsig || (s.fpc == FWriting(FWAsleep) && at.CRPSignal?))
            && t.roff == s.roff && t.cout == s.cout && t.cpart == s.cpart
            && ReadWork(t) + (if s.fpc == FWriting(FWAsleep) && at.CRPSignal? then 62 else 1) <= ReadWork(s)
  {
  }

  lemma ConsumerLowersWork(c: Config, s: State, ch: Choice)
    requires Inv(c, s) && Reading(s.cpc) && ConsumerMay(c, s, ch) && !ConsumerSleeps(s) && s.cpc != CReading(CRFinish)
    ensures var t := ConsumerStep(c, s, ch); Reading(t.cpc) && Work(c, t) < Work(c, s)
  {
    hide Locks, Handshake, EndOfFile, Accounting, Sleep, Regional, Delivery, FillerWork, ReadWork, Remaining,
      ReadStep, DrainStep, DrainInside, WriterFrame, ConsumerSleeps, PublishDrain;
    var t := ConsumerStep(c, s, ch);
    match s.cpc {
      case CReading(at) => ReadWorkDrops(s, at);
      case CDraining(at) =>
        if at.CRPStore? {
          PublishWorkDrops(c, s);
          assert t == PublishDrain(s) by { DrainStores(c, s); }
        } else if at.CRPSignal? || at.CRPUnlock? {
          PublishedWorkDrops(c, s, at);
        } else {
          CopyOutWorkDrops(c, s, at);
        }
    }
    FrameFillerWork(c, s, t);
    FrameKeepsRemaining(c, s, t);
  }

  lemma DrainStores(c: Config, s: State)
    requires DrainInside(c, s, CRPStore)
    ensures DrainStep(c, s, CRPStore) == PublishDrain(s)
  {
  }

  lemma FrameKeepsRemaining(c: Config, s: State, t: State)
    requires WriterFrame(s, t)
    ensures Remaining(c.content, t.cur) == Remaining(c.content, s.cur)
    ensures t.cout == s.cout && t.cpart == s.cpart ==> Undelivered(t) == Undelivered(s)
  {
  }

  // ----- runs -------------------------------------------------------------------------------------------

  /** Every step of the run is taken while the read is under way and has not finished. */
  predicate DuringRead(c: Config, s: State, steps: seq<Step>)
    requires Legal(c, s, steps)
    decreases |steps|
  {
    steps == []
    || (&& Reading(s.cpc) && !(steps[0].ByConsumer? && s.cpc == CReading(CRFinish))
        && DuringRead(c, Do(c, s, steps[0]), steps[1..]))
  }

  lemma StepLowersWork(c: Config, s: State, step: Step)
    requires Inv(c, s) && Reading(s.cpc) && May(c, s, step) && Genuine(s, step)
    requires !(step.ByConsumer? && s.cpc == CReading(CRFinish))
    ensures Work(c, Do(c, s, step)) < Work(c, s)
  {
    hide Inv, Work, FillerMay, ConsumerMay, FillerStep, ConsumerStep;
    match step
    case ByFiller(ch) => FillerLowersWork(c, s, ch);
    case ByConsumer(ch) => ConsumerLowersWork(c, s, ch);
    case ByClient(call) =>
  }

  /** The spurious wake-ups of a run. */
  function Spurious(c: Config, s: State, steps: seq<Step>): nat
    requires Legal(c, s, steps)
    decreases |steps|
  {
    if steps == [] then 0
    else (if Genuine(s, steps[0]) then 0 else 1) + Spurious(c, Do(c, s, steps[0]), steps[1..])
  }

  /** All a spurious wake-up does is to send the thread to its mutex. */
  lemma SpuriousStep(c: Config, s: State, step: Step)
    requires May(c, s, step) && !Genuine(s, step)
    ensures var t := Do(c, s, step);
            if step.ByFiller? then
              && FillerSleeps(s)
              && t == s.(fpc := if s.fpc.FWriting? then FWriting(FWRelock) else FEnding(FERelock))
            else
              && ConsumerSleeps(s)
              && t == s.(cpc := if s.cpc.CReading? then CReading(CRRelock) else CWaiting(CSRelock))
  {
  }

  lemma SpuriousRaisesWork(c: Config, s: State, step: Step)
    requires Reading(s.cpc) && May(c, s, step) && !Genuine(s, step)
    ensures Work(c, Do(c, s, step)) <= Work(c, s) + 60
  {
    hide May, Do;
    SpuriousStep(c, s, step);
  }

  lemma {:induction false} WorkBoundsRun(c: Config, s: State, steps: seq<Step>)
    requires Inv(c, s) && Legal(c, s, steps) && DuringRead(c, s, steps)
    ensures |steps| <= Work(c, s) + 61 * Spurious(c, s, steps)
    decreases |steps|
  {
    hide Inv, Work, May, Do, Genuine, Reading;
    if steps != [] {
      StepKeeps(c, s, steps[0]);
      if Genuine(s, steps[0]) {
        StepLowersWork(c, s, steps[0]);
      } else {
        SpuriousRaisesWork(c, s, steps[0]);
      }
      WorkBoundsRun(c, Do(c, s, steps[0]), steps[1..]);
    }
  }

  lemma WorkIsBounded(c: Config, s: State)
    requires Inv(c, s)
    ensures Work(c, s) <= 100 * |c.content| + 200 * s.clen + 20 * c.size + 662
  {
    hide Inv, Rank;
    RankBounded(c, s);
  }

  /**
   Every read returns: whatever the interleaving, the two threads together take no more than a fixed number of
   steps, and a fixed number more for each spurious wake-up, before the read is finished. With `ReadCanProceed` this
   makes it finish.
   */
  lemma ReadReturnsInTime(c: Config, s: State, steps: seq<Step>)
    requires Reachable(c, s) && Legal(c, s, steps) && DuringRead(c, s, steps)
    ensures |steps| <= 100 * |c.content| + 200 * s.clen + 20 * c.size + 662 + 61 * Spurious(c, s, steps)
  {
    hide Reachable, Inv, Legal, DuringRead, Work, Spurious;
    ReachableInv(c, s);
    WorkBoundsRun(c, s, steps);
    WorkIsBounded(c, s);
  }

  /** Until it is finished, a read over a filler that was created always has a genuine step to take. */
  lemma ReadCanProceed(c: Config, s: State)
    requires Reachable(c, s) && Reading(s.cpc) && s.fpc != FAbsent
    ensures exists step :: May(c, s, step) && Genuine(s, step)
  {
    hide Reachable, FillerMay, ConsumerMay, FillerSleeps, ConsumerSleeps;
    StuckIffAbandoned(c, s);
    if FillerRuns(c, s) {
      var ch :| FillerMay(c, s, ch);
      assert May(c, s, ByFiller(ch));
    } else {
      var ch :| ConsumerMay(c, s, ch);
      assert May(c, s, ByConsumer(ch));
    }
  }
}
