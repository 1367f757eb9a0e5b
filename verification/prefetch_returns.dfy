/**
 Every call returns unless it is blocked from its beginning. For a read the potential is `Work`; for a seek or the
 destruction it has a stage for what the filler does before the request is stored, while it stands, and after it is
 cleared, each with the means for the next.
 */
module PrefetchReturns {
  import opened RingGeometry
  import opened PrefetchModel
  import opened PrefetchInvariant
  import opened PrefetchRuns
  import opened PrefetchProgress
  import opened PrefetchTermination
  import opened PrefetchCalls

  /** In a seek or the destruction. */
  predicate Arranging(p: ConsumerPc) { p.CSeeking? || p.CClosing? || p.CWaiting? || p.CDestroying? }

  predicate Busy(p: ConsumerPc) { !p.CIdle? && !p.CDead? }

  /** The last step of a call. */
  predicate Finishing(p: ConsumerPc) {
    p == CReading(CRFinish) || p == CWaiting(CSFinish) || p == CDestroying(CDFreeLock)
  }

  // ----- the potential ----------------------------------------------------------------------------------

  /** While no request stands. */
  function FreeWork(c: Config, s: State): nat {
    100 * Remaining(c.content, s.cur) + FillerWork(c, s) + if s.fpc == FServing(FSSignal) then 10 else 0
  }

  function ServingRank(at: ServePc): nat {
    match at case FSeek => 7 case FSLock => 6 case FReset0 => 5 case FReset1 => 4 case FReset2 => 3 case FReset3 => 2
    case _ => 1
  }

  /** While one does: until it is found, and then until it is cleared. */
  function RequestWork(c: Config, s: State): nat {
    if Serving(s.fpc) then ServingRank(s.fpc.serve)
    else if s.rdone.On? then 7 + Rank(c, s)
    else 7 + 100 * Remaining(c.content, s.cur) + OpenWork(c, s)
  }

  /** What follows the clearing of a request, and what follows its storing. */
  function AfterClear(c: Config): nat { 100 * |c.content| + 400 }
  function AfterRequest(c: Config): nat { AfterClear(c) + 100 * |c.content| + c.size + 120 }

  /** Closing reading turns what the filler does into a rank. */
  function ClosingWork(c: Config): nat { 20 * (21 + c.size) }

  /** The consumer's own steps. */
  function ArrangingWork(c: Config, p: ConsumerPc, csig: Flag): nat {
    match p
    case CSeeking(at) => ClosingWork(c) + (match at
      case CSParam => 30 case CSLock => 29 case CSStarted => 28 case CSDirect => 27 case CSReq => 27)
    case CClosing(at, _) => (match at
      case CKTest => ClosingWork(c) + 22
      case CKLock => ClosingWork(c) + 21
      case CKStore => ClosingWork(c) + 20
      case CKSignal => 10
      case CKUnlock => 9)
    case CWaiting(at) => (match at
      case CSSignal => 8
      case CSAsleep => if csig.On? then 6 else 0
      case CSRelock => 5
      case CSTest => 4
      case CSCondWait => 3
      case CSUnlock => 2
      case CSFinish => 1)
    case CDestroying(at) => (match at
      case CDLock => ClosingWork(c) + 23
      case CDSignal => 8
      case CDUnlock => 7
      case CDJoin => 6
      case CDFreeRing => 5
      case CDFreeLock => 4)
    case _ => 0
  }

  function CallWork(c: Config, s: State): nat {
    ArrangingWork(c, s.cpc, s.csig)
    + if s.req.On? then AfterClear(c) + RequestWork(c, s)
      else if s.cpc.CSeeking? then AfterRequest(c) + FreeWork(c, s)
      else FreeWork(c, s)
  }

  // ----- the filler's steps -----------------------------------------------------------------------------

  /** With no request standing. */
  lemma FreeFillerLowers(c: Config, s: State, ch: Choice)
    requires Inv(c, s) && Arranging(s.cpc) && s.req.Off? && FillerMay(c, s, ch) && !FillerSleeps(s)
    ensures var t := FillerStep(c, s, ch);
            && t.cpc == s.cpc && t.req.Off?
            && ArrangingWork(c, t.cpc, t.csig) + FreeWork(c, t) < ArrangingWork(c, s.cpc, s.csig) + FreeWork(c, s)
  {
    hide Inv, FillerMay, FillerStep, OpenWork, Rank, Remaining, FillerSleeps;
    OpenWorkDrops(c, s, ch);
    FillerNeverCloses(c, s, ch);
    SignalPrecedesUnlock(c, s, ch);
    if s.rdone.On? {
      FillerRankDrops(c, s, ch);
    }
  }

  lemma SignalPrecedesUnlock(c: Config, s: State, ch: Choice)
    requires FillerMay(c, s, ch) && s.fpc != FServing(FClear)
    ensures FillerStep(c, s, ch).fpc != FServing(FSSignal)
  {
    hide WriteRegions, AdvanceWrite, RegionCell, MayWake, Full, SignalWcond, Raise, CopyInside;
    match s.fpc
    case FStarting(at) =>
    case FTop(at) =>
    case FServing(at) =>
    case FWriting(at) =>
    case FCopying(at) =>
    case FEnding(at) =>
  }

  /** Serving a request, statement by statement. */
  lemma ServingLowers(c: Config, s: State, at: ServePc, ch: Choice)
    requires Inv(c, s) && s.fpc == FServing(at) && Serving(s.fpc) && FillerMay(c, s, ch)
    ensures var t := ServeStep(s, at, ch);
            && t.cpc == s.cpc && t.csig == s.csig && s.req.On?
            && (if at.FClear? then t.req.Off? && FreeWork(c, t) <= AfterClear(c)
                else t.req.On? && RequestWork(c, t) < RequestWork(c, s))
  {
    hide Locks, EndOfFile, Accounting, Sleep, Regional, Delivery, MayWake;
  }

  /** A step on the way to the request leaves it standing. */
  lemma RequestStands(c: Config, s: State, ch: Choice)
    requires FillerMay(c, s, ch) && !Serving(s.fpc)
    ensures var t := FillerStep(c, s, ch);
            && t.req == s.req && t.rdone == s.rdone
            && (Serving(t.fpc) ==> t.fpc == FServing(FSeek) && s.fpc == FTop(FIf))
  {
    hide WriteRegions, AdvanceWrite, RegionCell, MayWake, Full, SignalWcond, Raise, CopyInside;
    match s.fpc
    case FStarting(at) =>
    case FTop(at) =>
    case FServing(at) =>
    case FWriting(at) =>
    case FCopying(at) =>
    case FEnding(at) =>
  }

  /** A request found with reading still open. */
  lemma FoundLowers(c: Config, s: State, ch: Choice)
    requires FillerMay(c, s, ch) && s.req.On? && s.fpc == FTop(FIf)
    ensures var t := FillerStep(c, s, ch);
            && t.cpc == s.cpc && t.csig == s.csig && t.req.On?
            && RequestWork(c, t) < RequestWork(c, s)
  {
  }

  /** With a request standing that is not yet found. */
  lemma ApproachLowers(c: Config, s: State, ch: Choice)
    requires Inv(c, s) && Arranging(s.cpc) && s.req.On? && !Serving(s.fpc) && FillerMay(c, s, ch) && !FillerSleeps(s)
    ensures var t := FillerStep(c, s, ch);
            && t.cpc == s.cpc && t.req.On?
            && ArrangingWork(c, t.cpc, t.csig) == ArrangingWork(c, s.cpc, s.csig)
            && RequestWork(c, t) < RequestWork(c, s)
  {
    hide Inv, FillerMay, FillerStep, OpenWork, Rank, Remaining, FillerSleeps, RequestWork;
    if s.fpc == FTop(FIf) {
      FoundLowers(c, s, ch);
    } else {
      OpenWorkDrops(c, s, ch);
      RequestStands(c, s, ch);
      ServedHasNoRequest(c, s);
      UnfoundLowers(c, s, ch);
    }
  }

  lemma ServedHasNoRequest(c: Config, s: State)
    requires Inv(c, s) && s.req.On?
    ensures s.fpc != FServing(FSSignal)
  {
    hide Locks, EndOfFile, Accounting, Sleep, Regional, Delivery;
  }

  lemma UnfoundLowers(c: Config, s: State, ch: Choice)
    requires Inv(c, s) && s.req.On? && !Serving(s.fpc) && s.fpc != FTop(FIf) && FillerMay(c, s, ch) && !FillerSleeps(s)
    ensures RequestWork(c, FillerStep(c, s, ch)) < RequestWork(c, s)
  {
    hide Inv, FillerMay, FillerStep, OpenWork, Rank, Remaining, FillerSleeps;
    OpenWorkDrops(c, s, ch);
    RequestStands(c, s, ch);
    if s.rdone.On? {
      FillerRankDrops(c, s, ch);
    }
  }

  lemma FillerLowersCall(c: Config, s: State, ch: Choice)
    requires Inv(c, s) && Arranging(s.cpc) && FillerMay(c, s, ch) && !FillerSleeps(s)
    ensures var t := FillerStep(c, s, ch); Arranging(t.cpc) && CallWork(c, t) < CallWork(c, s)
  {
    hide Inv, FillerMay, FillerSleeps, ArrangingWork, FreeWork, RequestWork, AfterClear, AfterRequest, ServeStep;
    if s.req.Off? {
      FreeFillerLowers(c, s, ch);
    } else if Serving(s.fpc) {
      ServingLowers(c, s, s.fpc.serve, ch);
      RequestIsAsked(c, s);
      SomeWork(c, s);
    } else {
      ApproachLowers(c, s, ch);
    }
  }

  lemma RequestIsAsked(c: Config, s: State)
    requires Inv(c, s) && s.req.On?
    ensures s.cpc.CClosing? || s.cpc.CWaiting?
  {
    hide Locks, EndOfFile, Accounting, Sleep, Regional, Delivery;
  }

  lemma SomeWork(c: Config, s: State)
    requires Serving(s.fpc)
    ensures RequestWork(c, s) > 0
  {
  }

  // ----- the consumer's steps ---------------------------------------------------------------------------

  lemma WorkBounds(c: Config, s: State)
    requires Inv(c, s)
    ensures FillerWork(c, s) <= 91 + ClosingWork(c) && OpenWork(c, s) <= 91
    ensures RequestWork(c, s) <= 98 + 100 * |c.content| + c.size
  {
    hide Inv;
    RankBounded(c, s);
  }

  lemma SeekLowers(c: Config, s: State, at: SeekPc, ch: Choice)
    requires Inv(c, s) && s.cpc == CSeeking(at) && ConsumerMay(c, s, ch)
    ensures var t := SeekStep(s, at, ch); Arranging(t.cpc) && CallWork(c, t) < CallWork(c, s)
  {
    hide Locks, EndOfFile, Accounting, Sleep, Regional, Delivery, OpenWork, Rank;
    StepKeeps(c, s, ByConsumer(ch));
    WorkBounds(c, SeekStep(s, at, ch));
    if !at.CSReq? {
      RankLeft(c, s, SeekStep(s, at, ch));
    }
  }

  /** The stores that close reading are paid for; a signal after them finds reading closed. */
  lemma CloseLowers(c: Config, s: State, at: ClosePc, who: Closer, ch: Choice)
    requires Inv(c, s) && s.cpc == CClosing(at, who) && ConsumerMay(c, s, ch)
    ensures var t := CloseStep(s, at, who); Arranging(t.cpc) && CallWork(c, t) < CallWork(c, s)
  {
    hide EndOfFile, Accounting, Sleep, Regional, Delivery, OpenWork, Rank;
    RankBounded(c, s);
    ClosedAtSignal(c, s);
    RankLeft(c, s, CloseStep(s, at, who));
  }

  lemma ClosedAtSignal(c: Config, s: State)
    requires Inv(c, s)
    ensures ClosedNow(s.cpc) || s.cpc == CWaiting(CSSignal) || s.cpc == CDestroying(CDSignal) ==> s.rdone.On?
  {
    hide EndOfFile, Accounting, Sleep, Regional, Delivery;
  }

  /** The rank and the filler's open work do not read the consumer's state, but for a wake-up. */
  lemma RankLeft(c: Config, s: State, t: State)
    requires t.fpc == s.fpc && t.req == s.req && t.fn1 == s.fn1 && t.fn2 == s.fn2 && t.fi == s.fi
    requires t.feof == s.feof && t.written == s.written
    ensures Rank(c, t) == Rank(c, s)
    ensures t.fsig == s.fsig ==> OpenWork(c, t) == OpenWork(c, s)
  {
  }

  lemma WaitLowers(c: Config, s: State, at: WaitPc, ch: Choice)
    requires Inv(c, s) && s.cpc == CWaiting(at) && !at.CSFinish? && !ConsumerSleeps(s) && ConsumerMay(c, s, ch)
    ensures var t := WaitStep(s, at, ch); Arranging(t.cpc) && CallWork(c, t) < CallWork(c, s)
  {
    hide EndOfFile, Accounting, Sleep, Regional, Delivery, OpenWork, Rank;
    ClosedAtSignal(c, s);
    RankLeft(c, s, WaitStep(s, at, ch));
  }

  lemma DestroyLowers(c: Config, s: State, at: DestroyPc, ch: Choice)
    requires Inv(c, s) && s.cpc == CDestroying(at) && !at.CDFreeLock? && ConsumerMay(c, s, ch)
    ensures var t := DestroyStep(s, at, ch); Arranging(t.cpc) && CallWork(c, t) < CallWork(c, s)
  {
    hide EndOfFile, Accounting, Sleep, Regional, Delivery, OpenWork, Rank;
    ClosedAtSignal(c, s);
    RankLeft(c, s, DestroyStep(s, at, ch));
  }

  lemma ConsumerLowersCall(c: Config, s: State, ch: Choice)
    requires Inv(c, s) && Arranging(s.cpc) && !Finishing(s.cpc) && !ConsumerSleeps(s) && ConsumerMay(c, s, ch)
    ensures var t := ConsumerStep(c, s, ch); Arranging(t.cpc) && CallWork(c, t) < CallWork(c, s)
  {
    hide Inv, CallWork, ConsumerSleeps, MayWake, SeekStep, CloseStep, WaitStep, DestroyStep;
    match s.cpc
    case CSeeking(at) => SeekLowers(c, s, at, ch);
    case CClosing(at, who) => CloseLowers(c, s, at, who, ch);
    case CWaiting(at) => WaitLowers(c, s, at, ch);
    case CDestroying(at) => DestroyLowers(c, s, at, ch);
  }

  // ----- runs -------------------------------------------------------------------------------------------

  /** No step of the run is a call, and the call under way is not over before the last. */
  predicate DuringCall(c: Config, s: State, steps: seq<Step>)
    requires Legal(c, s, steps)
    decreases |steps|
  {
    steps == []
    || (Busy(s.cpc) && !steps[0].ByClient? && DuringCall(c, Do(c, s, steps[0]), steps[1..]))
  }

  function Potential(c: Config, s: State): nat {
    if Reading(s.cpc) then Work(c, s) + 1 else if Arranging(s.cpc) then CallWork(c, s) + 1 else 0
  }

  lemma StepLowersPotential(c: Config, s: State, step: Step)
    requires Inv(c, s) && Busy(s.cpc) && May(c, s, step) && Genuine(s, step) && !step.ByClient?
    ensures Potential(c, Do(c, s, step)) < Potential(c, s)
  {
    hide Inv, Work, CallWork, FillerMay, FillerStep, FillerSleeps, ConsumerSleeps, MayWake;
    match step
    case ByFiller(ch) =>
      if Reading(s.cpc) {
        FillerLowersWork(c, s, ch);
      } else {
        FillerLowersCall(c, s, ch);
      }
    case ByConsumer(ch) =>
      if Finishing(s.cpc) {
        FinishedPotential(c, s, ch);
      } else if Reading(s.cpc) {
        ConsumerLowersWork(c, s, ch);
      } else {
        ConsumerLowersCall(c, s, ch);
      }
  }

  lemma FinishedPotential(c: Config, s: State, ch: Choice)
    requires Finishing(s.cpc) && ConsumerMay(c, s, ch)
    ensures Potential(c, ConsumerStep(c, s, ch)) == 0 && Potential(c, s) > 0
  {
    hide Work, CallWork;
  }

  /** A filler that goes to its mutex has no more of its rank before it, and 60 more of its open work at most. */
  lemma FillerAwake(c: Config, s: State, t: State)
    requires FillerSleeps(s)
    requires t == s.(fpc := if s.fpc.FWriting? then FWriting(FWRelock) else FEnding(FERelock))
    ensures Rank(c, t) <= Rank(c, s) && OpenWork(c, t) <= OpenWork(c, s) + 60
    ensures !Serving(s.fpc) && !Serving(t.fpc) && s.fpc != FServing(FSSignal) && t.fpc != FServing(FSSignal)
  {
  }

  lemma SpuriousRaisesCall(c: Config, s: State, step: Step)
    requires Arranging(s.cpc) && May(c, s, step) && !Genuine(s, step)
    ensures var t := Do(c, s, step); Arranging(t.cpc) && CallWork(c, t) <= CallWork(c, s) + 60
  {
    hide May, Do, Rank, OpenWork, Remaining, FillerSleeps, Serving, AfterClear, AfterRequest, ClosingWork;
    SpuriousStep(c, s, step);
    if step.ByFiller? {
      FillerAwake(c, s, Do(c, s, step));
    } else {
      RankLeft(c, s, Do(c, s, step));
    }
  }

  lemma SpuriousRaisesPotential(c: Config, s: State, step: Step)
    requires Busy(s.cpc) && May(c, s, step) && !Genuine(s, step)
    ensures Potential(c, Do(c, s, step)) <= Potential(c, s) + 60
  {
    hide May, Do, Work, CallWork;
    SpuriousStep(c, s, step);
    if Reading(s.cpc) {
      SpuriousRaisesWork(c, s, step);
    } else {
      SpuriousRaisesCall(c, s, step);
    }
  }

  lemma {:induction false} PotentialBoundsRun(c: Config, s: State, steps: seq<Step>)
    requires Inv(c, s) && Legal(c, s, steps) && DuringCall(c, s, steps)
    ensures |steps| <= Potential(c, s) + 61 * Spurious(c, s, steps)
    decreases |steps|
  {
    hide Inv, Potential, May, Do, Genuine, Busy;
    if steps != [] {
      StepKeeps(c, s, steps[0]);
      if Genuine(s, steps[0]) {
        StepLowersPotential(c, s, steps[0]);
      } else {
        SpuriousRaisesPotential(c, s, steps[0]);
      }
      PotentialBoundsRun(c, Do(c, s, steps[0]), steps[1..]);
    }
  }

  /** A bound on the steps of both threads during one call without spurious wake-ups. */
  function CallBound(c: Config, call: Call): nat {
    match call
    case Create => 0
    case Read(len) => 100 * |c.content| + 200 * len + 20 * c.size + 663
    case Seek(off) => 300 * |c.content| + 41 * c.size + 1500
    case Destroy => 100 * |c.content| + 40 * c.size + 1000
  }

  lemma PotentialIsBounded(c: Config, s: State, call: Call)
    requires Inv(c, s) && MayCall(s, call)
    ensures Potential(c, Begin(s, call)) <= CallBound(c, call)
  {
    hide Inv, Rank, Work, OpenWork;
    IdleHasNoRequest(c, s);
    StepKeeps(c, s, ByClient(call));
    WorkBounds(c, Begin(s, call));
    WorkIsBounded(c, Begin(s, call));
  }

  /**
   Every call returns: whatever the interleaving, the two threads together take no more than a fixed number of
   steps, and a fixed number more for each spurious wake-up, before it is over.
   */
  lemma CallReturnsInTime(c: Config, s: State, call: Call, steps: seq<Step>)
    requires Reachable(c, s) && MayCall(s, call)
    requires Legal(c, Begin(s, call), steps) && DuringCall(c, Begin(s, call), steps)
    ensures |steps| <= CallBound(c, call) + 61 * Spurious(c, Begin(s, call), steps)
  {
    hide Reachable, Inv, Legal, DuringCall, Potential, Begin, MayCall, Spurious;
    ReachableInv(c, s);
    StepKeeps(c, s, ByClient(call));
    PotentialBoundsRun(c, Begin(s, call), steps);
    PotentialIsBounded(c, s, call);
  }

  /** And until it is over there is such a step to take, unless the call was blocked from its beginning. */
  lemma CallCanProceed(c: Config, s: State, call: Call, steps: seq<Step>)
    requires Reachable(c, s) && MayCall(s, call) && !Blocks(s, call)
    requires Legal(c, Begin(s, call), steps) && NoCalls(steps) && Busy(After(c, Begin(s, call), steps).cpc)
    ensures var t := After(c, Begin(s, call), steps);
            exists step :: May(c, t, step) && Genuine(t, step) && !step.ByClient?
  {
    hide Reachable, Legal, After, Begin, MayCall, Blocks, FillerMay, ConsumerMay, FillerSleeps, ConsumerSleeps, NoCalls;
    var t := After(c, Begin(s, call), steps);
    DeadlockFree(c, s, call, steps);
    if FillerRuns(c, t) {
      var ch :| FillerMay(c, t, ch);
      assert May(c, t, ByFiller(ch));
    } else {
      var ch :| ConsumerMay(c, t, ch);
      assert May(c, t, ByConsumer(ch));
    }
  }

  // ----- what the destruction does -----------------------------------------------------------------------

  /** How often the consumer has taken its step at `p`. */
  function Visits(c: Config, s: State, steps: seq<Step>, p: ConsumerPc): nat
    requires Legal(c, s, steps)
    decreases |steps|
  {
    if steps == [] then 0
    else (if steps[0].ByConsumer? && s.cpc == p then 1 else 0) + Visits(c, Do(c, s, steps[0]), steps[1..], p)
  }

  /** Where in the destruction a step lies, in order. */
  function Stage(p: ConsumerPc): nat {
    match p
    case CDestroying(at) => (match at
      case CDLock => 0 case CDSignal => 6 case CDUnlock => 7
      case CDJoin => 8 case CDFreeRing => 9 case CDFreeLock => 10)
    case CClosing(at, _) => (match at
      case CKTest => 1 case CKLock => 2 case CKStore => 3 case CKSignal => 4 case CKUnlock => 5)
    case CDead => 11
    case _ => 0
  }

  predicate Destroying(p: ConsumerPc) { p.CDestroying? || (p.CClosing? && p.closer.ByDestroy?) || p.CDead? }

  lemma DestroyGoesOn(c: Config, s: State, ch: Choice)
    requires Destroying(s.cpc) && ConsumerMay(c, s, ch)
    ensures var t := ConsumerStep(c, s, ch);
            && Destroying(t.cpc) && Stage(s.cpc) < Stage(t.cpc)
            && Stage(t.cpc) <= Stage(s.cpc) + (if s.cpc == CClosing(CKTest, ByDestroy) then 5 else 1)
  {
    hide MayWake;
  }

  /**
   Every destruction that is over has freed the ring once and the lock once; and, from a stream with a filler, it has
   closed reading, signalled and joined the filler before, each once.
   */
  lemma {:induction false} DestroyFrees(c: Config, s: State, steps: seq<Step>)
    requires Destroying(s.cpc) && Legal(c, s, steps) && NoCalls(steps) && After(c, s, steps).cpc.CDead?
    ensures Visits(c, s, steps, CDestroying(CDFreeRing)) == (if Stage(s.cpc) <= 9 then 1 else 0)
    ensures Visits(c, s, steps, CDestroying(CDFreeLock)) == (if Stage(s.cpc) <= 10 then 1 else 0)
    ensures Visits(c, s, steps, CDestroying(CDJoin)) == (if Stage(s.cpc) <= 8 then 1 else 0)
    ensures Visits(c, s, steps, CDestroying(CDSignal)) == (if Stage(s.cpc) <= 6 then 1 else 0)
    ensures Visits(c, s, steps, CClosing(CKTest, ByDestroy)) == (if Stage(s.cpc) <= 1 then 1 else 0)
    decreases |steps|
  {
    hide FillerMay, ConsumerMay, FillerStep, ConsumerStep;
    if steps != [] {
      match steps[0] {
        case ByFiller(ch) => FillerLeavesConsumer(c, s, ch);
        case ByConsumer(ch) => DestroyGoesOn(c, s, ch);
      }
      DestroyFrees(c, Do(c, s, steps[0]), steps[1..]);
    }
  }
}
