/** Who can run: deadlock freedom, seeks that are served, and an exit of the filler in bounded time. */
module PrefetchProgress {
  import opened RingGeometry
  import opened PrefetchModel
  import opened PrefetchInvariant
  import opened PrefetchRuns
  import opened PrefetchSafety

  // ----- deadlock ---------------------------------------------------------------------------------------

  /** Asleep on a condition with no wake-up delivered: only a spurious wake-up would make the thread run. */
  predicate FillerSleeps(s: State) { (s.fpc == FWriting(FWAsleep) || s.fpc == FEnding(FEAsleep)) && s.fsig.Off? }
  predicate ConsumerSleeps(s: State) { (s.cpc == CReading(CRAsleep) || s.cpc == CWaiting(CSAsleep)) && s.csig.Off? }

  ghost predicate FillerRuns(c: Config, s: State) { !FillerSleeps(s) && exists ch :: FillerMay(c, s, ch) }
  ghost predicate ConsumerRuns(c: Config, s: State) { !ConsumerSleeps(s) && exists ch :: ConsumerMay(c, s, ch) }

  /** A call of the client is under way and, spurious wake-ups aside, no thread will ever run again. */
  ghost predicate Stuck(c: Config, s: State) {
    !s.cpc.CIdle? && !s.cpc.CDead? && !FillerRuns(c, s) && !ConsumerRuns(c, s)
  }

  /** The mutex the filler's next statement takes is held by the consumer. */
  predicate FillerLockedOut(s: State) {
    match s.fpc
    case FStarting(at) => at.FStart? && s.slock.Consumer?
    case FServing(at) => at.FSLock? && s.slock.Consumer?
    case FWriting(at) => (at.FWLock? || at.FWRelock?) && s.rlock.Consumer?
    case FCopying(at) => at.FPLock? && s.wlock.Consumer?
    case FEnding(at) => ((at.FELock? || at.FERelock?) && s.slock.Consumer?) || (at.FKLock? && s.wlock.Consumer?)
    case _ => false
  }

  /** As `FillerLockedOut`, or waiting to join the filler. */
  predicate ConsumerLockedOut(s: State) {
    match s.cpc
    case CReading(at) => (at.CRLock? || at.CRRelock?) && s.wlock.Filler?
    case CDraining(at) => at.CRPLock? && s.rlock.Filler?
    case CSeeking(at) => at.CSLock? && s.slock.Filler?
    case CClosing(at, _) => at.CKLock? && s.rlock.Filler?
    case CWaiting(at) => at.CSRelock? && s.slock.Filler?
    case CDestroying(at) => (at.CDLock? && s.slock.Filler?) || (at.CDJoin? && s.fpc != FDone)
    case _ => false
  }

  /** A choice every statement accepts: the inner seek fails and everyone who sleeps is woken. */
  function Safe(s: State): Choice {
    Choice(false, s.fpc == FEnding(FEAsleep) && s.fsig.Off?, s.cpc == CWaiting(CSAsleep) && s.csig.Off?)
  }

  /** Nothing but a mutex stops the filler: in particular every byte it places lies inside the ring. */
  lemma FillerStoppedByLock(c: Config, s: State)
    requires Inv(c, s) && s.fpc != FAbsent && s.fpc != FDone
    ensures FillerMay(c, s, Safe(s)) <==> !FillerLockedOut(s)
    ensures FillerLockedOut(s) ==> forall ch :: !FillerMay(c, s, ch)
  {
    hide EndOfFile, Sleep, Holds, IsSlice;
  }

  lemma ConsumerStoppedByLock(c: Config, s: State)
    requires Inv(c, s) && s.cpc != CIdle && s.cpc != CDead
    ensures ConsumerMay(c, s, Safe(s)) <==> !ConsumerLockedOut(s)
    ensures ConsumerLockedOut(s) ==> forall ch :: !ConsumerMay(c, s, ch)
  {
    hide EndOfFile, Sleep, Holds, IsSlice, Accounting;
  }

  /** The filler has exited under a consumer that waits for a seek, or a read waits for a filler never created. */
  predicate Abandoned(s: State) {
    || (s.fpc == FDone && s.cpc == CWaiting(CSAsleep) && s.csig.Off?)
    || (s.fpc == FAbsent && s.cpc == CReading(CRAsleep) && s.csig.Off?)
  }

  lemma BlockedMeansAbandoned(c: Config, s: State)
    requires Inv(c, s) && !s.cpc.CIdle? && !s.cpc.CDead?
    requires s.fpc == FAbsent || s.fpc == FDone || FillerSleeps(s) || FillerLockedOut(s)
    requires ConsumerSleeps(s) || ConsumerLockedOut(s)
    ensures Abandoned(s)
  {
    hide Delivery, Regional, Accounting;
  }

  lemma StuckMeansAbandoned(c: Config, s: State)
    requires Inv(c, s)
    ensures Stuck(c, s) <==> Abandoned(s)
  {
    hide Inv, FillerMay, ConsumerMay, FillerLockedOut, ConsumerLockedOut;
    if !s.cpc.CIdle? && !s.cpc.CDead? {
      ConsumerStoppedByLock(c, s);
      if s.fpc != FAbsent && s.fpc != FDone {
        FillerStoppedByLock(c, s);
      } else {
        ExitedNeverRuns(c, s);
      }
      if Stuck(c, s) {
        assert ConsumerLockedOut(s) || ConsumerSleeps(s);
        BlockedMeansAbandoned(c, s);
      }
    }
  }

  /** The only ways to block for ever. */
  lemma StuckIffAbandoned(c: Config, s: State)
    requires Reachable(c, s)
    ensures Stuck(c, s) <==> Abandoned(s)
  {
    hide Reachable, Inv;
    ReachableInv(c, s);
    StuckMeansAbandoned(c, s);
  }

  lemma ExitedNeverRuns(c: Config, s: State)
    requires s.fpc == FAbsent || s.fpc == FDone
    ensures !FillerRuns(c, s)
  {
  }

  /** With a filler created, a call can only be stuck if the last seek failed and left reading closed. */
  lemma StuckOnlyAfterFailure(c: Config, s: State)
    requires Reachable(c, s) && s.fpc != FAbsent && Stuck(c, s)
    ensures s.failed.On? && s.seekOk.Off? && s.rdone.On?
  {
    hide Reachable, Stuck, Dying, Delivery, Regional, Sleep, Accounting, EndOfFile;
    StuckIffAbandoned(c, s);
    ReachableInv(c, s);
    DyingIsNotWaiting(s.cpc);
    if s.seekOk.On? || s.failed.Off? {
      FillerOutlivesRequests(c, s);
    }
  }

  lemma DyingIsNotWaiting(p: ConsumerPc)
    ensures Dying(p) ==> !p.CWaiting?
  {
  }

  // ----- a bound on the filler once reading is closed ---------------------------------------------------

  function StartRank(at: StartPc): nat { match at case FStart => 8 case FStartSet => 7 case FStartUnlock => 6 }
  function TopRank(at: TopPc, req: Flag): nat {
    match at case FTestR => 5 case FTestQ => 4 case FIf => if req.On? then 3 else 16
  }
  function ServeRank(at: ServePc): nat {
    match at case FSeek => 2 case FSLock => 1 case FSSignal => 18 case FSUnlock => 17 case _ => 0
  }
  function WriteRank(at: WritePc): nat {
    match at
    case FWCondWait => 22
    case FWAsleep => 21
    case FWLock => 20
    case FWRelock => 20
    case FWTest => 19
    case FWUnlock => 18
    case FWCheck => 17
    case FWEntry => 15
    case FWLoop => 15
    case FWDone => 14
  }
  function CopyRank(size: nat, at: CopyPc, n: nat, i: nat): nat {
    match at
    case FWSome => 21 + size
    case FCopy => 20 + if i < n then n - i else 0
    case FPLock => 19
    case FPStore => 18
    case FPSignal => 17
    case FPUnlock => 16
  }
  function EndRank(at: EndPc): nat {
    match at
    case FELock => 13
    case FKTest => 12
    case FKLock => 11
    case FKStore => 10
    case FKSignal => 9
    case FKUnlock => 8
    case FECondWait => 10
    case FEAsleep => 9
    case FERelock => 8
    case FETest => 7
    case FEUnlock => 6
  }

  /**
   With reading closed, the number of steps the filler can still take before it begins the reset for a pending
   seek, clears the request of a failed one, or exits.
   */
  function Rank(c: Config, s: State): nat {
    match s.fpc
    case FAbsent => 9
    case FStarting(at) => StartRank(at)
    case FTop(at) => TopRank(at, s.req)
    case FServing(at) => ServeRank(at)
    case FWriting(at) => WriteRank(at)
    case FCopying(at) => CopyRank(c.size, at, s.fn1 + s.fn2, s.fi)
    case FEnding(at) => EndRank(at)
    case FDone => 0
  }

  /** The filler is about to serve the request for good. */
  predicate AtService(p: FillerPc) { Resetting(p) || p == FServing(FClear) }

  lemma RankBounded(c: Config, s: State)
    requires Inv(c, s)
    ensures Rank(c, s) <= 21 + c.size
  {
    hide Locks, Handshake, EndOfFile, Sleep, Delivery, Accounting;
  }

  lemma StartRankDrops(c: Config, s: State, at: StartPc)
    requires s.fpc == FStarting(at)
    ensures var t := StartStep(s, at); t.rdone == s.rdone && Rank(c, t) < Rank(c, s)
  {
  }

  lemma TopRankDrops(c: Config, s: State, at: TopPc)
    requires s.fpc == FTop(at) && s.rdone.On?
    ensures var t := TopStep(s, at); t.rdone.On? && Rank(c, t) < Rank(c, s)
  {
  }

  lemma ServeRankDrops(c: Config, s: State, at: ServePc, ch: Choice)
    requires s.fpc == FServing(at) && FillerMay(c, s, ch) && s.rdone.On? && !AtService(s.fpc)
    ensures var t := ServeStep(s, at, ch); t.rdone.On? && Rank(c, t) < Rank(c, s)
  {
    hide MayWake;
  }

  lemma WriteRankDrops(c: Config, s: State, at: WritePc)
    requires s.fpc == FWriting(at) && s.rdone.On?
    ensures var t := WriteStep(c, s, at); t.rdone.On? && Rank(c, t) < Rank(c, s)
  {
    hide Full;
  }

  lemma CopyRankDrops(c: Config, s: State, at: CopyPc)
    requires s.fpc == FCopying(at) && CopyInside(c, s, at)
    ensures var t := CopyStep(c, s, at); t.rdone == s.rdone && Rank(c, t) < Rank(c, s)
  {
    hide RegionCell, AdvanceWrite, Length;
    if at.FWSome? {
      WriteRegionsExact(c.size, s.roff, s.woff, c.step - s.written);
    }
  }

  lemma EndRankDrops(c: Config, s: State, at: EndPc)
    requires s.fpc == FEnding(at) && s.rdone.On?
    ensures var t := EndStep(s, at); t.rdone.On? && Rank(c, t) < Rank(c, s)
  {
  }

  lemma FillerRankDrops(c: Config, s: State, ch: Choice)
    requires FillerMay(c, s, ch) && s.rdone.On? && !AtService(s.fpc)
    ensures var t := FillerStep(c, s, ch); t.rdone.On? && Rank(c, t) < Rank(c, s)
  {
    hide Rank, StartStep, TopStep, ServeStep, WriteStep, CopyStep, EndStep, CopyInside, MayWake;
    match s.fpc
    case FStarting(at) => StartRankDrops(c, s, at);
    case FTop(at) => TopRankDrops(c, s, at);
    case FServing(at) => ServeRankDrops(c, s, at, ch);
    case FWriting(at) => WriteRankDrops(c, s, at);
    case FCopying(at) => CopyRankDrops(c, s, at);
    case FEnding(at) => EndRankDrops(c, s, at);
  }

  lemma ConsumerLeavesFiller(c: Config, s: State, ch: Choice)
    requires ConsumerMay(c, s, ch)
    ensures var t := ConsumerStep(c, s, ch);
            t.fpc == s.fpc && t.fn1 == s.fn1 && t.fn2 == s.fn2 && t.fi == s.fi
  {
    hide ReadRegions, RegionCell, MayWake;
  }

  lemma ConsumerRaisesOnly(c: Config, s: State, ch: Choice)
    requires ConsumerMay(c, s, ch)
    ensures var t := ConsumerStep(c, s, ch); (s.req.On? ==> t.req.On?) && (s.rdone.On? ==> t.rdone.On?)
  {
    hide ReadRegions, RegionCell, MayWake;
  }

  lemma ConsumerRankKeeps(c: Config, s: State, ch: Choice)
    requires ConsumerMay(c, s, ch) && s.rdone.On?
    ensures var t := ConsumerStep(c, s, ch); t.rdone.On? && Rank(c, t) <= Rank(c, s)
  {
    hide ConsumerMay, ConsumerStep;
    ConsumerLeavesFiller(c, s, ch);
    ConsumerRaisesOnly(c, s, ch);
  }

  function FillerSteps(steps: seq<Step>): nat {
    if steps == [] then 0 else (if steps[0].ByFiller? then 1 else 0) + FillerSteps(steps[1..])
  }

  /** No step of the run is taken by a filler at service. */
  predicate NeverAtService(c: Config, s: State, steps: seq<Step>)
    requires Legal(c, s, steps)
    decreases |steps|
  {
    steps == []
    || (!(steps[0].ByFiller? && AtService(s.fpc)) && NeverAtService(c, Do(c, s, steps[0]), steps[1..]))
  }

  lemma StepRank(c: Config, s: State, step: Step)
    requires Inv(c, s) && May(c, s, step) && s.rdone.On? && !(step.ByFiller? && AtService(s.fpc))
    ensures var t := Do(c, s, step);
            && t.rdone.On? && Rank(c, t) + (if step.ByFiller? then 1 else 0) <= Rank(c, s)
  {
    hide Inv, FillerStep, ConsumerStep, FillerMay, ConsumerMay;
    match step
    case ByFiller(ch) => FillerRankDrops(c, s, ch);
    case ByConsumer(ch) => ConsumerRankKeeps(c, s, ch);
    case ByClient(call) =>
  }

  /** A closed reading side is served or left within a bounded number of the filler's own steps. */
  lemma {:induction false} BoundedByRank(c: Config, s: State, steps: seq<Step>)
    requires Inv(c, s) && s.rdone.On? && Legal(c, s, steps) && NeverAtService(c, s, steps)
    ensures FillerSteps(steps) + Rank(c, After(c, s, steps)) <= Rank(c, s)
    decreases |steps|
  {
    hide Inv, Do, May, Rank, AtService;
    if steps != [] {
      StepKeeps(c, s, steps[0]);
      StepRank(c, s, steps[0]);
      BoundedByRank(c, Do(c, s, steps[0]), steps[1..]);
    }
  }

  // ----- a bound on serving a seek ----------------------------------------------------------------------

  /** A request is stored, and reading is closed unless the reset for it has begun. */
  predicate Pending(s: State) { s.req.On? && (s.rdone.On? || AtService(s.fpc)) }

  /** Steps of the filler to the clearing of the request. */
  function ServiceRank(at: ServePc): nat {
    match at case FReset0 => 5 case FReset1 => 4 case FReset2 => 3 case FReset3 => 2 case _ => 1
  }
  function SeekRank(c: Config, s: State): nat {
    if s.fpc.FServing? && AtService(s.fpc) then ServiceRank(s.fpc.serve) else 5 + Rank(c, s)
  }

  lemma ServiceDrops(c: Config, s: State, ch: Choice)
    requires FillerMay(c, s, ch) && s.req.On? && AtService(s.fpc)
    ensures var t := FillerStep(c, s, ch);
            t.req.On? ==> AtService(t.fpc) && SeekRank(c, t) < SeekRank(c, s)
  {
    hide Rank;
  }

  lemma FillerSeekRankDrops(c: Config, s: State, ch: Choice)
    requires FillerMay(c, s, ch) && Pending(s)
    ensures var t := FillerStep(c, s, ch);
            t.req.On? ==> Pending(t) && SeekRank(c, t) < SeekRank(c, s)
  {
    hide FillerStep, FillerMay, Rank;
    if AtService(s.fpc) {
      ServiceDrops(c, s, ch);
    } else {
      FillerRankDrops(c, s, ch);
    }
  }

  lemma ConsumerSeekRankKeeps(c: Config, s: State, ch: Choice)
    requires ConsumerMay(c, s, ch) && Pending(s)
    ensures var t := ConsumerStep(c, s, ch); Pending(t) && SeekRank(c, t) <= SeekRank(c, s)
  {
    hide ConsumerMay, ConsumerStep;
    ConsumerLeavesFiller(c, s, ch);
    ConsumerRaisesOnly(c, s, ch);
  }

  lemma StepSeekRank(c: Config, s: State, step: Step)
    requires Inv(c, s) && May(c, s, step) && Pending(s) && Do(c, s, step).req.On?
    ensures var t := Do(c, s, step);
            && Pending(t) && SeekRank(c, t) + (if step.ByFiller? then 1 else 0) <= SeekRank(c, s)
  {
    hide FillerStep, ConsumerStep, FillerMay, ConsumerMay, SeekRank, WellTyped, Locks, EndOfFile, Accounting, Sleep,
      Regional, Delivery;
    match step
    case ByFiller(ch) => FillerSeekRankDrops(c, s, ch);
    case ByConsumer(ch) => ConsumerSeekRankKeeps(c, s, ch);
    case ByClient(call) =>
  }

  /** The request is outstanding all through the run. */
  predicate StaysRequested(c: Config, s: State, steps: seq<Step>)
    requires Legal(c, s, steps)
    decreases |steps|
  {
    s.req.On? && (steps == [] || StaysRequested(c, Do(c, s, steps[0]), steps[1..]))
  }

  lemma {:induction false} BoundedBySeekRank(c: Config, s: State, steps: seq<Step>)
    requires Inv(c, s) && Pending(s) && Legal(c, s, steps) && StaysRequested(c, s, steps)
    ensures FillerSteps(steps) <= SeekRank(c, s)
    decreases |steps|
  {
    hide Inv, Do, May, SeekRank, Pending;
    if steps != [] {
      StepKeeps(c, s, steps[0]);
      StepSeekRank(c, s, steps[0]);
      BoundedBySeekRank(c, Do(c, s, steps[0]), steps[1..]);
    }
  }

  /**
   A pending seek is served: with the request stored and reading closed, the filler takes at most `size + 26` steps,
   in whatever interleaving, before the request is cleared. While no seek has failed it does not exit first: see
   `FillerOutlivesRequests`.
   */
  lemma SeekServedInTime(c: Config, s: State, steps: seq<Step>)
    requires Reachable(c, s) && s.req.On? && s.rdone.On? && Legal(c, s, steps) && StaysRequested(c, s, steps)
    ensures FillerSteps(steps) <= c.size + 26
  {
    hide Reachable, Inv, Legal, StaysRequested, Rank, AtService;
    ReachableInv(c, s);
    RankBounded(c, s);
    BoundedBySeekRank(c, s, steps);
  }

  lemma DyingStays(c: Config, s: State, step: Step)
    requires May(c, s, step) && Dying(s.cpc)
    ensures Dying(Do(c, s, step).cpc)
  {
    hide ReadRegions, WriteRegions, RegionCell, MayWake, AdvanceWrite, Length;
    match step
    case ByFiller(ch) => FillerLeavesConsumer(c, s, ch);
    case _ =>
  }

  lemma FillerLeavesConsumer(c: Config, s: State, ch: Choice)
    requires FillerMay(c, s, ch)
    ensures FillerStep(c, s, ch).cpc == s.cpc
  {
    hide WriteRegions, RegionCell, MayWake, AdvanceWrite;
  }

  lemma DyingHasNoRequest(c: Config, s: State)
    requires Inv(c, s) && Dying(s.cpc)
    ensures !AtService(s.fpc) && (s.fpc != FAbsent ==> s.rdone.On?)
  {
    hide Locks, EndOfFile, Accounting, Sleep, Regional, Delivery;
  }

  lemma {:induction false} DyingNeverServes(c: Config, s: State, steps: seq<Step>)
    requires Inv(c, s) && Dying(s.cpc) && Legal(c, s, steps)
    ensures NeverAtService(c, s, steps)
    decreases |steps|
  {
    hide Inv, Do, May, Dying, AtService;
    if steps != [] {
      DyingHasNoRequest(c, s);
      StepKeeps(c, s, steps[0]);
      DyingStays(c, s, steps[0]);
      DyingNeverServes(c, Do(c, s, steps[0]), steps[1..]);
    }
  }

  /**
   Safe shutdown: once the stream is being destroyed and reading is closed, the filler takes at most `size + 21`
   more steps in whatever interleaving.
   */
  lemma ShutdownInTime(c: Config, s: State, steps: seq<Step>)
    requires Reachable(c, s) && Dying(s.cpc) && s.fpc != FAbsent && Legal(c, s, steps)
    ensures FillerSteps(steps) <= 21 + c.size
  {
    hide Reachable, Inv, Legal, After, NeverAtService, Rank, Dying, AtService;
    ReachableInv(c, s);
    DyingHasNoRequest(c, s);
    DyingNeverServes(c, s, steps);
    RankBounded(c, s);
    BoundedByRank(c, s, steps);
  }
}
