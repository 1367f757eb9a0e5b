/** Call by call: which calls can block for ever, decided before the call, and that every other call returns. */
module PrefetchCalls {
  import opened RingGeometry
  import opened PrefetchModel
  import opened PrefetchInvariant
  import opened PrefetchEnds
  import opened PrefetchRuns
  import opened PrefetchProgress
  import opened PrefetchWitness

  /** Only the two threads move. */
  predicate NoCalls(steps: seq<Step>) {
    forall i :: 0 <= i < |steps| ==> !steps[i].ByClient?
  }

  /** There is a run of the call after which, spurious wake-ups aside, no thread will ever run again. */
  ghost predicate MayBlock(c: Config, s: State, call: Call)
    requires MayCall(s, call)
  {
    exists steps ::
      Legal(c, Begin(s, call), steps) && NoCalls(steps) && Stuck(c, After(c, Begin(s, call), steps))
  }

  /**
   What decides it, before the call: for a seek the flag the filler's loop tests, for a read whether there is a
   filler at all.
   */
  predicate Blocks(s: State, call: Call) {
    match call
    case Create => false
    case Read(len) => s.fpc.FAbsent? && len > 0
    case Seek(off) => !s.fpc.FAbsent? && s.rdone.On?
    case Destroy => false
  }

  // ----- a call that does not block ---------------------------------------------------------------------

  /** A seek is under way with reading open or done by the client itself; a request has a filler to serve it. */
  predicate Attended(s: State) {
    && (s.cpc.CSeeking? ==> s.rdone.Off? || s.fpc.FAbsent?)
    && (s.req.On? ==> s.fpc != FDone)
    && (s.fpc.FAbsent? && Reading(s.cpc) ==> s.clen == 0 && (s.cpc == CReading(CROuter) || s.cpc == CReading(CRFinish)))
  }

  /** The filler neither opens reading without a request nor fetches with reading closed. */
  lemma FillerStaysOut(c: Config, s: State, ch: Choice)
    requires FillerMay(c, s, ch) && !Serving(s.fpc)
    ensures var t := FillerStep(c, s, ch);
            && t.rdone == s.rdone && t.req == s.req && (Halted(s.fpc) ==> t.cur == s.cur)
  {
    hide WriteRegions, AdvanceWrite, RegionCell, MayWake, Full, SignalWcond, Raise, CopyInside;
    match s.fpc
    case FStarting(at) =>
    case FTop(at) =>
    case FServing(at) =>
    case FWriting(at) =>
    case FCopying(at) =>
    case FEnding(at) =>
  }

  /** What the client is told changes only by the consumer. */
  lemma FillerTellsNothing(c: Config, s: State, ch: Choice)
    requires FillerMay(c, s, ch)
    ensures var t := FillerStep(c, s, ch);
            && t.cpc == s.cpc && t.clen == s.clen && t.cout == s.cout && t.pos == s.pos
            && t.eof == s.eof && t.sealed == s.sealed
  {
    hide WriteRegions, AdvanceWrite, RegionCell, MayWake, Full, SignalWcond, Raise, CopyInside;
    match s.fpc
    case FStarting(at) =>
    case FTop(at) =>
    case FServing(at) =>
    case FWriting(at) =>
    case FCopying(at) =>
    case FEnding(at) =>
  }

  /** What it has published never shrinks but by a reset. */
  lemma FillerOnlyAdds(c: Config, s: State, ch: Choice)
    requires FillerMay(c, s, ch) && !Serving(s.fpc) && s.fi <= s.cur
    ensures var t := FillerStep(c, s, ch); t.cur - t.fi >= s.cur - s.fi
  {
    hide WriteRegions, AdvanceWrite, RegionCell, MayWake, Full, SignalWcond, Raise, CopyInside;
    match s.fpc
    case FStarting(at) =>
    case FTop(at) =>
    case FServing(at) =>
    case FWriting(at) =>
    case FCopying(at) =>
    case FEnding(at) =>
  }

  lemma FillerNeverCloses(c: Config, s: State, ch: Choice)
    requires FillerMay(c, s, ch)
    ensures var t := FillerStep(c, s, ch); (t.rdone.On? ==> s.rdone.On?) && (t.req.On? ==> s.req.On?)
  {
    hide WriteRegions, AdvanceWrite, RegionCell, MayWake, Full;
  }

  lemma FillerExitsUnasked(c: Config, s: State, ch: Choice)
    requires FillerMay(c, s, ch)
    ensures var t := FillerStep(c, s, ch); t.fpc != FAbsent && (t.fpc == FDone ==> s.fpc != FDone && s.req.Off?)
  {
    hide WriteRegions, AdvanceWrite, RegionCell, MayWake, Full, SignalWcond, Raise, CopyInside;
    match s.fpc
    case FStarting(at) =>
    case FTop(at) =>
    case FServing(at) =>
    case FWriting(at) =>
    case FCopying(at) =>
    case FEnding(at) =>
  }

  /** There is a filler exactly if the client has created one. */
  lemma {:induction false} FillerExistsIff(c: Config, s: State, steps: seq<Step>)
    requires Legal(c, s, steps)
    ensures After(c, s, steps).fpc.FAbsent? <==> s.fpc.FAbsent? && ByClient(Create) !in steps
    decreases |steps|
  {
    hide FillerMay, ConsumerMay, FillerStep, ConsumerStep;
    if steps != [] {
      match steps[0] {
        case ByFiller(ch) =>
          FillerExitsUnasked(c, s, ch);
          AbsentNeverSteps(c, s, ch);
        case ByConsumer(ch) => ConsumerLeavesFiller(c, s, ch);
        case ByClient(call) =>
      }
      FillerExistsIff(c, Do(c, s, steps[0]), steps[1..]);
      assert steps == [steps[0]] + steps[1..];
    }
  }

  lemma AbsentNeverSteps(c: Config, s: State, ch: Choice)
    requires FillerMay(c, s, ch)
    ensures s.fpc != FAbsent
  {
  }

  lemma FillerKeepsAttended(c: Config, s: State, ch: Choice)
    requires Attended(s) && FillerMay(c, s, ch)
    ensures Attended(FillerStep(c, s, ch))
  {
    hide FillerStep;
    FillerLeavesConsumer(c, s, ch);
    FillerNeverCloses(c, s, ch);
    FillerExitsUnasked(c, s, ch);
    assert s.fpc != FAbsent;
    hide FillerMay;
  }

  lemma ReadKeepsAttended(s: State, at: ReadPc)
    requires Attended(s) && s.cpc == CReading(at)
    ensures Attended(ReadStep(s, at))
  {
  }

  lemma DrainKeepsAttended(c: Config, s: State, at: DrainPc)
    requires Attended(s) && s.cpc == CDraining(at) && DrainInside(c, s, at)
    ensures Attended(DrainStep(c, s, at))
  {
    hide ReadRegions, RegionCell;
  }

  lemma SeekKeepsAttended(c: Config, s: State, at: SeekPc, ch: Choice)
    requires Handshake(s) && Attended(s) && s.cpc == CSeeking(at) && ConsumerMay(c, s, ch)
    ensures Attended(SeekStep(s, at, ch))
  {
  }

  lemma ConsumerKeepsAttended(c: Config, s: State, ch: Choice)
    requires Inv(c, s) && Attended(s) && ConsumerMay(c, s, ch)
    ensures Attended(ConsumerStep(c, s, ch))
  {
    hide WellTyped, Locks, Handshake, EndOfFile, Accounting, Sleep, Delivery, Regional, DrainInside, MayWake, ReadStep,
      DrainStep, SeekStep;
    match s.cpc
    case CReading(at) => ReadKeepsAttended(s, at);
    case CDraining(at) => DrainKeepsAttended(c, s, at);
    case CSeeking(at) => SeekKeepsAttended(c, s, at, ch);
    case CClosing(at, who) =>
    case CWaiting(at) =>
    case CDestroying(at) =>
  }

  lemma {:induction false} RunKeepsAttended(c: Config, s: State, steps: seq<Step>)
    requires Inv(c, s) && Attended(s) && Legal(c, s, steps) && NoCalls(steps)
    ensures Attended(After(c, s, steps)) && Inv(c, After(c, s, steps))
    decreases |steps|
  {
    hide Inv, Attended, FillerMay, ConsumerMay, FillerStep, ConsumerStep;
    if steps != [] {
      StepKeeps(c, s, steps[0]);
      match steps[0] {
        case ByFiller(ch) => FillerKeepsAttended(c, s, ch);
        case ByConsumer(ch) => ConsumerKeepsAttended(c, s, ch);
      }
      RunKeepsAttended(c, Do(c, s, steps[0]), steps[1..]);
    }
  }

  lemma AttendedIsNotAbandoned(c: Config, s: State)
    requires Inv(c, s) && Attended(s)
    ensures !Abandoned(s)
  {
    hide Locks, Handshake, EndOfFile, Accounting, Regional, Delivery;
  }

  lemma BeginAttended(c: Config, s: State, call: Call)
    requires Inv(c, s) && MayCall(s, call) && !Blocks(s, call)
    ensures Attended(Begin(s, call))
  {
    hide Locks, EndOfFile, Accounting, Sleep, Regional, Delivery;
  }

  /** Deadlock freedom: a call that is not blocked from its beginning always has a thread to run. */
  lemma DeadlockFree(c: Config, s: State, call: Call, steps: seq<Step>)
    requires Reachable(c, s) && MayCall(s, call) && !Blocks(s, call)
    requires Legal(c, Begin(s, call), steps) && NoCalls(steps)
    ensures !Stuck(c, After(c, Begin(s, call), steps))
  {
    hide Reachable, Inv, Attended, Blocks, Begin, MayCall, Abandoned;
    ReachableInv(c, s);
    StepKeeps(c, s, ByClient(call));
    BeginAttended(c, s, call);
    RunKeepsAttended(c, Begin(s, call), steps);
    AttendedIsNotAbandoned(c, After(c, Begin(s, call), steps));
    StuckMeansAbandoned(c, After(c, Begin(s, call), steps));
  }

  // ----- a call that does -------------------------------------------------------------------------------

  lemma Another(c: Config, s: State, run: seq<Step>, t: State, step: Step) returns (u: State, longer: seq<Step>)
    requires Leads(c, s, run, t) && Inv(c, t) && NoCalls(run) && May(c, t, step) && !step.ByClient?
    ensures u == Do(c, t, step) && Leads(c, s, longer, u) && Inv(c, u) && NoCalls(longer)
  {
    hide Leads, Inv, May, Do;
    u, longer := One(c, s, run, t, step);
    StepKeeps(c, t, step);
  }

  /** A seek has begun with reading closed. */
  predicate SeekingShut(s: State) {
    s.cpc == CSeeking(CSParam) && s.rdone.On? && s.req.Off? && s.fpc != FAbsent
  }

  lemma ShutFillerRuns(c: Config, s: State)
    requires Inv(c, s) && SeekingShut(s) && s.fpc != FDone
    ensures FillerMay(c, s, Safe(s)) && !AtService(s.fpc)
    ensures SeekingShut(FillerStep(c, s, Safe(s))) && FillerStep(c, s, Safe(s)).coff == s.coff
  {
    hide EndOfFile, Accounting, Sleep, Regional, Delivery, WriteRegions, AdvanceWrite, RegionCell, MayWake,
      Full, CopyInside;
    FillerStoppedByLock(c, s);
  }

  /** The filler alone runs down to its exit. */
  lemma {:induction false} FillerExits(c: Config, start: State, s0: State, run0: seq<Step>)
    returns (s: State, run: seq<Step>)
    requires Leads(c, start, run0, s0) && NoCalls(run0) && Inv(c, s0) && SeekingShut(s0)
    ensures Leads(c, start, run, s) && NoCalls(run) && Inv(c, s) && SeekingShut(s) && s.fpc == FDone
    decreases Rank(c, s0)
  {
    hide Leads, Inv, FillerMay, FillerStep, SeekingShut, AtService, Rank;
    s, run := s0, run0;
    if s.fpc != FDone {
      ShutFillerRuns(c, s);
      ShutIsClosed(s);
      FillerRankDrops(c, s, Safe(s));
      s, run := Another(c, start, run, s, ByFiller(Safe(s)));
      s, run := FillerExits(c, start, s, run);
    }
  }

  lemma ShutIsClosed(s: State)
    requires SeekingShut(s)
    ensures s.rdone.On?
  {
  }

  /** With the filler gone, the seek stores its request and sleeps. */
  lemma SeekSleeps(c: Config, start: State, s0: State, run0: seq<Step>) returns (s: State, run: seq<Step>)
    requires Leads(c, start, run0, s0) && NoCalls(run0) && Inv(c, s0) && SeekingShut(s0) && s0.fpc == FDone
    ensures Leads(c, start, run, s) && NoCalls(run) && Inv(c, s) && Abandoned(s)
  {
    hide Leads, Inv;
    s, run := s0, run0;
    ExitedHoldsNothing(c, s);
    s, run := Another(c, start, run, s, CONSUMER);
    s, run := Another(c, start, run, s, CONSUMER);
    s, run := Another(c, start, run, s, CONSUMER);
    s, run := Another(c, start, run, s, CONSUMER);
    s, run := Another(c, start, run, s, CONSUMER);
    s, run := Another(c, start, run, s, CONSUMER);
    s, run := Another(c, start, run, s, CONSUMER);
    s, run := Another(c, start, run, s, CONSUMER);
  }

  lemma ExitedHoldsNothing(c: Config, s: State)
    requires Inv(c, s) && s.fpc == FDone && s.cpc.CSeeking? && s.cpc.seek.CSParam?
    ensures s.slock.Free? && s.started.On?
  {
    hide EndOfFile, Accounting, Sleep, Regional, Delivery;
  }

  /** With no filler ever created, a read finds the ring empty and sleeps. */
  lemma ReadSleeps(c: Config, s0: State, len: nat) returns (s: State, run: seq<Step>)
    requires Inv(c, s0) && s0.cpc.CIdle? && s0.fpc.FAbsent? && len > 0
    ensures Leads(c, Begin(s0, Read(len)), run, s) && NoCalls(run) && Inv(c, s) && Abandoned(s)
  {
    hide Leads, Inv;
    var start := Begin(s0, Read(len));
    StepKeeps(c, s0, ByClient(Read(len)));
    NothingWithoutFiller(c, s0);
    s, run := start, [];
    Nothing(c, s);
    s, run := Another(c, start, run, s, CONSUMER);
    s, run := Another(c, start, run, s, CONSUMER);
    s, run := Another(c, start, run, s, CONSUMER);
    s, run := Another(c, start, run, s, CONSUMER);
    s, run := Another(c, start, run, s, CONSUMER);
  }

  lemma NothingWithoutFiller(c: Config, s: State)
    requires Inv(c, s) && s.cpc.CIdle? && s.fpc.FAbsent?
    ensures s.wlock.Free? && s.roff == s.woff && s.wdone.Off? && s.cout == []
  {
    hide Accounting, Sleep, Delivery;
  }

  lemma BlockedRun(c: Config, s: State, call: Call)
    requires Inv(c, s) && MayCall(s, call) && Blocks(s, call)
    ensures MayBlock(c, s, call)
  {
    hide Inv, Legal, After, Stuck, Abandoned;
    var start := Begin(s, call);
    var t, run;
    if call.Read? {
      t, run := ReadSleeps(c, s, call.len);
    } else {
      StepKeeps(c, s, ByClient(call));
      IdleHasNoRequest(c, s);
      Nothing(c, start);
      t, run := FillerExits(c, start, start, []);
      t, run := SeekSleeps(c, start, t, run);
    }
    StuckMeansAbandoned(c, t);
  }

  lemma IdleHasNoRequest(c: Config, s: State)
    requires Inv(c, s) && s.cpc.CIdle?
    ensures s.req.Off?
  {
    hide Locks, EndOfFile, Accounting, Sleep, Regional, Delivery;
  }

  /**
   Which calls can block for ever: exactly a seek over a filler once reading has been left closed, and a read of
   something where no filler was created.
   */
  lemma CallBlocksIff(c: Config, s: State, call: Call)
    requires Reachable(c, s) && MayCall(s, call)
    ensures MayBlock(c, s, call) <==> Blocks(s, call)
  {
    hide Reachable, Inv, Blocks, Begin, MayCall, Stuck, NoCalls;
    if Blocks(s, call) {
      ReachableInv(c, s);
      BlockedRun(c, s, call);
    } else if MayBlock(c, s, call) {
      var steps :| Legal(c, Begin(s, call), steps) && NoCalls(steps) && Stuck(c, After(c, Begin(s, call), steps));
      DeadlockFree(c, s, call, steps);
    }
  }

  /** A run of a failed seek to `off` by a client that has not read anything. */
  lemma AfterFailedSeek(c: Config, off: int) returns (s: State, run: seq<Step>)
    requires c.Valid()
    ensures Leads(c, Fresh(c), run, s)
    ensures s == Fresh(c).(started := On, coff := off, seekOff := off, rdone := On, seekOk := Off, failed := On,
                           csig := On, fpc := FWriting(FWEntry))
  {
    hide Leads;
    s, run := FillerArrives(c);
    s, run := One(c, Fresh(c), run, s, FILLER);
    s, run := SeekRequested(c, s, run, off);
    s, run := SeekFails(c, s, run, off);
    s, run := FailureReported(c, s, run, off);
  }

  /**
   A failed seek does leave reading closed: for every stream and every offset there is a run to a state, at rest
   after the failed seek to it, in which a seek to any offset may wait for ever.
   */
  lemma FailedSeekBlocksNext(c: Config, off: int)
    requires c.Valid()
    ensures exists s ::
              && Reachable(c, s) && s.cpc.CIdle? && s.failed.On? && s.coff == off
              && forall next: int :: MayBlock(c, s, Seek(next))
  {
    hide Leads, Reachable, MayBlock;
    var s, run := AfterFailedSeek(c, off);
    LeadsReaches(c, run, s);
    forall next: int ensures MayBlock(c, s, Seek(next)) {
      CallBlocksIff(c, s, Seek(next));
    }
  }
}
