/**
 When a result of `circbuf_write2` below `len` means what its documentation says: if and only if the writer came up
 short or reading is closed. A reader that closes after the last byte breaks it.
 */
module PrefetchWrite {
  import opened RingGeometry
  import opened PrefetchModel
  import opened PrefetchInvariant
  import opened PrefetchEnds
  import opened PrefetchRuns
  import opened PrefetchSafety
  import opened PrefetchProgress
  import opened PrefetchTermination
  import opened PrefetchWitness

  /** What the documentation promises of a finished call. */
  predicate AsDocumented(c: Config, s: State) {
    s.written < c.step <==> s.feof.On? || s.rdone.On?
  }

  ghost predicate AlwaysAsDocumented(c: Config) {
    forall s :: Reachable(c, s) && s.fpc == FWriting(FWDone) ==> AsDocumented(c, s)
  }

  /** The filler begins to return from a write only at the end of the run. */
  predicate OneWrite(c: Config, s: State, steps: seq<Step>)
    requires Legal(c, s, steps)
    decreases |steps|
  {
    steps == []
    || (!(steps[0].ByFiller? && s.fpc == FWriting(FWDone)) && OneWrite(c, Do(c, s, steps[0]), steps[1..]))
  }

  /** The write about to begin can end with the documentation broken. */
  ghost predicate MayEndUndocumented(c: Config, s: State) {
    exists steps ::
      && Legal(c, s, steps) && OneWrite(c, s, steps)
      && After(c, s, steps).fpc == FWriting(FWDone) && !AsDocumented(c, After(c, s, steps))
  }

  // ----- a run that ends so -----------------------------------------------------------------------------

  lemma {:induction false} OneWriteOn(c: Config, s: State, run: seq<Step>, t: State, step: Step)
    requires Leads(c, s, run, t) && OneWrite(c, s, run) && May(c, t, step)
    requires !(step.ByFiller? && t.fpc == FWriting(FWDone))
    ensures Legal(c, s, run + [step]) && OneWrite(c, s, run + [step])
    decreases |run|
  {
    hide May, Do;
    if run == [] {
      assert run + [step] == [step] && [step][1..] == [];
    } else {
      OneWriteOn(c, Do(c, s, run[0]), run[1..], t, step);
      assert (run + [step])[1..] == run[1..] + [step];
    }
  }

  /** One more step of a write that does not return yet. */
  lemma Next(c: Config, start: State, run: seq<Step>, s: State, step: Step) returns (t: State, longer: seq<Step>)
    requires Leads(c, start, run, s) && OneWrite(c, start, run) && Inv(c, s) && May(c, s, step)
    requires s.fpc != FWriting(FWDone)
    ensures t == Do(c, s, step) && Leads(c, start, longer, t) && OneWrite(c, start, longer) && Inv(c, t)
  {
    hide Leads, Inv, May, Do;
    t, longer := One(c, start, run, s, step);
    OneWriteOn(c, start, run, s, step);
    StepKeeps(c, s, step);
  }

  /** The filler is in a write, there is content for all of it, and the client reads up to its end. */
  predicate WholeWrite(c: Config, s: State) {
    && Reading(s.cpc) && s.pos + s.clen == s.entry + c.step
    && InWrite(s.fpc) && s.feof.Off? && s.entry + c.step <= |c.content|
    && s.rdone.Off? && s.req.Off?
  }

  /** The last byte is written and the loop about to find out. */
  predicate AllWritten(c: Config, s: State) {
    s.fpc == FWriting(FWLoop) && s.written == c.step
  }

  lemma WriteKeepsWhole(c: Config, s: State, at: WritePc)
    requires WholeWrite(c, s) && Accounting(c, s) && s.fpc == FWriting(at) && !AllWritten(c, s)
    ensures WholeWrite(c, WriteStep(c, s, at))
  {
    hide Full;
  }

  lemma CopyKeepsWhole(c: Config, s: State, at: CopyPc)
    requires WholeWrite(c, s) && Accounting(c, s) && s.fpc == FCopying(at) && CopyInside(c, s, at)
    ensures WholeWrite(c, CopyStep(c, s, at))
  {
    hide WriteRegions, AdvanceWrite, RegionCell;
  }

  lemma FillerKeepsWhole(c: Config, s: State, ch: Choice)
    requires Inv(c, s) && WholeWrite(c, s) && !AllWritten(c, s) && FillerMay(c, s, ch)
    ensures WholeWrite(c, FillerStep(c, s, ch))
  {
    hide Locks, Handshake, EndOfFile, Accounting, Sleep, Regional, Delivery, WriteStep, CopyStep, CopyInside;
    if s.fpc.FCopying? {
      CopyKeepsWhole(c, s, s.fpc.copy);
    } else {
      WriteKeepsWhole(c, s, s.fpc.write);
    }
  }

  lemma ConsumerKeepsWhole(c: Config, s: State, ch: Choice)
    requires WholeWrite(c, s) && ConsumerMay(c, s, ch) && s.cpc != CReading(CRFinish)
    ensures var t := ConsumerStep(c, s, ch);
            WholeWrite(c, t) && t.fpc == s.fpc && t.written == s.written
  {
    hide ReadRegions, RegionCell;
  }

  /** The read cannot be finished while the filler sleeps or waits for a mutex. */
  lemma ReadWaitsForWrite(c: Config, s: State)
    requires Inv(c, s) && WholeWrite(c, s) && (FillerSleeps(s) || FillerLockedOut(s))
    ensures s.cpc != CReading(CRFinish) && !ConsumerSleeps(s) && !ConsumerLockedOut(s)
  {
    hide Holds, IsSlice;
    if ConsumerSleeps(s) || ConsumerLockedOut(s) {
      BlockedMeansAbandoned(c, s);
    }
  }

  /** The two threads together finish the first write. */
  lemma {:induction false} WriteRuns(c: Config, start: State, s0: State, run0: seq<Step>)
    returns (s: State, run: seq<Step>)
    requires Leads(c, start, run0, s0) && OneWrite(c, start, run0) && Inv(c, s0) && WholeWrite(c, s0)
    ensures Leads(c, start, run, s) && OneWrite(c, start, run) && Inv(c, s) && WholeWrite(c, s) && AllWritten(c, s)
    decreases Work(c, s0)
  {
    hide Leads, Inv, FillerMay, ConsumerMay, FillerStep, ConsumerStep, Work, FillerLockedOut, ConsumerLockedOut,
      FillerSleeps, ConsumerSleeps;
    s, run := s0, run0;
    if !AllWritten(c, s) {
      var step;
      if FillerSleeps(s) || FillerLockedOut(s) {
        ReadWaitsForWrite(c, s);
        ConsumerStoppedByLock(c, s);
        ConsumerKeepsWhole(c, s, Safe(s));
        step := ByConsumer(Safe(s));
      } else {
        FillerStoppedByLock(c, s);
        FillerKeepsWhole(c, s, Safe(s));
        step := ByFiller(Safe(s));
      }
      StepLowersWork(c, s, step);
      s, run := Next(c, start, run, s, step);
      s, run := WriteRuns(c, start, s, run);
    }
  }

  lemma ReaderGoesOn(c: Config, s: State)
    requires Inv(c, s) && WholeWrite(c, s) && AllWritten(c, s)
    ensures ConsumerMay(c, s, Safe(s)) && !ConsumerSleeps(s)
  {
    hide EndOfFile, Holds, IsSlice, MayWake, DrainInside;
    ConsumerStoppedByLock(c, s);
    hide ConsumerMay;
  }

  /** The filler has written all it was asked to and is about to find out; the client is at rest. */
  predicate WrittenAtRest(c: Config, s: State) {
    AllWritten(c, s) && s.feof.Off? && s.rdone.Off? && s.cpc.CIdle?
  }

  lemma FinishKeepsWritten(c: Config, s: State)
    requires WholeWrite(c, s) && AllWritten(c, s) && s.cpc == CReading(CRFinish)
    ensures WrittenAtRest(c, ReadStep(s, CRFinish))
  {
  }

  /** The reader alone finishes the read. */
  lemma {:induction false} ReadRuns(c: Config, start: State, s0: State, run0: seq<Step>)
    returns (s: State, run: seq<Step>)
    requires Leads(c, start, run0, s0) && OneWrite(c, start, run0)
    requires Inv(c, s0) && WholeWrite(c, s0) && AllWritten(c, s0)
    ensures Leads(c, start, run, s) && OneWrite(c, start, run) && Inv(c, s) && WrittenAtRest(c, s)
    decreases Work(c, s0)
  {
    hide Leads, Inv, Work, ConsumerMay, ConsumerSleeps, WholeWrite, WrittenAtRest, ReadStep, DrainStep;
    ReaderGoesOn(c, s0);
    var step := ByConsumer(Safe(s0));
    s, run := Next(c, start, run0, s0, step);
    if s0.cpc == CReading(CRFinish) {
      FinishKeepsWritten(c, s0);
    } else {
      ConsumerKeepsWhole(c, s0, Safe(s0));
      StaysWritten(c, s0, s);
      WholeReads(c, s0);
      StepLowersWork(c, s0, step);
      s, run := ReadRuns(c, start, s, run);
    }
  }

  lemma StaysWritten(c: Config, s: State, t: State)
    requires AllWritten(c, s) && t.fpc == s.fpc && t.written == s.written
    ensures AllWritten(c, t)
  {
  }

  lemma WholeReads(c: Config, s: State)
    requires WholeWrite(c, s)
    ensures Reading(s.cpc)
  {
  }

  /** A seek closes reading, and the write returns all it was asked for. */
  lemma ClosedAfterwards(c: Config, start: State, s0: State, run0: seq<Step>) returns (s: State, run: seq<Step>)
    requires Leads(c, start, run0, s0) && OneWrite(c, start, run0) && Inv(c, s0) && WrittenAtRest(c, s0)
    ensures Leads(c, start, run, s) && OneWrite(c, start, run) && s.fpc == FWriting(FWDone) && !AsDocumented(c, s)
  {
    hide Leads, Inv;
    s, run := s0, run0;
    NobodyHolds(c, s);
    s, run := Next(c, start, run, s, ByClient(Seek(0)));
    s, run := Next(c, start, run, s, CONSUMER);
    s, run := Next(c, start, run, s, CONSUMER);
    s, run := Next(c, start, run, s, CONSUMER);
    s, run := Next(c, start, run, s, CONSUMER);
    s, run := Next(c, start, run, s, CONSUMER);
    s, run := Next(c, start, run, s, CONSUMER);
    s, run := Next(c, start, run, s, CONSUMER);
    s, run := Next(c, start, run, s, FILLER);
  }

  lemma NobodyHolds(c: Config, s: State)
    requires Inv(c, s) && WrittenAtRest(c, s)
    ensures s.slock.Free? && s.rlock.Free? && s.started.On?
  {
    hide EndOfFile, Accounting, Sleep, Regional, Delivery;
  }

  /** What decides it, before the write: reading is open and there is content for all of it. */
  predicate CanFill(c: Config, s: State) {
    s.rdone.Off? && s.cur + c.step <= |c.content|
  }

  lemma WholeWriteBegins(c: Config, start: State) returns (s: State, run: seq<Step>)
    requires Inv(c, start) && start.fpc == FWriting(FWEntry) && start.cpc.CIdle? && CanFill(c, start)
    ensures Leads(c, start, run, s) && OneWrite(c, start, run) && Inv(c, s) && WholeWrite(c, s)
  {
    hide Leads, Inv;
    s, run := start, [];
    Nothing(c, s);
    AtRest(c, s);
    s, run := Next(c, start, run, s, FILLER);
    s, run := Next(c, start, run, s, ByClient(Read(start.cur + c.step - start.pos)));
  }

  lemma AtRest(c: Config, s: State)
    requires Inv(c, s) && s.cpc.CIdle? && s.fpc == FWriting(FWEntry)
    ensures s.req.Off? && s.pos <= s.cur && c.step > 0
  {
    hide EndOfFile, Accounting, Sleep;
  }

  /** A run in which a full write ends with reading closed and no short writer. */
  lemma FullWriteUnderClosedReader(c: Config, s: State)
    requires Reachable(c, s) && s.fpc == FWriting(FWEntry) && s.cpc.CIdle? && CanFill(c, s)
    ensures MayEndUndocumented(c, s)
  {
    hide Leads, Reachable, Inv, WholeWrite, AllWritten, WrittenAtRest, AsDocumented, CanFill, OneWrite;
    ReachableInv(c, s);
    var t, run := WholeWriteBegins(c, s);
    t, run := WriteRuns(c, s, t, run);
    t, run := ReadRuns(c, s, t, run);
    t, run := ClosedAfterwards(c, s, t, run);
    LeadsTo(c, s, run, t);
  }

  lemma LeadsTo(c: Config, s: State, run: seq<Step>, t: State)
    requires Leads(c, s, run, t)
    ensures Legal(c, s, run) && After(c, s, run) == t
  {
  }

  // ----- a write that cannot ----------------------------------------------------------------------------

  /** During the write that begins in state `from`. */
  predicate WriteFrom(from: State, s: State) {
    && s.started.On?
    && (s.fpc == FWriting(FWEntry) ==> s.cur == from.cur && (from.rdone.On? ==> s.rdone.On?))
    && (InCall(s.fpc) ==> s.entry == from.cur)
    && (s.fpc == FWriting(FWEntry) || InCall(s.fpc))
    && (from.rdone.On? ==> s.fpc == FWriting(FWEntry) || (s.fpc == FWriting(FWDone) && s.written == 0))
  }

  lemma WriteKeepsFrom(c: Config, from: State, s: State, ch: Choice)
    requires WriteFrom(from, s) && FillerMay(c, s, ch) && s.fpc != FWriting(FWDone)
    ensures WriteFrom(from, FillerStep(c, s, ch))
  {
    hide WriteRegions, AdvanceWrite, RegionCell, Full;
    match s.fpc
    case FWriting(at) =>
    case FCopying(at) =>
  }

  lemma ConsumerKeepsFrom(c: Config, from: State, s: State, ch: Choice)
    requires Inv(c, s) && WriteFrom(from, s) && ConsumerMay(c, s, ch)
    ensures WriteFrom(from, ConsumerStep(c, s, ch))
  {
    hide ConsumerMay, ConsumerStep;
    ConsumerLeavesFiller(c, s, ch);
    ConsumerRaisesOnly(c, s, ch);
    ConsumerLeavesWrite(c, s, ch);
    StartedIsNotDirect(c, s);
  }

  lemma StartedIsNotDirect(c: Config, s: State)
    requires Inv(c, s) && s.started.On?
    ensures s.cpc != CSeeking(CSDirect)
  {
    hide Locks, EndOfFile, Accounting, Sleep, Regional, Delivery;
  }

  lemma ConsumerLeavesWrite(c: Config, s: State, ch: Choice)
    requires ConsumerMay(c, s, ch)
    ensures var t := ConsumerStep(c, s, ch);
            && t.entry == s.entry && t.written == s.written && t.started == s.started
            && (s.cpc != CSeeking(CSDirect) ==> t.cur == s.cur)
  {
    hide ReadRegions, RegionCell, MayWake;
    match s.cpc
    case CReading(at) =>
    case CDraining(at) =>
    case CSeeking(at) =>
    case CClosing(at, who) =>
    case CWaiting(at) =>
    case CDestroying(at) =>
  }

  lemma {:induction false} RunKeepsFrom(c: Config, from: State, s: State, steps: seq<Step>)
    requires Inv(c, s) && Ends(c, s) && WriteFrom(from, s) && Legal(c, s, steps) && OneWrite(c, s, steps)
    ensures var t := After(c, s, steps); Inv(c, t) && Ends(c, t) && WriteFrom(from, t)
    decreases |steps|
  {
    hide Inv, Ends, FillerMay, ConsumerMay, FillerStep, ConsumerStep;
    if steps != [] {
      StepKeeps(c, s, steps[0]);
      StepKeepsEnds(c, s, steps[0]);
      match steps[0] {
        case ByFiller(ch) => WriteKeepsFrom(c, from, s, ch);
        case ByConsumer(ch) => ConsumerKeepsFrom(c, from, s, ch);
        case ByClient(call) =>
      }
      RunKeepsFrom(c, from, Do(c, s, steps[0]), steps[1..]);
    }
  }

  /** Only a write that fetched all it was asked for ends undocumented. */
  lemma UndocumentedIsFull(c: Config, from: State, s: State)
    requires Inv(c, s) && Ends(c, s) && WriteFrom(from, s) && s.fpc == FWriting(FWDone) && !AsDocumented(c, s)
    ensures CanFill(c, from)
  {
    hide Locks, Handshake, EndOfFile, Sleep, Regional, Delivery, ShortLeavesRoom;
  }

  /**
   Call by call, from a state in which the client is at rest and a write is about to begin: it can end with the
   documentation broken if and only if reading is open and the content can fill it.
   */
  lemma UndocumentedIff(c: Config, s: State)
    requires Reachable(c, s) && s.fpc == FWriting(FWEntry) && s.cpc.CIdle?
    ensures MayEndUndocumented(c, s) <==> CanFill(c, s)
  {
    hide Reachable, Inv, Ends, AsDocumented, CanFill, OneWrite;
    if CanFill(c, s) {
      FullWriteUnderClosedReader(c, s);
    } else if MayEndUndocumented(c, s) {
      var steps :|
        && Legal(c, s, steps) && OneWrite(c, s, steps)
        && After(c, s, steps).fpc == FWriting(FWDone) && !AsDocumented(c, After(c, s, steps));
      ReachableInv(c, s);
      ReachableEnds(c, s);
      WriteBegins(c, s);
      RunKeepsFrom(c, s, s, steps);
      UndocumentedIsFull(c, s, After(c, s, steps));
    }
  }

  lemma WriteBegins(c: Config, s: State)
    requires Inv(c, s) && s.fpc == FWriting(FWEntry)
    ensures WriteFrom(s, s)
  {
    hide Locks, EndOfFile, Accounting, Sleep, Regional, Delivery;
  }

  // ----- stream by stream -------------------------------------------------------------------------------

  lemma FirstWrite(c: Config) returns (s: State)
    requires c.Valid() && c.step <= |c.content|
    ensures Reachable(c, s) && s.fpc == FWriting(FWEntry) && s.cpc.CIdle? && CanFill(c, s)
  {
    hide Leads, Reachable;
    var run;
    s, run := FillerArrives(c);
    s, run := One(c, Fresh(c), run, s, FILLER);
    s, run := One(c, Fresh(c), run, s, FILLER);
    LeadsReaches(c, run, s);
  }

  /** Where the content cannot fill one write, every finished call is as documented. */
  lemma ShortContentIsDocumented(c: Config, s: State)
    requires |c.content| < c.step && Reachable(c, s) && s.fpc == FWriting(FWDone)
    ensures AsDocumented(c, s)
  {
    hide Reachable;
    WriteTwoAccounts(c, s);
    ReachableEnds(c, s);
  }

  /** The exact condition: the documentation holds of every finished call if and only if no write can be filled. */
  lemma DocumentedIff(c: Config)
    requires c.Valid()
    ensures AlwaysAsDocumented(c) <==> |c.content| < c.step
  {
    hide Reachable, AsDocumented, OneWrite, CanFill;
    if |c.content| < c.step {
      forall s | Reachable(c, s) && s.fpc == FWriting(FWDone) ensures AsDocumented(c, s) {
        ShortContentIsDocumented(c, s);
      }
    } else {
      var s := FirstWrite(c);
      FullWriteUnderClosedReader(c, s);
      var steps :|
        && Legal(c, s, steps) && OneWrite(c, s, steps)
        && After(c, s, steps).fpc == FWriting(FWDone) && !AsDocumented(c, After(c, s, steps));
      ReachableOn(c, s, steps, After(c, s, steps));
    }
  }
}
