/**
 What a short read leaves in the ring. The loop of `circbuf_read` loads `woff` and then `wdone`, and publications and
 the closing can fall in between: so a short read need not mean a drained ring. Exactly how much it can leave.
 */
module PrefetchDrained {
  import opened RingGeometry
  import opened PrefetchModel
  import opened PrefetchInvariant
  import opened PrefetchRuns
  import opened PrefetchSafety
  import opened PrefetchProgress
  import opened PrefetchTermination
  import opened PrefetchWitness
  import opened PrefetchCalls

  /** With reading open, a read has come up short and `k` bytes are in the ring. */
  predicate ShortLeaving(c: Config, s: State, k: nat) {
    && s.cpc == CReading(CRFinish) && |s.cout| < s.clen && s.rdone.Off?
    && WellTyped(c, s) && Unread(c, s) == k
  }

  ghost predicate MayLeave(c: Config, k: nat) {
    exists s :: Reachable(c, s) && ShortLeaving(c, s, k)
  }

  /** No more than fits with a cell to spare, and no more than there is. */
  lemma LeftoverBound(c: Config, s: State, k: nat)
    requires Reachable(c, s) && ShortLeaving(c, s, k)
    ensures k <= c.size - 2 && k <= |c.content|
  {
    hide Reachable, Sleep, Accounting;
    ShortReadIsAccounted(c, s);
    ReachableInv(c, s);
  }

  // ----- a run that leaves `k` bytes --------------------------------------------------------------------

  /**
   The client has sought the last `k` bytes, created the filler and begun a read of one byte; the read has found the
   ring empty and is about to load `wdone`.
   */
  function Looking(c: Config, k: nat): State
    requires k <= |c.content|
  {
    var from := |c.content| - k;
    Fresh(c).(coff := from, seekOff := from, cur := from, base := from, seekOk := On, pos := from, started := On,
              clen := 1, fpc := FTop(FTestR), cpc := CReading(CROuterW))
  }

  lemma TailSought(c: Config, k: nat) returns (s: State, run: seq<Step>)
    requires c.Valid() && k <= |c.content|
    ensures Leads(c, Fresh(c), run, s)
    ensures s == Looking(c, k).(started := Off, clen := 0, fpc := FAbsent, cpc := CIdle)
  {
    hide Leads;
    s, run := Fresh(c), [];
    Nothing(c, s);
    s, run := One(c, Fresh(c), run, s, ByClient(Seek(|c.content| - k)));
    s, run := One(c, Fresh(c), run, s, CONSUMER);
    s, run := One(c, Fresh(c), run, s, CONSUMER);
    s, run := One(c, Fresh(c), run, s, CONSUMER);
    s, run := One(c, Fresh(c), run, s, ByConsumer(Choice(true, false, false)));
    s, run := One(c, Fresh(c), run, s, CONSUMER);
    s, run := One(c, Fresh(c), run, s, CONSUMER);
  }

  lemma ReaderLooks(c: Config, k: nat) returns (s: State, run: seq<Step>)
    requires c.Valid() && k <= |c.content|
    ensures Leads(c, Fresh(c), run, s)
    ensures s == Looking(c, k)
  {
    hide Leads;
    s, run := TailSought(c, k);
    s, run := One(c, Fresh(c), run, s, ByClient(Create));
    s, run := One(c, Fresh(c), run, s, FILLER);
    s, run := One(c, Fresh(c), run, s, FILLER);
    s, run := One(c, Fresh(c), run, s, FILLER);
    s, run := One(c, Fresh(c), run, s, ByClient(Read(1)));
    s, run := One(c, Fresh(c), run, s, CONSUMER);
  }

  /** Where the filler is on its way to the end of the content, never having to wait. */
  predicate Onward(p: FillerPc) {
    || p.FTop? || p.FCopying?
    || (p.FWriting? && !p.write.FWCondWait? && !p.write.FWAsleep? && !p.write.FWRelock?)
    || p == FEnding(FELock) || p == FEnding(FKTest) || p == FEnding(FKLock) || p == FEnding(FKStore)
  }

  /** The filler runs on while the read is about to load `wdone`; the ring has room for the `k` bytes to come. */
  predicate Alone(c: Config, s: State, k: nat) {
    && k <= c.size - 2
    && s.cpc == CReading(CROuterW) && s.cout == [] && s.clen == 1
    && s.rdone.Off? && s.req.Off? && s.wdone.Off? && Onward(s.fpc)
    && s.base + k == |c.content| && s.cur <= |c.content|
  }

  /** The filler has just closed the writing side. */
  predicate ClosedAt(c: Config, s: State, k: nat) {
    && s.cpc == CReading(CROuterW) && s.cout == [] && s.clen == 1
    && s.rdone.Off? && s.wdone.On? && s.fpc == FEnding(FKSignal) && s.base + k == |c.content|
    && s.cur <= |c.content|
  }

  lemma NeverFull(c: Config, s: State, k: nat)
    requires Inv(c, s) && Alone(c, s, k)
    ensures !Full(c.size, s.roff, s.woff)
  {
    hide Locks, EndOfFile, Accounting, Sleep, Regional, Holds, IsSlice;
    WriteRegionsExact(c.size, s.roff, s.woff, 0);
  }

  lemma AloneCopies(c: Config, s: State, at: CopyPc, k: nat)
    requires Alone(c, s, k) && s.fpc == FCopying(at) && CopyInside(c, s, at)
    ensures Alone(c, CopyStep(c, s, at), k)
  {
    hide WriteRegions, AdvanceWrite, RegionCell;
  }

  lemma AloneTests(c: Config, s: State, at: TopPc, k: nat)
    requires Alone(c, s, k) && s.fpc == FTop(at) && !at.FTestQ?
    ensures Alone(c, TopStep(s, at), k)
  {
  }

  lemma AloneWrites(c: Config, s: State, at: WritePc, k: nat)
    requires Alone(c, s, k) && s.fpc == FWriting(at) && !Full(c.size, s.roff, s.woff)
    ensures Alone(c, WriteStep(c, s, at), k)
  {
    hide Full;
  }

  lemma AloneEnds(c: Config, s: State, at: EndPc, k: nat)
    requires Alone(c, s, k) && s.fpc == FEnding(at)
    ensures var t := EndStep(s, at); Alone(c, t, k) || ClosedAt(c, t, k)
  {
  }

  lemma AloneStep(c: Config, s: State, k: nat)
    requires Inv(c, s) && Alone(c, s, k)
    ensures FillerMay(c, s, Safe(s)) && !FillerSleeps(s)
    ensures var t := FillerStep(c, s, Safe(s)); Alone(c, t, k) || ClosedAt(c, t, k)
  {
    hide EndOfFile, Accounting, Sleep, Regional, Delivery, TopStep, WriteStep, CopyStep, EndStep,
      CopyInside, MayWake, Full;
    FillerStoppedByLock(c, s);
    NeverFull(c, s, k);
    if s.fpc.FCopying? {
      AloneCopies(c, s, s.fpc.copy, k);
    } else if s.fpc.FTop? {
      AloneTests(c, s, s.fpc.top, k);
    } else if s.fpc.FWriting? {
      AloneWrites(c, s, s.fpc.write, k);
    } else {
      AloneEnds(c, s, s.fpc.end, k);
    }
  }

  lemma {:induction false} RunsToClose(c: Config, s0: State, run0: seq<Step>, k: nat) returns (s: State, run: seq<Step>)
    requires Leads(c, Fresh(c), run0, s0) && Inv(c, s0) && (Alone(c, s0, k) || ClosedAt(c, s0, k))
    ensures Leads(c, Fresh(c), run, s) && Inv(c, s) && ClosedAt(c, s, k)
    decreases if Alone(c, s0, k) then 1 + 100 * Remaining(c.content, s0.cur) + OpenWork(c, s0) else 0
  {
    hide Leads, Inv, FillerMay, FillerStep, OpenWork, Remaining, FillerWaking;
    s, run := s0, run0;
    if Alone(c, s, k) {
      AloneStep(c, s, k);
      OpenWorkDrops(c, s, Safe(s));
      StepKeeps(c, s, ByFiller(Safe(s)));
      s, run := One(c, Fresh(c), run, s, ByFiller(Safe(s)));
      s, run := RunsToClose(c, s, run, k);
    }
  }

  /** A read of one byte ends with nothing, and the last `k` bytes of the content are in the ring. */
  lemma ShortReadLeaves(c: Config, k: nat)
    requires c.Valid() && k <= c.size - 2 && k <= |c.content|
    ensures MayLeave(c, k)
  {
    hide Leads, Reachable;
    var s, run := ReaderLooks(c, k);
    LeadsReaches(c, run, s);
    ReachableInv(c, s);
    s, run := RunsToClose(c, s, run, k);
    assert Inv(c, s) && s.cur >= |c.content|;
    s, run := One(c, Fresh(c), run, s, CONSUMER);
    LeadsReaches(c, run, s);
    assert ShortLeaving(c, s, k);
  }

  /**
   The exact measure: with reading open, a short read can leave `k` bytes in the ring if and only if `k` bytes fit
   with a cell to spare and the content has that many.
   */
  lemma LeftoverIff(c: Config, k: nat)
    requires c.Valid()
    ensures MayLeave(c, k) <==> k <= c.size - 2 && k <= |c.content|
  {
    hide Reachable, ShortLeaving;
    if MayLeave(c, k) {
      var s :| Reachable(c, s) && ShortLeaving(c, s, k);
      LeftoverBound(c, s, k);
    }
    if k <= c.size - 2 && k <= |c.content| {
      ShortReadLeaves(c, k);
    }
  }

  /** So a short read always means a drained ring only if the ring holds a single byte or there is no content. */
  lemma ShortMeansDrainedIff(c: Config)
    requires c.Valid()
    ensures (forall k :: MayLeave(c, k) ==> k == 0) <==> c.size == 2 || c.content == []
  {
    hide MayLeave;
    forall k: nat ensures MayLeave(c, k) <==> k <= c.size - 2 && k <= |c.content| {
      LeftoverIff(c, k);
    }
    assert MayLeave(c, 1) <==> 1 <= c.size - 2 && 1 <= |c.content|;
  }

  // ----- call by call -----------------------------------------------------------------------------------

  /** A read of `len` bytes from offset `pos`. */
  datatype Asked = Asked(pos: nat, len: nat, sealed: Flag)

  /** A read begun when the ring's bytes reached up to offset `end`, under way with reading open. */
  predicate ReadPast(end: nat, a: Asked, s: State) {
    && Reading(s.cpc) && a == Asked(s.pos, s.clen, s.sealed) && s.rdone.Off? && s.req.Off? && s.cur >= end + s.fi
    && (s.cpc == CReading(CROuterW) || (s.cpc == CReading(CRFinish) && |s.cout| < s.clen) ==> s.pos + |s.cout| >= end)
  }

  lemma FillerKeepsPast(c: Config, end: nat, a: Asked, s: State, ch: Choice)
    requires Inv(c, s) && ReadPast(end, a, s) && FillerMay(c, s, ch)
    ensures ReadPast(end, a, FillerStep(c, s, ch))
  {
    hide Locks, EndOfFile, Accounting, Sleep, Regional, Delivery, FillerMay, FillerStep;
    FillerStaysOut(c, s, ch);
    FillerTellsNothing(c, s, ch);
    FillerOnlyAdds(c, s, ch);
  }

  /** What is in the ring, unpublished or delivered is all the inner stream has given. */
  lemma ReadConserves(c: Config, s: State)
    requires Inv(c, s) && Reading(s.cpc)
    ensures WellTyped(c, s) && s.cur == s.pos + |s.cout| + Unread(c, s) + s.fi
  {
    hide EndOfFile, Accounting, Sleep, Holds, IsSlice;
  }

  lemma ReadKeepsPast(c: Config, end: nat, a: Asked, s: State, at: ReadPc)
    requires Inv(c, s) && ReadPast(end, a, s) && s.cpc == CReading(at) && !at.CRFinish?
    ensures ReadPast(end, a, ReadStep(s, at))
  {
    hide Inv;
    ReadConserves(c, s);
  }

  lemma DrainKeepsPast(c: Config, end: nat, a: Asked, s: State, at: DrainPc)
    requires ReadPast(end, a, s) && s.cpc == CDraining(at) && DrainInside(c, s, at)
    ensures ReadPast(end, a, DrainStep(c, s, at))
  {
    hide ReadRegions, RegionCell;
  }

  /** Every step of the run is taken while the read is under way, and it is not over. */
  predicate StillReading(c: Config, s: State, steps: seq<Step>)
    requires Legal(c, s, steps)
    decreases |steps|
  {
    Reading(s.cpc) && (steps == [] || StillReading(c, Do(c, s, steps[0]), steps[1..]))
  }

  lemma StepKeepsPast(c: Config, end: nat, a: Asked, s: State, step: Step)
    requires Inv(c, s) && ReadPast(end, a, s) && May(c, s, step) && Reading(Do(c, s, step).cpc)
    ensures ReadPast(end, a, Do(c, s, step))
  {
    hide Inv, FillerMay, FillerStep, DrainInside, DrainStep;
    match step
    case ByFiller(ch) => FillerKeepsPast(c, end, a, s, ch);
    case ByConsumer(ch) =>
      if s.cpc.CReading? {
        ReadKeepsPast(c, end, a, s, s.cpc.read);
      } else {
        DrainKeepsPast(c, end, a, s, s.cpc.drain);
      }
    case ByClient(call) =>
  }

  lemma {:induction false} RunKeepsPast(c: Config, end: nat, a: Asked, s: State, steps: seq<Step>)
    requires Inv(c, s) && ReadPast(end, a, s) && Legal(c, s, steps) && StillReading(c, s, steps)
    ensures var t := After(c, s, steps); ReadPast(end, a, t)
    decreases |steps|
  {
    hide Inv, ReadPast, May, Do, Reading;
    if steps != [] {
      StepKeeps(c, s, steps[0]);
      SecondStillReading(c, s, steps);
      StepKeepsPast(c, end, a, s, steps[0]);
      RunKeepsPast(c, end, a, Do(c, s, steps[0]), steps[1..]);
    }
  }

  lemma SecondStillReading(c: Config, s: State, steps: seq<Step>)
    requires steps != [] && Legal(c, s, steps) && StillReading(c, s, steps)
    ensures Reading(Do(c, s, steps[0]).cpc)
  {
    hide May, Do;
  }

  /**
   Call by call, with reading open: a short read has delivered all the ring held when it began, so it leaves no more
   than remained beyond that, and nothing if the writing side was closed.
   */
  lemma LeftoverOfCall(c: Config, s: State, len: nat, steps: seq<Step>, k: nat)
    requires Reachable(c, s) && s.cpc.CIdle? && s.rdone.Off?
    requires Legal(c, Begin(s, Read(len)), steps) && StillReading(c, Begin(s, Read(len)), steps)
    requires ShortLeaving(c, After(c, Begin(s, Read(len)), steps), k)
    ensures WellTyped(c, s) && k <= c.size - 2 && k + Unread(c, s) <= Remaining(c.content, s.pos)
    ensures s.wdone.On? ==> k == 0
  {
    hide Reachable, Inv, Legal, After, StillReading;
    var start, t := Begin(s, Read(len)), After(c, Begin(s, Read(len)), steps);
    ReachableInv(c, s);
    StepKeeps(c, s, ByClient(Read(len)));
    ReadConserves(c, start);
    ReadIsOpen(c, s, len);
    Nothing(c, start);
    RunKeepsPast(c, s.pos + Unread(c, s), Asked(s.pos, len, s.wdone), start, steps);
    First(c, s, ByClient(Read(len)), steps, t);
    ReachableOn(c, s, [ByClient(Read(len))] + steps, t);
    LeftoverBound(c, t, k);
    ShortReadIsAccounted(c, t);
  }

  lemma ReadIsOpen(c: Config, s: State, len: nat)
    requires Inv(c, s) && s.cpc.CIdle?
    ensures s.req.Off? && s.cout == []
    ensures s.rdone.Off? && s.wdone.On? ==> s.cur >= |c.content| && s.fi == 0
  {
    hide Locks, Sleep, Delivery;
  }

  /**
   Call by call, with reading open: a read begun after the writing side was closed, so in particular one begun at end
   of file, returns exactly the bytes asked for or all that remain.
   */
  lemma SealedCallIsExact(c: Config, s: State, len: nat, steps: seq<Step>)
    requires Reachable(c, s) && s.cpc.CIdle? && s.rdone.Off? && s.wdone.On?
    requires Legal(c, Begin(s, Read(len)), steps) && StillReading(c, Begin(s, Read(len)), steps)
    requires After(c, Begin(s, Read(len)), steps).cpc == CReading(CRFinish)
    ensures |After(c, Begin(s, Read(len)), steps).cout| == Least(len, Remaining(c.content, s.pos))
  {
    hide Reachable, Inv, Legal, After, StillReading;
    var start, t := Begin(s, Read(len)), After(c, Begin(s, Read(len)), steps);
    ReachableInv(c, s);
    StepKeeps(c, s, ByClient(Read(len)));
    ReadConserves(c, start);
    ReadIsOpen(c, s, len);
    Nothing(c, start);
    RunKeepsPast(c, s.pos + Unread(c, s), Asked(s.pos, len, s.wdone), start, steps);
    First(c, s, ByClient(Read(len)), steps, t);
    ReachableOn(c, s, [ByClient(Read(len))] + steps, t);
    SealedReadIsExact(c, t);
  }
}
