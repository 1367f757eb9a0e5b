/**
 What can be had: from any state at rest with a filler and reading open, a seek to an offset the inner stream accepts
 can succeed, and the read after it can return all there is.
 */
module PrefetchSuccess {
  import opened RingGeometry
  import opened PrefetchModel
  import opened PrefetchInvariant
  import opened PrefetchEnds
  import opened PrefetchRuns
  import opened PrefetchProgress
  import opened PrefetchTermination
  import opened PrefetchWitness
  import opened PrefetchCalls
  import opened PrefetchReturns

  // ----- histories built step by step --------------------------------------------------------------------

  lemma {:induction false} HistoryOn(c: Config, s: State, w: Watch, run: seq<Step>, t: State, step: Step)
    requires Leads(c, s, run, t) && May(c, t, step)
    ensures Legal(c, s, run + [step])
    ensures WatchAfter(c, s, w, run + [step]) == Watching(WatchAfter(c, s, w, run), t, step)
    ensures History(c, s, w, run + [step]) == History(c, s, w, run) + Answers(WatchAfter(c, s, w, run), t, step)
    decreases |run|
  {
    hide May, Do, Watching, Answers;
    if run == [] {
      assert run + [step] == [step] && [step][1..] == [];
    } else {
      HistoryOn(c, Do(c, s, run[0]), Watching(w, s, run[0]), run[1..], t, step);
      assert (run + [step])[1..] == run[1..] + [step];
    }
  }

  /** A run, what the client has been told in it and what it waits for. */
  ghost predicate Tells(c: Config, start: State, run: seq<Step>, s: State, events: seq<Event>, w: Watch) {
    && Leads(c, start, run, s) && Inv(c, s) && Ends(c, s) && Watched(s, w)
    && Legal(c, start, run) && History(c, start, NOBODY, run) == events && WatchAfter(c, start, NOBODY, run) == w
  }

  lemma OneMore(c: Config, start: State, run: seq<Step>, s: State, events: seq<Event>, w: Watch, step: Step)
    returns (t: State, longer: seq<Step>)
    requires Tells(c, start, run, s, events, w) && May(c, s, step)
    ensures t == Do(c, s, step)
    ensures Tells(c, start, longer, t, events + Answers(w, s, step), Watching(w, s, step))
  {
    hide Leads, Inv, Ends, Watched, Watching, Answers, May, Do;
    t, longer := One(c, start, run, s, step);
    StepKeeps(c, s, step);
    StepKeepsEnds(c, s, step);
    StepWatched(c, s, w, step);
    HistoryOn(c, start, NOBODY, run, s, step);
  }

  // ----- a seek that succeeds ----------------------------------------------------------------------------

  /** As `Safe`, but an inner seek succeeds if its offset allows it. */
  function Keen(s: State): Choice { Safe(s).(ok := s.seekOff >= 0) }

  lemma KeenMay(c: Config, s: State)
    ensures FillerMay(c, s, Safe(s)) ==> FillerMay(c, s, Keen(s))
    ensures ConsumerMay(c, s, Safe(s)) ==> ConsumerMay(c, s, Keen(s))
  {
    hide CopyInside, DrainInside;
  }

  /** A step some thread can take, with the keen choice. */
  lemma KeenStep(c: Config, s: State) returns (step: Step)
    requires Inv(c, s) && Busy(s.cpc) && !Abandoned(s)
    ensures step == ByFiller(Keen(s)) || step == ByConsumer(Keen(s))
    ensures May(c, s, step) && Genuine(s, step)
  {
    hide Inv, Abandoned, FillerMay, ConsumerMay, FillerLockedOut, ConsumerLockedOut, FillerSleeps, ConsumerSleeps;
    KeenMay(c, s);
    ConsumerStoppedByLock(c, s);
    if s.fpc != FAbsent && s.fpc != FDone && !FillerSleeps(s) && !FillerLockedOut(s) {
      FillerStoppedByLock(c, s);
      step := ByFiller(Keen(s));
    } else {
      if ConsumerSleeps(s) || ConsumerLockedOut(s) {
        BlockedMeansAbandoned(c, s);
      }
      step := ByConsumer(Keen(s));
    }
  }

  /** In a seek to `off` all of whose inner seeks succeed. */
  predicate Hopeful(s: State, off: int) {
    && off >= 0 && s.coff == off && (s.cpc.CSeeking? && !s.cpc.seek.CSParam? ==> s.seekOff == off)
    && (s.cpc.CSeeking? || (s.cpc.CClosing? && s.cpc.closer.BySeek?) || s.cpc.CWaiting?)
    && (!s.cpc.CSeeking? && Tried(s) ==> s.seekOk.On?)
  }

  lemma HopefulFiller(c: Config, s: State, off: int)
    requires Inv(c, s) && Hopeful(s, off) && FillerMay(c, s, Keen(s))
    ensures Hopeful(FillerStep(c, s, Keen(s)), off)
  {
    hide Locks, EndOfFile, Accounting, Sleep, Regional, Delivery, FillerMay, FillerStep, Tried;
    FillerLeavesCall(c, s, Keen(s));
    FillerTries(c, s, Keen(s));
    FillerLeavesOffset(c, s, Keen(s));
    OnlySeeksAreTried(s);
  }

  lemma FillerLeavesOffset(c: Config, s: State, ch: Choice)
    requires FillerMay(c, s, ch)
    ensures FillerStep(c, s, ch).seekOff == s.seekOff
  {
    hide WriteRegions, AdvanceWrite, RegionCell, MayWake, Full, SignalWcond, Raise, CopyInside;
    match s.fpc
    case FStarting(at) =>
    case FTop(at) =>
    case FServing(at) =>
    case FWriting(at) =>
    case FCopying(at) =>
    case FEnding(at) =>
  }

  lemma HopefulSeeks(c: Config, s: State, at: SeekPc, off: int)
    requires Handshake(s) && Hopeful(s, off) && s.cpc == CSeeking(at) && ConsumerMay(c, s, Keen(s))
    ensures Hopeful(SeekStep(s, at, Keen(s)), off)
  {
  }

  lemma HopefulWaits(c: Config, s: State, at: WaitPc, off: int)
    requires Hopeful(s, off) && s.cpc == CWaiting(at) && ConsumerMay(c, s, Keen(s)) && !at.CSFinish?
    ensures Hopeful(WaitStep(s, at, Keen(s)), off)
  {
    hide MayWake;
  }

  lemma HopefulCloses(s: State, at: ClosePc, off: int)
    requires Hopeful(s, off) && s.cpc == CClosing(at, BySeek)
    ensures Hopeful(CloseStep(s, at, BySeek), off)
  {
  }

  lemma HopefulConsumer(c: Config, s: State, off: int)
    requires Inv(c, s) && Hopeful(s, off) && ConsumerMay(c, s, Keen(s)) && s.cpc != CWaiting(CSFinish)
    ensures Hopeful(ConsumerStep(c, s, Keen(s)), off)
  {
    hide Locks, EndOfFile, Accounting, Sleep, Regional, Delivery, Handshake, MayWake, SeekStep, CloseStep, WaitStep;
    match s.cpc
    case CSeeking(at) => HopefulSeeks(c, s, at, off);
    case CClosing(at, who) => HopefulCloses(s, at, off);
    case CWaiting(at) => HopefulWaits(c, s, at, off);
  }

  /** A seek that succeeded leaves the client at its offset with reading open. */
  lemma SeekSucceeds(c: Config, s: State, off: int, w: Watch)
    requires Inv(c, s) && Ends(c, s) && Watched(s, w) && Hopeful(s, off) && s.cpc == CWaiting(CSFinish)
    ensures var step, t := ByConsumer(Keen(s)), ConsumerStep(c, s, Keen(s));
            && ConsumerMay(c, s, Keen(s))
            && Answers(w, s, step) == [Answer(Some(Seek(off)), [true], Sought(true, None))]
            && Watching(w, s, step) == NOBODY && t.cpc.CIdle? && t.pos == off && t.rdone.Off? && t.fpc == s.fpc
  {
    hide Locks, EndOfFile, Accounting, Sleep, Regional, Delivery;
  }

  lemma {:induction false} SeekRuns(c: Config, start: State, off: int, s0: State, run0: seq<Step>, w0: Watch)
    returns (s: State, run: seq<Step>)
    requires Tells(c, start, run0, s0, [], w0) && Hopeful(s0, off) && Attended(s0) && s0.fpc != FAbsent
    ensures Tells(c, start, run, s, [Answer(Some(Seek(off)), [true], Sought(true, None))], NOBODY)
    ensures s.cpc.CIdle? && s.pos == off && s.rdone.Off? && s.fpc != FAbsent
    decreases Potential(c, s0)
  {
    hide Tells, Inv, Ends, Watched, Watching, Answers, Attended, Hopeful, Potential, FillerMay, ConsumerMay, FillerStep,
      ConsumerStep, Abandoned, FillerSleeps, ConsumerSleeps;
    TellsFacts(c, start, run0, s0, [], w0);
    HopefulIsBusy(s0, off);
    if s0.cpc == CWaiting(CSFinish) {
      SeekSucceeds(c, s0, off, w0);
      var answer := [Answer(Some(Seek(off)), [true], Sought(true, None))];
      assert [] + answer == answer;
      s, run := OneMore(c, start, run0, s0, [], w0, ByConsumer(Keen(s0)));
    } else {
      AttendedIsNotAbandoned(c, s0);
      var step := KeenStep(c, s0);
      StepLowersPotential(c, s0, step);
      s, run := OneMore(c, start, run0, s0, [], w0, step);
      if step.ByFiller? {
        HopefulFiller(c, s0, off);
        FillerKeepsAttended(c, s0, Keen(s0));
        FillerExitsUnasked(c, s0, Keen(s0));
      } else {
        HopefulConsumer(c, s0, off);
        ConsumerKeepsAttended(c, s0, Keen(s0));
        ConsumerLeavesFiller(c, s0, Keen(s0));
      }
      NotAnswered(s0, w0, step);
      assert [] + Answers(w0, s0, step) == [];
      s, run := SeekRuns(c, start, off, s, run, Watching(w0, s0, step));
    }
  }

  lemma HopefulIsBusy(s: State, off: int)
    requires Hopeful(s, off)
    ensures Busy(s.cpc) && !Reading(s.cpc)
  {
  }

  lemma NotAnswered(s: State, w: Watch, step: Step)
    requires (s.cpc != CWaiting(CSFinish) && s.cpc != CReading(CRFinish)) || !step.ByConsumer?
    ensures Answers(w, s, step) == []
  {
  }

  lemma TellsFacts(c: Config, start: State, run: seq<Step>, s: State, events: seq<Event>, w: Watch)
    requires Tells(c, start, run, s, events, w)
    ensures Inv(c, s) && Ends(c, s) && Watched(s, w) && Legal(c, start, run) && History(c, start, NOBODY, run) == events
  {
  }

  // ----- a read that returns all there is ----------------------------------------------------------------

  /** In a read of `len` bytes whose two loads in the loop test nothing has come between. */
  predicate Calm(s: State, pos: nat, len: nat) {
    && Reading(s.cpc) && s.pos == pos && s.clen == len && s.rdone.Off? && s.req.Off? && s.fpc != FAbsent
    && (s.cpc == CReading(CROuterW) || (s.cpc == CReading(CRFinish) && |s.cout| < s.clen) ==> s.roff == s.woff)
  }

  /** Whoever can step does, but after the first load and at the end the consumer. */
  lemma CalmStep(c: Config, s: State, pos: nat, len: nat) returns (step: Step)
    requires Inv(c, s) && Calm(s, pos, len)
    ensures step == ByFiller(Keen(s)) || step == ByConsumer(Keen(s))
    ensures May(c, s, step) && Genuine(s, step)
    ensures s.cpc == CReading(CROuterW) || s.cpc == CReading(CRFinish) ==> step.ByConsumer?
  {
    hide Inv, FillerMay, FillerLockedOut;
    if s.cpc == CReading(CROuterW) || s.cpc == CReading(CRFinish) {
      step := ByConsumer(Keen(s));
    } else {
      NotAbandoned(c, s);
      step := KeenStep(c, s);
    }
  }

  lemma NotAbandoned(c: Config, s: State)
    requires Reading(s.cpc) && s.fpc != FAbsent
    ensures !Abandoned(s)
  {
  }

  lemma CalmFiller(c: Config, s: State, pos: nat, len: nat)
    requires Inv(c, s) && Calm(s, pos, len) && FillerMay(c, s, Keen(s))
    requires s.cpc != CReading(CROuterW) && s.cpc != CReading(CRFinish)
    ensures Calm(FillerStep(c, s, Keen(s)), pos, len)
  {
    hide Locks, EndOfFile, Accounting, Sleep, Regional, Delivery, FillerMay, FillerStep;
    FillerStaysOut(c, s, Keen(s));
    FillerTellsNothing(c, s, Keen(s));
    FillerExitsUnasked(c, s, Keen(s));
  }

  lemma CalmConsumer(c: Config, s: State, pos: nat, len: nat)
    requires Calm(s, pos, len) && ConsumerMay(c, s, Keen(s)) && s.cpc != CReading(CRFinish)
    ensures Calm(ConsumerStep(c, s, Keen(s)), pos, len)
  {
    hide ReadRegions, RegionCell;
    match s.cpc
    case CReading(at) =>
    case CDraining(at) =>
  }

  /** The bytes of the content from `pos` on, as many as are asked for or remain. */
  function AllThere(content: seq<Byte>, pos: nat, len: nat): seq<Byte> {
    if pos < |content| then content[pos..pos + Least(len, |content| - pos)] else []
  }

  function ReadAnswer(c: Config, pos: nat, len: nat): Event {
    Answer(Some(Read(len)), [], Bytes(AllThere(c.content, pos, len)))
  }

  lemma CalmReadIsExact(c: Config, s: State, pos: nat, len: nat, w: Watch)
    requires Inv(c, s) && Ends(c, s) && Watched(s, w) && Calm(s, pos, len) && s.cpc == CReading(CRFinish)
    ensures var step := ByConsumer(Keen(s));
            && ConsumerMay(c, s, Keen(s))
            && Answers(w, s, step) == [ReadAnswer(c, pos, len)]
            && Watching(w, s, step) == NOBODY && ConsumerStep(c, s, Keen(s)).cpc.CIdle?
  {
    hide Inv, Ends;
    ReadFacts(c, s);
    if |s.cout| < s.clen {
      CalmLeavesNothing(c, s, pos, len);
    }
    assert s.cout == AllThere(c.content, pos, len);
  }

  lemma CalmLeavesNothing(c: Config, s: State, pos: nat, len: nat)
    requires Inv(c, s) && Calm(s, pos, len) && s.cpc == CReading(CRFinish) && |s.cout| < s.clen
    ensures s.fi == 0 && s.roff == s.woff
  {
    hide Locks, Sleep, Regional, Delivery;
  }

  lemma {:induction false} ReadRunsCalmly(
    c: Config, start: State, pos: nat, len: nat, s0: State, run0: seq<Step>, events: seq<Event>, w0: Watch)
    returns (s: State, run: seq<Step>)
    requires Tells(c, start, run0, s0, events, w0) && Calm(s0, pos, len)
    ensures Tells(c, start, run, s, events + [ReadAnswer(c, pos, len)], NOBODY)
    decreases Potential(c, s0)
  {
    hide Tells, Inv, Ends, Watched, Watching, Answers, Calm, Potential, FillerMay, ConsumerMay, FillerStep,
      ConsumerStep, FillerSleeps, ConsumerSleeps;
    TellsFacts(c, start, run0, s0, events, w0);
    CalmReads(s0, pos, len);
    var step := CalmStep(c, s0, pos, len);
    if s0.cpc == CReading(CRFinish) {
      CalmReadIsExact(c, s0, pos, len, w0);
      s, run := OneMore(c, start, run0, s0, events, w0, step);
    } else {
      StepLowersPotential(c, s0, step);
      s, run := OneMore(c, start, run0, s0, events, w0, step);
      if step.ByFiller? {
        CalmFiller(c, s0, pos, len);
      } else {
        CalmConsumer(c, s0, pos, len);
      }
      NotAnswered(s0, w0, step);
      assert events + [] == events;
      s, run := ReadRunsCalmly(c, start, pos, len, s, run, events, Watching(w0, s0, step));
    }
  }

  lemma CalmReads(s: State, pos: nat, len: nat)
    requires Calm(s, pos, len)
    ensures Reading(s.cpc) && Busy(s.cpc)
  {
  }

  // ----- the two together --------------------------------------------------------------------------------

  /**
   From any state at rest with a filler and reading open there is a run in which a seek to `off` makes one inner seek,
   succeeds, and a read after it returns all that is asked for or remains from there.
   */
  lemma SeekThenRead(c: Config, s: State, off: nat, len: nat)
    requires Reachable(c, s) && s.cpc.CIdle? && s.rdone.Off? && s.fpc != FAbsent
    ensures exists steps ::
              && Legal(c, s, steps)
              && History(c, s, NOBODY, steps)
                 == [Answer(Some(Seek(off)), [true], Sought(true, None)),
                     ReadAnswer(c, off, len)]
  {
    hide Reachable, Inv, Ends, Tells, Hopeful, Attended, Calm, Legal, History, Do, MayCall;
    RestTells(c, s, off);
    SeekBegins(c, s, off);
    assert [] + Answers(NOBODY, s, ByClient(Seek(off))) == [];
    var t, run := OneMore(c, s, [], s, [], NOBODY, ByClient(Seek(off)));
    t, run := SeekRuns(c, s, off, t, run, Watch(Some(Seek(off)), []));
    var events := [Answer(Some(Seek(off)), [true], Sought(true, None))];
    ReadBegins(c, t, len, s, run, events);
    t, run := OneMore(c, s, run, t, events, NOBODY, ByClient(Read(len)));
    assert events + [] == events;
    t, run := ReadRunsCalmly(c, s, off, len, t, run, events, Watch(Some(Read(len)), []));
    TellsFacts(c, s, run, t, events + [ReadAnswer(c, off, len)], NOBODY);
  }

  lemma RestTells(c: Config, s: State, off: nat)
    requires Reachable(c, s) && s.cpc.CIdle?
    ensures Tells(c, s, [], s, [], NOBODY) && May(c, s, ByClient(Seek(off)))
  {
    hide Reachable, Inv, Ends;
    ReachableInv(c, s);
    ReachableEnds(c, s);
    Nothing(c, s);
  }

  lemma SeekBegins(c: Config, s: State, off: nat)
    requires Reachable(c, s) && s.cpc.CIdle? && s.rdone.Off? && s.fpc != FAbsent
    ensures May(c, s, ByClient(Seek(off))) && Answers(NOBODY, s, ByClient(Seek(off))) == []
    ensures Watching(NOBODY, s, ByClient(Seek(off))) == Watch(Some(Seek(off)), [])
    ensures var t := Do(c, s, ByClient(Seek(off))); Hopeful(t, off) && Attended(t) && t.fpc != FAbsent
  {
    hide Reachable, Inv;
    ReachableInv(c, s);
    IdleHasNoRequest(c, s);
  }

  lemma ReadBegins(c: Config, s: State, len: nat, start: State, run: seq<Step>, events: seq<Event>)
    requires Tells(c, start, run, s, events, NOBODY) && s.cpc.CIdle? && s.rdone.Off? && s.fpc != FAbsent
    ensures May(c, s, ByClient(Read(len))) && Answers(NOBODY, s, ByClient(Read(len))) == []
    ensures Watching(NOBODY, s, ByClient(Read(len))) == Watch(Some(Read(len)), [])
    ensures Calm(Do(c, s, ByClient(Read(len))), s.pos, len)
  {
    hide Inv, Ends;
    IdleHasNoRequest(c, s);
  }
}
