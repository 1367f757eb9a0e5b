/**
 When the end-of-file mark is false: bytes of the content remain for the client that are not in the ring. Only a read
 after a failed seek can leave it so, and whether it does is decided before the read.
 */
module PrefetchMarks {
  import opened RingGeometry
  import opened PrefetchModel
  import opened PrefetchInvariant
  import opened PrefetchEnds
  import opened PrefetchRuns
  import opened PrefetchSafety
  import opened PrefetchTermination
  import opened PrefetchWitness
  import opened PrefetchCalls
  import opened PrefetchReturns

  predicate FalseMark(c: Config, s: State) {
    && s.cpc.CIdle? && s.eof.On?
    && WellTyped(c, s) && Remaining(c.content, s.pos) > Unread(c, s)
  }

  /**
   What decides it, before the call: reading is closed, the content goes on beyond the ring's bytes, and the read asks
   for more than those or the mark is there already.
   */
  predicate Misleads(c: Config, s: State, len: nat) {
    && WellTyped(c, s)
    && s.rdone.On? && s.pos + Unread(c, s) < |c.content|
    && (s.eof.On? || Unread(c, s) < len)
  }

  // ----- a read with reading closed ---------------------------------------------------------------------

  /** A read of `len` bytes begun in state `from`, under way or over. */
  predicate ReadFrom(from: State, len: nat, s: State) {
    && s.rdone == from.rdone && s.req.Off? && (s.rdone.On? ==> s.cur == from.cur)
    && (s.cpc.CIdle? || Reading(s.cpc))
    && (Reading(s.cpc) ==> s.clen == len && s.pos == from.pos && s.eof == from.eof)
    && (s.cpc.CIdle? && s.rdone.On? ==> (s.eof.On? <==> from.eof.On? || from.cur < from.pos + len))
  }

  lemma FillerKeepsRead(c: Config, from: State, len: nat, s: State, ch: Choice)
    requires Inv(c, s) && Ends(c, s) && ReadFrom(from, len, s) && FillerMay(c, s, ch)
    ensures ReadFrom(from, len, FillerStep(c, s, ch))
  {
    hide Locks, EndOfFile, Accounting, Sleep, Regional, Delivery, ShortLeavesRoom, FillerMay, FillerStep;
    FillerStaysOut(c, s, ch);
    FillerTellsNothing(c, s, ch);
  }

  /** A read with reading closed comes short if and only if fewer bytes were left than it asked for. */
  lemma ClosedReadFinishes(c: Config, s: State)
    requires Inv(c, s) && Ends(c, s) && s.cpc == CReading(CRFinish) && s.rdone.On?
    ensures |s.cout| < s.clen <==> s.cur < s.pos + s.clen
  {
    hide Inv, Ends;
    ReadFacts(c, s);
  }

  lemma DrainKeepsRead(c: Config, from: State, len: nat, s: State, at: DrainPc)
    requires ReadFrom(from, len, s) && s.cpc == CDraining(at) && DrainInside(c, s, at)
    ensures ReadFrom(from, len, DrainStep(c, s, at))
  {
    hide ReadRegions, RegionCell;
  }

  lemma ReadKeepsRead(from: State, len: nat, s: State, at: ReadPc)
    requires ReadFrom(from, len, s) && s.cpc == CReading(at)
    requires at.CRFinish? && s.rdone.On? ==> (|s.cout| < s.clen <==> s.cur < s.pos + s.clen)
    ensures ReadFrom(from, len, ReadStep(s, at))
  {
  }

  lemma ConsumerKeepsRead(c: Config, from: State, len: nat, s: State, ch: Choice)
    requires Inv(c, s) && Ends(c, s) && ReadFrom(from, len, s) && ConsumerMay(c, s, ch)
    ensures ReadFrom(from, len, ConsumerStep(c, s, ch))
  {
    hide Inv, Ends, ReadStep, DrainStep, DrainInside, SeekStep, CloseStep, WaitStep, DestroyStep;
    if s.cpc.CDraining? {
      DrainKeepsRead(c, from, len, s, s.cpc.drain);
    } else {
      if s.cpc == CReading(CRFinish) && s.rdone.On? {
        ClosedReadFinishes(c, s);
      }
      ReadKeepsRead(from, len, s, s.cpc.read);
    }
  }

  lemma {:induction false} RunKeepsRead(c: Config, from: State, len: nat, s: State, steps: seq<Step>)
    requires Inv(c, s) && Ends(c, s) && ReadFrom(from, len, s) && Legal(c, s, steps) && NoCalls(steps)
    ensures var t := After(c, s, steps); Inv(c, t) && ReadFrom(from, len, t)
    decreases |steps|
  {
    hide Inv, Ends, ReadFrom, FillerMay, ConsumerMay, FillerStep, ConsumerStep;
    if steps != [] {
      StepKeeps(c, s, steps[0]);
      StepKeepsEnds(c, s, steps[0]);
      match steps[0] {
        case ByFiller(ch) => FillerKeepsRead(c, from, len, s, ch);
        case ByConsumer(ch) => ConsumerKeepsRead(c, from, len, s, ch);
      }
      RunKeepsRead(c, from, len, Do(c, s, steps[0]), steps[1..]);
    }
  }

  /** At rest with reading closed, all the inner stream has given is with the client or in the ring. */
  lemma ClosedAtRest(c: Config, s: State)
    requires Inv(c, s) && Ends(c, s) && s.cpc.CIdle?
    ensures WellTyped(c, s) && (s.rdone.On? ==> s.cur == s.pos + Unread(c, s))
  {
    hide Locks, EndOfFile, Sleep;
  }

  lemma MarkIsFalseIf(c: Config, s: State)
    requires Inv(c, s) && s.cpc.CIdle? && s.eof.On?
    ensures FalseMark(c, s) <==> s.cur < |c.content|
    ensures s.cur < |c.content| ==> s.rdone.On?
  {
    hide Locks, Sleep;
  }

  /**
   A false mark, call by call. However a read goes, it ends under a false mark if and only if reading was closed
   before it, the content goes on beyond the ring's bytes, and the mark was put before or the ring has fewer bytes than
   it asks for.
   */
  lemma FalseMarkIff(c: Config, s: State, len: nat, steps: seq<Step>)
    requires Reachable(c, s) && s.cpc.CIdle? && Legal(c, Begin(s, Read(len)), steps) && NoCalls(steps)
    requires After(c, Begin(s, Read(len)), steps).cpc.CIdle?
    ensures FalseMark(c, After(c, Begin(s, Read(len)), steps)) <==> Misleads(c, s, len)
  {
    hide Reachable, Inv, Ends, Legal, After, NoCalls, FalseMark;
    ReachableInv(c, s);
    ReachableEnds(c, s);
    IdleHasNoRequest(c, s);
    StepKeeps(c, s, ByClient(Read(len)));
    StepKeepsEnds(c, s, ByClient(Read(len)));
    RunKeepsRead(c, s, len, Begin(s, Read(len)), steps);
    ClosedAtRest(c, s);
    var t := After(c, Begin(s, Read(len)), steps);
    if t.eof.On? {
      MarkIsFalseIf(c, t);
    } else {
      NoMark(c, t);
    }
  }

  lemma NoMark(c: Config, s: State)
    requires s.eof.Off?
    ensures !FalseMark(c, s)
  {
  }

  // ----- a false mark -----------------------------------------------------------------------------------

  /** From anywhere in a run of a call that is not blocked, the call can be completed. */
  lemma {:induction false} Completes(c: Config, from: State, call: Call, s0: State, run0: seq<Step>)
    returns (s: State, run: seq<Step>)
    requires Reachable(c, from) && MayCall(from, call) && !Blocks(from, call)
    requires Leads(c, Begin(from, call), run0, s0) && NoCalls(run0) && Inv(c, s0)
    ensures Leads(c, Begin(from, call), run, s) && NoCalls(run) && Inv(c, s) && !Busy(s.cpc)
    decreases Potential(c, s0)
  {
    hide Reachable, Inv, Potential, May, Do, Genuine, MayCall, Blocks, Begin, NoCalls, Legal, After;
    s, run := s0, run0;
    if Busy(s.cpc) {
      CallCanProceed(c, from, call, run);
      var step :| May(c, s, step) && Genuine(s, step) && !step.ByClient?;
      StepLowersPotential(c, s, step);
      s, run := Another(c, Begin(from, call), run, s, step);
      s, run := Completes(c, from, call, s, run);
    }
  }

  /** At the beginning of a content a seek has failed, and nothing is fetched. */
  lemma NothingFetched(c: Config) returns (s: State)
    requires c.Valid()
    ensures Reachable(c, s) && s.cpc.CIdle? && s.fpc != FAbsent
    ensures c.content != [] ==> Misleads(c, s, 1)
  {
    hide Leads, Reachable;
    var run;
    s, run := AfterFailedSeek(c, 0);
    LeadsReaches(c, run, s);
  }

  lemma ReadMisleads(c: Config, s: State) returns (t: State)
    requires Reachable(c, s) && s.cpc.CIdle? && s.fpc != FAbsent && Misleads(c, s, 1)
    ensures Reachable(c, t) && FalseMark(c, t)
  {
    hide Reachable, Inv, FalseMark, Misleads, Legal, After;
    var start := Begin(s, Read(1));
    ReachableInv(c, s);
    StepKeeps(c, s, ByClient(Read(1)));
    Nothing(c, start);
    var run;
    t, run := Completes(c, s, Read(1), start, []);
    ReadEndsAtRest(c, s, run);
    FalseMarkIff(c, s, 1, run);
    Nothing(c, start);
    First(c, s, ByClient(Read(1)), run, t);
    ReachableOn(c, s, [ByClient(Read(1))] + run, t);
  }

  lemma ReadEndsAtRest(c: Config, s: State, steps: seq<Step>)
    requires Reachable(c, s) && s.cpc.CIdle? && Legal(c, Begin(s, Read(1)), steps) && NoCalls(steps)
    requires !Busy(After(c, Begin(s, Read(1)), steps).cpc)
    ensures After(c, Begin(s, Read(1)), steps).cpc.CIdle?
  {
    hide Reachable, Inv, Ends, Legal, After, NoCalls;
    ReachableInv(c, s);
    ReachableEnds(c, s);
    IdleHasNoRequest(c, s);
    StepKeeps(c, s, ByClient(Read(1)));
    StepKeepsEnds(c, s, ByClient(Read(1)));
    RunKeepsRead(c, s, 1, Begin(s, Read(1)), steps);
  }

  /** Stream by stream: there is a run to a false mark if and only if there is any content. */
  lemma FalseMarkReachableIff(c: Config)
    requires c.Valid()
    ensures (exists s :: Reachable(c, s) && FalseMark(c, s)) <==> c.content != []
  {
    hide Reachable, Inv;
    if c.content != [] {
      var s := NothingFetched(c);
      var t := ReadMisleads(c, s);
    }
    if s :| Reachable(c, s) && FalseMark(c, s) {
      ReachableInv(c, s);
      MarkIsFalseIf(c, s);
    }
  }
}
