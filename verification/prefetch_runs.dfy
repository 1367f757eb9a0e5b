/** Runs of the two threads in any interleaving, and the plain cursor they refine. */
module PrefetchRuns {
  import opened RingGeometry
  import opened PrefetchModel
  import opened PrefetchInvariant
  import opened PrefetchEnds
  import PrefetchFiller
  import PrefetchConsumer

  /** Each step can be taken where it is taken. */
  predicate Legal(c: Config, s: State, steps: seq<Step>)
    decreases |steps|
  {
    steps == [] || (May(c, s, steps[0]) && Legal(c, Do(c, s, steps[0]), steps[1..]))
  }

  function After(c: Config, s: State, steps: seq<Step>): State
    requires Legal(c, s, steps)
    decreases |steps|
  {
    if steps == [] then s else After(c, Do(c, s, steps[0]), steps[1..])
  }

  ghost predicate Reachable(c: Config, s: State) {
    exists start, steps :: Init(c, start) && Legal(c, start, steps) && After(c, start, steps) == s
  }

  lemma InitInv(c: Config, s: State)
    requires Init(c, s)
    ensures Inv(c, s)
  {
  }

  /** Every step keeps the invariant. */
  lemma StepKeeps(c: Config, s: State, step: Step)
    requires Inv(c, s) && May(c, s, step)
    ensures Inv(c, Do(c, s, step))
  {
    hide Inv, FillerStep, ConsumerStep, Begin;
    match step
    case ByFiller(ch) => PrefetchFiller.FillerKeeps(c, s, ch);
    case ByConsumer(ch) => PrefetchConsumer.ConsumerKeeps(c, s, ch);
    case ByClient(call) => PrefetchConsumer.BeginKeeps(c, s, call);
  }

  lemma {:induction false} RunKeeps(c: Config, s: State, steps: seq<Step>)
    requires Inv(c, s) && Legal(c, s, steps)
    ensures Inv(c, After(c, s, steps))
    decreases |steps|
  {
    hide Inv, Do, May;
    if steps != [] {
      StepKeeps(c, s, steps[0]);
      RunKeeps(c, Do(c, s, steps[0]), steps[1..]);
    }
  }

  /** The invariant holds in every reachable state. */
  lemma ReachableInv(c: Config, s: State)
    requires Reachable(c, s)
    ensures Inv(c, s)
  {
    hide Inv, Do, May, Init;
    var start, steps :| Init(c, start) && Legal(c, start, steps) && After(c, start, steps) == s;
    InitInv(c, start);
    RunKeeps(c, start, steps);
  }

  /** And so do the facts about end of file and failed seeks. */
  lemma StepKeepsEnds(c: Config, s: State, step: Step)
    requires Inv(c, s) && Ends(c, s) && May(c, s, step)
    ensures Ends(c, Do(c, s, step))
  {
    hide Inv, Ends, FillerStep, ConsumerStep, Begin;
    match step
    case ByFiller(ch) => FillerKeepsEnds(c, s, ch);
    case ByConsumer(ch) => ConsumerKeepsEnds(c, s, ch);
    case ByClient(call) => BeginKeepsEnds(c, s, call);
  }

  lemma {:induction false} RunKeepsEnds(c: Config, s: State, steps: seq<Step>)
    requires Inv(c, s) && Ends(c, s) && Legal(c, s, steps)
    ensures Ends(c, After(c, s, steps))
    decreases |steps|
  {
    hide Inv, Ends, Do, May;
    if steps != [] {
      StepKeeps(c, s, steps[0]);
      StepKeepsEnds(c, s, steps[0]);
      RunKeepsEnds(c, Do(c, s, steps[0]), steps[1..]);
    }
  }

  lemma ReachableEnds(c: Config, s: State)
    requires Reachable(c, s)
    ensures Ends(c, s)
  {
    hide Inv, Ends, Do, May, Init;
    var start, steps :| Init(c, start) && Legal(c, start, steps) && After(c, start, steps) == s;
    InitInv(c, start);
    InitEnds(c, start);
    RunKeepsEnds(c, start, steps);
  }

  // ----- what the client sees ---------------------------------------------------------------------------

  /** Bytes of the content from offset `pos` on. */
  function Remaining(content: seq<Byte>, pos: nat): nat {
    if pos < |content| then |content| - pos else 0
  }

  datatype Option<T> = None | Some(value: T)

  /** Kept from the steps of a run alone: the call under way, and how the inner seeks made since it began have ended. */
  datatype Watch = Watch(call: Option<Call>, inner: seq<bool>)

  const NOBODY := Watch(None, [])

  /** What a call hands to the client. */
  datatype Result = Bytes(bytes: seq<Byte>) | Sought(ok: bool, left: Option<nat>)

  /** An answer: to which call, after which inner seeks, and what. */
  datatype Event = Answer(call: Option<Call>, inner: seq<bool>, result: Result)

  /** If reading is left closed, the number of bytes that the inner stream has given and the client has not got. */
  function Left(s: State): Option<nat> {
    if s.rdone.Off? then None else if s.cur < s.pos then Some(0) else Some(s.cur - s.pos)
  }

  /** The result a step hands to the client, if any. */
  function Returned(s: State, step: Step): Option<Result> {
    if !step.ByConsumer? then None
    else match s.cpc
      case CReading(at) => if at.CRFinish? then Some(Bytes(s.cout)) else None
      case CWaiting(at) => if at.CSFinish? then Some(Sought(s.seekOk.On?, Left(s))) else None
      case _ => None
  }

  function Answers(w: Watch, s: State, step: Step): seq<Event> {
    if Returned(s, step).None? then [] else [Answer(w.call, w.inner, Returned(s, step).value)]
  }

  function Watching(w: Watch, s: State, step: Step): Watch {
    if Returned(s, step).Some? then NOBODY
    else match step
      case ByClient(call) => if call.Create? then w else Watch(Some(call), [])
      case ByFiller(ch) => if s.fpc == FServing(FSeek) then w.(inner := w.inner + [ch.ok]) else w
      case ByConsumer(ch) => if s.cpc == CSeeking(CSDirect) then w.(inner := w.inner + [ch.ok]) else w
  }

  function WatchAfter(c: Config, s: State, w: Watch, steps: seq<Step>): Watch
    requires Legal(c, s, steps)
    decreases |steps|
  {
    if steps == [] then w else WatchAfter(c, Do(c, s, steps[0]), Watching(w, s, steps[0]), steps[1..])
  }

  function History(c: Config, s: State, w: Watch, steps: seq<Step>): seq<Event>
    requires Legal(c, s, steps)
    decreases |steps|
  {
    if steps == [] then []
    else Answers(w, s, steps[0]) + History(c, Do(c, s, steps[0]), Watching(w, s, steps[0]), steps[1..])
  }

  /**
   A cursor over the content: what `sl_tell` and `sl_eof` report and, from a seek that failed and left reading closed
   to the next that succeeds, the number of bytes it can still deliver.
   */
  datatype Cursor = Cursor(pos: nat, eof: bool, shut: Option<nat>)

  function Least(a: nat, b: nat): nat { if a < b then a else b }

  /**
   What the cursor may answer. A read of `len` bytes returns the bytes at the cursor. Under the end-of-file mark it
   returns all that were asked for or remain; else it may come short, but only at the end: no more remain than the
   ring holds less one. After a seek failed and left reading closed, a read returns all that were asked for or are
   left of what the ring then held, and another failed seek changes nothing. A seek makes one inner seek, and succeeds
   if and only if that does. Nothing else is ever answered.
   */
  predicate PlainAnswer(c: Config, k: Cursor, event: Event) {
    event.call.Some? && match event.call.value
    case Read(len) =>
      var rest := Remaining(c.content, k.pos);
      && event.inner == [] && event.result.Bytes?
      && var bytes := event.result.bytes;
      && |bytes| <= len && IsSlice(c.content, k.pos, bytes)
      && (k.shut.None? && k.eof ==> |bytes| == Least(len, rest))
      && (k.shut.None? && |bytes| < len ==> rest <= |bytes| + c.size - 2)
      && (k.shut.Some? ==> |bytes| == Least(len, k.shut.value))
    case Seek(off) =>
      && event.result.Sought?
      && var (ok, left) := (event.result.ok, event.result.left);
      && event.inner == [ok]
      && (ok ==> off >= 0 && left.None?)
      && (!ok && k.shut.Some? ==> left == k.shut)
      && (left.Some? ==> left.value < c.size && left.value <= Remaining(c.content, k.pos))
    case _ => false
  }

  /**
   A read moves the cursor past what it returned, and a successful seek sets it. The end-of-file mark is put by a
   short read and taken away by a successful seek.
   */
  function PlainNext(c: Config, k: Cursor, event: Event): Cursor
    requires PlainAnswer(c, k, event)
  {
    match event.call.value
    case Read(len) =>
      var n := |event.result.bytes|;
      Cursor(k.pos + n, k.eof || n < len, if k.shut.None? then None else Some(k.shut.value - n))
    case Seek(off) => if event.result.ok then Cursor(off, false, None) else k.(shut := event.result.left)
  }

  /** All the answers are those of the cursor, begun at `k`. */
  predicate PlainRun(c: Config, k: Cursor, events: seq<Event>)
    decreases |events|
  {
    events == [] || (PlainAnswer(c, k, events[0]) && PlainRun(c, PlainNext(c, k, events[0]), events[1..]))
  }

  function PlainEnd(c: Config, k: Cursor, events: seq<Event>): Cursor
    requires PlainRun(c, k, events)
    decreases |events|
  {
    if events == [] then k else PlainEnd(c, PlainNext(c, k, events[0]), events[1..])
  }

  // ----- the refinement ---------------------------------------------------------------------------------

  /**
   With a failed seek behind it, until a seek succeeds: the filler fetches nothing, so `left` bytes are all the
   client can still get.
   */
  predicate Shut(s: State, left: nat) {
    && s.started.On?
    && (s.seekOk.Off? ==> Halted(s.fpc) && s.rdone.On? && s.cur == s.pos + left)
    && (s.seekOk.On? ==>
          && (s.cpc.CWaiting? || (s.cpc.CClosing? && s.cpc.closer.BySeek?))
          && (s.req.On? ==> s.fpc.FServing? && !s.fpc.serve.FSeek?))
  }

  /** Between two calls, or in one that has not touched the reading side. */
  predicate Settled(p: ConsumerPc) { p.CIdle? || Reading(p) || p.CSeeking? }

  /** The request of a seek has been through the inner seek. */
  predicate Tried(s: State) { s.req.Off? || (Serving(s.fpc) && s.fpc != FServing(FSeek)) }

  /** State `s` is in the call `w` says, with its arguments, and has made the inner seeks it says. */
  predicate Watched(s: State, w: Watch) {
    match s.cpc
    case CIdle => w == NOBODY
    case CReading(_) => w == Watch(Some(Read(s.clen)), [])
    case CDraining(_) => w == Watch(Some(Read(s.clen)), [])
    case CSeeking(_) => w == Watch(Some(Seek(s.coff)), [])
    case CClosing(_, who) =>
      if who.ByDestroy? then w == Watch(Some(Destroy), [])
      else w == Watch(Some(Seek(s.coff)), if Tried(s) then [s.seekOk.On?] else [])
    case CWaiting(_) => w == Watch(Some(Seek(s.coff)), if Tried(s) then [s.seekOk.On?] else [])
    case CDestroying(_) => w == Watch(Some(Destroy), [])
    case CDead => w == Watch(Some(Destroy), [])
  }

  /** State `s` of the threads is at `k` for the client. */
  predicate Shows(c: Config, s: State, k: Cursor) {
    && k.pos == s.pos && k.eof == s.eof.On?
    && (k.shut.None? && Settled(s.cpc) ==> s.rdone.Off?)
    && (k.shut.Some? ==> Shut(s, k.shut.value))
  }

  /** A step of the filler outside a partial write and a request leaves what `Shows` speaks of. */
  lemma LeftShows(c: Config, s: State, t: State, k: Cursor)
    requires Shows(c, s, k) && FillerLeaves(s, t) && t.pos == s.pos && !s.fpc.FServing?
    ensures Shows(c, t, k)
  {
    hide Halted;
  }

  lemma LeavesPosition(c: Config, s: State, ch: Choice)
    requires FillerMay(c, s, ch)
    ensures FillerStep(c, s, ch).pos == s.pos
  {
    hide WriteRegions, AdvanceWrite, RegionCell, MayWake;
  }

  lemma CopyShows(c: Config, s: State, at: CopyPc, k: Cursor)
    requires Inv(c, s) && Ends(c, s) && Shows(c, s, k) && s.fpc == FCopying(at) && CopyInside(c, s, at)
    ensures Shows(c, CopyStep(c, s, at), k)
  {
    hide Inv, Ends, WriteRegions, AdvanceWrite, RegionCell;
  }

  lemma ServeShows(c: Config, s: State, at: ServePc, ch: Choice, k: Cursor)
    requires Inv(c, s) && Shows(c, s, k) && s.fpc == FServing(at) && FillerMay(c, s, ch)
    ensures Shows(c, ServeStep(s, at, ch), k)
  {
    hide Locks, EndOfFile, Accounting, Sleep, Regional, Delivery, MayWake;
  }

  lemma FillerShows(c: Config, s: State, ch: Choice, k: Cursor)
    requires Inv(c, s) && Ends(c, s) && Shows(c, s, k) && FillerMay(c, s, ch)
    ensures Shows(c, FillerStep(c, s, ch), k)
  {
    hide Inv, Ends, Shows, FillerLeaves, CopyInside, MayWake, StartStep, TopStep, ServeStep, WriteStep,
      CopyStep, EndStep;
    if s.fpc.FCopying? {
      CopyShows(c, s, s.fpc.copy, k);
    } else if s.fpc.FServing? {
      ServeShows(c, s, s.fpc.serve, ch, k);
    } else {
      LeavesPosition(c, s, ch);
      if s.fpc.FStarting? {
        StartLeavesEnds(s, s.fpc.start);
      } else if s.fpc.FTop? {
        TopLeavesEnds(s, s.fpc.top);
      } else if s.fpc.FWriting? {
        WriteLeavesEnds(c, s, s.fpc.write);
      } else if s.fpc.FEnding? {
        EndLeavesEnds(s, s.fpc.end);
      }
      LeftShows(c, s, FillerStep(c, s, ch), k);
    }
  }

  /** A step of the consumer that returns nothing, outside a seek, leaves what `Shows` speaks of. */
  predicate ConsumerLeaves(s: State, t: State) {
    && t.pos == s.pos && t.eof == s.eof && t.rdone == s.rdone && t.started == s.started && t.seekOk == s.seekOk
    && t.cur == s.cur && t.fpc == s.fpc && t.req == s.req
  }

  lemma ReadShows(c: Config, s: State, at: ReadPc, k: Cursor)
    requires Shows(c, s, k) && s.cpc == CReading(at) && !at.CRFinish?
    ensures Shows(c, ReadStep(s, at), k)
  {
    hide Halted;
    assert ConsumerLeaves(s, ReadStep(s, at));
  }

  lemma DrainShows(c: Config, s: State, at: DrainPc, k: Cursor)
    requires Shows(c, s, k) && s.cpc == CDraining(at) && DrainInside(c, s, at)
    ensures Shows(c, DrainStep(c, s, at), k)
  {
    hide Halted, ReadRegions, RegionCell;
    assert ConsumerLeaves(s, DrainStep(c, s, at));
  }

  lemma SeekShows(c: Config, s: State, at: SeekPc, ch: Choice, k: Cursor)
    requires Handshake(s) && Shows(c, s, k) && s.cpc == CSeeking(at) && ConsumerMay(c, s, ch)
    ensures Shows(c, SeekStep(s, at, ch), k)
  {
    hide Halted;
  }

  lemma CloseShows(c: Config, s: State, at: ClosePc, who: Closer, k: Cursor)
    requires Shows(c, s, k) && s.cpc == CClosing(at, who)
    ensures Shows(c, CloseStep(s, at, who), k)
  {
    hide Halted;
  }

  lemma WaitShows(c: Config, s: State, at: WaitPc, ch: Choice, k: Cursor)
    requires Shows(c, s, k) && s.cpc == CWaiting(at) && !at.CSFinish? && ConsumerMay(c, s, ch)
    ensures Shows(c, WaitStep(s, at, ch), k)
  {
    hide Halted, MayWake;
  }

  lemma DestroyShows(c: Config, s: State, at: DestroyPc, ch: Choice, k: Cursor)
    requires Shows(c, s, k) && s.cpc == CDestroying(at) && ConsumerMay(c, s, ch)
    ensures Shows(c, DestroyStep(s, at, ch), k)
  {
    hide Halted, MayWake;
  }

  lemma ConsumerShows(c: Config, s: State, ch: Choice, k: Cursor)
    requires Inv(c, s) && Shows(c, s, k) && ConsumerMay(c, s, ch) && Returned(s, ByConsumer(ch)).None?
    ensures Shows(c, ConsumerStep(c, s, ch), k)
  {
    hide Locks, Handshake, EndOfFile, Accounting, Sleep, Regional, Delivery, Shows, DrainInside, MayWake,
      ReadStep, DrainStep, SeekStep, CloseStep, WaitStep, DestroyStep;
    match s.cpc
    case CReading(at) => ReadShows(c, s, at, k);
    case CDraining(at) => DrainShows(c, s, at, k);
    case CSeeking(at) => SeekShows(c, s, at, ch, k);
    case CClosing(at, who) => CloseShows(c, s, at, who, k);
    case CWaiting(at) => WaitShows(c, s, at, ch, k);
    case CDestroying(at) => DestroyShows(c, s, at, ch, k);
  }

  /** What is known of a read at its return: where it stands, and why it came short. */
  lemma ReadFacts(c: Config, s: State)
    requires Inv(c, s) && Ends(c, s) && s.cpc == CReading(CRFinish)
    ensures WellTyped(c, s)
    ensures s.cur == s.pos + |s.cout| + Length(c.size, s.roff, s.woff) + s.fi
    ensures |s.cout| <= s.clen && IsSlice(c.content, s.pos, s.cout)
    ensures s.rdone.On? && |s.cout| < s.clen ==> Length(c.size, s.roff, s.woff) == 0
    ensures s.rdone.On? ==> s.fi == 0
    ensures s.rdone.Off? && |s.cout| < s.clen ==>
              && s.cur >= |c.content| && Length(c.size, s.roff, s.woff) + s.fi <= c.size - 2
              && (s.eof.On? ==> Length(c.size, s.roff, s.woff) + s.fi == 0)
  {
    hide Locks, Sleep, Holds, IsSlice, Halted;
  }

  lemma ReadIsPlain(c: Config, s: State, w: Watch, k: Cursor)
    requires Inv(c, s) && Ends(c, s) && Watched(s, w) && Shows(c, s, k) && s.cpc == CReading(CRFinish)
    ensures var event := Answer(w.call, w.inner, Bytes(s.cout));
            && PlainAnswer(c, k, event)
            && Shows(c, ReadStep(s, CRFinish), PlainNext(c, k, event))
  {
    hide Inv, Ends, Halted;
    ReadFacts(c, s);
  }

  /** And of a seek that failed. */
  lemma SeekFacts(c: Config, s: State)
    requires Inv(c, s) && s.cpc == CWaiting(CSFinish) && s.seekOk.Off?
    ensures s.pos <= s.cur < s.pos + c.size && s.cur - s.pos <= Remaining(c.content, s.pos)
  {
    hide EndOfFile, Accounting, Sleep, Locks, Cell;
  }

  lemma SeekIsPlain(c: Config, s: State, w: Watch, k: Cursor, ch: Choice)
    requires Inv(c, s) && Ends(c, s) && Watched(s, w) && Shows(c, s, k)
    requires s.cpc == CWaiting(CSFinish) && ConsumerMay(c, s, ch)
    ensures var event := Answer(w.call, w.inner, Sought(s.seekOk.On?, Left(s)));
            && PlainAnswer(c, k, event)
            && Shows(c, WaitStep(s, CSFinish, ch), PlainNext(c, k, event))
  {
    hide WellTyped, Locks, EndOfFile, Accounting, Sleep, Regional, Delivery, IsSlice, ShortLeavesRoom, MarkIsSealed;
    if s.seekOk.Off? {
      SeekFacts(c, s);
    }
  }

  // ----- the call under way -----------------------------------------------------------------------------

  lemma FillerLeavesCall(c: Config, s: State, ch: Choice)
    requires FillerMay(c, s, ch)
    ensures var t := FillerStep(c, s, ch); t.cpc == s.cpc && t.clen == s.clen && t.coff == s.coff
  {
    hide WriteRegions, AdvanceWrite, RegionCell, MayWake, Full, SignalWcond, Raise, CopyInside;
    match s.fpc
    case FStarting(at) =>
    case FTop(at) =>
    case FServing(at) =>
    case FWriting(at) =>
    case FCopying(at) =>
    case FEnding(at) =>
  }

  /** Only the inner seek itself decides its outcome, and only it changes whether it has been tried. */
  lemma FillerTries(c: Config, s: State, ch: Choice)
    requires FillerMay(c, s, ch) && (Serving(s.fpc) ==> s.req.On?)
    ensures var t := FillerStep(c, s, ch);
            if s.fpc == FServing(FSeek) then !Tried(s) && Tried(t) && t.seekOk.On? == ch.ok
            else Tried(t) == Tried(s) && t.seekOk == s.seekOk
  {
    hide WriteRegions, AdvanceWrite, RegionCell, MayWake, Full, SignalWcond, Raise, CopyInside;
    match s.fpc
    case FStarting(at) =>
    case FTop(at) =>
    case FServing(at) =>
    case FWriting(at) =>
    case FCopying(at) =>
    case FEnding(at) =>
  }

  lemma FillerWatched(c: Config, s: State, w: Watch, ch: Choice)
    requires Handshake(s) && Watched(s, w) && FillerMay(c, s, ch)
    ensures Watched(FillerStep(c, s, ch), Watching(w, s, ByFiller(ch)))
  {
    hide FillerMay, FillerStep, Tried;
    FillerLeavesCall(c, s, ch);
    FillerTries(c, s, ch);
    OnlySeeksAreTried(s);
  }

  /** An inner seek by the filler is made for a seek under way. */
  lemma OnlySeeksAreTried(s: State)
    requires Handshake(s)
    ensures s.fpc == FServing(FSeek) ==> s.req.On? && ((s.cpc.CClosing? && s.cpc.closer.BySeek?) || s.cpc.CWaiting?)
  {
  }

  lemma ReadWatched(s: State, at: ReadPc, w: Watch, ch: Choice)
    requires Watched(s, w) && s.cpc == CReading(at)
    ensures Watched(ReadStep(s, at), Watching(w, s, ByConsumer(ch)))
  {
  }

  lemma DrainWatched(c: Config, s: State, at: DrainPc, w: Watch, ch: Choice)
    requires Watched(s, w) && s.cpc == CDraining(at) && DrainInside(c, s, at)
    ensures Watched(DrainStep(c, s, at), Watching(w, s, ByConsumer(ch)))
  {
    hide ReadRegions, RegionCell;
  }

  lemma SeekWatched(c: Config, s: State, at: SeekPc, w: Watch, ch: Choice)
    requires Handshake(s) && Watched(s, w) && s.cpc == CSeeking(at) && ConsumerMay(c, s, ch)
    ensures Watched(SeekStep(s, at, ch), Watching(w, s, ByConsumer(ch)))
  {
  }

  lemma CloseWatched(s: State, at: ClosePc, who: Closer, w: Watch, ch: Choice)
    requires Watched(s, w) && s.cpc == CClosing(at, who)
    ensures Watched(CloseStep(s, at, who), Watching(w, s, ByConsumer(ch)))
  {
  }

  lemma WaitWatched(c: Config, s: State, at: WaitPc, w: Watch, ch: Choice)
    requires Watched(s, w) && s.cpc == CWaiting(at) && ConsumerMay(c, s, ch)
    ensures Watched(WaitStep(s, at, ch), Watching(w, s, ByConsumer(ch)))
  {
    hide MayWake;
  }

  lemma DestroyWatched(c: Config, s: State, at: DestroyPc, w: Watch, ch: Choice)
    requires Watched(s, w) && s.cpc == CDestroying(at) && ConsumerMay(c, s, ch)
    ensures Watched(DestroyStep(s, at, ch), Watching(w, s, ByConsumer(ch)))
  {
    hide MayWake;
  }

  /** Every step keeps the watch: the call under way has the arguments it was made with. */
  lemma StepWatched(c: Config, s: State, w: Watch, step: Step)
    requires Inv(c, s) && Watched(s, w) && May(c, s, step)
    ensures Watched(Do(c, s, step), Watching(w, s, step))
  {
    hide WellTyped, Locks, Handshake, EndOfFile, Accounting, Sleep, Regional, Delivery, Watched, Watching, FillerMay,
      FillerStep, DrainInside, MayWake, ReadStep, DrainStep, SeekStep, CloseStep, WaitStep, DestroyStep;
    match step
    case ByFiller(ch) => FillerWatched(c, s, w, ch);
    case ByClient(call) => BeginWatched(s, w, call);
    case ByConsumer(ch) =>
      match s.cpc
      case CReading(at) => ReadWatched(s, at, w, ch);
      case CDraining(at) => DrainWatched(c, s, at, w, ch);
      case CSeeking(at) => SeekWatched(c, s, at, w, ch);
      case CClosing(at, who) => CloseWatched(s, at, who, w, ch);
      case CWaiting(at) => WaitWatched(c, s, at, w, ch);
      case CDestroying(at) => DestroyWatched(c, s, at, w, ch);
  }

  lemma BeginWatched(s: State, w: Watch, call: Call)
    requires Watched(s, w) && MayCall(s, call)
    ensures Watched(Begin(s, call), Watching(w, s, ByClient(call)))
  {
  }

  /** A step either leaves the client's view alone or is one operation of the plain cursor. */
  lemma StepRefines(c: Config, s: State, w: Watch, k: Cursor, step: Step)
    requires Inv(c, s) && Ends(c, s) && Watched(s, w) && Shows(c, s, k) && May(c, s, step)
    ensures var events := Answers(w, s, step);
            |events| <= 1 && PlainRun(c, k, events) && Shows(c, Do(c, s, step), PlainEnd(c, k, events))
  {
    hide Inv, Ends, Watched, FillerStep, FillerMay, PlainAnswer, PlainNext, Shut;
    match step
    case ByFiller(ch) => FillerShows(c, s, ch, k);
    case ByClient(call) => BeginShows(c, s, call, k);
    case ByConsumer(ch) =>
      if Returned(s, step).None? {
        ConsumerShows(c, s, ch, k);
      } else if s.cpc.CReading? {
        ReadIsPlain(c, s, w, k);
      } else {
        SeekIsPlain(c, s, w, k, ch);
      }
  }

  lemma BeginShows(c: Config, s: State, call: Call, k: Cursor)
    requires Shows(c, s, k) && MayCall(s, call) && Inv(c, s)
    ensures Shows(c, Begin(s, call), k)
  {
    hide Locks, EndOfFile, Accounting, Sleep, Regional, Delivery;
  }

  lemma {:induction false} RunRefines(c: Config, s: State, w: Watch, k: Cursor, steps: seq<Step>)
    requires Inv(c, s) && Ends(c, s) && Watched(s, w) && Shows(c, s, k) && Legal(c, s, steps)
    ensures var events, t := History(c, s, w, steps), After(c, s, steps);
            && PlainRun(c, k, events) && Shows(c, t, PlainEnd(c, k, events))
            && Watched(t, WatchAfter(c, s, w, steps))
    decreases |steps|
  {
    hide Inv, Ends, Shows, Watched, Watching, Do, May, Answers, PlainAnswer, PlainNext;
    if steps != [] {
      var next, w' := Do(c, s, steps[0]), Watching(w, s, steps[0]);
      var events, rest := Answers(w, s, steps[0]), History(c, next, w', steps[1..]);
      StepKeeps(c, s, steps[0]);
      StepKeepsEnds(c, s, steps[0]);
      StepWatched(c, s, w, steps[0]);
      StepRefines(c, s, w, k, steps[0]);
      RunRefines(c, next, w', PlainEnd(c, k, events), steps[1..]);
      if events != [] {
        assert events[1..] == [];
        assert (events + rest)[1..] == rest;
      } else {
        assert events + rest == rest;
      }
    }
  }

  const START := Cursor(0, false, None)

  /**
   Transparent prefetch. In every interleaving of the filler with any calls of the client, the answers the client
   gets, each to the call it made and with the arguments of that call, are those of a plain cursor over the content
   that starts at 0; what `sl_tell` and `sl_eof` report is that cursor; the client is at rest exactly if every call has
   been answered; and then reading is closed exactly if a seek has failed and shut it, and none succeeded since, and
   the cursor knows how many bytes are left.
   */
  lemma TransparentPrefetch(c: Config, start: State, steps: seq<Step>)
    requires Init(c, start) && Legal(c, start, steps)
    ensures var events := History(c, start, NOBODY, steps);
            && PlainRun(c, START, events)
            && var s, k := After(c, start, steps), PlainEnd(c, START, events);
            && k.pos == s.pos && k.eof == s.eof.On?
            && (s.cpc.CIdle? <==> WatchAfter(c, start, NOBODY, steps).call.None?)
            && (s.cpc.CIdle? ==> k.shut == Left(s))
  {
    hide Inv, Ends, Init, Legal, PlainRun, PlainEnd, Shows, Watched, WatchAfter;
    InitInv(c, start);
    InitEnds(c, start);
    InitShows(c, start);
    RunRefines(c, start, NOBODY, START, steps);
    AtRestShows(c, After(c, start, steps), PlainEnd(c, START, History(c, start, NOBODY, steps)));
    RestIsWatched(After(c, start, steps), WatchAfter(c, start, NOBODY, steps));
  }

  lemma InitShows(c: Config, s: State)
    requires Init(c, s)
    ensures Shows(c, s, START) && Watched(s, NOBODY)
  {
  }

  lemma RestIsWatched(s: State, w: Watch)
    requires Watched(s, w)
    ensures s.cpc.CIdle? <==> w.call.None?
  {
  }

  lemma AtRestShows(c: Config, s: State, k: Cursor)
    requires Shows(c, s, k)
    ensures k.pos == s.pos && k.eof == s.eof.On? && (s.cpc.CIdle? ==> k.shut == Left(s))
  {
    hide Halted;
  }
}
