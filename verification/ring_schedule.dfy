/**
 What the ring is to its users: a bounded queue with two flags. A schedule says what the other side does in each place
 where it can run; here is what that does to the queue, and what a call makes of it in passes, without the array, the
 offsets or the loops.
 */
module RingSchedule {
  import opened RingGeometry

  function Min(a: nat, b: nat): nat { if a <= b then a else b }

  datatype Ring = Ring(capacity: nat, queue: seq<Byte>, rdone: bool, wdone: bool) {
    function Room(): nat { if |queue| < capacity then capacity - |queue| else 0 }

    function Add(bytes: seq<Byte>): Ring { this.(queue := queue + bytes) }

    function Drop(n: nat): Ring { this.(queue := queue[Min(n, |queue|)..]) }
  }

  /** What the other side does in one turn; a schedule has a list of turns for each place where it can run. */
  datatype ReaderTurn = Take(n: nat) | CloseReading
  datatype WriterTurn = Put(bytes: seq<Byte>) | CloseWriting

  /** A reader takes what it asks for and is there; a writer puts in what fits, unless it has closed. */
  function ReaderTurned(r: Ring, turn: ReaderTurn): Ring {
    match turn
    case Take(n) => r.Drop(n)
    case CloseReading => r.(rdone := true)
  }

  function WriterTurned(r: Ring, turn: WriterTurn): Ring {
    match turn
    case Put(bytes) => if r.wdone then r else r.Add(bytes[..Min(|bytes|, r.Room())])
    case CloseWriting => r.(wdone := true)
  }

  function ByReader(r: Ring, turns: seq<ReaderTurn>): Ring {
    if turns == [] then r else ReaderTurned(ByReader(r, turns[..|turns| - 1]), turns[|turns| - 1])
  }

  function ByWriter(r: Ring, turns: seq<WriterTurn>): Ring {
    if turns == [] then r else WriterTurned(ByWriter(r, turns[..|turns| - 1]), turns[|turns| - 1])
  }

  lemma {:induction false} ByReaderJoin(r: Ring, a: seq<ReaderTurn>, b: seq<ReaderTurn>)
    ensures ByReader(r, a + b) == ByReader(ByReader(r, a), b)
  {
    if b == [] {
      assert a + b == a;
    } else {
      ByReaderJoin(r, a, b[..|b| - 1]);
      assert (a + b)[..|a + b| - 1] == a + b[..|b| - 1];
    }
  }

  lemma {:induction false} ByWriterJoin(r: Ring, a: seq<WriterTurn>, b: seq<WriterTurn>)
    ensures ByWriter(r, a + b) == ByWriter(ByWriter(r, a), b)
  {
    if b == [] {
      assert a + b == a;
    } else {
      ByWriterJoin(r, a, b[..|b| - 1]);
      assert (a + b)[..|a + b| - 1] == a + b[..|b| - 1];
    }
  }

  /** The flags are the schedule's doing: each side closes only its own, once it says so. */
  lemma {:induction false} ReaderCloses(r: Ring, turns: seq<ReaderTurn>)
    ensures ByReader(r, turns).rdone == (r.rdone || CloseReading in turns) && ByReader(r, turns).wdone == r.wdone
    ensures ByReader(r, turns).capacity == r.capacity
  {
    if turns != [] {
      ReaderCloses(r, turns[..|turns| - 1]);
      assert turns == turns[..|turns| - 1] + [turns[|turns| - 1]];
    }
  }

  lemma {:induction false} WriterCloses(r: Ring, turns: seq<WriterTurn>)
    ensures ByWriter(r, turns).wdone == (r.wdone || CloseWriting in turns) && ByWriter(r, turns).rdone == r.rdone
    ensures ByWriter(r, turns).capacity == r.capacity
    ensures r.wdone ==> ByWriter(r, turns) == r
  {
    if turns != [] {
      WriterCloses(r, turns[..|turns| - 1]);
      assert turns == turns[..|turns| - 1] + [turns[|turns| - 1]];
    }
  }

  /** A reader only takes from the front and a writer only adds at the back. */
  lemma {:induction false} ReaderTakes(r: Ring, turns: seq<ReaderTurn>)
    ensures var q := ByReader(r, turns).queue; |q| <= |r.queue| && q == r.queue[|r.queue| - |q|..]
  {
    if turns != [] {
      ReaderTakes(r, turns[..|turns| - 1]);
    }
  }

  lemma {:induction false} WriterGives(r: Ring, turns: seq<WriterTurn>) returns (given: seq<Byte>)
    ensures ByWriter(r, turns).queue == r.queue + given
    ensures |r.queue| <= r.capacity ==> |ByWriter(r, turns).queue| <= r.capacity
  {
    given := [];
    if turns != [] {
      var first := WriterGives(r, turns[..|turns| - 1]);
      WriterCloses(r, turns[..|turns| - 1]);
      var mid, end := ByWriter(r, turns[..|turns| - 1]).queue, ByWriter(r, turns).queue;
      given := first + end[|mid|..];
      assert end == mid + end[|mid|..];
      assert (r.queue + first) + end[|mid|..] == r.queue + given;
    }
  }

  /** A producer sleeps. */
  predicate Stops(r: Ring) { r.Room() == 0 && !r.rdone }

  lemma NobodyReads(r: Ring)
    ensures ByReader(r, []) == r
  {
  }

  /** Whatever the reader does, a producer that may go on may go on. */
  lemma StaysAwake(r: Ring, turns: seq<ReaderTurn>)
    requires !Stops(r)
    ensures !Stops(ByReader(r, turns))
  {
    ReaderTakes(r, turns);
    ReaderCloses(r, turns);
  }

  /** A consumer finds nothing. */
  predicate Idles(r: Ring) { r.queue == [] && !r.wdone }

  lemma NobodyWrites(r: Ring)
    ensures ByWriter(r, []) == r
  {
  }

  // ----- schedules -----------------------------------------------------------------------------------------

  function Head<T>(others: seq<seq<T>>): seq<T> { if others == [] then [] else others[0] }
  function Tail<T>(others: seq<seq<T>>): seq<seq<T>> { if others == [] then [] else others[1..] }

  /** All the turns, in order. */
  function Flat<T>(others: seq<seq<T>>): seq<T> { if others == [] then [] else others[0] + Flat(others[1..]) }

  lemma FlatHead<T>(others: seq<seq<T>>)
    ensures Flat(others) == Head(others) + Flat(Tail(others))
  {
  }

  lemma NoTurns<T>()
    ensures Flat<T>([]) == []
  {
  }

  lemma {:induction false} FlatJoin<T>(a: seq<seq<T>>, b: seq<seq<T>>)
    ensures Flat(a + b) == Flat(a) + Flat(b)
  {
    if a == [] {
      assert a + b == b;
    } else {
      FlatJoin(a[1..], b);
      assert (a + b)[1..] == a[1..] + b && (a + b)[0] == a[0];
      assert Flat(a + b) == a[0] + Flat(a[1..] + b);
    }
  }

  lemma FlatOn<T>(a: seq<seq<T>>, turns: seq<T>)
    ensures Flat(a + [turns]) == Flat(a) + turns
  {
    FlatJoin(a, [turns]);
    assert Flat([turns]) == turns + Flat([turns][1..]);
  }

  /** Before each step of this part of the schedule there was cause to sleep. */
  predicate SleptThrough(r: Ring, used: seq<seq<ReaderTurn>>) {
    used == []
    || (SleptThrough(r, used[..|used| - 1]) && Stops(ByReader(r, Flat(used[..|used| - 1]))))
  }

  lemma SleptOn(r: Ring, used: seq<seq<ReaderTurn>>, turns: seq<ReaderTurn>)
    requires SleptThrough(r, used) && Stops(ByReader(r, Flat(used)))
    ensures SleptThrough(r, used + [turns])
    ensures ByReader(r, Flat(used + [turns])) == ByReader(ByReader(r, Flat(used)), turns)
  {
    assert (used + [turns])[..|used|] == used;
    FlatOn(used, turns);
    ByReaderJoin(r, Flat(used), turns);
  }

  predicate IdledThrough(r: Ring, used: seq<seq<WriterTurn>>) {
    used == []
    || (IdledThrough(r, used[..|used| - 1]) && Idles(ByWriter(r, Flat(used[..|used| - 1]))))
  }

  lemma IdledOn(r: Ring, used: seq<seq<WriterTurn>>, turns: seq<WriterTurn>)
    requires IdledThrough(r, used) && Idles(ByWriter(r, Flat(used)))
    ensures IdledThrough(r, used + [turns])
    ensures ByWriter(r, Flat(used + [turns])) == ByWriter(ByWriter(r, Flat(used)), turns)
  {
    assert (used + [turns])[..|used|] == used;
    FlatOn(used, turns);
    ByWriterJoin(r, Flat(used), turns);
  }

  /** The turns of one pass of a blocking call: before its look at the other side's offset, and after it. */
  datatype Pass<T> = Pass(before: seq<T>, after: seq<T>)

  function Turns<T>(passes: seq<Pass<T>>): seq<T> {
    if passes == [] then []
    else Turns(passes[..|passes| - 1]) + passes[|passes| - 1].before + passes[|passes| - 1].after
  }

  // ----- reading -------------------------------------------------------------------------------------------

  datatype Reading = Reading(ring: Ring, taken: seq<Byte>)

  /** A pass takes all that is still wanted and was there at its look. */
  function ReadPass(s: Reading, len: nat, p: Pass<WriterTurn>): Reading {
    var seen := ByWriter(s.ring, p.before);
    var n := if |s.taken| < len then Min(len - |s.taken|, |seen.queue|) else 0;
    Reading(ByWriter(seen, p.after).Drop(n), s.taken + seen.queue[..n])
  }

  function ReadPasses(r: Ring, len: nat, passes: seq<Pass<WriterTurn>>): Reading {
    if passes == [] then Reading(r, [])
    else ReadPass(ReadPasses(r, len, passes[..|passes| - 1]), len, passes[|passes| - 1])
  }

  /** A pass after the writer has run, as a pass of its own for what is still wanted. */
  lemma ReadPassOn(s: Reading, len: nat, a: seq<WriterTurn>, p: Pass<WriterTurn>)
    requires |s.taken| <= len
    ensures var x := ReadPass(Reading(ByWriter(s.ring, a), []), len - |s.taken|, p);
            ReadPass(s, len, Pass(a + p.before, p.after)) == Reading(x.ring, s.taken + x.taken)
  {
    hide ByWriter;
    ByWriterJoin(s.ring, a, p.before);
    assert s.taken + [] == s.taken;
  }

  lemma ReadPassesOn(r: Ring, len: nat, passes: seq<Pass<WriterTurn>>, p: Pass<WriterTurn>)
    ensures ReadPasses(r, len, passes + [p]) == ReadPass(ReadPasses(r, len, passes), len, p)
  {
    assert (passes + [p])[..|passes|] == passes;
  }

  lemma OneMoreRead(r: Ring, len: nat, passes: seq<Pass<WriterTurn>>, p: Pass<WriterTurn>) returns (s: Reading)
    ensures |ReadPasses(r, len, passes).taken| <= len
    ensures var was := ReadPasses(r, len, passes);
            var x := ReadPass(Reading(was.ring, []), len - |was.taken|, p);
            s == ReadPasses(r, len, passes + [p]) == Reading(x.ring, was.taken + x.taken)
  {
    var was := ReadPasses(r, len, passes);
    var _ := ReadsFlow(r, len, passes, []);
    NobodyWrites(was.ring);
    ReadPassOn(was, len, [], p);
    assert [] + p.before == p.before;
    ReadPassesOn(r, len, passes, p);
    s := ReadPasses(r, len, passes + [p]);
  }

  lemma NoReadPasses(r: Ring, len: nat)
    ensures ReadPasses(r, len, []) == Reading(r, []) && Turns<WriterTurn>([]) == []
  {
  }

  /** What is taken and what is left are what was there and what the writer put in. */
  lemma {:induction false} ReadsFlow(r: Ring, len: nat, passes: seq<Pass<WriterTurn>>, tail: seq<WriterTurn>)
    returns (given: seq<Byte>)
    ensures var s := ReadPasses(r, len, passes);
            && |s.taken| <= len
            && s.taken + ByWriter(s.ring, tail).queue == r.queue + given
            && ByWriter(s.ring, tail).wdone == (r.wdone || CloseWriting in Turns(passes) + tail)
  {
    var s := ReadPasses(r, len, passes);
    WriterCloses(s.ring, tail);
    var last := WriterGives(s.ring, tail);
    if passes == [] {
      given := last;
    } else {
      var k := |passes| - 1;
      var before := ReadsFlow(r, len, passes[..k], []);
      var mid := ReadPasses(r, len, passes[..k]);
      var seen := ByWriter(mid.ring, passes[k].before);
      var first := WriterGives(mid.ring, passes[k].before);
      var second := WriterGives(seen, passes[k].after);
      WriterCloses(mid.ring, passes[k].before);
      WriterCloses(seen, passes[k].after);
      hide ByWriter;
      var n := |s.taken| - |mid.taken|;
      given := GivenThrough(r.queue, before, mid.taken, mid.ring.queue, first, seen.queue, second,
                            ByWriter(seen, passes[k].after).queue, n, last, ByWriter(s.ring, tail).queue);
    }
  }

  /** A queue added to at the back three times, with `n` bytes leaving at the front before the last. */
  lemma GivenThrough(
    q0: seq<Byte>, before: seq<Byte>, taken: seq<Byte>, q1: seq<Byte>, first: seq<Byte>, q2: seq<Byte>,
    second: seq<Byte>, q3: seq<Byte>, n: nat, last: seq<Byte>, q4: seq<Byte>) returns (given: seq<Byte>)
    requires taken + q1 == q0 + before && q2 == q1 + first && q3 == q2 + second && n <= |q2| && q4 == q3[n..] + last
    ensures (taken + q2[..n]) + q4 == q0 + given
  {
    given := before + first + second + last;
    assert q3[n..] == q2[n..] + second;
    assert q2[..n] + q2[n..] == q2;
    calc {
      (taken + q2[..n]) + q4;
      taken + (q2[..n] + q2[n..]) + second + last;
      taken + (q1 + first) + second + last;
      (taken + q1) + first + second + last;
      q0 + given;
    }
  }

  // ----- writing -------------------------------------------------------------------------------------------

  datatype Writing = Writing(ring: Ring, put: nat)

  /** A pass puts in all that is still to be written and fitted at its look, unless reading is closed. */
  function WritePass(s: Writing, source: seq<Byte>, p: Pass<ReaderTurn>): Writing {
    var seen := ByReader(s.ring, p.before);
    var n := if seen.rdone || s.put >= |source| then 0 else Min(|source| - s.put, seen.Room());
    Writing(ByReader(seen, p.after).Add(if n == 0 then [] else source[s.put..s.put + n]), s.put + n)
  }

  function WritePasses(r: Ring, source: seq<Byte>, passes: seq<Pass<ReaderTurn>>): Writing {
    if passes == [] then Writing(r, 0)
    else WritePass(WritePasses(r, source, passes[..|passes| - 1]), source, passes[|passes| - 1])
  }

  lemma WritePassOn(s: Writing, source: seq<Byte>, a: seq<ReaderTurn>, p: Pass<ReaderTurn>)
    requires s.put <= |source|
    ensures var x := WritePass(Writing(ByReader(s.ring, a), 0), source[s.put..], p);
            WritePass(s, source, Pass(a + p.before, p.after)) == Writing(x.ring, s.put + x.put)
  {
    hide ByReader;
    ByReaderJoin(s.ring, a, p.before);
    var n := WritePass(Writing(ByReader(s.ring, a), 0), source[s.put..], p).put;
    assert source[s.put..][0..n] == source[s.put..s.put + n];
  }

  lemma WritePassesOn(r: Ring, source: seq<Byte>, passes: seq<Pass<ReaderTurn>>, p: Pass<ReaderTurn>)
    ensures WritePasses(r, source, passes + [p]) == WritePass(WritePasses(r, source, passes), source, p)
  {
    assert (passes + [p])[..|passes|] == passes;
  }

  /** One more pass, begun where the others ended. */
  lemma OneMoreWrite(r: Ring, source: seq<Byte>, passes: seq<Pass<ReaderTurn>>, p: Pass<ReaderTurn>)
    returns (s: Writing)
    ensures WritePasses(r, source, passes).put <= |source|
    ensures var was := WritePasses(r, source, passes);
            var x := WritePass(Writing(was.ring, 0), source[was.put..], p);
            s == WritePasses(r, source, passes + [p]) == Writing(x.ring, was.put + x.put)
  {
    var was := WritePasses(r, source, passes);
    var _ := WritesFlow(r, source, passes, []);
    NobodyReads(was.ring);
    WritePassOn(was, source, [], p);
    assert [] + p.before == p.before;
    WritePassesOn(r, source, passes, p);
    s := WritePasses(r, source, passes + [p]);
  }

  lemma NoPasses(r: Ring, source: seq<Byte>)
    ensures WritePasses(r, source, []) == Writing(r, 0) && Turns<ReaderTurn>([]) == []
  {
  }

  /** What the reader took and what is left are what was there and what was put in. */
  lemma {:induction false} WritesFlow(
    r: Ring, source: seq<Byte>, passes: seq<Pass<ReaderTurn>>, tail: seq<ReaderTurn>)
    returns (eaten: seq<Byte>)
    ensures var s := WritePasses(r, source, passes);
            && s.put <= |source|
            && eaten + ByReader(s.ring, tail).queue == r.queue + source[..s.put]
            && ByReader(s.ring, tail).rdone == (r.rdone || CloseReading in Turns(passes) + tail)
  {
    var s := WritePasses(r, source, passes);
    ReaderCloses(s.ring, tail);
    var last := Eaten(s.ring, tail);
    if passes == [] {
      eaten := last;
    } else {
      var k := |passes| - 1;
      var before := WritesFlow(r, source, passes[..k], []);
      var mid := WritePasses(r, source, passes[..k]);
      var seen := ByReader(mid.ring, passes[k].before);
      var first := Eaten(mid.ring, passes[k].before);
      var second := Eaten(seen, passes[k].after);
      ReaderCloses(mid.ring, passes[k].before);
      ReaderCloses(seen, passes[k].after);
      var x := source[mid.put..s.put];
      assert source[..mid.put] + x == source[..s.put];
      eaten := EatenThrough(r.queue, before, source[..mid.put], mid.ring.queue, first, seen.queue, second,
                            ByReader(seen, passes[k].after).queue, x, last, ByReader(s.ring, tail).queue);
    }
  }

  /** The bytes some turns of the reader take. */
  lemma Eaten(r: Ring, turns: seq<ReaderTurn>) returns (eaten: seq<Byte>)
    ensures eaten + ByReader(r, turns).queue == r.queue
  {
    ReaderTakes(r, turns);
    eaten := r.queue[..|r.queue| - |ByReader(r, turns).queue|];
  }

  /** A queue emptied at the front four times, with `x` entering at the back before the last. */
  lemma EatenThrough(
    q0: seq<Byte>, before: seq<Byte>, put: seq<Byte>, q1: seq<Byte>, first: seq<Byte>, q2: seq<Byte>, second: seq<Byte>,
    q3: seq<Byte>, x: seq<Byte>, last: seq<Byte>, q4: seq<Byte>) returns (eaten: seq<Byte>)
    requires before + q1 == q0 + put && first + q2 == q1 && second + q3 == q2 && last + q4 == q3 + x
    ensures eaten + q4 == q0 + (put + x)
  {
    eaten := before + first + second + last;
    calc {
      eaten + q4;
      before + first + second + (last + q4);
      before + first + second + (q3 + x);
      before + (first + (second + q3)) + x;
      (before + q1) + x;
      q0 + (put + x);
    }
  }

  // ----- writing from a callback ---------------------------------------------------------------------------

  /** What one call of the writer callback was asked for and supplied. */
  datatype Call = Call(asked: nat, got: nat) {
    predicate Short() { got < asked }
  }

  /** Some calls of the writer: what they were, what they supplied, and the replies it has left. */
  datatype Fetched = Fetched(calls: seq<Call>, bytes: seq<Byte>, script: seq<seq<Byte>>)

  /** A writer asked for `n` bytes supplies its next reply, as far as it was asked for. */
  function Ask(script: seq<seq<Byte>>, n: nat): Fetched {
    var got := Min(n, |Head(script)|);
    Fetched([Call(n, got)], Head(script)[..got], Tail(script))
  }

  /**
   The writer is asked for `planned` bytes: for those up to the array's end, `edge` cells away, and if it supplies
   them and they reach the end, for the rest.
   */
  function AskAll(script: seq<seq<Byte>>, planned: nat, edge: nat): Fetched {
    var one := Ask(script, Min(planned, edge));
    if one.calls[0].Short() || planned < edge then one
    else
      var two := Ask(one.script, planned - edge);
      Fetched(one.calls + two.calls, one.bytes + two.bytes, two.script)
  }

  lemma AskOnce(script: seq<seq<Byte>>, planned: nat, edge: nat)
    ensures var n := Min(planned, edge);
            var one := Ask(script, n);
            && one.calls == [Call(n, |one.bytes|)] && |one.bytes| <= n
            && (|one.bytes| < n || planned < edge ==> AskAll(script, planned, edge) == one)
  {
  }

  lemma AskTwice(script: seq<seq<Byte>>, planned: nat, edge: nat)
    requires planned >= edge && |Ask(script, edge).bytes| == edge
    ensures var one := Ask(script, edge);
            var two := Ask(one.script, planned - edge);
            AskAll(script, planned, edge) == Fetched(one.calls + two.calls, one.bytes + two.bytes, two.script)
  {
  }

  datatype Filling = Filling(ring: Ring, put: seq<Byte>, calls: seq<Call>, script: seq<seq<Byte>>, woff: nat)

  /** The write offset `n` places on. */
  function Onward(size: nat, woff: nat, n: nat): nat {
    if woff + n < size then woff + n else woff + n - size
  }

  /** Nothing is asked for when nothing fits. */
  function Supplied(script: seq<seq<Byte>>, len: nat, room: nat, edge: nat): Fetched {
    if room == 0 then Fetched([], [], script) else AskAll(script, Min(len, room), edge)
  }

  lemma SuppliedAccounts(script: seq<seq<Byte>>, len: nat, room: nat, edge: nat)
    ensures var f := Supplied(script, len, room, edge);
            && |f.bytes| == Got(f.calls) <= Min(len, room) && StopsWhenShort(f.calls)
            && (EndsShort(f.calls) <==> |f.bytes| < Min(len, room))
  {
    hide AskAll;
    NoCalls();
    AskAllAccounts(script, Min(len, room), edge);
  }

  /** Nothing is asked for when reading is closed, when nothing is wanted or when nothing fits. */
  function Asked(seen: Ring, wanted: nat, script: seq<seq<Byte>>, woff: nat): Fetched {
    var planned := if seen.rdone then 0 else Min(wanted, seen.Room());
    if planned == 0 then Fetched([], [], script)
    else AskAll(script, planned, if woff <= seen.capacity then seen.capacity + 1 - woff else 0)
  }

  /** A pass asks for all that is still wanted and fitted at its look. */
  function FillPass(s: Filling, len: nat, p: Pass<ReaderTurn>): Filling {
    var seen := ByReader(s.ring, p.before);
    var f := Asked(seen, if |s.put| < len then len - |s.put| else 0, s.script, s.woff);
    Filling(ByReader(seen, p.after).Add(f.bytes), s.put + f.bytes, s.calls + f.calls, f.script,
            Onward(s.ring.capacity + 1, s.woff, |f.bytes|))
  }

  function FillPasses(s: Filling, len: nat, passes: seq<Pass<ReaderTurn>>): Filling {
    if passes == [] then s else FillPass(FillPasses(s, len, passes[..|passes| - 1]), len, passes[|passes| - 1])
  }

  // ----- what the passes come to -----------------------------------------------------------------------------

  function Got(calls: seq<Call>): nat {
    if calls == [] then 0 else Got(calls[..|calls| - 1]) + calls[|calls| - 1].got
  }

  ghost predicate EndsShort(calls: seq<Call>) {
    calls != [] && calls[|calls| - 1].Short()
  }

  /** No call follows a short one. */
  ghost predicate StopsWhenShort(calls: seq<Call>) {
    forall i :: 0 <= i < |calls| - 1 ==> !calls[i].Short()
  }

  lemma {:induction false} GotJoin(a: seq<Call>, b: seq<Call>)
    ensures Got(a + b) == Got(a) + Got(b)
  {
    if b == [] {
      assert a + b == a;
    } else {
      GotJoin(a, b[..|b| - 1]);
      assert (a + b)[..|a + b| - 1] == a + b[..|b| - 1];
    }
  }

  lemma StopsJoin(a: seq<Call>, b: seq<Call>)
    requires StopsWhenShort(a) && !EndsShort(a) && StopsWhenShort(b)
    ensures StopsWhenShort(a + b) && EndsShort(a + b) == EndsShort(b)
  {
  }

  lemma NoCalls()
    ensures Got([]) == 0 && StopsWhenShort([]) && !EndsShort([])
  {
  }

  lemma OneCall(asked: nat, got: nat)
    ensures var made := [Call(asked, got)];
            Got(made) == got && StopsWhenShort(made) && EndsShort(made) == (got < asked)
  {
    var made := [Call(asked, got)];
    assert Got(made[..0]) == 0;
  }

  /** The writer supplies what its calls report, no more than is planned, and less exactly if the last call is short. */
  lemma AskAllAccounts(script: seq<seq<Byte>>, planned: nat, edge: nat)
    ensures var f := AskAll(script, planned, edge);
            && |f.bytes| == Got(f.calls) <= planned
            && StopsWhenShort(f.calls) && (EndsShort(f.calls) <==> |f.bytes| < planned)
  {
    var one := Ask(script, Min(planned, edge));
    OneCall(Min(planned, edge), |one.bytes|);
    if !one.calls[0].Short() && planned >= edge {
      var two := Ask(one.script, planned - edge);
      OneCall(planned - edge, |two.bytes|);
      GotJoin(one.calls, two.calls);
      StopsJoin(one.calls, two.calls);
    }
  }

  lemma OneMoreFill(s0: Filling, len: nat, passes: seq<Pass<ReaderTurn>>, p: Pass<ReaderTurn>) returns (s: Filling)
    requires s0.put == [] && s0.calls == []
    ensures |FillPasses(s0, len, passes).put| <= len
    ensures var was := FillPasses(s0, len, passes);
            var x := FillPass(Filling(was.ring, [], [], was.script, was.woff), len - |was.put|, p);
            s == FillPasses(s0, len, passes + [p])
              == Filling(x.ring, was.put + x.put, was.calls + x.calls, x.script, x.woff)
  {
    var was := FillPasses(s0, len, passes);
    var _ := FillsFlow(s0, len, passes, []);
    NobodyReads(was.ring);
    FillPassOn(was, len, [], p);
    assert [] + p.before == p.before;
    FillPassesOn(s0, len, passes, p);
    s := FillPasses(s0, len, passes + [p]);
  }

  lemma NoFillPasses(s: Filling, len: nat)
    ensures FillPasses(s, len, []) == s && Turns<ReaderTurn>([]) == []
  {
  }

  lemma FillPassOn(s: Filling, len: nat, a: seq<ReaderTurn>, p: Pass<ReaderTurn>)
    requires |s.put| <= len
    ensures var x := FillPass(Filling(ByReader(s.ring, a), [], [], s.script, s.woff), len - |s.put|, p);
            FillPass(s, len, Pass(a + p.before, p.after))
            == Filling(x.ring, s.put + x.put, s.calls + x.calls, x.script, x.woff)
  {
    hide Asked, ByReader, Onward;
    ByReaderJoin(s.ring, a, p.before);
    ReaderCloses(s.ring, a);
    var f := Asked(ByReader(s.ring, a + p.before), len - |s.put|, s.script, s.woff);
    assert [] + f.bytes == f.bytes && [] + f.calls == f.calls;
  }

  lemma FillPassesOn(s: Filling, len: nat, passes: seq<Pass<ReaderTurn>>, p: Pass<ReaderTurn>)
    ensures FillPasses(s, len, passes + [p]) == FillPass(FillPasses(s, len, passes), len, p)
  {
    assert (passes + [p])[..|passes|] == passes;
  }

  /** The turns of one more pass are the next of the schedule. */
  lemma TurnsAre<T>(all: seq<T>, passes: seq<Pass<T>>, left: seq<T>, p: Pass<T>, still: seq<T>)
    requires all == Turns(passes) + left && left == p.before + p.after + still
    ensures all == Turns(passes + [p]) + still
  {
    TurnsOn(passes, p);
  }

  lemma TurnsOn<T>(passes: seq<Pass<T>>, p: Pass<T>)
    ensures Turns(passes + [p]) == Turns(passes) + p.before + p.after
  {
    assert (passes + [p])[..|passes|] == passes;
  }

  lemma {:induction false} FillsFlow(s0: Filling, len: nat, passes: seq<Pass<ReaderTurn>>, tail: seq<ReaderTurn>)
    returns (eaten: seq<Byte>)
    requires s0.put == [] && s0.calls == []
    ensures var s := FillPasses(s0, len, passes);
            && |s.put| <= len && |s.put| == Got(s.calls)
            && eaten + ByReader(s.ring, tail).queue == s0.ring.queue + s.put
            && ByReader(s.ring, tail).rdone == (s0.ring.rdone || CloseReading in Turns(passes) + tail)
  {
    var s := FillPasses(s0, len, passes);
    ReaderCloses(s.ring, tail);
    var last := Eaten(s.ring, tail);
    if passes == [] {
      eaten := last;
    } else {
      var k := |passes| - 1;
      var before := FillsFlow(s0, len, passes[..k], []);
      var mid := FillPasses(s0, len, passes[..k]);
      var seen := ByReader(mid.ring, passes[k].before);
      var first := Eaten(mid.ring, passes[k].before);
      var second := Eaten(seen, passes[k].after);
      ReaderCloses(mid.ring, passes[k].before);
      ReaderCloses(seen, passes[k].after);
      FillPassAdds(mid, len, passes[k]);
      eaten := EatenThrough(s0.ring.queue, before, mid.put, mid.ring.queue, first, seen.queue, second,
                            ByReader(seen, passes[k].after).queue, s.put[|mid.put|..], last,
                            ByReader(s.ring, tail).queue);
    }
  }

  lemma FillPassAdds(s: Filling, len: nat, p: Pass<ReaderTurn>)
    requires |s.put| <= len && |s.put| == Got(s.calls)
    ensures var t := FillPass(s, len, p);
            && |s.put| <= |t.put| <= len && t.put == s.put + t.put[|s.put|..] && |t.put| == Got(t.calls)
            && t.ring == ByReader(ByReader(s.ring, p.before), p.after).Add(t.put[|s.put|..])
  {
    hide Asked, ByReader;
    var seen := ByReader(s.ring, p.before);
    var f := Asked(seen, len - |s.put|, s.script, s.woff);
    AskedAccounts(seen, len - |s.put|, s.script, s.woff);
    GotJoin(s.calls, f.calls);
  }

  lemma AskedAccounts(seen: Ring, wanted: nat, script: seq<seq<Byte>>, woff: nat)
    ensures var f := Asked(seen, wanted, script, woff);
            && |f.bytes| == Got(f.calls) <= wanted && StopsWhenShort(f.calls)
            && (EndsShort(f.calls) ==> |f.bytes| < wanted)
  {
    hide AskAll;
    NoCalls();
    var planned := if seen.rdone then 0 else Min(wanted, seen.Room());
    AskAllAccounts(script, planned, if woff <= seen.capacity then seen.capacity + 1 - woff else 0);
  }

  /** The writer fills each call: its replies are as long as it will be asked for. */
  predicate Fills(script: seq<seq<Byte>>, planned: nat, edge: nat) {
    |Head(script)| >= Min(planned, edge) && (planned >= edge ==> |Head(Tail(script))| >= planned - edge)
  }

  /**
   A writer that fills each call, with nobody running and room for all: one pass, in at most two calls, writes all.
   */
  lemma OnePassFills(r: Ring, len: nat, script: seq<seq<Byte>>, woff: nat)
    requires !r.rdone && 0 < len <= r.Room() && woff <= r.capacity
    requires Fills(script, len, r.capacity + 1 - woff)
    ensures var s := FillPass(Filling(r, [], [], script, woff), len, Pass([], []));
            && |s.put| == len && |s.calls| <= 2 && !EndsShort(s.calls) && s.ring == r.Add(s.put)
            && s.woff <= s.ring.capacity
  {
    hide AskAll;
    var f := Asked(r, len, script, woff);
    assert ByReader(r, []) == r;
    AskedInFull(script, len, r.capacity + 1 - woff);
    assert [] + f.bytes == f.bytes && [] + f.calls == f.calls;
  }

  lemma AskedInFull(script: seq<seq<Byte>>, planned: nat, edge: nat)
    requires Fills(script, planned, edge)
    ensures var f := AskAll(script, planned, edge);
            |f.bytes| == planned && |f.calls| <= 2 && !EndsShort(f.calls)
  {
    AskAllAccounts(script, planned, edge);
  }

  /** With nobody running, such a writer is asked in the first pass and never again. */
  lemma {:induction false} FirstPassFills(s0: Filling, len: nat, passes: seq<Pass<ReaderTurn>>)
    requires s0.put == [] && s0.calls == [] && !s0.ring.rdone && 0 < len <= s0.ring.Room()
    requires s0.woff <= s0.ring.capacity && Fills(s0.script, len, s0.ring.capacity + 1 - s0.woff)
    requires passes != [] && Turns(passes) == []
    ensures FillPasses(s0, len, passes) == FillPass(s0, len, Pass([], []))
  {
    hide FillPass, ByReader;
    var k := |passes| - 1;
    assert passes[k] == Pass([], []) && Turns(passes[..k]) == [];
    if k == 0 {
      NoFillPasses(s0, len);
      assert passes[..k] == [];
    } else {
      FirstPassFills(s0, len, passes[..k]);
      OnePassFills(s0.ring, len, s0.script, s0.woff);
      FullPassAsksNothing(FillPass(s0, len, Pass([], [])), len);
    }
  }

  lemma FullPassAsksNothing(s: Filling, len: nat)
    requires |s.put| == len && s.woff <= s.ring.capacity
    ensures FillPass(s, len, Pass([], [])) == s
  {
    assert s.put + [] == s.put && s.calls + [] == s.calls && s.ring.queue + [] == s.ring.queue;
  }
}
