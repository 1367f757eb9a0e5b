/**
 The HTTP copier: libcurl hands over a response body in chunks of its own choosing, the caller asks for reads of
 its own choosing, and the write callback copies from one framing to the other. When the caller's buffer is full it
 refuses the chunk, which pauses the transfer; libcurl presents the chunk again, from its first byte, after a resume.
 */
module HttpCopier {
  import opened RingGeometry
  import opened RingContents
  import opened RingSchedule
  import opened CircularBuffer

  datatype State = Ready | Working | Paused | AbortRequested | Aborted

  /** What the write callback returns: the chunk's size, the code that pauses, or an error. */
  datatype Verdict = Accept | Pause | Stop

  /** How a transfer stands: running, delivered in full, or given up. */
  datatype End = Open | Complete | Broken

  /** What one pass of the read loop meets: the chunks libcurl presents, and what its calls return. */
  datatype Turn =
    | WaitFails
    | Perform(sizes: seq<nat>, end: End, ok: bool)

  /** libcurl fails in this turn. */
  predicate Fails(turn: Turn) {
    turn.WaitFails? || !turn.ok || turn.end == Broken
  }

  /** The chunks libcurl would present in some turns, one after the other. */
  function Sizes(turns: seq<Turn>): seq<nat> {
    if turns == [] then []
    else
      var last := turns[|turns| - 1];
      Sizes(turns[..|turns| - 1]) + if last.Perform? then last.sizes else []
  }

  /** A chunk is as long as libcurl likes, but not beyond the body and not shorter than it was when it was refused. */
  function ChunkSize(size: nat, held: nat, left: nat): (k: nat)
    requires held <= left
    ensures held <= k <= left
  {
    if size < held then held else Min(size, left)
  }

  /** The number of bytes that chunks of these sizes hold together, `left` being left of the body. */
  function Offered(sizes: seq<nat>, held: nat, left: nat): (o: nat)
    requires held <= left
    ensures o <= left && (sizes != [] ==> held <= o)
  {
    if sizes == [] then 0
    else
      var k := |sizes| - 1;
      var o := Offered(sizes[..k], held, left);
      o + ChunkSize(sizes[k], if k == 0 then held else 0, left - o)
  }

  lemma OfferedOn(sizes: seq<nat>, size: nat, held: nat, left: nat)
    requires held <= left
    ensures var o := Offered(sizes, held, left);
            && (sizes == [] ==> o == 0)
            && Offered(sizes + [size], held, left) == o + ChunkSize(size, if sizes == [] then held else 0, left - o)
  {
    assert (sizes + [size])[..|sizes|] == sizes;
  }

  lemma {:induction false} OfferedGrows(a: seq<nat>, b: seq<nat>, held: nat, left: nat)
    requires held <= left
    ensures Offered(a, held, left) <= Offered(a + b, held, left)
  {
    if b == [] {
      assert a + b == a;
    } else {
      OfferedGrows(a, b[..|b| - 1], held, left);
      assert (a + b)[..|a + b| - 1] == a + b[..|b| - 1];
    }
  }

  /** What a read moves: all that the chunks presented to it hold, less what was taken of the first before, and fits. */
  function Moved(sizes: seq<nat>, held: nat, left: nat, partial: nat, len: nat): nat
    requires partial <= held <= left
  {
    if sizes == [] then 0 else Min(len, Offered(sizes, held, left) - partial)
  }

  /** Why a read returned; `Waiting` stands for one that still waits after the last turn. */
  datatype Why = Filled | Completed | Failed | Waiting

  /** One response body on libcurl's side. */
  class Transfer {
    const body: seq<Byte>
    /** Bytes of the chunks accepted so far; the next chunk starts here. */
    var start: nat
    /** Size of the refused chunk; it comes again no shorter. */
    var held: nat
    var paused: bool
    var end: End

    constructor (body: seq<Byte>)
      ensures this.body == body && start == held == 0 && !paused && end == Open
    {
      this.body, start, held, paused, end := body, 0, 0, false, Open;
    }

    ghost predicate Valid()
      reads this
    {
      && start + held <= |body|
      && (end == Complete ==> start == |body| && !paused)
    }
  }

  class Http {
    const curl: Transfer
    var httpOff: nat
    var curlbufOff: nat
    var outbuf: array<Byte>
    var outbufOff: nat
    var outbufSize: nat
    var state: State

    /**
     The position is what libcurl has had accepted plus what was taken of the refused chunk, and a transfer at rest
     is known to be.
     */
    ghost predicate Valid()
      reads this, curl
    {
      && curl.Valid()
      && outbufOff <= outbufSize <= outbuf.Length
      && httpOff == curl.start + curlbufOff
      && curlbufOff <= curl.held
      && (curl.paused && curl.end == Open ==> state == Paused)
      && state != AbortRequested
    }

    /** The current read began at position `from` of the body and has copied on from there into `was`. */
    ghost predicate Copied(was: seq<Byte>, from: nat)
      reads this, curl, outbuf
    {
      && httpOff == from + outbufOff <= |curl.body|
      && outbufOff <= |was|
      && outbuf[..] == Splice(was, 0, Chunk(curl.body, from, outbufOff))
    }

    /**
     Chunks of these sizes have been presented since the read began, with `start`, `held` and `partial` as they were:
     either all were accepted, or the last was refused over a full buffer.
     */
    ghost predicate Flow(start: nat, held: nat, partial: nat, sizes: seq<nat>)
      reads this, curl
    {
      && partial <= held && start + held <= |curl.body|
      && var o := Offered(sizes, held, |curl.body| - start);
         if sizes == [] then
           curl.start == start && curl.held == held && curlbufOff == partial && outbufOff == 0 && !curl.paused
         else if o - partial < outbufSize then
           curl.start == start + o && curl.held == curlbufOff == 0 && outbufOff == o - partial && !curl.paused
         else
           outbufOff == outbufSize && curl.paused
    }

    /** The transfer rests only because the caller's buffer is full. */
    ghost predicate RestsOnlyWhenFull()
      reads this, curl
    {
      curl.paused && curl.end == Open ==> outbufOff == outbufSize
    }

    constructor (body: seq<Byte>)
      ensures Valid() && fresh(curl) && curl.body == body && httpOff == 0
    {
      curl := new Transfer(body);
      httpOff, curlbufOff, outbufOff, outbufSize, state := 0, 0, 0, 0, Ready;
      outbuf := new Byte[0];
    }

    /** `sl_http_write_cb_`. An abort leaves everything but the state alone; the rest copies all there is room for. */
    method WriteCb(curlbuf: array<Byte>) returns (verdict: Verdict)
      requires curlbufOff <= curlbuf.Length && outbufOff <= outbufSize <= outbuf.Length && curlbuf != outbuf
      modifies this`httpOff, this`curlbufOff, this`outbufOff, this`state, outbuf
      ensures verdict == Stop <==> old(state) == AbortRequested
      ensures verdict == Stop ==>
                && state == Aborted && outbuf[..] == old(outbuf[..])
                && httpOff == old(httpOff) && curlbufOff == old(curlbufOff) && outbufOff == old(outbufOff)
      ensures verdict != Stop ==>
                var n := outbufOff - old(outbufOff);
                && n == Min(curlbuf.Length - old(curlbufOff), outbufSize - old(outbufOff))
                && httpOff == old(httpOff) + n
                && outbuf[..] == Splice(old(outbuf[..]), old(outbufOff), Chunk(curlbuf[..], old(curlbufOff), n))
                && curlbufOff == (if verdict == Accept then 0 else old(curlbufOff) + n)
      ensures verdict == Accept ==>
                && outbufOff < outbufSize && state == old(state)
                && httpOff == old(httpOff) + curlbuf.Length - old(curlbufOff)
      ensures verdict == Pause ==> outbufOff == outbufSize && state == Paused
    {
      hide Splice;
      var outbufAvail := outbufSize - outbufOff;
      var curlbufAvail := curlbuf.Length - curlbufOff;
      if state == AbortRequested {
        state := Aborted;
        return Stop;
      }
      if curlbufAvail < outbufAvail {
        Memcpy(outbuf, outbufOff, curlbuf, curlbufOff, curlbufAvail);
        outbufOff := outbufOff + curlbufAvail;
        curlbufOff := 0;
        httpOff := httpOff + curlbufAvail;
        return Accept;
      }
      Memcpy(outbuf, outbufOff, curlbuf, curlbufOff, outbufAvail);
      outbufOff := outbufOff + outbufAvail;
      curlbufOff := curlbufOff + outbufAvail;
      httpOff := httpOff + outbufAvail;
      state := Paused;
      return Pause;
    }

    /** libcurl presents one chunk: from the first byte not accepted, and not less than it presented there before. */
    method Present(size: nat, ghost was: seq<Byte>, ghost from: nat)
      requires Valid() && Copied(was, from) && !curl.paused && curl.end == Open
      modifies this`httpOff, this`curlbufOff, this`outbufOff, this`state, curl, outbuf
      ensures Valid() && Copied(was, from) && RestsOnlyWhenFull() && curl.end == Open
      ensures state == if curl.paused then Paused else old(state)
      ensures var k := ChunkSize(size, old(curl.held), |curl.body| - old(curl.start));
              var (avail, room) := (k - old(curlbufOff), outbufSize - old(outbufOff));
              && outbufOff == old(outbufOff) + Min(avail, room)
              && (if avail < room then curl.start == old(curl.start) + k && curl.held == curlbufOff == 0 && !curl.paused
                  else curl.start == old(curl.start) && curl.held == k && curlbufOff == old(curlbufOff) + room
                       && curl.paused)
    {
      hide Splice, Chunk;
      var most := |curl.body| - curl.start;
      var k := if size < curl.held then curl.held else Min(size, most);
      ghost var chunk := Chunk(curl.body, curl.start, k);
      var (body, start) := (curl.body, curl.start);
      var curlbuf := new Byte[k](i requires 0 <= i < k => body[start + i]);
      ChunkIs(curlbuf[..], curl.body, curl.start);
      ghost var (off, h, done) := (outbufOff, httpOff, curlbufOff);
      var verdict := WriteCb(curlbuf);
      ghost var n := outbufOff - off;
      ChunkOfChunk(curl.body, curl.start, k, done, n);
      SpliceTwice(was, 0, Chunk(curl.body, from, off), Chunk(curl.body, h, n));
      ChunkOn(curl.body, from, off, n);
      if verdict == Accept {
        curl.start, curl.held := curl.start + k, 0;
      } else {
        curl.held, curl.paused := k, true;
      }
    }

    /** The next chunk of a read. */
    method PresentNext(size: nat, ghost was: seq<Byte>, ghost from: nat, ghost start: nat, ghost held: nat,
                       ghost partial: nat, ghost before: seq<nat>)
      requires Valid() && Copied(was, from) && !curl.paused && curl.end == Open
      requires Flow(start, held, partial, before)
      modifies this`httpOff, this`curlbufOff, this`outbufOff, this`state, curl, outbuf
      ensures Valid() && Copied(was, from) && RestsOnlyWhenFull() && curl.end == Open
      ensures Flow(start, held, partial, before + [size])
      ensures state == if curl.paused then Paused else old(state)
    {
      hide Splice, Chunk, Copied, Offered;
      OfferedOn(before, size, held, |curl.body| - start);
      Present(size, was, from);
    }

    /** After a refusal nothing more is presented, whatever there would have been. */
    lemma FlowStops(start: nat, held: nat, partial: nat, before: seq<nat>, more: seq<nat>)
      requires Flow(start, held, partial, before) && (curl.paused || more == [])
      ensures Flow(start, held, partial, before + more)
    {
      hide Offered;
      OfferedGrows(before, more, held, |curl.body| - start);
      if more == [] {
        assert before + more == before;
      }
    }

    /** libcurl presents chunks until one is refused. */
    method Deliver(sizes: seq<nat>, ghost was: seq<Byte>, ghost from: nat, ghost start: nat, ghost held: nat,
                   ghost partial: nat, ghost before: seq<nat>)
      requires Valid() && Copied(was, from) && RestsOnlyWhenFull() && curl.end == Open
      requires Flow(start, held, partial, before)
      modifies this`httpOff, this`curlbufOff, this`outbufOff, this`state, curl, outbuf
      ensures Valid() && Copied(was, from) && RestsOnlyWhenFull() && curl.end == Open
      ensures Flow(start, held, partial, before + sizes)
      ensures state == if curl.paused && !old(curl.paused) then Paused else old(state)
    {
      hide Copied, Flow, Splice, Chunk;
      var i := 0;
      assert before + sizes[..0] == before;
      while i < |sizes| && !curl.paused
        invariant i <= |sizes| && Valid() && Copied(was, from) && RestsOnlyWhenFull() && curl.end == Open
        invariant Flow(start, held, partial, before + sizes[..i])
        invariant state == if curl.paused && !old(curl.paused) then Paused else old(state)
        invariant (old(curl.paused) ==> i == 0) && (i == 0 ==> curl.paused == old(curl.paused))
      {
        assert before + sizes[..i + 1] == (before + sizes[..i]) + [sizes[i]];
        PresentNext(sizes[i], was, from, start, held, partial, before + sizes[..i]);
        i := i + 1;
      }
      FlowStops(start, held, partial, before + sizes[..i], sizes[i..]);
      assert before + sizes == (before + sizes[..i]) + sizes[i..];
    }

    /** `curl_easy_pause` with `CURLPAUSE_CONT`; chunks may be presented before it returns. */
    method Resume(sizes: seq<nat>, ghost was: seq<Byte>, ghost from: nat)
      requires Valid() && Copied(was, from) && outbufOff == 0
      modifies this`httpOff, this`curlbufOff, this`outbufOff, this`state, curl, outbuf
      ensures Valid() && Copied(was, from) && RestsOnlyWhenFull() && curl.end == old(curl.end)
      ensures curl.end == Open ==> Flow(old(curl.start), old(curl.held), old(curlbufOff), sizes)
      ensures curl.end != Open ==> outbufOff == 0
      ensures state == if curl.paused then Paused else old(state)
    {
      curl.paused := false;
      if curl.end == Open {
        ghost var (start, held, partial) := (curl.start, curl.held, curlbufOff);
        Deliver(sizes, was, from, start, held, partial, []);
        assert [] + sizes == sizes;
      }
    }

    /** `curl_multi_perform`. A paused transfer is not complete; `count` is 1 while the transfer runs. */
    method Multi(turn: Turn, ghost was: seq<Byte>, ghost from: nat, ghost start: nat, ghost held: nat,
                 ghost partial: nat, ghost before: seq<nat>) returns (ok: bool, count: nat)
      requires Valid() && Copied(was, from) && RestsOnlyWhenFull() && turn.Perform?
      requires curl.end == Open ==> Flow(start, held, partial, before)
      modifies this`httpOff, this`curlbufOff, this`outbufOff, this`state, curl, outbuf
      ensures Valid() && Copied(was, from) && RestsOnlyWhenFull()
      ensures count == (if curl.end == Open then 1 else 0) && ok == turn.ok
      ensures old(curl.end) == Open ==> Flow(start, held, partial, before + turn.sizes)
      ensures old(curl.end) == Open ==>
                curl.end == if turn.end == Complete && (curl.paused || curl.start < |curl.body|) then Open else turn.end
      ensures old(curl.end) != Open ==> curl.end == old(curl.end) && outbufOff == old(outbufOff)
      ensures state == if curl.paused && !old(curl.paused) then Paused else old(state)
    {
      if curl.end == Open {
        Deliver(turn.sizes, was, from, start, held, partial, before);
        if turn.end == Broken {
          curl.end := Broken;
        } else if turn.end == Complete && !curl.paused && curl.start == |curl.body| {
          curl.end := Complete;
        }
      }
      ok, count := turn.ok, if curl.end == Open then 1 else 0;
    }

    /** One pass of the loop of `sl_http_read_cb`; `stop` if it returns. */
    method ReadTurn(turn: Turn, ghost was: seq<Byte>, ghost from: nat, ghost start: nat, ghost held: nat,
                    ghost partial: nat, ghost before: seq<nat>) returns (stop: bool)
      requires Valid() && Copied(was, from) && RestsOnlyWhenFull()
      requires curl.end == Open ==> Flow(start, held, partial, before)
      modifies this`httpOff, this`curlbufOff, this`outbufOff, this`state, curl, outbuf
      ensures Valid() && Copied(was, from) && RestsOnlyWhenFull()
      ensures old(curl.end) == Open ==> Flow(start, held, partial, before + if turn.Perform? then turn.sizes else [])
      ensures old(curl.end) != Open ==> curl.end == old(curl.end) && outbufOff == old(outbufOff)
      ensures stop <==> turn.WaitFails? || !turn.ok || curl.end != Open
      ensures curl.end != old(curl.end) ==> turn.Perform? && curl.end == turn.end
      ensures old(curl.end) == Open && turn.Perform? && turn.end == Broken ==> curl.end == Broken
      ensures turn.Perform? && curl.end != Open ==> state == Ready
      ensures !stop ==> state != Ready
    {
      hide Splice, Chunk, Offered;
      assert before + [] == before;
      if turn.WaitFails? {
        return true;
      }
      var ok, count := Multi(turn, was, from, start, held, partial, before);
      if !ok || count == 0 {
        if count == 0 {
          state := Ready;
        }
        return true;
      } else if state == Ready {
        state := Working;
      }
      return false;
    }

    /** The beginning of `sl_http_read_cb`: the caller's buffer is set, and a paused transfer goes on. */
    method Enter(buffer: array<Byte>, len: nat, resume: seq<nat>) returns (ghost sizes: seq<nat>)
      requires Valid() && len <= buffer.Length
      modifies this, curl, buffer
      ensures Valid() && outbuf == buffer && outbufSize == len && curl.end == old(curl.end)
      ensures Copied(old(buffer[..]), old(httpOff)) && RestsOnlyWhenFull()
      ensures sizes == if old(state) == Paused then resume else []
      ensures curl.end == Open ==> Flow(old(curl.start), old(curl.held), old(curlbufOff), sizes)
      ensures curl.end != Open ==> outbufOff == 0
    {
      hide Splice, Chunk, Flow, Copied;
      ghost var (was, from, start, held, partial) := (buffer[..], httpOff, curl.start, curl.held, curlbufOff);
      SpliceNothing(was, 0);
      outbuf := buffer;
      outbufOff := 0;
      outbufSize := len;
      CopiedNothing(was, from);
      FlowNothing(start, held, partial);
      sizes := [];
      if state == Paused {
        Resume(resume, was, from);
        sizes := resume;
      }
    }

    /**
     `sl_http_read_cb`. Each read delivers the bytes at the position and moves it by their number: exactly as many as
     the chunks presented to it hold beyond what was taken before, and fit, however they are cut. It goes on until the
     buffer is full, the transfer has ended or libcurl fails; so it comes short for no other reason, and waits only
     for a transfer it has not left paused.
     */
    method Read(buffer: array<Byte>, len: nat, resume: seq<nat>, turns: seq<Turn>)
      returns (n: nat, why: Why, used: nat)
      requires Valid() && len <= buffer.Length
      modifies this, curl, buffer
      ensures Valid() && httpOff == old(httpOff) + n <= |curl.body| && n <= len && used <= |turns|
      ensures buffer[..] == Splice(old(buffer[..]), 0, Chunk(curl.body, old(httpOff), n))
      ensures n == if old(curl.end) != Open then 0
                   else Moved((if old(state) == Paused then resume else []) + Sizes(turns[..used]),
                              old(curl.held), |curl.body| - old(curl.start), old(curlbufOff), len)
      ensures forall i :: 0 <= i < used - 1 ==> !Fails(turns[i])
      ensures match why
              case Filled => n == len
              case Completed => n == |curl.body| - old(httpOff) && curl.end == Complete
              case Failed => old(curl.end) == Broken || (used > 0 && Fails(turns[used - 1]))
              case Waiting =>
                n < len && used == |turns| && curl.end == old(curl.end) && !(curl.paused && curl.end == Open)
      ensures why == Waiting ==> forall i :: 0 <= i < used ==> !Fails(turns[i])
      ensures why == Filled || why == Completed ==> n == Min(len, |curl.body| - old(httpOff))
      ensures curl.end != old(curl.end) ==> used > 0 && turns[used - 1].Perform? && curl.end == turns[used - 1].end
      ensures used > 0 && turns[used - 1].Perform? && curl.end != Open ==> state == Ready
      ensures used > 0 && !Fails(turns[used - 1]) && curl.end == Open ==> state != Ready
    {
      hide Splice, Chunk, Flow, Copied, Moved, Sizes;
      ghost var (was, from) := (buffer[..], httpOff);
      ghost var (start, held, partial, end0) := (curl.start, curl.held, curlbufOff, curl.end);
      ghost var presented := Enter(buffer, len, resume);
      ghost var sizes := presented;
      used := 0;
      NoSizes(turns);
      while outbufOff < outbufSize
        invariant used <= |turns| && Valid() && outbuf == buffer && outbufSize == len
        invariant Copied(was, from) && RestsOnlyWhenFull() && curl.end == end0
        invariant presented == sizes + Sizes(turns[..used])
        invariant if end0 == Open then Flow(start, held, partial, presented) else outbufOff == 0 && used == 0
        invariant forall i :: 0 <= i < used ==> !Fails(turns[i])
        invariant used > 0 ==> state != Ready
        decreases |turns| - used
      {
        if used >= |turns| {
          ReadSoFar(was, from, start, held, partial, end0, presented);
          return outbufOff, Waiting, used;
        }
        var turn := turns[used];
        SizesOn(turns, used);
        var stop := ReadTurn(turn, was, from, start, held, partial, presented);
        presented := presented + if turn.Perform? then turn.sizes else [];
        used := used + 1;
        assert presented == sizes + Sizes(turns[..used]);
        if stop {
          ReadSoFar(was, from, start, held, partial, end0, presented);
          return outbufOff, if curl.end == Complete && turn.Perform? then Completed else Failed, used;
        }
      }
      ReadSoFar(was, from, start, held, partial, end0, presented);
      return outbufOff, Filled, used;
    }

    lemma CopiedNothing(was: seq<Byte>, from: nat)
      requires Valid() && outbuf[..] == was == Splice(was, 0, []) && outbufOff == 0 && httpOff == from
      ensures Copied(was, from)
    {
    }

    lemma FlowNothing(start: nat, held: nat, partial: nat)
      requires Valid() && outbufOff == 0 && curl.start == start && curl.held == held && curlbufOff == partial
      ensures !curl.paused ==> Flow(start, held, partial, [])
    {
    }

    /** What a read has delivered at any moment. */
    lemma ReadSoFar(was: seq<Byte>, from: nat, start: nat, held: nat, partial: nat, end: End, sizes: seq<nat>)
      requires Valid() && Copied(was, from) && partial <= held && start + held <= |curl.body|
      requires if end == Open then Flow(start, held, partial, sizes) else outbufOff == 0
      ensures httpOff == from + outbufOff <= |curl.body|
      ensures outbufOff <= |was| && outbuf[..] == Splice(was, 0, Chunk(curl.body, from, outbufOff))
      ensures outbufOff == if end != Open then 0 else Moved(sizes, held, |curl.body| - start, partial, outbufSize)
    {
      hide Splice, Chunk, Offered;
    }

    /**
     Any number of reads, of any lengths, one after the other, however libcurl cuts the body and however often the
     transfer is paused and a chunk presented again: together they deliver the body from the first position on,
     nothing lost and nothing repeated, and move the position by as much. That is as much as was asked for, or all to
     the body's end, unless libcurl failed in a turn of one of them or before, or one still waits with all its turns
     used up.
     */
    method Session(requests: seq<Request>) returns (out: seq<Byte>, whys: seq<Why>)
      requires Valid()
      modifies this, curl
      ensures Valid() && httpOff == old(httpOff) + |out| <= |curl.body|
      ensures out == Chunk(curl.body, old(httpOff), |out|)
      ensures |whys| == |requests|
      ensures Whole(whys) ==>
                |out| == Min(Wanted(requests), |curl.body| - old(httpOff))
      ensures forall i :: 0 <= i < |whys| && whys[i] == Failed ==>
                old(curl.end) == Broken || Troubled(requests[..i + 1])
      ensures forall i :: 0 <= i < |whys| && whys[i] == Waiting ==> !Troubled([requests[i]])
    {
      hide Splice, Chunk, Moved, Troubled, Whole, Fails;
      ghost var (from, end0) := (httpOff, curl.end);
      PositionInside();
      out, whys := [], [];
      ChunkNone(curl.body, from);
      var i := 0;
      while i < |requests|
        invariant i == |whys| <= |requests| && Valid()
        invariant httpOff == from + |out| <= |curl.body| && out == Chunk(curl.body, from, |out|)
        invariant Whole(whys) ==>
                    |out| == Min(Wanted(requests[..i]), |curl.body| - from)
        invariant curl.end == Broken ==> end0 == Broken || Troubled(requests[..i])
        invariant forall j :: 0 <= j < i && whys[j] == Failed ==> end0 == Broken || Troubled(requests[..j + 1])
        invariant forall j :: 0 <= j < i && whys[j] == Waiting ==> !Troubled([requests[j]])
      {
        var request := requests[i];
        var buffer := new Byte[request.len];
        ghost var was := buffer[..];
        ghost var end := curl.end;
        var n, why, used := Read(buffer, request.len, request.resume, request.turns);
        ChunkOn(curl.body, from, |out|, n);
        SpliceHead(was, Chunk(curl.body, from + |out|, n));
        assert requests[..i + 1][..i] == requests[..i];
        if used > 0 && Fails(request.turns[used - 1]) {
          TroubleHere(requests, i, used - 1);
        }
        if curl.end == Broken && end != Broken {
          BrokenFails(request.turns[used - 1]);
          TroubleHere(requests, i, used - 1);
        }
        TroubleStays(requests, i);
        if why == Waiting {
          NoTrouble(request);
        }
        WholeOn(whys, why);
        out, whys := out + buffer[..n], whys + [why];
        i := i + 1;
      }
      assert requests[..i] == requests;
    }

    lemma PositionInside()
      requires Valid()
      ensures httpOff <= |curl.body|
    {
    }
  }

  lemma NoSizes(turns: seq<Turn>)
    ensures Sizes(turns[..0]) == []
  {
  }

  lemma SizesOn(turns: seq<Turn>, i: nat)
    requires i < |turns|
    ensures Sizes(turns[..i + 1]) == Sizes(turns[..i]) + if turns[i].Perform? then turns[i].sizes else []
  {
    assert turns[..i + 1][..i] == turns[..i];
  }

  /** One read of a session: its length, and what libcurl does during it. */
  datatype Request = Request(len: nat, resume: seq<nat>, turns: seq<Turn>)

  /** libcurl fails in a turn of one of these reads. */
  predicate Troubled(requests: seq<Request>) {
    exists j, t :: 0 <= j < |requests| && 0 <= t < |requests[j].turns| && Fails(requests[j].turns[t])
  }

  /** No read failed or waits. */
  predicate Whole(whys: seq<Why>) {
    forall i :: 0 <= i < |whys| ==> whys[i] == Filled || whys[i] == Completed
  }

  lemma WholeOn(whys: seq<Why>, why: Why)
    ensures Whole(whys + [why]) <==> Whole(whys) && (why == Filled || why == Completed)
  {
    assert forall i :: 0 <= i < |whys| ==> (whys + [why])[i] == whys[i];
    assert (whys + [why])[|whys|] == why;
  }

  lemma TroubleHere(requests: seq<Request>, i: nat, t: nat)
    requires i < |requests| && t < |requests[i].turns| && Fails(requests[i].turns[t])
    ensures Troubled(requests[..i + 1])
  {
    assert requests[..i + 1][i] == requests[i];
  }

  lemma NoTrouble(request: Request)
    requires forall t :: 0 <= t < |request.turns| ==> !Fails(request.turns[t])
    ensures !Troubled([request])
  {
  }

  lemma BrokenFails(turn: Turn)
    requires turn.Perform? && turn.end == Broken
    ensures Fails(turn)
  {
  }

  lemma TroubleStays(requests: seq<Request>, i: nat)
    requires i < |requests|
    ensures Troubled(requests[..i]) ==> Troubled(requests[..i + 1])
  {
    if Troubled(requests[..i]) {
      var j, t :| 0 <= j < i && 0 <= t < |requests[j].turns| && Fails(requests[j].turns[t]);
      assert requests[..i + 1][j] == requests[j];
    }
  }

  function Wanted(requests: seq<Request>): nat {
    if requests == [] then 0 else Wanted(requests[..|requests| - 1]) + requests[|requests| - 1].len
  }
}
