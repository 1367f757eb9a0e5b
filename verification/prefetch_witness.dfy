/** Runs built step by step, to show where a stronger promise would be false. */
module PrefetchWitness {
  import opened PrefetchModel
  import opened PrefetchRuns

  /** Nobody is woken and no inner seek succeeds. */
  const PLAIN := Choice(false, false, false)
  /** The consumer asleep on the seek condition is woken. */
  const WAKE_CONSUMER := Choice(false, false, true)
  const FILLER := ByFiller(PLAIN)
  const CONSUMER := ByConsumer(PLAIN)

  function Fresh(c: Config): State {
    State(seq(c.size, i => 0), 0, 0, Off, Off, Free, Free, Free, Off, 0, Off, Off, 0, Off, 0, 0, Off, Off, 0, Off,
          FAbsent, Off, 0, 0, 0, 0, Off, CIdle, Off, 0, 0, [], 0, 0, 0, [])
  }

  /** `steps` can be taken one after the other from `s` and lead to `t`. */
  predicate Leads(c: Config, s: State, steps: seq<Step>, t: State) {
    Legal(c, s, steps) && After(c, s, steps) == t
  }

  lemma Nothing(c: Config, s: State)
    ensures Leads(c, s, [], s)
  {
  }

  lemma First(c: Config, s: State, step: Step, rest: seq<Step>, t: State)
    requires May(c, s, step) && Leads(c, Do(c, s, step), rest, t)
    ensures Leads(c, s, [step] + rest, t)
  {
    assert ([step] + rest)[1..] == rest;
  }

  lemma {:induction false} Then(c: Config, s: State, steps: seq<Step>, t: State, more: seq<Step>, u: State)
    requires Leads(c, s, steps, t) && Leads(c, t, more, u)
    ensures Leads(c, s, steps + more, u)
    decreases |steps|
  {
    hide May, Do;
    if steps == [] {
      assert steps + more == more;
    } else {
      Then(c, Do(c, s, steps[0]), steps[1..], t, more, u);
      assert (steps + more)[1..] == steps[1..] + more;
    }
  }

  /** A run from a reachable state leads to a reachable state. */
  lemma ReachableOn(c: Config, s: State, run: seq<Step>, t: State)
    requires Reachable(c, s) && Leads(c, s, run, t)
    ensures Reachable(c, t)
  {
    hide Legal, After, Init;
    var start, steps :| Init(c, start) && Legal(c, start, steps) && After(c, start, steps) == s;
    Then(c, start, steps, s, run, t);
  }

  lemma One(c: Config, s: State, steps: seq<Step>, t: State, step: Step) returns (u: State, longer: seq<Step>)
    requires Leads(c, s, steps, t) && May(c, t, step)
    ensures u == Do(c, t, step) && longer == steps + [step] && Leads(c, s, longer, u)
  {
    hide May, Do, Legal, After;
    u, longer := Do(c, t, step), steps + [step];
    Nothing(c, u);
    First(c, t, step, [], u);
    assert [step] + [] == [step];
    Then(c, s, steps, t, [step], u);
  }

  /** The thread is created and reaches its loop test. */
  lemma FillerArrives(c: Config) returns (s: State, run: seq<Step>)
    requires c.Valid()
    ensures Leads(c, Fresh(c), run, s)
    ensures s == Fresh(c).(started := On, fpc := FTop(FTestR))
  {
    hide Leads;
    s, run := Fresh(c), [];
    Nothing(c, s);
    s, run := One(c, Fresh(c), run, s, ByClient(Create));
    s, run := One(c, Fresh(c), run, s, FILLER);
    s, run := One(c, Fresh(c), run, s, FILLER);
    s, run := One(c, Fresh(c), run, s, FILLER);
  }

  /** A seek is called and its request stored. */
  lemma SeekRequested(c: Config, s0: State, run0: seq<Step>, off: int) returns (s: State, run: seq<Step>)
    requires c.Valid() && Leads(c, Fresh(c), run0, s0)
    requires s0 == Fresh(c).(started := On, fpc := FTop(FIf))
    ensures Leads(c, Fresh(c), run, s)
    ensures s == s0.(coff := off, seekOff := off, slock := Consumer, req := On, cpc := CClosing(CKTest, BySeek))
  {
    hide Leads;
    s, run := s0, run0;
    s, run := One(c, Fresh(c), run, s, ByClient(Seek(off)));
    s, run := One(c, Fresh(c), run, s, CONSUMER);
    s, run := One(c, Fresh(c), run, s, CONSUMER);
    s, run := One(c, Fresh(c), run, s, CONSUMER);
    s, run := One(c, Fresh(c), run, s, CONSUMER);
  }

  /** The filler finds the request and the inner seek fails, while the consumer closes reading and sleeps. */
  lemma SeekFails(c: Config, s0: State, run0: seq<Step>, off: int) returns (s: State, run: seq<Step>)
    requires c.Valid() && Leads(c, Fresh(c), run0, s0)
    requires s0 == Fresh(c).(started := On, fpc := FTop(FIf), coff := off, seekOff := off, slock := Consumer, req := On,
                             cpc := CClosing(CKTest, BySeek))
    ensures Leads(c, Fresh(c), run, s)
    ensures s == s0.(rdone := On, slock := Free, seekOk := Off, failed := On, fpc := FServing(FSLock),
                     cpc := CWaiting(CSAsleep))
  {
    hide Leads;
    s, run := s0, run0;
    s, run := One(c, Fresh(c), run, s, FILLER);
    s, run := One(c, Fresh(c), run, s, FILLER);
    s, run := One(c, Fresh(c), run, s, CONSUMER);
    s, run := One(c, Fresh(c), run, s, CONSUMER);
    s, run := One(c, Fresh(c), run, s, CONSUMER);
    s, run := One(c, Fresh(c), run, s, CONSUMER);
    s, run := One(c, Fresh(c), run, s, CONSUMER);
    s, run := One(c, Fresh(c), run, s, CONSUMER);
    s, run := One(c, Fresh(c), run, s, CONSUMER);
    s, run := One(c, Fresh(c), run, s, CONSUMER);
  }

  /** The request is cleared and the failed seek returns. */
  lemma FailureReported(c: Config, s0: State, run0: seq<Step>, off: int) returns (s: State, run: seq<Step>)
    requires c.Valid() && Leads(c, Fresh(c), run0, s0)
    requires s0 == Fresh(c).(started := On, coff := off, seekOff := off, req := On, rdone := On, seekOk := Off,
                             failed := On, fpc := FServing(FSLock), cpc := CWaiting(CSAsleep))
    ensures Leads(c, Fresh(c), run, s)
    ensures s == s0.(req := Off, csig := On, fpc := FWriting(FWEntry), cpc := CIdle)
  {
    hide Leads;
    s, run := s0, run0;
    s, run := One(c, Fresh(c), run, s, FILLER);
    s, run := One(c, Fresh(c), run, s, FILLER);
    s, run := One(c, Fresh(c), run, s, ByFiller(WAKE_CONSUMER));
    s, run := One(c, Fresh(c), run, s, FILLER);
    s, run := One(c, Fresh(c), run, s, CONSUMER);
    s, run := One(c, Fresh(c), run, s, CONSUMER);
    s, run := One(c, Fresh(c), run, s, CONSUMER);
    s, run := One(c, Fresh(c), run, s, CONSUMER);
    s, run := One(c, Fresh(c), run, s, CONSUMER);
  }

  lemma LeadsReaches(c: Config, run: seq<Step>, s: State)
    requires c.Valid() && Leads(c, Fresh(c), run, s)
    ensures Reachable(c, s)
  {
    hide Legal, After;
    assert Init(c, Fresh(c));
  }
}
