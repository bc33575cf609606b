/** Runs of the metadata cache in which no two calls overlap, though time passes during each:
    they are one FetchMetadata call after another. */
module CalmCache {
  import opened Text
  import opened CacheControl
  import opened MetadataCache

  /** A call only begins when no other is under way. */
  ghost predicate Calm(cfg: Config, steps: seq<Step>)
    requires Runs(cfg, steps)
  {
    steps != [] ==>
      var front := steps[..|steps| - 1];
      Calm(cfg, front) && (steps[|steps| - 1].Start? ==> Exec(cfg, front).threads == map[])
  }

  /** The call a step completes, with the time it captured and what it was answered; a call
      answered from the cache asked nobody. */
  function Completed(cfg: Config, s: State, step: Step): seq<Visit>
    requires Enabled(s, step)
  {
    match step
    case Check(t) => if Hit(s.cache, s.threads[t].now) then [Visit(s.threads[t].now, NetworkError)] else []
    case Receive(t, answer) => if Examine(cfg, answer).Doc? then [] else [Visit(s.threads[t].now, answer)]
    case Store(t) => [Visit(s.threads[t].now, Reply(200, s.threads[t].cacheControl, Some(s.threads[t].doc)))]
    case _ => []
  }

  function Visits(cfg: Config, steps: seq<Step>): seq<Visit>
    requires Runs(cfg, steps)
  {
    if steps == [] then []
    else
      var front, step := steps[..|steps| - 1], steps[|steps| - 1];
      Visits(cfg, front) + Completed(cfg, Exec(cfg, front), step)
  }

  function Starts(fills: seq<Fill>): seq<int> {
    seq(|fills|, i requires 0 <= i < |fills| => fills[i].start)
  }

  /** The cache and the fills are what the completed calls, one after another, leave. */
  ghost predicate InStep(cfg: Config, s: State, visits: seq<Visit>) {
    After(cfg, visits) == s.cache && FillTimes(cfg, visits) == Starts(s.fills)
  }

  /** The one call under way began after all the completed ones, and, past its check, misses. */
  ghost predicate Next(cfg: Config, s: State, visits: seq<Visit>, pc: Pc) {
    !pc.Finished? ==>
      && pc.now <= s.clock && (forall i :: 0 <= i < |visits| ==> visits[i].now <= pc.now)
      && (!pc.Started? ==> !Hit(s.cache, pc.now))
      && (pc.Accepted? ==> Trusts(cfg, pc.doc))
  }

  ghost predicate Timely(s: State, visits: seq<Visit>) {
    Ordered(visits) && forall i :: 0 <= i < |visits| ==> visits[i].now <= s.clock
  }

  ghost predicate OneAtATime(s: State) {
    forall t, u :: t in s.threads && u in s.threads ==> t == u
  }

  ghost predicate NextUp(cfg: Config, s: State, visits: seq<Visit>) {
    forall t :: t in s.threads ==> Next(cfg, s, visits, s.threads[t])
  }

  ghost predicate CalmInv(cfg: Config, s: State, visits: seq<Visit>) {
    InStep(cfg, s, visits) && Timely(s, visits) && OneAtATime(s) && NextUp(cfg, s, visits)
  }

  lemma AppendVisit(cfg: Config, visits: seq<Visit>, v: Visit)
    ensures After(cfg, visits + [v]) == Fetch(cfg, After(cfg, visits), v.now, v.answer).0
    ensures FillTimes(cfg, visits + [v]) ==
            FillTimes(cfg, visits) + if !Hit(After(cfg, visits), v.now) && Examine(cfg, v.answer).Doc? then [v.now] else []
  {
    assert (visits + [v])[..|visits|] == visits;
  }

  lemma StoreInStep(cfg: Config, s: State, visits: seq<Visit>, t: Tid)
    requires CalmInv(cfg, s, visits) && Enabled(s, Store(t))
    ensures InStep(cfg, Apply(cfg, s, Store(t)), visits + Completed(cfg, s, Store(t)))
  {
    assert Next(cfg, s, visits, s.threads[t]);
    Filled(cfg, s, visits, t, Fill(s.threads[t].now, s.threads[t].cacheControl, s.threads[t].doc));
  }

  lemma Filled(cfg: Config, s: State, visits: seq<Visit>, t: Tid, f: Fill)
    requires InStep(cfg, s, visits) && t in s.threads && s.threads[t] == Accepted(f.start, f.cacheControl, f.doc)
    requires !Hit(s.cache, f.start) && Trusts(cfg, f.doc)
    ensures InStep(cfg, Apply(cfg, s, Store(t)), visits + [Visit(f.start, Reply(200, f.cacheControl, Some(f.doc)))])
  {
    var v := Visit(f.start, Reply(200, f.cacheControl, Some(f.doc)));
    assert Examine(cfg, v.answer) == Doc(f.doc);
    AppendVisit(cfg, visits, v);
    StartsAppend(s.fills, f);
  }

  lemma StartsAppend(fills: seq<Fill>, f: Fill)
    ensures Starts(fills + [f]) == Starts(fills) + [f.start]
  {
  }

  lemma OthersInStep(cfg: Config, s: State, visits: seq<Visit>, step: Step)
    requires CalmInv(cfg, s, visits) && Enabled(s, step) && !step.Store?
    ensures InStep(cfg, Apply(cfg, s, step), visits + Completed(cfg, s, step))
  {
    if Completed(cfg, s, step) == [] {
      assert visits + Completed(cfg, s, step) == visits;
    } else {
      AppendVisit(cfg, visits, Completed(cfg, s, step)[0]);
      assert Next(cfg, s, visits, s.threads[step.t]);
    }
  }

  lemma StaysTimely(cfg: Config, s: State, visits: seq<Visit>, step: Step)
    requires Timely(s, visits) && NextUp(cfg, s, visits) && Enabled(s, step)
    ensures Timely(Apply(cfg, s, step), visits + Completed(cfg, s, step))
  {
    if Completed(cfg, s, step) != [] {
      assert Next(cfg, s, visits, s.threads[step.t]);
      LaterVisit(s, visits, Completed(cfg, s, step)[0]);
    } else {
      assert visits + Completed(cfg, s, step) == visits;
    }
  }

  lemma LaterVisit(s: State, visits: seq<Visit>, v: Visit)
    requires Timely(s, visits) && v.now <= s.clock && forall i :: 0 <= i < |visits| ==> visits[i].now <= v.now
    ensures Timely(s, visits + [v])
  {
  }

  /** What call t's own step leaves it with. */
  lemma MoverNext(cfg: Config, s: State, visits: seq<Visit>, step: Step)
    requires CalmInv(cfg, s, visits) && Enabled(s, step) && !step.Tick? && !step.Return?
    ensures Next(cfg, Apply(cfg, s, step), visits + Completed(cfg, s, step), Apply(cfg, s, step).threads[step.t])
  {
    if !step.Start? {
      assert Next(cfg, s, visits, s.threads[step.t]);
    }
  }

  /** Time passing moves nobody. */
  lemma TickNext(cfg: Config, s: State, visits: seq<Visit>, d: nat, t: Tid)
    requires t in s.threads && Next(cfg, s, visits, s.threads[t])
    ensures Next(cfg, Apply(cfg, s, Tick(d)), visits, s.threads[t])
  {
  }

  lemma StaysNext(cfg: Config, s: State, visits: seq<Visit>, step: Step)
    requires CalmInv(cfg, s, visits) && Enabled(s, step) && (step.Start? ==> s.threads == map[])
    ensures NextUp(cfg, Apply(cfg, s, step), visits + Completed(cfg, s, step))
  {
    var s', visits' := Apply(cfg, s, step), visits + Completed(cfg, s, step);
    forall t | t in s'.threads ensures Next(cfg, s', visits', s'.threads[t]) {
      if step.Tick? {
        TickNext(cfg, s, visits, step.d, t);
        assert visits' == visits;
      } else {
        StaysAlone(cfg, s, step);
        MoverNext(cfg, s, visits, step);
      }
    }
  }

  /** No call overlaps the one that takes a step. */
  lemma StaysAlone(cfg: Config, s: State, step: Step)
    requires OneAtATime(s) && Enabled(s, step) && (step.Start? ==> s.threads == map[])
    ensures OneAtATime(Apply(cfg, s, step))
    ensures forall t :: t in Apply(cfg, s, step).threads && !step.Tick? ==> t == step.t && !step.Return?
  {
  }

  lemma CalmStep(cfg: Config, s: State, visits: seq<Visit>, step: Step)
    requires CalmInv(cfg, s, visits) && Enabled(s, step) && (step.Start? ==> s.threads == map[])
    ensures CalmInv(cfg, Apply(cfg, s, step), visits + Completed(cfg, s, step))
  {
    StaysTimely(cfg, s, visits, step);
    StaysAlone(cfg, s, step);
    StaysNext(cfg, s, visits, step);
    if step.Store? {
      StoreInStep(cfg, s, visits, step.t);
    } else {
      OthersInStep(cfg, s, visits, step);
    }
  }

  /** A run without overlap leaves the cache, and has filled it at the times, that its calls
      would have one after another; and their times are in order. */
  lemma {:induction false} CalmIsSequential(cfg: Config, steps: seq<Step>)
    requires Runs(cfg, steps) && Calm(cfg, steps)
    ensures CalmInv(cfg, Exec(cfg, steps), Visits(cfg, steps))
  {
    if steps != [] {
      var front := steps[..|steps| - 1];
      CalmIsSequential(cfg, front);
      CalmStep(cfg, Exec(cfg, front), Visits(cfg, front), steps[|steps| - 1]);
    }
  }

  /** And each call returns what it would have returned alone. */
  lemma CalmResult(cfg: Config, steps: seq<Step>, step: Step)
    requires Runs(cfg, steps) && Calm(cfg, steps) && Enabled(Exec(cfg, steps), step)
    requires Completed(cfg, Exec(cfg, steps), step) != []
    ensures var s, v := Exec(cfg, steps), Completed(cfg, Exec(cfg, steps), step)[0];
            Apply(cfg, s, step).threads[step.t] == Finished(Fetch(cfg, After(cfg, Visits(cfg, steps)), v.now, v.answer).1)
  {
    CalmIsSequential(cfg, steps);
    StepResult(cfg, Exec(cfg, steps), Visits(cfg, steps), step);
  }

  lemma StepResult(cfg: Config, s: State, visits: seq<Visit>, step: Step)
    requires CalmInv(cfg, s, visits) && Enabled(s, step) && Completed(cfg, s, step) != []
    ensures var v := Completed(cfg, s, step)[0];
            Apply(cfg, s, step).threads[step.t] == Finished(Fetch(cfg, s.cache, v.now, v.answer).1)
  {
    assert Next(cfg, s, visits, s.threads[step.t]);
  }

  // Constant lifetimes.

  /** Every acceptable document is served with the same lifetime. */
  ghost predicate Constant(cfg: Config, steps: seq<Step>, ttl: int) {
    forall k :: 0 <= k < |steps| && steps[k].Receive? && Examine(cfg, steps[k].answer).Doc? ==>
      TTL(steps[k].answer.cacheControl, cfg.defaultTTL) == ttl
  }

  lemma {:induction false} ConstantVisits(cfg: Config, steps: seq<Step>, ttl: int)
    requires Runs(cfg, steps) && Constant(cfg, steps, ttl)
    ensures ConstantTTL(cfg, Visits(cfg, steps), ttl)
    ensures forall t :: t in Exec(cfg, steps).threads && Exec(cfg, steps).threads[t].Accepted? ==>
              TTL(Exec(cfg, steps).threads[t].cacheControl, cfg.defaultTTL) == ttl
  {
    if steps != [] {
      ConstantVisits(cfg, steps[..|steps| - 1], ttl);
    }
  }

  /** Without overlap and with a constant lifetime T > 0, n fetches that succeed span at least
      (n - 1) * T, so calls within a time D make at most 1 + D / T of them. */
  lemma CalmFetchBound(cfg: Config, steps: seq<Step>, ttl: int)
    requires Runs(cfg, steps) && Calm(cfg, steps) && Constant(cfg, steps, ttl) && ttl > 0
    ensures var fills := Exec(cfg, steps).fills;
      && (forall k :: 0 <= k < |fills| - 1 ==> fills[k].start + ttl <= fills[k + 1].start)
      && (fills != [] ==> fills[0].start + (|fills| - 1) * ttl <= fills[|fills| - 1].start)
  {
    CalmIsSequential(cfg, steps);
    ConstantVisits(cfg, steps, ttl);
    FillsApart(cfg, Visits(cfg, steps), ttl);
    var fills := Exec(cfg, steps).fills;
    var times := Starts(fills);
    forall k | 0 <= k < |fills| - 1 ensures fills[k].start + ttl <= fills[k + 1].start {
      assert times[k] + ttl <= times[k + 1];
    }
    if fills != [] {
      Spread(times, ttl);
    }
  }

  /** Without overlap and with a lifetime of zero or less, every call asks the network. */
  lemma CalmNeverHits(cfg: Config, steps: seq<Step>, ttl: int, t: Tid)
    requires Runs(cfg, steps) && Calm(cfg, steps) && Constant(cfg, steps, ttl) && ttl <= 0
    requires Enabled(Exec(cfg, steps), Check(t))
    ensures Apply(cfg, Exec(cfg, steps), Check(t)).threads[t].Missed?
  {
    CalmIsSequential(cfg, steps);
    ConstantVisits(cfg, steps, ttl);
    var s, visits := Exec(cfg, steps), Visits(cfg, steps);
    assert Next(cfg, s, visits, s.threads[t]);
    NeverHits(cfg, visits, s.threads[t].now, ttl);
  }
}
