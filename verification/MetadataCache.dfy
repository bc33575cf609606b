/** The per-client metadata cache: FetchMetadata of client/metadata.go, alone and under
    concurrent callers. Times and lifetimes are nanoseconds. */
module MetadataCache {
  import opened Text
  import opened CacheControl
  import opened Discovery

  datatype Config = Config(base: string, relaxed: bool, defaultTTL: int)

  datatype Entry = Entry(doc: Metadata, expires: int)

  /** What the network answers; a body that does not decode has no document. */
  datatype Answer =
    | NetworkError
    | Reply(status: nat, cacheControl: string, doc: Option<Metadata>)

  datatype Result =
    | Doc(doc: Metadata)
    | NetworkFailure
    | BadStatus(status: nat)
    | BadBody
    | MixUp(configured: string, issuer: string)

  predicate Trusts(cfg: Config, doc: Metadata) {
    cfg.relaxed || SameIssuer(cfg.base, doc.issuer)
  }

  function Examine(cfg: Config, answer: Answer): Result {
    match answer
    case NetworkError => NetworkFailure
    case Reply(status, _, doc) =>
      if status != 200 then BadStatus(status)
      else if doc.None? then BadBody
      else if !Trusts(cfg, doc.value) then MixUp(cfg.base, doc.value.issuer)
      else Doc(doc.value)
  }

  predicate Hit(cache: Option<Entry>, now: int) {
    cache.Some? && now < cache.value.expires
  }

  /** One call with nobody else running. */
  function Fetch(cfg: Config, cache: Option<Entry>, now: int, answer: Answer): (Option<Entry>, Result) {
    if Hit(cache, now) then (cache, Doc(cache.value.doc))
    else
      var r := Examine(cfg, answer);
      if r.Doc? then (Some(Entry(r.doc, now + TTL(answer.cacheControl, cfg.defaultTTL))), r) else (cache, r)
  }

  class MetadataClient {
    const cfg: Config
    var cache: Option<Entry>

    constructor (cfg: Config)
      ensures this.cfg == cfg && cache == None
    {
      this.cfg := cfg;
      cache := None;
    }

    /** `answer` is what the doer would return; a hit does not ask it. */
    method FetchMetadata(now: int, answer: Answer) returns (r: Result, asked: bool)
      modifies this
      ensures (cache, r) == Fetch(cfg, old(cache), now, answer)
      ensures asked <==> !(old(cache).Some? && now < old(cache).value.expires)
      ensures !asked ==> r == Doc(old(cache).value.doc)
      ensures asked ==>
        r == (if answer.NetworkError? then NetworkFailure
              else if answer.status != 200 then BadStatus(answer.status)
              else if answer.doc.None? then BadBody
              else if cfg.relaxed || TrimSlashes(cfg.base) == TrimSlashes(answer.doc.value.issuer) then Doc(answer.doc.value)
              else MixUp(cfg.base, answer.doc.value.issuer))
      ensures cache == if asked && r.Doc? then Some(Entry(r.doc, now + TTL(answer.cacheControl, cfg.defaultTTL))) else old(cache)
    {
      if cache.Some? && now < cache.value.expires {
        return Doc(cache.value.doc), false;
      }
      asked := true;
      if answer.NetworkError? {
        return NetworkFailure, asked;
      }
      if answer.status != 200 {
        return BadStatus(answer.status), asked;
      }
      if answer.doc.None? {
        return BadBody, asked;
      }
      var doc := answer.doc.value;
      if !cfg.relaxed {
        if !SameIssuer(cfg.base, doc.issuer) {
          return MixUp(cfg.base, doc.issuer), asked;
        }
      }
      assert Examine(cfg, answer) == Doc(doc);
      var ttl := CacheTTL(answer.cacheControl, cfg.defaultTTL);
      cache := Some(Entry(doc, now + ttl));
      return Doc(doc), asked;
    }
  }

  // One call after another.

  datatype Visit = Visit(now: int, answer: Answer)

  function After(cfg: Config, visits: seq<Visit>): Option<Entry> {
    if visits == [] then None
    else
      var v := visits[|visits| - 1];
      Fetch(cfg, After(cfg, visits[..|visits| - 1]), v.now, v.answer).0
  }

  /** The times of the calls that fetched and stored a document. */
  function FillTimes(cfg: Config, visits: seq<Visit>): seq<int> {
    if visits == [] then []
    else
      var front, v := visits[..|visits| - 1], visits[|visits| - 1];
      FillTimes(cfg, front)
      + if !Hit(After(cfg, front), v.now) && Examine(cfg, v.answer).Doc? then [v.now] else []
  }

  ghost predicate Ordered(visits: seq<Visit>) {
    forall i, j :: 0 <= i <= j < |visits| ==> visits[i].now <= visits[j].now
  }

  /** Every document served asks for the same lifetime. */
  ghost predicate ConstantTTL(cfg: Config, visits: seq<Visit>, ttl: int) {
    forall i :: 0 <= i < |visits| && Examine(cfg, visits[i].answer).Doc? ==>
      TTL(visits[i].answer.cacheControl, cfg.defaultTTL) == ttl
  }

  /** The cache holds exactly the last fill, and fills are at least one lifetime apart. */
  lemma {:induction false} FillsApart(cfg: Config, visits: seq<Visit>, ttl: int)
    requires Ordered(visits) && ConstantTTL(cfg, visits, ttl)
    ensures var times := FillTimes(cfg, visits);
      && (times == [] <==> After(cfg, visits).None?)
      && (times != [] ==> After(cfg, visits).value.expires == times[|times| - 1] + ttl
                          && visits[0].now <= times[0] && times[|times| - 1] <= visits[|visits| - 1].now)
      && (forall k :: 0 <= k < |times| - 1 ==> times[k] + ttl <= times[k + 1])
  {
    if visits != [] {
      var front := visits[..|visits| - 1];
      FillsApart(cfg, front, ttl);
    }
  }

  lemma {:induction false} Spread(times: seq<int>, ttl: int)
    requires times != [] && forall k :: 0 <= k < |times| - 1 ==> times[k] + ttl <= times[k + 1]
    ensures times[0] + (|times| - 1) * ttl <= times[|times| - 1]
  {
    if |times| > 1 {
      Spread(times[..|times| - 1], ttl);
      assert (|times| - 1) * ttl == (|times| - 2) * ttl + ttl;
    }
  }

  /** Calls spanning a time D store n documents with (n - 1) * T <= D, that is at most 1 + D/T. */
  lemma FetchBound(cfg: Config, visits: seq<Visit>, ttl: int)
    requires visits != [] && Ordered(visits) && ConstantTTL(cfg, visits, ttl) && ttl > 0
    ensures (|FillTimes(cfg, visits)| - 1) * ttl <= visits[|visits| - 1].now - visits[0].now
  {
    FillsApart(cfg, visits, ttl);
    if FillTimes(cfg, visits) != [] {
      Spread(FillTimes(cfg, visits), ttl);
    }
  }

  /** With a lifetime of zero or less, calls that do not overlap never hit. */
  lemma NeverHits(cfg: Config, visits: seq<Visit>, now: int, ttl: int)
    requires Ordered(visits) && ConstantTTL(cfg, visits, ttl) && ttl <= 0
    requires visits != [] ==> visits[|visits| - 1].now <= now
    ensures !Hit(After(cfg, visits), now)
  {
    FillsApart(cfg, visits, ttl);
  }

  // Overlapping calls: the cache is only locked to be read and to be written, and a call
  // captured its time before either.

  type Tid = nat

  datatype Pc =
    | Started(now: int)
    | Missed(now: int)
    | Accepted(now: int, cacheControl: string, doc: Metadata)
    | Finished(result: Result)

  /** A store: when its fetch's call began, and what the server said. */
  datatype Fill = Fill(start: int, cacheControl: string, doc: Metadata)

  datatype State = State(cache: Option<Entry>, clock: int, threads: map<Tid, Pc>, fills: seq<Fill>)

  datatype Step =
    | Tick(d: nat)
    | Start(t: Tid)
    | Check(t: Tid)
    | Receive(t: Tid, answer: Answer)
    | Store(t: Tid)
    | Return(t: Tid)

  predicate Enabled(s: State, step: Step) {
    match step
    case Tick(_) => true
    case Start(t) => t !in s.threads
    case Check(t) => t in s.threads && s.threads[t].Started?
    case Receive(t, _) => t in s.threads && s.threads[t].Missed?
    case Store(t) => t in s.threads && s.threads[t].Accepted?
    case Return(t) => t in s.threads && s.threads[t].Finished?
  }

  function Apply(cfg: Config, s: State, step: Step): State
    requires Enabled(s, step)
  {
    match step
    case Tick(d) => s.(clock := s.clock + d)
    case Start(t) => s.(threads := s.threads[t := Started(s.clock)])
    case Check(t) =>
      var now := s.threads[t].now;
      s.(threads := s.threads[t := if Hit(s.cache, now) then Finished(Doc(s.cache.value.doc)) else Missed(now)])
    case Receive(t, answer) =>
      var r := Examine(cfg, answer);
      s.(threads := s.threads[t := if r.Doc? then Accepted(s.threads[t].now, answer.cacheControl, r.doc) else Finished(r)])
    case Store(t) =>
      var Accepted(now, cc, doc) := s.threads[t];
      s.(cache := Some(Entry(doc, now + TTL(cc, cfg.defaultTTL))),
         threads := s.threads[t := Finished(Doc(doc))],
         fills := s.fills + [Fill(now, cc, doc)])
    case Return(t) => s.(threads := s.threads - {t})
  }

  predicate Runs(cfg: Config, steps: seq<Step>)
    decreases |steps|, 0
  {
    steps == [] || (Runs(cfg, steps[..|steps| - 1]) && Enabled(Exec(cfg, steps[..|steps| - 1]), steps[|steps| - 1]))
  }

  function Exec(cfg: Config, steps: seq<Step>): State
    requires Runs(cfg, steps)
    decreases |steps|, 1
  {
    if steps == [] then State(None, 0, map[], [])
    else Apply(cfg, Exec(cfg, steps[..|steps| - 1]), steps[|steps| - 1])
  }

  function Lifespan(cfg: Config, f: Fill): int {
    TTL(f.cacheControl, cfg.defaultTTL)
  }

  ghost predicate InvThread(cfg: Config, s: State, pc: Pc) {
    match pc
    case Started(now) => now <= s.clock
    case Missed(now) => now <= s.clock
    case Accepted(now, _, doc) => now <= s.clock && Trusts(cfg, doc)
    case Finished(r) => r.Doc? ==> Trusts(cfg, r.doc) && exists f :: f in s.fills && f.doc == r.doc
  }

  /** The cache is always the last fill. */
  predicate LastFill(cfg: Config, s: State) {
    if s.fills == [] then s.cache == None
    else var f := s.fills[|s.fills| - 1]; s.cache == Some(Entry(f.doc, f.start + Lifespan(cfg, f)))
  }

  ghost predicate InvFill(cfg: Config, s: State, f: Fill) {
    f.start <= s.clock && Trusts(cfg, f.doc)
  }

  /** And every document in play passed the check. */
  ghost predicate Inv(cfg: Config, s: State) {
    && LastFill(cfg, s)
    && (forall f :: f in s.fills ==> InvFill(cfg, s, f))
    && (forall t :: t in s.threads ==> InvThread(cfg, s, s.threads[t]))
  }

  /** A call that takes no step is not affected by time passing or by others' fills. */
  lemma ThreadStays(cfg: Config, s: State, s': State, pc: Pc)
    requires InvThread(cfg, s, pc) && s.clock <= s'.clock && forall f :: f in s.fills ==> f in s'.fills
    ensures InvThread(cfg, s', pc)
  {
  }

  /** What call t's own step leaves it with. */
  lemma ThreadMoves(cfg: Config, s: State, step: Step)
    requires Inv(cfg, s) && Enabled(s, step) && !step.Tick? && !step.Return?
    ensures InvThread(cfg, Apply(cfg, s, step), Apply(cfg, s, step).threads[step.t])
  {
    match step
    case Start(t) =>
    case Check(t) =>
      assert InvThread(cfg, s, s.threads[t]);
      if Hit(s.cache, s.threads[t].now) {
        var f := s.fills[|s.fills| - 1];
        assert f in s.fills && InvFill(cfg, s, f) && s.cache.value.doc == f.doc;
      }
    case Receive(t, answer) =>
      assert InvThread(cfg, s, s.threads[t]);
    case Store(t) =>
      assert InvThread(cfg, s, s.threads[t]);
      var f := Fill(s.threads[t].now, s.threads[t].cacheControl, s.threads[t].doc);
      assert Apply(cfg, s, step).fills == s.fills + [f];
      assert f in Apply(cfg, s, step).fills && f.doc == s.threads[t].doc;
  }

  lemma FillsKept(cfg: Config, s: State, step: Step)
    requires Inv(cfg, s) && Enabled(s, step)
    ensures var s' := Apply(cfg, s, step);
      && LastFill(cfg, s') && s.clock <= s'.clock
      && (forall f :: f in s.fills ==> f in s'.fills) && (forall f :: f in s'.fills ==> InvFill(cfg, s', f))
  {
    var s' := Apply(cfg, s, step);
    if step.Store? {
      var f := Fill(s.threads[step.t].now, s.threads[step.t].cacheControl, s.threads[step.t].doc);
      assert s'.fills == s.fills + [f] && InvThread(cfg, s, s.threads[step.t]);
    } else {
      assert s'.fills == s.fills && s'.cache == s.cache;
    }
  }

  lemma StepKeeps(cfg: Config, s: State, step: Step)
    requires Inv(cfg, s) && Enabled(s, step)
    ensures Inv(cfg, Apply(cfg, s, step))
  {
    var s' := Apply(cfg, s, step);
    FillsKept(cfg, s, step);
    forall t | t in s'.threads ensures InvThread(cfg, s', s'.threads[t]) {
      if Of(step, t) {
        ThreadMoves(cfg, s, step);
      } else {
        assert t in s.threads && s'.threads[t] == s.threads[t];
        ThreadStays(cfg, s, s', s.threads[t]);
      }
    }
  }

  /** The step is one of call t's. */
  predicate Of(step: Step, t: Tid) {
    !step.Tick? && step.t == t
  }

  /** What becomes of a response, whoever else is at work: a document is accepted exactly when
      it came with status 200 and decoded, and the client is relaxed or its issuer is the
      configured one but for slashes at the end; the call keeps the time it began. */
  lemma AcceptedExactly(cfg: Config, s: State, t: Tid, answer: Answer)
    requires t in s.threads && s.threads[t].Missed?
    ensures Apply(cfg, s, Receive(t, answer)).threads[t] ==
            if answer.NetworkError? then Finished(NetworkFailure)
            else if answer.status != 200 then Finished(BadStatus(answer.status))
            else if answer.doc.None? then Finished(BadBody)
            else if cfg.relaxed || TrimSlashes(cfg.base) == TrimSlashes(answer.doc.value.issuer) then
              Accepted(s.threads[t].now, answer.cacheControl, answer.doc.value)
            else Finished(MixUp(cfg.base, answer.doc.value.issuer))
    ensures Apply(cfg, s, Receive(t, answer)).cache == s.cache
  {
  }

  /** An accepted document is stored, to expire one lifetime after the call began, and returned. */
  lemma StoredExactly(cfg: Config, s: State, t: Tid)
    requires t in s.threads && s.threads[t].Accepted?
    ensures var s' := Apply(cfg, s, Store(t));
            var pc := s.threads[t];
            && s'.cache == Some(Entry(pc.doc, pc.now + TTL(pc.cacheControl, cfg.defaultTTL)))
            && s'.threads[t] == Finished(Doc(pc.doc))
  {
  }

  /** In strict mode every cached and every returned document names the configured issuer,
      whatever the servers answer and however calls interleave. */
  lemma {:induction false} OnlyTrusted(cfg: Config, steps: seq<Step>)
    requires Runs(cfg, steps)
    ensures var s := Exec(cfg, steps);
      && Inv(cfg, s)
      && (s.cache.Some? && !cfg.relaxed ==> SameIssuer(cfg.base, s.cache.value.doc.issuer))
      && (forall t :: t in s.threads && s.threads[t].Finished? && s.threads[t].result.Doc? && !cfg.relaxed ==>
            SameIssuer(cfg.base, s.threads[t].result.doc.issuer))
  {
    if steps != [] {
      OnlyTrusted(cfg, steps[..|steps| - 1]);
      StepKeeps(cfg, Exec(cfg, steps[..|steps| - 1]), steps[|steps| - 1]);
    }
  }

  /** Step k receives the document of a fill, in a call that began when the fill says. */
  ghost predicate ReceivedAt(cfg: Config, steps: seq<Step>, k: nat, f: Fill) {
    k < |steps| && steps[k].Receive? && Runs(cfg, steps[..k])
    && var s := Exec(cfg, steps[..k]);
       steps[k].t in s.threads && s.threads[steps[k].t] == Missed(f.start)
       && steps[k].answer == Reply(200, f.cacheControl, Some(f.doc))
  }

  lemma {:induction false} Origin(cfg: Config, steps: seq<Step>, f: Fill) returns (k: nat)
    requires Runs(cfg, steps)
    requires f in Exec(cfg, steps).fills
          || exists t :: t in Exec(cfg, steps).threads && Exec(cfg, steps).threads[t] == Accepted(f.start, f.cacheControl, f.doc)
    ensures ReceivedAt(cfg, steps, k, f)
  {
    var front, step := steps[..|steps| - 1], steps[|steps| - 1];
    var s := Exec(cfg, front);
    if f in s.fills || exists t :: t in s.threads && s.threads[t] == Accepted(f.start, f.cacheControl, f.doc) {
      k := Origin(cfg, front, f);
      assert steps[..k] == front[..k];
    } else {
      k := |front|;
    }
  }

  /** A hit returns a document served to a fetch whose call began at some start, with the
      caller's own time below start + lifetime; a lifetime of zero or less is hit only by
      callers that began before that fetch's call did. */
  lemma HitIsFresh(cfg: Config, steps: seq<Step>, t: Tid)
    requires Runs(cfg, steps) && Enabled(Exec(cfg, steps), Check(t))
    ensures var s := Exec(cfg, steps);
            var now := s.threads[t].now;
            var r := Apply(cfg, s, Check(t)).threads[t];
      && (r.Finished? <==> s.fills != [] && now < s.fills[|s.fills| - 1].start + Lifespan(cfg, s.fills[|s.fills| - 1]))
      && (r.Finished? ==>
            var f := s.fills[|s.fills| - 1];
            && r.result == Doc(f.doc) && (Lifespan(cfg, f) <= 0 ==> now < f.start)
            && exists k: nat :: ReceivedAt(cfg, steps, k, f))
  {
    OnlyTrusted(cfg, steps);
    var s := Exec(cfg, steps);
    if s.fills != [] {
      var k := Origin(cfg, steps, s.fills[|s.fills| - 1]);
    }
  }

  /** Call t began at step b and since then none of its steps has returned or changed the cache. */
  ghost predicate WroteNothing(cfg: Config, steps: seq<Step>, b: nat, t: Tid) {
    && b < |steps| && steps[b] == Start(t)
    && forall k: nat :: b <= k < |steps| && Of(steps[k], t) ==>
         && !steps[k].Return? && Runs(cfg, steps[..k]) && Enabled(Exec(cfg, steps[..k]), steps[k])
         && Apply(cfg, Exec(cfg, steps[..k]), steps[k]).cache == Exec(cfg, steps[..k]).cache
  }

  /** A call that is still under way or ended in an error has never written the cache. */
  lemma {:induction false} ErrorsNeverWrite(cfg: Config, steps: seq<Step>, t: Tid) returns (b: nat)
    requires Runs(cfg, steps) && t in Exec(cfg, steps).threads
    requires var pc := Exec(cfg, steps).threads[t]; !pc.Finished? || !pc.result.Doc?
    ensures WroteNothing(cfg, steps, b, t)
  {
    var n := |steps| - 1;
    var front, step := steps[..n], steps[n];
    if step == Start(t) {
      b := n;
    } else {
      b := ErrorsNeverWrite(cfg, front, t);
      forall k: nat | b <= k < |steps| ensures steps[..k] == if k < n then front[..k] else front {
      }
    }
  }

  /** A call that nobody interrupts does what FetchMetadata does alone. */
  lemma AloneIsFetch(cfg: Config, s: State, t: Tid, answer: Answer)
    requires t !in s.threads
    ensures var s1 := Apply(cfg, Apply(cfg, s, Start(t)), Check(t));
            var s2 := if s1.threads[t].Missed? then Apply(cfg, s1, Receive(t, answer)) else s1;
            var s3 := if s2.threads[t].Accepted? then Apply(cfg, s2, Store(t)) else s2;
            Fetch(cfg, s.cache, s.clock, answer) == (s3.cache, s3.threads[t].result) && Enabled(s3, Return(t))
  {
  }

  /** A lifetime of zero does not keep overlapping calls from hitting: a call that began at
      time 0 is answered from the cache by a fetch begun at time 1. */
  lemma ZeroLifetimeHit(cfg: Config, doc: Metadata, cacheControl: string)
    requires Trusts(cfg, doc) && TTL(cacheControl, cfg.defaultTTL) == 0
    ensures exists steps :: Runs(cfg, steps) && HitBy(cfg, steps, 0, doc)
  {
    var steps := Extend(cfg, [], Start(0));
    steps := Extend(cfg, steps, Tick(1));
    steps := Extend(cfg, steps, Start(1));
    steps := Extend(cfg, steps, Check(1));
    steps := Extend(cfg, steps, Receive(1, Reply(200, cacheControl, Some(doc))));
    steps := ZeroLifetimeEnd(cfg, steps, doc, cacheControl);
  }

  lemma ZeroLifetimeEnd(cfg: Config, steps: seq<Step>, doc: Metadata, cacheControl: string) returns (longer: seq<Step>)
    requires Runs(cfg, steps) && TTL(cacheControl, cfg.defaultTTL) == 0
    requires Exec(cfg, steps).threads == map[0 := Started(0), 1 := Accepted(1, cacheControl, doc)]
    ensures Runs(cfg, longer) && HitBy(cfg, longer, 0, doc)
  {
    longer := Extend(cfg, steps, Store(1));
    longer := Extend(cfg, longer, Check(0));
    assert longer[..|longer| - 1] == steps + [Store(1)];
  }

  /** The run ends with call t being answered from the cache. */
  ghost predicate HitBy(cfg: Config, steps: seq<Step>, t: Tid, doc: Metadata)
    requires Runs(cfg, steps)
  {
    steps != [] && steps[|steps| - 1] == Check(t) && t in Exec(cfg, steps).threads
    && Exec(cfg, steps).threads[t] == Finished(Doc(doc))
  }

  lemma Extend(cfg: Config, steps: seq<Step>, step: Step) returns (longer: seq<Step>)
    requires Runs(cfg, steps) && Enabled(Exec(cfg, steps), step)
    ensures longer == steps + [step] && Runs(cfg, longer)
    ensures Exec(cfg, longer) == Apply(cfg, Exec(cfg, steps), step)
  {
    longer := steps + [step];
    assert longer[..|longer| - 1] == steps;
  }
}
