/** Retrying an HTTP doer with exponential back-off: client/doer.go. */
module RetryDoer {
  import opened Text
  import opened Int64

  // Configuration.

  datatype RetryConfig = RetryConfig(maxAttempts: int, baseDelay: int, maxDelay: int)

  const DEFAULT_CONFIG := RetryConfig(3, 100_000_000, 5_000_000_000)

  datatype RetryOption =
    | WithMaxAttempts(n: int)
    | WithBackoff(base: int, maxDelay: int)

  ghost predicate Sane(cfg: RetryConfig) {
    cfg.maxAttempts >= 1 && cfg.baseDelay > 0 && cfg.maxDelay > 0
  }

  /** Every list of options leaves at least one attempt and positive delays. For each field
      the last option that sets it decides, or else the default; a number of attempts below
      one is one, and a delay that is not positive sets nothing. */
  method Configure(opts: seq<RetryOption>) returns (cfg: RetryConfig)
    ensures Sane(cfg) && exists a, b, m :: LastSet(opts, a, b, m, cfg)
    ensures forall i :: 0 <= i < |opts| && opts[i].WithMaxAttempts? && (forall j :: i < j < |opts| ==> !opts[j].WithMaxAttempts?) ==>
              cfg.maxAttempts == if opts[i].n < 1 then 1 else opts[i].n
    ensures (forall i :: 0 <= i < |opts| ==> !opts[i].WithMaxAttempts?) ==> cfg.maxAttempts == 3
    ensures forall i ::
              (0 <= i < |opts| && opts[i].WithBackoff? && opts[i].base > 0
               && forall j :: i < j < |opts| && opts[j].WithBackoff? ==> opts[j].base <= 0)
              ==> cfg.baseDelay == opts[i].base
    ensures (forall i :: 0 <= i < |opts| && opts[i].WithBackoff? ==> opts[i].base <= 0) ==> cfg.baseDelay == 100_000_000
    ensures forall i ::
              (0 <= i < |opts| && opts[i].WithBackoff? && opts[i].maxDelay > 0
               && forall j :: i < j < |opts| && opts[j].WithBackoff? ==> opts[j].maxDelay <= 0)
              ==> cfg.maxDelay == opts[i].maxDelay
    ensures (forall i :: 0 <= i < |opts| && opts[i].WithBackoff? ==> opts[i].maxDelay <= 0) ==> cfg.maxDelay == 5_000_000_000
  {
    cfg := DEFAULT_CONFIG;
    ghost var a, b, m := -1, -1, -1;
    for k := 0 to |opts|
      invariant Sane(cfg) && LastSet(opts[..k], a, b, m, cfg)
    {
      match opts[k]
      case WithMaxAttempts(n) =>
        cfg := cfg.(maxAttempts := if n < 1 then 1 else n);
        a := k;
      case WithBackoff(base, maxDelay) =>
        if base > 0 {
          cfg := cfg.(baseDelay := base);
          b := k;
        }
        if maxDelay > 0 {
          cfg := cfg.(maxDelay := maxDelay);
          m := k;
        }
      assert opts[..k + 1] == opts[..k] + [opts[k]];
    }
    assert opts[..|opts|] == opts;
  }

  /** Options a, b and m were the last to set the three fields; -1 is none. */
  ghost predicate LastSet(opts: seq<RetryOption>, a: int, b: int, m: int, cfg: RetryConfig) {
    && -1 <= a < |opts| && -1 <= b < |opts| && -1 <= m < |opts|
    && (forall j :: a < j < |opts| ==> !opts[j].WithMaxAttempts?)
    && (forall j :: b < j < |opts| && opts[j].WithBackoff? ==> opts[j].base <= 0)
    && (forall j :: m < j < |opts| && opts[j].WithBackoff? ==> opts[j].maxDelay <= 0)
    && (if a < 0 then cfg.maxAttempts == 3
        else opts[a].WithMaxAttempts? && cfg.maxAttempts == if opts[a].n < 1 then 1 else opts[a].n)
    && (if b < 0 then cfg.baseDelay == 100_000_000
        else opts[b].WithBackoff? && opts[b].base > 0 && cfg.baseDelay == opts[b].base)
    && (if m < 0 then cfg.maxDelay == 5_000_000_000
        else opts[m].WithBackoff? && opts[m].maxDelay > 0 && cfg.maxDelay == opts[m].maxDelay)
  }

  // Back-off.

  /** b * 2^k */
  function Scale(b: int, k: nat): int {
    if k == 0 then b else 2 * Scale(b, k - 1)
  }

  function Min(a: int, b: int): int {
    if a < b then a else b
  }

  /** What the doubling loop computes, from the delay d on, in 64-bit arithmetic. */
  function Doubled(cfg: RetryConfig, d: int, times: nat): int
    decreases times
  {
    if times == 0 then d
    else
      var d' := WrapInt64(2 * d);
      if d' > cfg.maxDelay then cfg.maxDelay else Doubled(cfg, d', times - 1)
  }

  function BackoffDelay(cfg: RetryConfig, retryIndex: int): int {
    Doubled(cfg, cfg.baseDelay, if retryIndex < 0 then 0 else retryIndex)
  }

  method Backoff(cfg: RetryConfig, retryIndex: int) returns (d: int)
    ensures d == BackoffDelay(cfg, retryIndex)
  {
    var index := if retryIndex < 0 then 0 else retryIndex;
    d := cfg.baseDelay;
    for i := 0 to index
      invariant Doubled(cfg, d, index - i) == BackoffDelay(cfg, retryIndex)
    {
      d := WrapInt64(d * 2);
      if d > cfg.maxDelay {
        return cfg.maxDelay;
      }
    }
  }

  const HALF := 0x4000_0000_0000_0000

  /** No doubling the loop performs overflows. */
  ghost predicate NoOverflow(cfg: RetryConfig) {
    cfg.baseDelay < HALF && forall k: nat :: Scale(cfg.baseDelay, k) <= cfg.maxDelay ==> Scale(cfg.baseDelay, k) < HALF
  }

  lemma ScaleUp(b: int, i: nat, j: nat)
    requires b > 0 && i <= j
    ensures 0 < Scale(b, i) <= Scale(b, j)
  {
    if i < j { ScaleUp(b, i, j - 1); }
  }

  /** From the k-th doubling on, the loop computes base * 2^i capped at the maximum. */
  lemma {:induction false} DoubledIsCapped(cfg: RetryConfig, k: nat, times: nat)
    requires Sane(cfg) && NoOverflow(cfg) && cfg.maxDelay <= MAX_INT64
    requires k == 0 || Scale(cfg.baseDelay, k) <= cfg.maxDelay
    ensures Doubled(cfg, Scale(cfg.baseDelay, k), times) ==
            if times == 0 then Scale(cfg.baseDelay, k) else Min(Scale(cfg.baseDelay, k + times), cfg.maxDelay)
    decreases times
  {
    if times > 0 {
      var d := Scale(cfg.baseDelay, k);
      ScaleUp(cfg.baseDelay, 0, k);
      assert 0 < d < HALF;
      WrapSmall(2 * d);
      if 2 * d <= cfg.maxDelay {
        DoubledIsCapped(cfg, k + 1, times - 1);
      } else {
        ScaleUp(cfg.baseDelay, k + 1, k + times);
      }
    }
  }

  /** The delay before retry i is base * 2^i capped at the maximum. */
  lemma BackoffIsCapped(cfg: RetryConfig, i: nat)
    requires Sane(cfg) && NoOverflow(cfg) && cfg.maxDelay <= MAX_INT64 && i >= 1
    ensures BackoffDelay(cfg, i) == Min(Scale(cfg.baseDelay, i), cfg.maxDelay)
    ensures 0 < BackoffDelay(cfg, i) <= cfg.maxDelay
    ensures BackoffDelay(cfg, i) <= BackoffDelay(cfg, i + 1)
  {
    DoubledIsCapped(cfg, 0, i);
    DoubledIsCapped(cfg, 0, i + 1);
    ScaleUp(cfg.baseDelay, 0, i);
    ScaleUp(cfg.baseDelay, i, i + 1);
  }

  /** Each delay is twice the one before, or the maximum; the first is twice the base. */
  lemma BackoffDoubles(cfg: RetryConfig, i: nat)
    requires Sane(cfg) && cfg.baseDelay <= 4611686018427387903 && cfg.maxDelay <= 4611686018427387903
    ensures var d := if i == 0 then cfg.baseDelay else BackoffDelay(cfg, i);
            BackoffDelay(cfg, i + 1) == if 2 * d > cfg.maxDelay then cfg.maxDelay else 2 * d
  {
    BackoffIsCapped(cfg, i + 1);
    if i > 0 {
      BackoffIsCapped(cfg, i);
    }
  }

  lemma BoundsSuffice(cfg: RetryConfig)
    requires Sane(cfg) && cfg.baseDelay < HALF && cfg.maxDelay < HALF
    ensures NoOverflow(cfg)
  {
  }

  /** Where the k-th doubling is the first to overflow, the delay comes out negative. */
  lemma {:induction false} OverflowShows(cfg: RetryConfig, j: nat, k: nat)
    requires Sane(cfg) && cfg.baseDelay <= MAX_INT64 && cfg.maxDelay <= MAX_INT64 && j <= k
    requires HALF <= Scale(cfg.baseDelay, k) <= MAX_INT64
    requires k > 0 ==> Scale(cfg.baseDelay, k) <= cfg.maxDelay && Scale(cfg.baseDelay, k - 1) < HALF
    ensures Doubled(cfg, Scale(cfg.baseDelay, j), k - j + 1) < 0
    decreases k - j
  {
    var d := Scale(cfg.baseDelay, j);
    ScaleUp(cfg.baseDelay, 0, j);
    if j == k {
      WrapLarge(2 * d);
      assert Doubled(cfg, WrapInt64(2 * d), 0) == WrapInt64(2 * d);
    } else {
      ScaleUp(cfg.baseDelay, j + 1, k);
      WrapSmall(2 * d);
      OverflowShows(cfg, j + 1, k);
    }
  }

  /** The least doubling that reaches HALF. */
  lemma FirstLarge(b: int, k: nat) returns (m: nat)
    requires b > 0 && Scale(b, k) >= HALF
    ensures m <= k && Scale(b, m) >= HALF && (m > 0 ==> Scale(b, m - 1) < HALF)
  {
    m := k;
    while m > 0 && Scale(b, m - 1) >= HALF
      invariant m <= k && Scale(b, m) >= HALF
    {
      m := m - 1;
    }
  }

  /** Where some doubling overflows, some delay comes out negative. */
  lemma NegativeOnOverflow(cfg: RetryConfig) returns (i: nat)
    requires Sane(cfg) && cfg.baseDelay <= MAX_INT64 && cfg.maxDelay <= MAX_INT64 && !NoOverflow(cfg)
    ensures i >= 1 && BackoffDelay(cfg, i) < 0
  {
    var k: nat := 0;
    if cfg.baseDelay < HALF {
      k :| Scale(cfg.baseDelay, k) <= cfg.maxDelay && Scale(cfg.baseDelay, k) >= HALF;
    }
    var m := FirstLarge(cfg.baseDelay, k);
    ScaleUp(cfg.baseDelay, m, k);
    OverflowShows(cfg, 0, m);
    i := m + 1;
  }

  /** The documented formula holds for every retry exactly when no doubling overflows, and
      some delay is negative exactly when one does. */
  lemma CappedExactlyWithoutOverflow(cfg: RetryConfig)
    requires Sane(cfg) && cfg.baseDelay <= MAX_INT64 && cfg.maxDelay <= MAX_INT64
    ensures (forall i: nat :: i >= 1 ==> BackoffDelay(cfg, i) == Min(Scale(cfg.baseDelay, i), cfg.maxDelay))
            <==> NoOverflow(cfg)
    ensures (exists i: nat :: BackoffDelay(cfg, i) < 0) <==> !NoOverflow(cfg)
  {
    if NoOverflow(cfg) {
      forall i: nat
        ensures BackoffDelay(cfg, i) > 0
        ensures i >= 1 ==> BackoffDelay(cfg, i) == Min(Scale(cfg.baseDelay, i), cfg.maxDelay)
      {
        if i >= 1 { BackoffIsCapped(cfg, i); }
      }
    } else {
      var i := NegativeOnOverflow(cfg);
      ScaleUp(cfg.baseDelay, 0, i);
    }
  }

  /** A base of 2^62 ns, with the largest maximum there is, overflows at the first retry. */
  lemma NegativeDelay()
    ensures BackoffDelay(RetryConfig(3, HALF, MAX_INT64), 1) < 0
  {
    var cfg := RetryConfig(3, HALF, MAX_INT64);
    WrapLarge(2 * HALF);
    assert BackoffDelay(cfg, 1) == Doubled(cfg, WrapInt64(2 * HALF), 0);
  }

  // One request.

  /** What the inner doer does with one attempt. */
  datatype Attempt =
    | Fails(error: string)
    | Answers(status: nat)

  predicate ShouldRetryStatus(code: nat) {
    code == 502 || code == 503 || code == 504
  }

  /** Everything Do does not decide, by attempt number from 1: the inner doer's behaviour,
      whether GetBody fails after it, and whether the context ends during the wait after it. */
  datatype World = World(inner: nat -> Attempt, bodyFails: nat -> bool, canceled: nat -> bool)

  datatype Response = Response(attempt: nat, status: nat)

  const GET_BODY_ERROR := "GetBody"

  class Request {
    var body: string
    const content: string
    const hasGetBody: bool

    constructor (content: string, hasGetBody: bool)
      ensures body == this.content == content && this.hasGetBody == hasGetBody
    {
      this.body, this.content, this.hasGetBody := content, content, hasGetBody;
    }
  }

  function Sum(xs: seq<int>): int {
    if xs == [] then 0 else Sum(xs[..|xs| - 1]) + xs[|xs| - 1]
  }

  class Doer {
    const cfg: RetryConfig

    constructor (opts: seq<RetryOption>)
      ensures Sane(cfg) && exists a, b, m :: LastSet(opts, a, b, m, cfg)
    {
      var c := Configure(opts);
      cfg := c;
    }

    /** The out-parameters after the two results record what happened on the way: the number
        of inner calls, the body each was given, the responses whose body was closed, and
        the timers started. */
    method Do(req: Request, w: World)
      returns (resp: Option<Response>, err: Option<string>, calls: nat, sent: seq<string>, closed: set<nat>, waits: seq<int>)
      requires Sane(cfg) && req.body == req.content
      modifies req
      ensures 1 <= calls <= cfg.maxAttempts
      ensures forall k :: 1 <= k < calls ==>
                && (w.inner(k).Answers? ==> w.inner(k).status in {502, 503, 504})
                && !(req.hasGetBody && w.bodyFails(k)) && !w.canceled(k)
      ensures || calls == cfg.maxAttempts || (w.inner(calls).Answers? && w.inner(calls).status !in {502, 503, 504})
              || (req.hasGetBody && w.bodyFails(calls)) || w.canceled(calls)
      ensures resp.Some? <==> err.None?
      ensures var again := calls < cfg.maxAttempts && (w.inner(calls).Answers? ==> w.inner(calls).status in {502, 503, 504});
              if again && req.hasGetBody && w.bodyFails(calls) then err == Some(GET_BODY_ERROR)
              else if w.inner(calls).Fails? then err == Some(w.inner(calls).error)
              else resp == Some(Response(calls, w.inner(calls).status))
      ensures forall k :: k in closed <==> 1 <= k <= calls && w.inner(k).Answers? && w.inner(k).status in {502, 503, 504}
      ensures |sent| == calls && sent[0] == req.content
      ensures forall k :: 1 <= k < calls ==> sent[k] == if req.hasGetBody then req.content else ""
      ensures calls - 1 <= |waits| <= calls && |waits| < cfg.maxAttempts
      ensures forall k :: 0 <= k < |waits| ==> waits[k] == BackoffDelay(cfg, k + 1)
    {
      resp, err, calls, sent, closed, waits := None, None, 0, [], {}, [];
      for attempt := 1 to cfg.maxAttempts + 1
        invariant calls == attempt - 1 == |sent|
        invariant forall k :: 1 <= k < attempt && w.inner(k).Answers? ==> w.inner(k).status in {502, 503, 504}
        invariant forall k :: 1 <= k < calls ==> !(req.hasGetBody && w.bodyFails(k)) && !w.canceled(k)
        invariant calls == 0 ==> resp.None? && err.None? && req.body == req.content
        invariant calls > 0 ==> (resp.Some? <==> err.None?) && req.body == ""
        invariant calls > 0 ==> if w.inner(calls).Fails? then err == Some(w.inner(calls).error)
                                else resp == Some(Response(calls, w.inner(calls).status))
        invariant forall k :: k in closed <==> 1 <= k <= calls && w.inner(k).Answers?
        invariant calls > 0 ==> sent[0] == req.content
        invariant forall k :: 1 <= k < calls ==> sent[k] == if req.hasGetBody then req.content else ""
        invariant |waits| == if calls == 0 then 0 else calls - 1
        invariant forall k :: 0 <= k < |waits| ==> waits[k] == BackoffDelay(cfg, k + 1)
      {
        if attempt > 1 {
          if req.hasGetBody {
            if w.bodyFails(attempt - 1) {
              return None, Some(GET_BODY_ERROR), calls, sent, closed, waits;
            }
            req.body := req.content;
          }
          var delay := Backoff(cfg, attempt - 1);
          waits := waits + [delay];
          if w.canceled(attempt - 1) {
            if err.Some? {
              return None, err, calls, sent, closed, waits;
            }
            return resp, None, calls, sent, closed, waits;
          }
        }
        var outcome := w.inner(attempt);
        sent, calls := sent + [req.body], attempt;
        req.body := "";
        if outcome.Answers? && !ShouldRetryStatus(outcome.status) {
          return Some(Response(attempt, outcome.status)), None, calls, sent, closed, waits;
        }
        if outcome.Fails? {
          err := Some(outcome.error);
          resp := None;
          continue;
        }
        closed := closed + {attempt};
        resp := Some(Response(attempt, outcome.status));
        err := None;
      }
    }
  }

  lemma {:induction false} SumBound(waits: seq<int>, max: int)
    requires forall k :: 0 <= k < |waits| ==> waits[k] <= max
    ensures Sum(waits) <= |waits| * max
  {
    if waits != [] {
      SumBound(waits[..|waits| - 1], max);
      assert |waits| * max == (|waits| - 1) * max + max;
    }
  }

  lemma {:induction false} MoreOf(a: nat, b: nat, x: int)
    requires a <= b && x >= 0
    ensures a * x <= b * x
  {
    if a < b {
      MoreOf(a, b - 1, x);
      assert b * x == (b - 1) * x + x;
    }
  }

  /** The loop caps whatever the doubling comes to, an overflow included. */
  lemma {:induction false} NeverAboveMax(cfg: RetryConfig, d: int, times: nat)
    requires times >= 1
    ensures Doubled(cfg, d, times) <= cfg.maxDelay
    decreases times
  {
    if times > 1 && WrapInt64(2 * d) <= cfg.maxDelay {
      NeverAboveMax(cfg, WrapInt64(2 * d), times - 1);
    }
  }

  /** How long each timer runs: one with a negative duration fires at once. */
  function Lasting(waits: seq<int>): seq<int> {
    seq(|waits|, k requires 0 <= k < |waits| => if waits[k] < 0 then 0 else waits[k])
  }

  /** All the timers of one request together run for at most (maxAttempts - 1) * maxDelay,
      whatever the configuration. */
  lemma TotalWait(cfg: RetryConfig, waits: seq<int>)
    requires Sane(cfg) && |waits| < cfg.maxAttempts
    requires forall k :: 0 <= k < |waits| ==> waits[k] == BackoffDelay(cfg, k + 1)
    ensures Sum(waits) <= Sum(Lasting(waits)) <= (cfg.maxAttempts - 1) * cfg.maxDelay
  {
    forall k | 0 <= k < |waits| ensures Lasting(waits)[k] <= cfg.maxDelay {
      NeverAboveMax(cfg, cfg.baseDelay, k + 1);
    }
    SumMonotone(waits, Lasting(waits));
    AtMost(Lasting(waits), cfg.maxAttempts - 1, cfg.maxDelay);
  }

  lemma AtMost(waits: seq<int>, n: nat, max: int)
    requires max >= 0 && |waits| <= n && forall k :: 0 <= k < |waits| ==> waits[k] <= max
    ensures Sum(waits) <= n * max
  {
    SumBound(waits, max);
    MoreOf(|waits|, n, max);
  }

  lemma {:induction false} SumMonotone(xs: seq<int>, ys: seq<int>)
    requires |xs| == |ys| && forall k :: 0 <= k < |xs| ==> xs[k] <= ys[k]
    ensures Sum(xs) <= Sum(ys)
  {
    if xs != [] {
      SumMonotone(xs[..|xs| - 1], ys[..|ys| - 1]);
    }
  }
}
