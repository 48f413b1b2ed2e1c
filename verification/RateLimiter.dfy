/** The token bucket (cache/memory/memory.go Allow), in exact arithmetic. Times are whole
    nanoseconds. */
module RateLimiter {
  import opened Wrappers

  datatype Bucket = Bucket(tokens: real, lastFill: int)

  function Min(a: real, b: real): real {
    if a <= b then a else b
  }

  /** Tokens per nanosecond. */
  function Rate(limit: int, window: int): real
    requires window > 0
  {
    limit as real / window as real
  }

  /** The tokens of a bucket at `now`. */
  function Fill(k: Bucket, limit: int, window: int, now: int): real
    requires window > 0
  {
    Min(limit as real, k.tokens + (now - k.lastFill) as real * Rate(limit, window))
  }

  /** The same for a key; a new one starts full. */
  function Filled(b: Option<Bucket>, limit: int, window: int, now: int): real
    requires window > 0
  {
    match b
    case None => limit as real
    case Some(k) => Fill(k, limit, window, now)
  }

  function Allows(b: Option<Bucket>, limit: int, window: int, now: int): bool
    requires window > 0
  {
    Filled(b, limit, window, now) >= 1.0
  }

  function After(b: Option<Bucket>, limit: int, window: int, now: int): Bucket
    requires window > 0
  {
    var t := Filled(b, limit, window, now);
    Bucket(if t >= 1.0 then t - 1.0 else t, now)
  }

  /** The exact time until a token is there. */
  function Due(tokens: real, limit: int, window: int): real
    requires limit > 0 && window > 0
  {
    (1.0 - tokens) / Rate(limit, window)
  }

  class Limiter {
    var buckets: map<string, Bucket>

    constructor ()
      ensures buckets == map[]
    {
      buckets := map[];
    }

    function Of(key: string): Option<Bucket>
      reads this
    {
      if key in buckets then Some(buckets[key]) else None
    }

    /** The middleware calls it only with a positive limit. */
    method Allow(key: string, limit: int, window: int, now: int) returns (ok: bool, wait: int)
      requires limit > 0 && window > 0
      modifies this
      ensures ok == Allows(old(Of(key)), limit, window, now)
      ensures buckets == old(buckets)[key := After(old(Of(key)), limit, window, now)]
      ensures wait == if ok then 0 else Due(Filled(old(Of(key)), limit, window, now), limit, window).Floor
    {
      hide Rate, Fill;
      FullStays(limit, window, now);
      var b := if key in buckets then buckets[key] else Bucket(limit as real, now);
      RateIsPositive(limit, window);
      var tokens := Fill(b, limit, window, now);
      if tokens >= 1.0 {
        buckets := buckets[key := Bucket(tokens - 1.0, now)];
        return true, 0;
      }
      buckets := buckets[key := Bucket(tokens, now)];
      return false, Due(tokens, limit, window).Floor;
    }
  }

  /** A full bucket without elapsed time is full. */
  lemma FullStays(limit: int, window: int, now: int)
    requires limit > 0 && window > 0
    ensures Fill(Bucket(limit as real, now), limit, window, now) == limit as real
  {
    hide Rate;
    assert 0.0 * Rate(limit, window) == 0.0;
  }

  lemma RateIsPositive(limit: int, window: int)
    requires limit > 0 && window > 0
    ensures Rate(limit, window) > 0.0
  {}

  // ---- a sequence of calls for one key ----

  ghost predicate Ordered(times: seq<int>) {
    forall i, j :: 0 <= i <= j < |times| ==> times[i] <= times[j]
  }

  ghost function State(limit: int, window: int, times: seq<int>, n: nat): Option<Bucket>
    requires window > 0 && n <= |times|
  {
    if n == 0 then None else Some(After(State(limit, window, times, n - 1), limit, window, times[n - 1]))
  }

  /** Calls allowed among numbers `m` to `n`, exclusive. */
  ghost function Allowed(limit: int, window: int, times: seq<int>, m: nat, n: nat): nat
    requires window > 0 && m <= n <= |times|
  {
    if m == n then 0
    else
      var allowed := Allows(State(limit, window, times, n - 1), limit, window, times[n - 1]);
      Allowed(limit, window, times, m, n - 1) + if allowed then 1 else 0
  }

  lemma FilledNonnegative(k: Bucket, limit: int, window: int, now: int)
    requires limit > 0 && window > 0 && k.tokens >= 0.0 && now >= k.lastFill
    ensures Filled(Some(k), limit, window, now) >= 0.0
  {
    hide Rate;
    RateIsPositive(limit, window);
    var d, r := (now - k.lastFill) as real, Rate(limit, window);
    assert d * r >= 0.0;
  }

  /** Tokens stay between zero and the limit. */
  lemma {:induction false} TokensStayInBounds(limit: int, window: int, times: seq<int>, n: nat)
    requires limit > 0 && window > 0 && Ordered(times) && n <= |times|
    ensures var s := State(limit, window, times, n);
      s.Some? ==> 0.0 <= s.value.tokens <= limit as real && n > 0 && s.value.lastFill == times[n - 1]
    decreases n
  {
    hide Rate;
    if n > 1 {
      TokensStayInBounds(limit, window, times, n - 1);
      FilledNonnegative(State(limit, window, times, n - 1).value, limit, window, times[n - 1]);
    } else if n == 1 {
      assert State(limit, window, times, 0) == None;
    }
  }

  lemma Split(a: int, b: int, c: int, r: real)
    ensures (b - a) as real * r + (c - b) as real * r == (c - a) as real * r
  {}

  /** One call: what is in the bucket afterwards, plus the call if it was allowed. */
  lemma OneCall(b: Option<Bucket>, limit: int, window: int, now: int)
    requires limit > 0 && window > 0
    ensures var left := After(b, limit, window, now).tokens + (if Allows(b, limit, window, now) then 1.0 else 0.0);
      && left <= limit as real
      && (b.Some? ==> left <= b.value.tokens + (now - b.value.lastFill) as real * Rate(limit, window))
  {
    hide Rate;
  }

  /** Tokens left plus calls allowed never exceed a full bucket plus the refill since. */
  ghost predicate WithinBudget(limit: int, window: int, times: seq<int>, m: nat, n: nat)
    requires window > 0 && m < n <= |times|
  {
    var s := State(limit, window, times, n);
    && s.Some?
    && s.value.tokens + Allowed(limit, window, times, m, n) as real
       <= limit as real + (times[n - 1] - times[m]) as real * Rate(limit, window)
  }

  lemma {:induction false} Budget(limit: int, window: int, times: seq<int>, m: nat, n: nat)
    requires limit > 0 && window > 0 && Ordered(times) && m < n <= |times|
    ensures WithinBudget(limit, window, times, m, n)
    decreases n
  {
    hide Rate, Allows, After, Ordered;
    OneCall(State(limit, window, times, n - 1), limit, window, times[n - 1]);
    if n == m + 1 {
      assert Allowed(limit, window, times, m, m) == 0;
    } else {
      Budget(limit, window, times, m, n - 1);
      TokensStayInBounds(limit, window, times, n - 1);
      Split(times[m], times[n - 2], times[n - 1], Rate(limit, window));
    }
  }

  /** The bound: the calls allowed in any stretch of calls are at most the limit plus the
      refill over the time it takes. */
  lemma AllowedIsBounded(limit: int, window: int, times: seq<int>, m: nat, n: nat)
    requires limit > 0 && window > 0 && Ordered(times) && m < n <= |times|
    ensures Allowed(limit, window, times, m, n) * window <= limit * window + (times[n - 1] - times[m]) * limit
  {
    hide Rate, Allowed, State;
    Budget(limit, window, times, m, n);
    TokensStayInBounds(limit, window, times, n);
    var count, d := Allowed(limit, window, times, m, n), times[n - 1] - times[m];
    assert State(limit, window, times, n).value.tokens >= 0.0;
    assert count as real <= limit as real + d as real * Rate(limit, window);
    InWholes(count, limit, d, window);
  }

  lemma InWholes(count: int, limit: int, d: int, window: int)
    requires limit > 0 && window > 0 && count as real <= limit as real + d as real * Rate(limit, window)
    ensures count * window <= limit * window + d * limit
  {
    var w := window as real;
    assert Rate(limit, window) * w == limit as real;
    Scale(count as real, limit as real + d as real * Rate(limit, window), w);
    assert (limit as real + d as real * Rate(limit, window)) * w
      == limit as real * w + d as real * (Rate(limit, window) * w);
    Product(count, window);
    Product(limit, window);
    Product(d, limit);
  }

  lemma Product(a: int, b: int)
    ensures (a * b) as real == a as real * b as real
  {}

  /** A new key has a full bucket: its first `limit` calls are allowed, however fast they
      come. */
  lemma {:induction false} FirstCallsAreAllowed(limit: int, window: int, times: seq<int>, n: nat)
    requires limit > 0 && window > 0 && Ordered(times) && n <= |times| && n <= limit
    ensures Allowed(limit, window, times, 0, n) == n
    ensures n > 0 ==> var s := State(limit, window, times, n);
      s.Some? && s.value.tokens >= (limit - n) as real && s.value.lastFill == times[n - 1]
    decreases n
  {
    hide Rate;
    if n > 0 {
      FirstCallsAreAllowed(limit, window, times, n - 1);
      RateIsPositive(limit, window);
      if n > 1 {
        var d, r := (times[n - 1] - times[n - 2]) as real, Rate(limit, window);
        assert d * r >= 0.0;
      }
    }
  }

  // ---- the returned wait ----

  /** After a denial, a lone later call is allowed exactly when the exact time until the
      next token has passed. */
  lemma LoneCall(limit: int, window: int, tokens: real, now: int, later: int)
    requires limit > 0 && window > 0 && 0.0 <= tokens < 1.0 && later >= now
    ensures Allows(Some(Bucket(tokens, now)), limit, window, later) <==>
      (later - now) as real >= Due(tokens, limit, window)
  {
    hide Rate;
    var r, d := Rate(limit, window), (later - now) as real;
    RateIsPositive(limit, window);
    DueTimesRate(tokens, r);
    if d >= Due(tokens, limit, window) {
      Scale(Due(tokens, limit, window), d, r);
    } else {
      Scale(d, Due(tokens, limit, window), r);
      StrictScale(d, Due(tokens, limit, window), r);
    }
  }

  lemma DueTimesRate(tokens: real, r: real)
    requires r > 0.0
    ensures (1.0 - tokens) / r * r == 1.0 - tokens
  {}

  lemma Scale(a: real, b: real, r: real)
    requires a <= b && r > 0.0
    ensures a * r <= b * r
  {
    assert (b - a) * r >= 0.0;
  }

  lemma StrictScale(a: real, b: real, r: real)
    requires a < b && r > 0.0
    ensures a * r < b * r
  {
    assert (b - a) * r > 0.0;
  }

  /** The wait that is returned is cut to whole nanoseconds: a lone call right at its end is
      allowed exactly when nothing was cut off; one nanosecond later it always is, and
      before it never. */
  lemma WaitIsCutShort(limit: int, window: int, tokens: real, now: int, d: nat)
    requires limit > 0 && window > 0 && 0.0 <= tokens < 1.0
    ensures var due := Due(tokens, limit, window); var wait := due.Floor;
      && wait >= 0
      && (Allows(Some(Bucket(tokens, now)), limit, window, now + wait) <==> wait as real == due)
      && Allows(Some(Bucket(tokens, now)), limit, window, now + wait + 1)
      && (d < wait ==> !Allows(Some(Bucket(tokens, now)), limit, window, now + d))
  {
    hide Allows, Due;
    DueIsPositive(tokens, limit, window);
    var wait := Due(tokens, limit, window).Floor;
    LoneCall(limit, window, tokens, now, now + wait);
    LoneCall(limit, window, tokens, now, now + wait + 1);
    LoneCall(limit, window, tokens, now, now + d);
  }

  lemma DueIsPositive(tokens: real, limit: int, window: int)
    requires limit > 0 && window > 0 && 0.0 <= tokens < 1.0
    ensures Due(tokens, limit, window) > 0.0
  {
    hide Rate;
    RateIsPositive(limit, window);
    Quotient(1.0 - tokens, Rate(limit, window));
  }

  lemma Quotient(a: real, r: real)
    requires a > 0.0 && r > 0.0
    ensures a / r > 0.0
  {}

  /** With a limit of three a second, an empty bucket names a wait of 333333333 ns, at the
      end of which a call is still denied. */
  lemma ThirdOfASecond(now: int)
    ensures Due(0.0, 3, 1000000000).Floor == 333333333
    ensures !Allows(Some(Bucket(0.0, now)), 3, 1000000000, now + 333333333)
  {
    assert 333333333.0 <= Due(0.0, 3, 1000000000) < 333333334.0;
    WaitIsCutShort(3, 1000000000, 0.0, now, 0);
  }
}
