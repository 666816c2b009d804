/** Per-provider circuit breaker with exponential backoff. */
module CircuitBreaker {

  type Counts = map<string, int>
  type Factors = map<string, real>

  datatype Settings = Settings(threshold: int, base: real, max: real)

  datatype State = State(failures: Counts, lastFailure: Counts, backoff: Factors)

  const EMPTY := State(map[], map[], map[])

  function Min(x: real, y: real): real {
    if x < y then x else y
  }

  /** `record[provider] || 0` */
  function OrZero(record: Counts, provider: string): int {
    if provider in record then record[provider] else 0
  }

  /** `record[provider] || 1`: an absent or zero factor counts as one. */
  function OrOne(record: Factors, provider: string): real {
    if provider in record && record[provider] != 0.0 then record[provider] else 1.0
  }

  function Doubled(s: State, c: Settings, provider: string): Factors
    requires c.base > 0.0
  {
    s.backoff[provider := Min(OrOne(s.backoff, provider) * 2.0, c.max / c.base)]
  }

  function RecordFailure(s: State, c: Settings, provider: string, now: int): State
    requires c.base > 0.0
  {
    var count := OrZero(s.failures, provider) + 1;
    State(s.failures[provider := count], s.lastFailure[provider := now],
          if count >= c.threshold then Doubled(s, c, provider) else s.backoff)
  }

  function TripImmediately(s: State, c: Settings, provider: string, now: int): State
    requires c.base > 0.0
  {
    State(s.failures[provider := c.threshold], s.lastFailure[provider := now], Doubled(s, c, provider))
  }

  function RecordSuccess(s: State, provider: string): State {
    s.(failures := s.failures[provider := 0], backoff := s.backoff[provider := 1.0])
  }

  /** How long a backed-off breaker stays open. */
  function Wait(c: Settings, factor: real): real {
    Min(c.base * factor, c.max)
  }

  function IsOpen(s: State, c: Settings, provider: string, now: int): bool {
    OrZero(s.failures, provider) >= c.threshold &&
    (now - OrZero(s.lastFailure, provider)) as real <= Wait(c, OrOne(s.backoff, provider))
  }

  class Breaker {
    var failures: Counts
    var lastFailure: Counts
    var backoffMultiplier: Factors
    const settings: Settings

    function Now(): State
      reads this
    {
      State(failures, lastFailure, backoffMultiplier)
    }

    constructor (threshold: int, resetTimeoutMs: real, maxResetMs: real)
      ensures Now() == EMPTY && settings == Settings(threshold, resetTimeoutMs, maxResetMs)
    {
      settings := Settings(threshold, resetTimeoutMs, maxResetMs);
      failures, lastFailure, backoffMultiplier := map[], map[], map[];
    }

    method Open(provider: string, now: int) returns (open: bool)
      ensures open == IsOpen(Now(), settings, provider, now)
    {
      var count := OrZero(failures, provider);
      if count >= settings.threshold {
        var last := OrZero(lastFailure, provider);
        var multiplier := OrOne(backoffMultiplier, provider);
        var currentResetMs := Min(settings.base * multiplier, settings.max);
        if (now - last) as real > currentResetMs {
          return false;
        }
        return true;
      }
      return false;
    }

    method Failed(provider: string, now: int)
      requires settings.base > 0.0
      modifies this
      ensures Now() == RecordFailure(old(Now()), settings, provider, now)
    {
      failures := failures[provider := OrZero(failures, provider) + 1];
      lastFailure := lastFailure[provider := now];
      if failures[provider] >= settings.threshold {
        var current := OrOne(backoffMultiplier, provider);
        backoffMultiplier := backoffMultiplier[provider := Min(current * 2.0, settings.max / settings.base)];
      }
    }

    method Tripped(provider: string, now: int)
      requires settings.base > 0.0
      modifies this
      ensures Now() == TripImmediately(old(Now()), settings, provider, now)
    {
      failures := failures[provider := settings.threshold];
      lastFailure := lastFailure[provider := now];
      var current := OrOne(backoffMultiplier, provider);
      backoffMultiplier := backoffMultiplier[provider := Min(current * 2.0, settings.max / settings.base)];
    }

    method Succeeded(provider: string)
      modifies this
      ensures Now() == RecordSuccess(old(Now()), provider)
    {
      failures := failures[provider := 0];
      backoffMultiplier := backoffMultiplier[provider := 1.0];
    }

    method Reset()
      modifies this
      ensures Now() == EMPTY
    {
      failures, lastFailure, backoffMultiplier := map[], map[], map[];
    }
  }

  // ── Whole runs, seen through the history of calls alone ────────────────────

  datatype Event =
    | Failure(provider: string, at: int)
    | Trip(provider: string, at: int)
    | Success(provider: string)
    | ResetAll

  function Step(s: State, c: Settings, e: Event): State
    requires c.base > 0.0
  {
    match e
    case Failure(p, at) => RecordFailure(s, c, p, at)
    case Trip(p, at) => TripImmediately(s, c, p, at)
    case Success(p) => RecordSuccess(s, p)
    case ResetAll => EMPTY
  }

  function Run(c: Settings, history: seq<Event>): State
    requires c.base > 0.0
  {
    if history == [] then EMPTY
    else Step(Run(c, history[..|history| - 1]), c, history[|history| - 1])
  }

  ghost predicate About(e: Event, provider: string) {
    e.ResetAll? || e.provider == provider
  }

  /** Consecutive failures, where a trip counts as reaching the threshold. */
  ghost function FailureCount(history: seq<Event>, provider: string, threshold: int): int {
    if history == [] then 0
    else
      var before, e := history[..|history| - 1], history[|history| - 1];
      if !About(e, provider) then FailureCount(before, provider, threshold)
      else match e
        case Failure(_, _) => FailureCount(before, provider, threshold) + 1
        case Trip(_, _) => threshold
        case Success(_) => 0
        case ResetAll => 0
  }

  /** Trips, and failures at or above the threshold, since the provider's last success. */
  ghost function Strikes(history: seq<Event>, provider: string, threshold: int): nat {
    if history == [] then 0
    else
      var before, e := history[..|history| - 1], history[|history| - 1];
      if !About(e, provider) then Strikes(before, provider, threshold)
      else match e
        case Failure(_, _) => Strikes(before, provider, threshold)
                              + if FailureCount(before, provider, threshold) + 1 >= threshold then 1 else 0
        case Trip(_, _) => Strikes(before, provider, threshold) + 1
        case Success(_) => 0
        case ResetAll => 0
  }

  ghost function LastFailureAt(history: seq<Event>, provider: string): int {
    if history == [] then 0
    else
      var before, e := history[..|history| - 1], history[|history| - 1];
      if e.ResetAll? then 0
      else if About(e, provider) && !e.Success? then e.at
      else LastFailureAt(before, provider)
  }

  function Pow2(k: nat): real {
    if k == 0 then 1.0 else 2.0 * Pow2(k - 1)
  }

  ghost function Multiplier(c: Settings, k: nat): real
    requires c.base > 0.0
  {
    if k == 0 then 1.0 else Min(Pow2(k), c.max / c.base)
  }

  lemma {:induction false} MultiplierDoubles(c: Settings, k: nat)
    requires c.base > 0.0 && c.max >= 0.0
    ensures var m := Multiplier(c, k);
      Min((if m != 0.0 then m else 1.0) * 2.0, c.max / c.base) == Multiplier(c, k + 1)
  {
    Pow2Positive(k);
    if k > 0 {
      assert Pow2(k) >= 1.0;
    }
  }

  lemma Pow2Positive(k: nat)
    ensures Pow2(k) >= 1.0
  {
  }

  /** After any run, the backoff multiplier is 2^k, capped, where k counts the strikes since the last success. */
  lemma {:induction false} BackoffClosedForm(c: Settings, history: seq<Event>, provider: string)
    requires c.base > 0.0 && c.max >= 0.0
    ensures var s, k := Run(c, history), Strikes(history, provider, c.threshold);
      && OrZero(s.failures, provider) == FailureCount(history, provider, c.threshold)
      && OrZero(s.lastFailure, provider) == LastFailureAt(history, provider)
      && (if provider in s.backoff then s.backoff[provider] else 1.0) == Multiplier(c, k)
      && (k > 0 ==> FailureCount(history, provider, c.threshold) >= c.threshold)
      && (k == 0 ==> (FailureCount(history, provider, c.threshold) >= c.threshold <==> c.threshold <= 0))
  {
    if history != [] {
      var before, e := history[..|history| - 1], history[|history| - 1];
      BackoffClosedForm(c, before, provider);
      MultiplierDoubles(c, Strikes(before, provider, c.threshold));
    }
  }

  lemma {:induction false} ScaledOrder(base: real, x: real, y: real)
    requires base > 0.0 && x >= y
    ensures base * x >= base * y
  {
  }

  lemma {:induction false} CappedAlike(c: Settings, factor: real, p: real)
    requires c.base > 0.0 && factor >= c.max / c.base && p >= c.max / c.base
    ensures Wait(c, factor) == Wait(c, p)
  {
    var cap := c.max / c.base;
    assert c.base * cap == c.max;
    ScaledOrder(c.base, factor, cap);
    ScaledOrder(c.base, p, cap);
  }

  lemma {:induction false} WaitClosedForm(c: Settings, k: nat, factor: real)
    requires c.base > 0.0 && c.max >= 0.0 && k > 0
    requires factor == if Multiplier(c, k) != 0.0 then Multiplier(c, k) else 1.0
    ensures Wait(c, factor) == Wait(c, Pow2(k))
  {
    Pow2Positive(k);
    if factor != Pow2(k) {
      CappedAlike(c, factor, Pow2(k));
    }
  }

  ghost predicate WithinWait(c: Settings, k: nat, last: int, now: int) {
    && (k > 0 || c.threshold <= 0)
    && (now - last) as real <= c.base * Pow2(k)
    && (now - last) as real <= c.max
  }

  lemma {:induction false} WithinBoth(c: Settings, factor: real, elapsed: real)
    ensures elapsed <= Wait(c, factor) <==> elapsed <= c.base * factor && elapsed <= c.max
  {
  }

  lemma {:induction false} OpenByWait(c: Settings, history: seq<Event>, provider: string, now: int)
    requires c.base > 0.0 && c.max >= 0.0
    ensures var k := Strikes(history, provider, c.threshold);
      IsOpen(Run(c, history), c, provider, now) <==>
        (k > 0 || c.threshold <= 0) && (now - LastFailureAt(history, provider)) as real <= Wait(c, Pow2(k))
  {
    var s, k := Run(c, history), Strikes(history, provider, c.threshold);
    var factor := OrOne(s.backoff, provider);
    assert OrZero(s.lastFailure, provider) == LastFailureAt(history, provider)
        by { BackoffClosedForm(c, history, provider); }
    assert OrZero(s.failures, provider) >= c.threshold <==> k > 0 || c.threshold <= 0
        by { BackoffClosedForm(c, history, provider); }
    assert factor == if Multiplier(c, k) != 0.0 then Multiplier(c, k) else 1.0
        by { BackoffClosedForm(c, history, provider); }
    if k > 0 {
      WaitClosedForm(c, k, factor);
    }
  }

  /**
   The breaker is open exactly while a struck provider (any provider, under a threshold no count can be
   below) has waited no longer than min(base * 2^k, max).
   */
  lemma {:induction false} OpenIff(c: Settings, history: seq<Event>, provider: string, now: int)
    requires c.base > 0.0 && c.max >= 0.0
    ensures IsOpen(Run(c, history), c, provider, now)
        <==> WithinWait(c, Strikes(history, provider, c.threshold), LastFailureAt(history, provider), now)
  {
    OpenByWait(c, history, provider, now);
    WithinBoth(c, Pow2(Strikes(history, provider, c.threshold)), (now - LastFailureAt(history, provider)) as real);
  }

  ghost function OnlyAbout(history: seq<Event>, provider: string): seq<Event> {
    if history == [] then []
    else
      var e := history[|history| - 1];
      OnlyAbout(history[..|history| - 1], provider) + if About(e, provider) then [e] else []
  }

  lemma {:induction false} HistoryOfOne(history: seq<Event>, provider: string, threshold: int)
    ensures FailureCount(OnlyAbout(history, provider), provider, threshold)
        == FailureCount(history, provider, threshold)
    ensures Strikes(OnlyAbout(history, provider), provider, threshold) == Strikes(history, provider, threshold)
    ensures LastFailureAt(OnlyAbout(history, provider), provider) == LastFailureAt(history, provider)
  {
    if history != [] {
      var before, e := history[..|history| - 1], history[|history| - 1];
      HistoryOfOne(before, provider, threshold);
      if About(e, provider) {
        var only := OnlyAbout(history, provider);
        assert only[..|only| - 1] == OnlyAbout(before, provider);
      } else {
        assert OnlyAbout(before, provider) + [] == OnlyAbout(before, provider);
      }
    }
  }

  /** What happens to other providers never opens or closes this one. */
  lemma {:induction false} ProvidersIndependent(c: Settings, history: seq<Event>, provider: string, now: int)
    requires c.base > 0.0 && c.max >= 0.0
    ensures IsOpen(Run(c, history), c, provider, now) == IsOpen(Run(c, OnlyAbout(history, provider)), c, provider, now)
  {
    var only := OnlyAbout(history, provider);
    HistoryOfOne(history, provider, c.threshold);
    OpenIff(c, history, provider, now);
    OpenIff(c, only, provider, now);
  }
}
