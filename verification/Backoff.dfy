// src/limits/retry.ts: the delay before a transient retry, over the reals.
module Backoff {

  function Min(a: real, b: real): real {
    if a <= b then a else b
  }

  function Pow4(n: nat): nat {
    if n == 0 then 1 else 4 * Pow4(n - 1)
  }

  function Times(a: real, b: real): real {
    a * b
  }

  // Math.round: the nearest integer, halves upwards.
  function Round(x: real): int {
    (x + 0.5).Floor
  }

  function Raw(attempt: nat, baseMs: real, maxMs: real): real
    requires attempt >= 1
  {
    Min(maxMs, Times(baseMs, Pow4(attempt - 1) as real))
  }

  function RetryDelay(attempt: int, baseMs: real, maxMs: real, random: real): real {
    if attempt < 1 then 0.0
    else Min(maxMs, Round(Times(Raw(attempt, baseMs, maxMs), 0.8 + random * 0.4)) as real)
  }

  // One draw of the jitter.
  predicate Jitter(random: real) {
    0.0 <= random < 1.0
  }

  lemma RoundIsNear(x: real)
    ensures x - 0.5 < Round(x) as real <= x + 0.5
  {
  }

  lemma RoundGrows(x: real, y: real)
    requires x <= y
    ensures Round(x) <= Round(y)
  {
  }

  lemma TimesGrows(a: real, b: real, a': real, b': real)
    requires 0.0 <= a <= a' && 0.0 <= b <= b'
    ensures 0.0 <= Times(a, b) <= Times(a', b')
  {
    assert a * b <= a * b' <= a' * b';
  }

  lemma {:induction false} Pow4Grows(m: nat, n: nat)
    requires m <= n
    ensures Pow4(m) <= Pow4(n)
  {
    if m < n { Pow4Grows(m, n - 1); }
  }

  lemma RawIsBounded(attempt: nat, baseMs: real, maxMs: real)
    requires attempt >= 1 && baseMs >= 0.0 && maxMs >= 0.0
    ensures 0.0 <= Raw(attempt, baseMs, maxMs) <= maxMs
    ensures Raw(attempt, baseMs, maxMs) <= Times(baseMs, Pow4(attempt - 1) as real)
  {
    hide Times;
    TimesGrows(baseMs, 0.0, baseMs, Pow4(attempt - 1) as real);
  }

  lemma RawGrows(attempt: nat, later: nat, baseMs: real, maxMs: real)
    requires 1 <= attempt <= later && baseMs >= 0.0
    ensures Raw(attempt, baseMs, maxMs) <= Raw(later, baseMs, maxMs)
  {
    hide Times;
    Pow4Grows(attempt - 1, later - 1);
    TimesGrows(baseMs, Pow4(attempt - 1) as real, baseMs, Pow4(later - 1) as real);
  }

  lemma JitterIsNear(raw: real, random: real)
    requires raw >= 0.0 && Jitter(random)
    ensures 0.8 * raw <= Times(raw, 0.8 + random * 0.4) <= 1.2 * raw
  {
    TimesGrows(raw, 0.8, raw, 0.8 + random * 0.4);
    TimesGrows(raw, 0.8 + random * 0.4, raw, 1.2);
  }

  // Within half a millisecond of a fifth either way of the raw delay, and never
  // above the maximum.
  lemma DelayIsNear(attempt: nat, baseMs: real, maxMs: real, random: real)
    requires attempt >= 1 && baseMs >= 0.0 && maxMs >= 0.0 && Jitter(random)
    ensures var delay, raw := RetryDelay(attempt, baseMs, maxMs, random), Raw(attempt, baseMs, maxMs);
            0.8 * raw - 0.5 <= delay <= 1.2 * raw + 0.5 && delay <= maxMs
  {
    hide Times, Raw, Round;
    var raw := Raw(attempt, baseMs, maxMs);
    RawIsBounded(attempt, baseMs, maxMs);
    JitterIsNear(raw, random);
    RoundIsNear(Times(raw, 0.8 + random * 0.4));
  }

  // The raw delay starts at the base and is four times as long each time, up to
  // the maximum.
  lemma RawQuadruples(attempt: nat, baseMs: real, maxMs: real)
    requires attempt >= 1 && baseMs >= 0.0 && maxMs >= 0.0
    ensures Raw(1, baseMs, maxMs) == Min(maxMs, baseMs)
    ensures Raw(attempt + 1, baseMs, maxMs) == Min(maxMs, 4.0 * Raw(attempt, baseMs, maxMs))
  {
    var p := Pow4(attempt - 1) as real;
    assert Pow4(attempt) as real == 4.0 * p;
    assert Times(baseMs, Pow4(attempt) as real) == 4.0 * Times(baseMs, p) by { assert baseMs * (4.0 * p) == 4.0 * (baseMs * p); }
    assert Times(baseMs, p) >= 0.0 by { TimesGrows(baseMs, 0.0, baseMs, p); }
  }

  ghost predicate Near(x: real, y: real) {
    y - 0.5 <= x <= y + 0.5
  }

  // The delay is the jittered one to the nearest millisecond, as far as the
  // maximum allows; there is none before the first attempt.
  lemma DelayFollowsTheJitter(attempt: int, baseMs: real, maxMs: real, random: real)
    requires baseMs >= 0.0 && maxMs >= 0.0 && Jitter(random)
    ensures var delay := RetryDelay(attempt, baseMs, maxMs, random);
            if attempt < 1 then delay == 0.0
            else
              && Near(delay, Min(maxMs, Times(Raw(attempt, baseMs, maxMs), 0.8 + random * 0.4)))
              && (delay == maxMs || (delay < maxMs && delay == delay.Floor as real))
  {
    hide Times, Raw, Round;
    if attempt >= 1 { RoundIsNear(Times(Raw(attempt, baseMs, maxMs), 0.8 + random * 0.4)); }
  }

  // Every delay of the band is drawn, to the nearest millisecond and as far as
  // the maximum allows.
  lemma JitterFillsTheBand(attempt: nat, baseMs: real, maxMs: real, wanted: real) returns (random: real)
    requires attempt >= 1 && baseMs >= 0.0 && maxMs >= 0.0 && Raw(attempt, baseMs, maxMs) > 0.0
    requires Times(0.8, Raw(attempt, baseMs, maxMs)) <= wanted < Times(1.2, Raw(attempt, baseMs, maxMs))
    ensures Jitter(random) && Near(RetryDelay(attempt, baseMs, maxMs, random), Min(maxMs, wanted))
  {
    hide Raw, Round;
    var raw := Raw(attempt, baseMs, maxMs);
    random := (wanted / raw - 0.8) / 0.4;
    DrawIs(raw, wanted, random);
    RoundIsNear(wanted);
  }

  lemma DrawIs(raw: real, wanted: real, random: real)
    requires raw > 0.0 && Times(0.8, raw) <= wanted < Times(1.2, raw) && random == (wanted / raw - 0.8) / 0.4
    ensures Jitter(random) && Times(raw, 0.8 + random * 0.4) == wanted
  {
    var q := wanted / raw;
    assert q * raw == wanted;
    Cancelled(0.8, q, raw);
    Smaller(q, 1.2, raw);
    assert 0.8 + random * 0.4 == q;
  }

  lemma Smaller(a: real, b: real, c: real)
    requires c > 0.0 && a * c < b * c
    ensures a < b
  {
    Cancelled(a, b, c);
  }

  lemma Cancelled(a: real, b: real, c: real)
    requires c > 0.0 && a * c <= b * c
    ensures a <= b
  {
    assert (b - a) * c >= 0.0;
  }

  // A later attempt never waits less than an earlier one with the same jitter.
  lemma DelayGrows(attempt: int, later: int, baseMs: real, maxMs: real, random: real)
    requires attempt <= later && baseMs >= 0.0 && maxMs >= 0.0 && Jitter(random)
    ensures RetryDelay(attempt, baseMs, maxMs, random) <= RetryDelay(later, baseMs, maxMs, random)
  {
    hide Times, Raw, Round;
    if later >= 1 {
      var low := if attempt >= 1 then Raw(attempt, baseMs, maxMs) else 0.0;
      var high := Raw(later, baseMs, maxMs);
      RawIsBounded(later, baseMs, maxMs);
      if attempt >= 1 {
        RawIsBounded(attempt, baseMs, maxMs);
        RawGrows(attempt, later, baseMs, maxMs);
      }
      TimesGrows(low, 0.8 + random * 0.4, high, 0.8 + random * 0.4);
      RoundGrows(Times(low, 0.8 + random * 0.4), Times(high, 0.8 + random * 0.4));
      NothingRounds(Times(high, 0.8 + random * 0.4));
    }
  }

  lemma NothingRounds(x: real)
    requires x >= 0.0
    ensures Round(x) >= 0
  {
  }

  // Attempts 1, 2, ... each with its own jitter.
  function TotalDelay(baseMs: real, maxMs: real, randoms: seq<real>): real {
    if randoms == [] then 0.0
    else TotalDelay(baseMs, maxMs, randoms[..|randoms| - 1]) + RetryDelay(|randoms|, baseMs, maxMs, randoms[|randoms| - 1])
  }

  // All retries of one item together wait no longer than this, however the
  // jitter falls.
  lemma {:induction false} TotalIsBounded(baseMs: real, maxMs: real, randoms: seq<real>)
    requires baseMs >= 0.0 && maxMs >= 0.0 && forall i :: 0 <= i < |randoms| ==> Jitter(randoms[i])
    ensures TotalDelay(baseMs, maxMs, randoms) <= Times(|randoms| as real, maxMs)
    ensures TotalDelay(baseMs, maxMs, randoms) <=
            0.4 * Times(baseMs, Pow4(|randoms|) as real - 1.0) + |randoms| as real / 2.0
  {
    hide Times, Raw, RetryDelay;
    var n := |randoms|;
    if n == 0 {
      assert Times(0.0, maxMs) == 0.0 && Times(baseMs, 0.0) == 0.0 by { TimesNothing(baseMs, maxMs); }
    } else {
      TotalIsBounded(baseMs, maxMs, randoms[..n - 1]);
      DelayIsNear(n, baseMs, maxMs, randoms[n - 1]);
      RawIsBounded(n, baseMs, maxMs);
      TimesNext(baseMs, maxMs, n - 1);
    }
  }

  lemma TimesNothing(baseMs: real, maxMs: real)
    ensures Times(0.0, maxMs) == 0.0 && Times(baseMs, 0.0) == 0.0
  {
  }

  lemma TimesNext(baseMs: real, maxMs: real, n: nat)
    ensures Times((n + 1) as real, maxMs) == Times(n as real, maxMs) + maxMs
    ensures 0.4 * Times(baseMs, Pow4(n + 1) as real - 1.0) ==
            0.4 * Times(baseMs, Pow4(n) as real - 1.0) + 1.2 * Times(baseMs, Pow4(n) as real)
  {
    var p := Pow4(n) as real;
    assert Pow4(n + 1) as real == 4.0 * p;
    assert baseMs * (4.0 * p - 1.0) == 4.0 * (baseMs * p) - baseMs;
    assert baseMs * (p - 1.0) == baseMs * p - baseMs;
  }
}
