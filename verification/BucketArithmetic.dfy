// Buckets of time: every instant lies in exactly one half-open bucket, and an
// aligned sub-interval never straddles two of them.
module BucketArithmetic {
  import opened Candles

  lemma BucketBounds(t: int, ms: nat)
    requires ms > 0
    ensures Bucket(t, ms) <= t < Bucket(t, ms) + ms
    ensures Bucket(t, ms) % ms == 0
  {
    assert t == t / ms * ms + t % ms;
    MultipleMod(t / ms, ms);
  }

  lemma ZeroMultiple(d: int, ms: nat)
    requires 0 <= d * ms < ms
    ensures d == 0
  {
    assert d <= -1 ==> d * ms <= -1 * ms;
    assert d >= 1 ==> d * ms >= 1 * ms;
  }

  lemma MultipleMod(q: int, ms: nat)
    requires ms > 0
    ensures q * ms % ms == 0
  {
    var r := q * ms;
    var d := q - r / ms;
    assert d * ms == r % ms;
    ZeroMultiple(d, ms);
  }

  // Two multiples of ms less than ms apart are equal.
  lemma MultiplesApart(a: int, b: int, ms: nat)
    requires ms > 0 && a % ms == 0 && b % ms == 0 && a < b + ms
    ensures a <= b
  {
    var d := a / ms - b / ms;
    assert a - b == d * ms;
    assert d >= 1 ==> d * ms >= 1 * ms;
  }

  lemma BucketIs(t: int, ms: nat, b: int)
    requires ms > 0 && b % ms == 0 && b <= t < b + ms
    ensures Bucket(t, ms) == b
  {
    BucketBounds(t, ms);
    MultiplesApart(b, Bucket(t, ms), ms);
    MultiplesApart(Bucket(t, ms), b, ms);
  }

  lemma BucketMonotone(t: int, u: int, ms: nat)
    requires ms > 0 && t <= u
    ensures Bucket(t, ms) <= Bucket(u, ms)
  {
    BucketBounds(t, ms);
    BucketBounds(u, ms);
    MultiplesApart(Bucket(t, ms), Bucket(u, ms), ms);
  }

  lemma DivisorDivides(b: int, ms: nat, s: nat)
    requires s > 0 && ms > 0 && ms % s == 0 && b % ms == 0
    ensures b % s == 0
  {
    assert b == b / ms * ms && ms == ms / s * s;
    assert b == (b / ms * (ms / s)) * s;
    MultipleMod(b / ms * (ms / s), s);
  }

  // An aligned source bar ends no later than its bucket.
  lemma SubBarFits(t: int, s: nat, ms: nat)
    requires s > 0 && ms > 0 && ms % s == 0 && t % s == 0
    ensures t + s <= Bucket(t, ms) + ms
  {
    var e := Bucket(t, ms) + ms;
    BucketBounds(t, ms);
    assert e % ms == 0 by { assert e == (t / ms + 1) * ms; MultipleMod(t / ms + 1, ms); }
    DivisorDivides(e, ms, s);
    assert e % s == 0 && t % s == 0 && t < e;
    assert (t + s) % s == 0 by { assert t + s == (t / s + 1) * s; MultipleMod(t / s + 1, s); }
    MultiplesApart(t + s, e, s);
  }

  // ------------------------------------------------------------- the intervals

  // A minute has sixty thousand milliseconds, and every interval the minutes of its name.
  lemma IntervalLengths()
    ensures Millis(M1) == 60 * 1000
    ensures Millis(M3) == 3 * Millis(M1) && Millis(M5) == 5 * Millis(M1) && Millis(M15) == 15 * Millis(M1)
    ensures Millis(M30) == 30 * Millis(M1) && Millis(H1) == 60 * Millis(M1) && Millis(H2) == 2 * Millis(H1)
    ensures Millis(H4) == 4 * Millis(H1) && Millis(H6) == 6 * Millis(H1) && Millis(H8) == 8 * Millis(H1)
    ensures Millis(H12) == 12 * Millis(H1) && Millis(D1) == 24 * Millis(H1)
  {}

  // Every streamed timeframe is built from every smaller one, and from the one-minute
  // feed: what is proved of derived timeframes holds of all pairs.
  lemma StreamedTimeframesNest(i: nat, j: nat)
    requires i < j < |STREAM_TIMEFRAMES|
    ensures Derived(STREAM_TIMEFRAMES[i], STREAM_TIMEFRAMES[j])
    ensures STREAM_TIMEFRAMES == [M1, M5, M15, H1, H4, D1]
  {}

}
