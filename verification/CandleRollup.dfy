// On a gap-free feed that starts on a bucket boundary the closed bars of all
// timeframes tell one story: every larger bar is the aggregate of the smaller
// bars that tile it, and volumes are conserved across timeframes.
module CandleRollup {
  import opened Wrappers
  import opened Candles
  import opened BucketArithmetic
  import opened CandleTheorems

  ghost predicate GapFree(feed: seq<Candle>, src: Interval, start: int)
    requires !src.Unknown?
  {
    forall i :: 0 <= i < |feed| ==> feed[i].openTime == start + i * Millis(src)
  }

  // Number of source bars in a full bucket.
  function Ratio(src: Interval, iv: Interval): (q: nat)
    requires Derived(src, iv)
    ensures q > 0 && q * Millis(src) == Millis(iv)
  {
    Millis(iv) / Millis(src)
  }

  // ------------------------------------------------------------ the time grid

  lemma GridBucket(start: int, i: nat, s: nat, q: nat, ms: nat)
    requires s > 0 && q > 0 && ms == q * s && start % ms == 0
    ensures Bucket(start + i * s, ms) == start + i / q * ms
    ensures start + i * s + s == start + i / q * ms + ms <==> i % q == q - 1
  {
    var j, k := i / q, i % q;
    assert i * s == j * ms + k * s by {
      assert i == j * q + k;
      Distribute(j * q, k, s);
      assert j * q * s == j * (q * s);
    }
    assert 0 <= k * s && k * s + s <= ms by {
      Distribute(k, 1, s);
      if k + 1 < q { Distribute(k + 1, q - (k + 1), s); assert 0 <= (q - (k + 1)) * s; }
    }
    assert k * s + s == ms <==> k == q - 1 by {
      Distribute(k, 1, s);
      if (k + 1) * s == q * s { CancelFactor(k + 1, q, s); }
    }
    assert (start + j * ms) % ms == 0 by {
      assert start == start / ms * ms;
      Distribute(start / ms, j, ms);
      MultipleMod(start / ms + j, ms);
    }
    BucketIs(start + i * s, ms, start + j * ms);
  }

  lemma Distribute(a: int, b: int, s: int)
    ensures (a + b) * s == a * s + b * s
  {}

  lemma MulAssoc(a: int, b: int, c: int)
    ensures a * b * c == a * (b * c)
  {}

  lemma CancelFactor(a: int, b: int, s: int)
    requires s > 0 && a * s == b * s
    ensures a == b
  {
    assert (a - b) * s == 0;
    ZeroMultiple(a - b, s);
  }

  // ----------------------------------------------- aggregates of sub-aggregates

  function Plus(a: Totals, b: Totals): Totals {
    Totals(a.volume + b.volume, a.quoteVolume + b.quoteVolume, a.tradeCount + b.tradeCount,
           a.takerBase + b.takerBase, a.takerQuote + b.takerQuote)
  }

  function OwnTotals(c: Candle): Totals {
    Totals(c.volume, c.quoteVolume, c.tradeCount, c.takerBase, c.takerQuote)
  }

  lemma {:induction false} TotalConcat(s: seq<Candle>, t: seq<Candle>)
    ensures Total(s + t) == Plus(Total(s), Total(t))
    decreases |t|
  {
    if t == [] {
      assert s + t == s;
    } else {
      assert (s + t)[..|s + t| - 1] == s + t[..|t| - 1];
      TotalConcat(s, t[..|t| - 1]);
    }
  }

  lemma {:induction false} ExtremesConcat(s: seq<Candle>, t: seq<Candle>)
    requires s != [] && t != []
    ensures MaxHigh(s + t) == Max(MaxHigh(s), MaxHigh(t))
    ensures MinLow(s + t) == Min(MinLow(s), MinLow(t))
    decreases |t|
  {
    assert (s + t)[..|s + t| - 1] == s + t[..|t| - 1];
    if |t| == 1 {
      assert s + t[..0] == s;
    } else {
      ExtremesConcat(s, t[..|t| - 1]);
    }
  }

  // Bar c carries the open, extremes, close and volumes of the bars s.
  predicate Summarises(c: Candle, s: seq<Candle>) {
    && s != [] && c.open == s[0].open && c.close == s[|s| - 1].close
    && c.high == MaxHigh(s) && c.low == MinLow(s) && OwnTotals(c) == Total(s)
  }

  lemma SummaryOfConcat(c: Candle, s: seq<Candle>, d: Candle, t: seq<Candle>)
    requires Summarises(c, s) && Summarises(d, t)
    ensures Summarises(Merge(c, d), s + t)
  {
    TotalConcat(s, t);
    ExtremesConcat(s, t);
  }

  // The k-th run of q consecutive bars, empty when the sequence is too short.
  function Chunk(s: seq<Candle>, k: nat, q: nat): seq<Candle> {
    if (k + 1) * q <= |s| then
      assert 0 <= k * q && (k + 1) * q == k * q + q;
      s[k * q..(k + 1) * q]
    else []
  }

  lemma ChunkOfPrefix(s: seq<Candle>, n: nat, k: nat, q: nat)
    requires (k + 1) * q <= n <= |s|
    ensures Chunk(s[..n], k, q) == Chunk(s, k, q)
  {}

  lemma LastChunk(s: seq<Candle>, r: nat, q: nat)
    requires 0 <= r * q && |s| == (r + 1) * q == r * q + q
    ensures Chunk(s, r, q) == s[r * q..]
  {}

  lemma NonNegativeProduct(a: nat, q: nat)
    ensures 0 <= a * q
  {}

  lemma ProductMonotone(a: nat, b: nat, q: nat)
    requires a <= b
    ensures a * q <= b * q
  {
    NonNegativeProduct(b - a, q);
    Distribute(a, b - a, q);
  }

  lemma ChunkFits(k: nat, r: nat, q: nat)
    requires k < r
    ensures 0 <= k * q && k * q + q == (k + 1) * q <= r * q
  {
    NonNegativeProduct(k, q);
    Distribute(k, 1, q);
    ProductMonotone(k + 1, r, q);
  }

  // Folding the summaries of consecutive chunks summarises the whole.
  lemma {:induction false} SummaryOfSummaries(chunks: seq<Candle>, s: seq<Candle>, q: nat,
                                              iv: Interval, b: int, closed: bool)
    requires q > 0 && chunks != [] && |s| == |chunks| * q && !iv.Unknown?
    requires forall k :: 0 <= k < |chunks| ==> Summarises(chunks[k], Chunk(s, k, q))
    ensures Summarises(Aggregate(chunks, iv, b, closed), s)
    decreases |chunks|
  {
    hide Summarises, Aggregate, Chunk;
    var r := |chunks| - 1;
    ChunkFits(r, |chunks|, q);
    var head, last, h, t := chunks[..r], chunks[r], s[..r * q], s[r * q..];
    assert h + t == s && head + [last] == chunks;
    LastChunk(s, r, q);
    if r == 0 {
      assert t == s && chunks == [last];
      OneSummary(last, s, iv, b, closed);
    } else {
      forall k | 0 <= k < r ensures Chunk(h, k, q) == Chunk(s, k, q) {
        ChunkFits(k, r, q);
        ChunkOfPrefix(s, r * q, k, q);
      }
      SummaryOfSummaries(head, h, q, iv, b, closed);
      SummaryOfConcat(Aggregate(head, iv, b, closed), h, last, t);
      MergeIsAggregate(head, last, iv, b, closed);
    }
  }

  lemma OneSummary(c: Candle, s: seq<Candle>, iv: Interval, b: int, closed: bool)
    requires Summarises(c, s) && !iv.Unknown?
    ensures Summarises(Aggregate([c], iv, b, closed), s)
  {
    assert [c][..0] == [] && Total([c]) == OwnTotals(c);
  }

  // ------------------------------------------------ publications in closed form

  // Where the i-th bar of a gap-free feed sits: its bucket, and whether it is
  // the bucket's last.
  lemma BarOnGrid(feed: seq<Candle>, src: Interval, iv: Interval, start: int, i: nat)
    requires Derived(src, iv) && GapFree(feed, src, start) && start % Millis(iv) == 0 && i < |feed|
    ensures var q := Ratio(src, iv);
            && Bucket(feed[i].openTime, Millis(iv)) == start + i / q * Millis(iv)
            && (Completes(feed[i], src, Millis(iv)) <==> i % q == q - 1)
  {
    hide Bucket, Millis;
    GridBucket(start, i, Millis(src), Ratio(src, iv), Millis(iv));
  }

  lemma NewBucketIsEmpty(feed: seq<Candle>, src: Interval, iv: Interval, start: int)
    requires Derived(src, iv) && GapFree(feed, src, start) && start % Millis(iv) == 0
    requires |feed| % Ratio(src, iv) == 0
    ensures InBucket(feed, Millis(iv), start + |feed| / Ratio(src, iv) * Millis(iv)) == []
  {
    hide Bucket, Millis, Ratio;
    var q, ms := Ratio(src, iv), Millis(iv);
    var j := |feed| / q;
    forall k | 0 <= k < |feed| ensures Bucket(feed[k].openTime, ms) != start + j * ms {
      BarOnGrid(feed, src, iv, start, k);
      QuotientBelow(k, |feed|, q);
      if (k / q) * ms == j * ms { CancelFactor(k / q, j, ms); }
    }
    NoneInBucket(feed, ms, start + j * ms);
  }

  // The bars of the bucket that is being filled are the tail of the feed.
  lemma {:induction false} OpenBucketIsTail(feed: seq<Candle>, src: Interval, iv: Interval, start: int)
    requires Derived(src, iv) && GapFree(feed, src, start) && start % Millis(iv) == 0 && feed != []
    ensures var q, i := Ratio(src, iv), |feed| - 1;
            0 <= i / q * q <= i && InBucket(feed, Millis(iv), start + i / q * Millis(iv)) == feed[i / q * q..]
    decreases |feed|
  {
    hide Bucket, Millis, Ratio;
    var q, i := Ratio(src, iv), |feed| - 1;
    BarOnGrid(feed, src, iv, start, i);
    QuotientBounds(i, q);
    var p := feed[..i];
    if i % q == 0 {
      NewBucketIsEmpty(p, src, iv, start);
    } else {
      QuotientStep(i, q);
      OpenBucketIsTail(p, src, iv, start);
      assert p[i / q * q..] + [feed[i]] == feed[i / q * q..];
    }
  }

  lemma QuotientBounds(i: nat, q: nat)
    requires q > 0
    ensures 0 <= i / q * q <= i && (i % q == 0 ==> i / q * q == i)
  {}

  lemma QuotientStep(i: nat, q: nat)
    requires q > 0 && i > 0
    ensures i % q != 0 ==> (i - 1) / q == i / q
    ensures i % q == 0 ==> (i - 1) / q == i / q - 1 && i / q * q == i
  {
    var j, k := i / q, i % q;
    if k != 0 {
      DivisionIs(i - 1, q, j, k - 1);
    } else {
      assert (j - 1) * q == j * q - q;
      DivisionIs(i - 1, q, j - 1, q - 1);
    }
  }

  lemma DivisionIs(n: int, q: nat, j: int, k: nat)
    requires q > 0 && n == j * q + k && k < q
    ensures n / q == j && n % q == k
  {
    var d := j - n / q;
    assert d * q == n % q - k;
    assert d >= 1 ==> d * q >= 1 * q;
    assert d <= -1 ==> d * q <= -1 * q;
  }

  // An index before a multiple of q has a smaller quotient.
  lemma QuotientBelow(k: nat, i: nat, q: nat)
    requires q > 0 && k < i && i % q == 0
    ensures k / q < i / q
  {
    var d := k / q - i / q;
    assert k == k / q * q + k % q && i == i / q * q;
    assert d * q == k - i - k % q < 0;
    assert d >= 0 ==> d * q >= 0;
  }

  lemma {:induction false} NoneInBucket(feed: seq<Candle>, ms: nat, b: int)
    requires ms > 0 && forall k :: 0 <= k < |feed| ==> Bucket(feed[k].openTime, ms) != b
    ensures InBucket(feed, ms, b) == []
  {
    hide Bucket;
    if feed != [] { NoneInBucket(feed[..|feed| - 1], ms, b); }
  }

  // The bar published by the i-th source bar when that completes a bucket.
  lemma NewestChunk(feed: seq<Candle>, src: Interval, iv: Interval, start: int)
    requires Derived(src, iv) && GapFree(feed, src, start) && start % Millis(iv) == 0 && feed != []
    ensures var q, i := Ratio(src, iv), |feed| - 1;
            var p := feed[..i];
            if i % q == q - 1 then
              Chunk(feed, i / q, q) != [] &&
              Published(feed, src, iv) == Published(p, src, iv)
                + [Aggregate(Chunk(feed, i / q, q), iv, start + i / q * Millis(iv), true)]
            else Published(feed, src, iv) == Published(p, src, iv)
  {
    hide Bucket, Millis, Ratio, Aggregate, InBucket, Completes;
    var q, i := Ratio(src, iv), |feed| - 1;
    BarOnGrid(feed, src, iv, start, i);
    if i % q == q - 1 {
      OpenBucketIsTail(feed, src, iv, start);
      LengthStep(i, q);
      Distribute(i / q, 1, q);
      LastChunk(feed, i / q, q);
    }
  }

  // The j-th published bar aggregates the j-th full run of source bars.
  lemma {:induction false} PublishedClosedForm(feed: seq<Candle>, src: Interval, iv: Interval, start: int)
    requires Derived(src, iv) && GapFree(feed, src, start) && start % Millis(iv) == 0
    ensures var q, pub := Ratio(src, iv), Published(feed, src, iv);
            && |pub| == |feed| / q
            && forall j :: 0 <= j < |pub| ==>
                 Chunk(feed, j, q) != []
                 && pub[j] == Aggregate(Chunk(feed, j, q), iv, start + j * Millis(iv), true)
    decreases |feed|
  {
    hide Bucket, Millis, Aggregate, Ratio, Published, Chunk;
    var q := Ratio(src, iv);
    if feed == [] {
      NothingPublished(src, iv);
      DivisionIs(0, q, 0, 0);
    } else {
      var i := |feed| - 1;
      var p := feed[..i];
      PublishedClosedForm(p, src, iv, start);
      NewestChunk(feed, src, iv, start);
      LengthStep(i, q);
      forall j | 0 <= j < i / q ensures Chunk(p, j, q) == Chunk(feed, j, q) {
        QuotientBounds(i, q);
        ChunkFits(j, i / q, q);
        ChunkOfPrefix(feed, i, j, q);
      }
    }
  }

  lemma NothingPublished(src: Interval, iv: Interval)
    requires Derived(src, iv)
    ensures Published([], src, iv) == []
  {}

  lemma LengthStep(i: nat, q: nat)
    requires q > 0
    ensures i % q == q - 1 ==> (i + 1) / q == i / q + 1 && (i / q + 1) * q == i + 1
    ensures i % q != q - 1 ==> (i + 1) / q == i / q
  {
    var j, k := i / q, i % q;
    Distribute(j, 1, q);
    if k == q - 1 {
      DivisionIs(i + 1, q, j + 1, 0);
    } else {
      DivisionIs(i + 1, q, j, k + 1);
    }
  }

  // ------------------------------------------------------------ main results

  // Every published bar of the larger timeframe is the aggregate of the
  // consecutive published bars of the smaller timeframe that tile it.
  lemma TimeframesAgree(feed: seq<Candle>, src: Interval, small: Interval, large: Interval, start: int, j: nat)
    requires Derived(src, small) && Derived(src, large) && Derived(small, large)
    requires GapFree(feed, src, start) && start % Millis(large) == 0
    requires j < |Published(feed, src, large)|
    ensures var r := Ratio(small, large);
            var tiles := Chunk(Published(feed, src, small), j, r);
            |tiles| == r
            && Published(feed, src, large)[j] == Aggregate(tiles, large, start + j * Millis(large), true)
  {
    hide Bucket, Millis, Aggregate, Ratio, Published, Chunk, Summarises;
    var q, r, n := Ratio(src, small), Ratio(small, large), Ratio(src, large);
    assert n == r * q by { RatiosCompose(src, small, large); }
    DivisorDivides(start, Millis(large), Millis(small));
    PublishedClosedForm(feed, src, small, start);
    PublishedClosedForm(feed, src, large, start);
    TilesSummarise(feed, src, small, start, j, r, n);
    var tiles, whole := Chunk(Published(feed, src, small), j, r), Chunk(feed, j, n);
    SummaryOfSummaries(tiles, whole, q, large, start + j * Millis(large), true);
    SameSummary(whole, tiles, large, start + j * Millis(large), true);
  }

  lemma RatiosCompose(src: Interval, small: Interval, large: Interval)
    requires Derived(src, small) && Derived(src, large) && Derived(small, large)
    ensures Ratio(src, large) == Ratio(small, large) * Ratio(src, small)
  {
    hide Millis, Ratio;
    var q, r, n := Ratio(src, small), Ratio(small, large), Ratio(src, large);
    MulAssoc(r, q, Millis(src));
    CancelFactor(n, r * q, Millis(src));
  }

  lemma SameSummary(s: seq<Candle>, t: seq<Candle>, iv: Interval, b: int, closed: bool)
    requires !iv.Unknown? && s != [] && t != [] && Summarises(Aggregate(t, iv, b, closed), s)
    ensures Aggregate(t, iv, b, closed) == Aggregate(s, iv, b, closed)
  {}

  // The smaller bars that tile the j-th larger bucket summarise its q-chunks.
  lemma TilesSummarise(feed: seq<Candle>, src: Interval, small: Interval, start: int, j: nat, r: nat, n: nat)
    requires Derived(src, small) && GapFree(feed, src, start) && start % Millis(small) == 0
    requires r > 0 && n == r * Ratio(src, small) && Chunk(feed, j, n) != []
    ensures var q, tiles, whole := Ratio(src, small), Chunk(Published(feed, src, small), j, r), Chunk(feed, j, n);
            && |tiles| == r && |whole| == n == r * q
            && forall k :: 0 <= k < r ==> Summarises(tiles[k], Chunk(whole, k, q))
  {
    hide Bucket, Millis, Aggregate, Ratio, Published, Summarises;
    var q, pub := Ratio(src, small), Published(feed, src, small);
    PublishedClosedForm(feed, src, small, start);
    TilesFit(|feed|, j, r, q, n);
    forall k | 0 <= k < r
      ensures Summarises(Chunk(pub, j, r)[k], Chunk(Chunk(feed, j, n), k, q))
    {
      ChunkOfChunk(feed, j, r, q, n, k);
      ChunkSummary(Chunk(feed, j * r + k, q), small, start + (j * r + k) * Millis(small));
    }
  }

  lemma TilesFit(len: nat, j: nat, r: nat, q: nat, n: nat)
    requires q > 0 && n == r * q && (j + 1) * n <= len
    ensures (j + 1) * r <= len / q
  {
    assert (j + 1) * n == ((j + 1) * r) * q;
    var d := (j + 1) * r - len / q;
    assert d >= 1 ==> d * q >= 1 * q;
    assert len / q * q + len % q == len;
    Distribute((j + 1) * r, -(len / q), q);
  }

  lemma ChunkOfChunk(s: seq<Candle>, j: nat, r: nat, q: nat, n: nat, k: nat)
    requires n == r * q && k < r && (j + 1) * n <= |s|
    ensures Chunk(Chunk(s, j, n), k, q) == Chunk(s, j * r + k, q)
  {
    hide Chunk;
    ChunkIndices(j, r, q, n, k);
    WholeChunk(s, j, n);
    ChunkOfSlice(s, j * n, n, j * r + k, k, q);
  }

  lemma WholeChunk(s: seq<Candle>, j: nat, n: nat)
    requires (j + 1) * n <= |s| && 0 <= j * n && (j + 1) * n == j * n + n
    ensures Chunk(s, j, n) == s[j * n..j * n + n]
  {}

  // Where the k-th chunk of the j-th large chunk lies.
  lemma ChunkIndices(j: nat, r: nat, q: nat, n: nat, k: nat)
    requires n == r * q && k < r
    ensures 0 <= j * n && (j + 1) * n == j * n + n && (k + 1) * q <= n
    ensures 0 <= j * r + k && (j * r + k) * q == j * n + k * q && (j * r + k + 1) * q == j * n + (k + 1) * q
  {
    NonNegativeProduct(j, n);
    NonNegativeProduct(j, r);
    Distribute(j, 1, n);
    ChunkFits(k, r, q);
    Distribute(j * r, k, q);
    MulAssoc(j, r, q);
    Distribute(j * r + k, 1, q);
    Distribute(k, 1, q);
  }

  lemma ChunkOfSlice(s: seq<Candle>, from: nat, n: nat, g: nat, k: nat, q: nat)
    requires from + n <= |s| && (k + 1) * q <= n
    requires g * q == from + k * q && (g + 1) * q == from + (k + 1) * q
    ensures Chunk(s[from..from + n], k, q) == Chunk(s, g, q)
  {
    Distribute(k, 1, q);
    SliceOfSlice(s, from, n, k * q, (k + 1) * q);
  }

  lemma SliceOfSlice(s: seq<Candle>, from: nat, n: nat, a: nat, b: nat)
    requires from + n <= |s| && a <= b <= n
    ensures s[from..from + n][a..b] == s[from + a..from + b]
  {
    var t, l, r := s[from..from + n], s[from..from + n][a..b], s[from + a..from + b];
    forall i | 0 <= i < b - a ensures l[i] == r[i] {
      assert l[i] == t[a + i] && t[a + i] == s[from + (a + i)] && r[i] == s[from + a + i];
    }
    assert |l| == |r|;
  }

  lemma ChunkSummary(s: seq<Candle>, iv: Interval, b: int)
    requires s != [] && !iv.Unknown?
    ensures Summarises(Aggregate(s, iv, b, true), s)
  {}

  // The volumes of the published bars are those of the source bars they cover.
  lemma {:induction false} VolumeIsConserved(feed: seq<Candle>, src: Interval, iv: Interval, start: int)
    requires Derived(src, iv) && GapFree(feed, src, start) && start % Millis(iv) == 0
    ensures var n := |feed| / Ratio(src, iv) * Ratio(src, iv);
            0 <= n <= |feed| && Total(Published(feed, src, iv)) == Total(feed[..n])
    decreases |feed|
  {
    hide Bucket, Millis, Ratio, Aggregate, Chunk, Published, Total;
    var q := Ratio(src, iv);
    QuotientBounds(|feed|, q);
    if feed == [] {
      NothingPublished(src, iv);
      assert feed[..|feed| / q * q] == [];
    } else {
      var i := |feed| - 1;
      var p, n := feed[..i], i / q * q;
      VolumeIsConserved(p, src, iv, start);
      NewestChunk(feed, src, iv, start);
      LengthStep(i, q);
      QuotientBounds(i, q);
      assert p[..n] == feed[..n];
      if i % q == q - 1 {
        NewestTotal(feed, Published(p, src, iv), n, i / q, q, iv, start + i / q * Millis(iv));
        assert feed[..(i + 1) / q * q] == feed;
      }
    }
  }

  lemma NewestTotal(feed: seq<Candle>, pub: seq<Candle>, n: nat, j: nat, q: nat, iv: Interval, b: int)
    requires !iv.Unknown? && n == j * q && |feed| == (j + 1) * q && q > 0 && n <= |feed| && Chunk(feed, j, q) != []
    requires Total(pub) == Total(feed[..n])
    ensures Total(pub + [Aggregate(Chunk(feed, j, q), iv, b, true)]) == Total(feed)
  {
    hide Total, MaxHigh, MinLow;
    var c := Chunk(feed, j, q);
    Distribute(j, 1, q);
    LastChunk(feed, j, q);
    TotalConcat(feed[..n], c);
    assert feed[..n] + c == feed;
    ChunkSummary(c, iv, b);
    TotalAppend(pub, Aggregate(c, iv, b, true));
  }

  lemma TotalAppend(s: seq<Candle>, c: Candle)
    ensures Total(s + [c]) == Plus(Total(s), OwnTotals(c))
  {
    assert (s + [c])[..|s|] == s;
  }

  // Two timeframes that have both just closed a bar have published the same totals.
  lemma TimeframesConserveVolume(feed: seq<Candle>, src: Interval, a: Interval, b: Interval, start: int)
    requires Derived(src, a) && Derived(src, b) && GapFree(feed, src, start)
    requires start % Millis(a) == 0 && start % Millis(b) == 0
    requires |feed| % Ratio(src, a) == 0 && |feed| % Ratio(src, b) == 0
    ensures Total(Published(feed, src, a)) == Total(Published(feed, src, b)) == Total(feed)
  {
    hide Bucket, Millis, Ratio, Published;
    VolumeIsConserved(feed, src, a, start);
    VolumeIsConserved(feed, src, b, start);
    QuotientBounds(|feed|, Ratio(src, a));
    QuotientBounds(|feed|, Ratio(src, b));
    assert feed[..|feed|] == feed;
  }

  // Which buckets one aligned source bar leaves pending.
  lemma PendingKeysStep(feed: seq<Candle>, src: Interval, iv: Interval)
    requires Derived(src, iv) && GoodFeed(feed, src) && feed != []
    ensures var x, before := feed[|feed| - 1], Run(feed[..|feed| - 1], iv).pending.Keys;
            var b := Bucket(x.openTime, Millis(iv));
            Run(feed, iv).pending.Keys == if Completes(x, src, Millis(iv)) then {b} else before + {b}
  {
    hide Bucket, Millis, Merge, OpenBucket, AppendHistory, GoodFeed, Completes;
    LastCloses(feed, src, iv);
  }

  // Without gaps a timeframe never holds more than two pending buckets: the
  // one being filled and, until the next close, the one on display.
  lemma {:induction false} AtMostTwoPending(feed: seq<Candle>, src: Interval, iv: Interval, start: int)
    returns (shown: int)
    requires Derived(src, iv) && GoodFeed(feed, src) && GapFree(feed, src, start)
    ensures feed != [] ==>
              var b := Bucket(feed[|feed| - 1].openTime, Millis(iv));
              && Run(feed, iv).pending.Keys <= {b, shown}
              && (Completes(feed[|feed| - 1], src, Millis(iv)) ==> Run(feed, iv).pending.Keys == {b})
    ensures |Run(feed, iv).pending| <= 2
    decreases |feed|
  {
    hide Bucket, Millis, Absorb, Completes;
    shown := 0;
    if feed != [] {
      var i := |feed| - 1;
      var p, ms := feed[..i], Millis(iv);
      GoodPrefix(feed, src, i);
      PendingKeysStep(feed, src, iv);
      if i > 0 {
        var before := AtMostTwoPending(p, src, iv, start);
        if Completes(p[i - 1], src, ms) {
          shown := Bucket(p[i - 1].openTime, ms);
        } else {
          SameOrNext(feed, src, iv, start);
          shown := before;
        }
      }
      AtMostTwo(Run(feed, iv).pending.Keys, Bucket(feed[i].openTime, ms), shown);
      assert |Run(feed, iv).pending| == |Run(feed, iv).pending.Keys|;
    }
  }

  lemma AtMostTwo(s: set<int>, a: int, b: int)
    requires s <= {a, b}
    ensures |s| <= 2
  {
    var rest := s - {a} - {b};
    assert rest == {};
    assert |s - {a}| <= 1;
  }

  // On an aligned bar the close-time test is exactly "this is the last sub-bar".
  lemma LastCloses(feed: seq<Candle>, src: Interval, iv: Interval)
    requires Derived(src, iv) && GoodFeed(feed, src) && feed != []
    ensures var x := feed[|feed| - 1];
            x.interval == src &&
            (x.closeTime >= Bucket(x.openTime, Millis(iv)) + Millis(iv) - 1 <==> Completes(x, src, Millis(iv)))
  {
    hide Bucket, Millis;
    SubBarFits(feed[|feed| - 1].openTime, Millis(src), Millis(iv));
  }

  // Without gaps the next bar stays in its predecessor's bucket unless that closed.
  lemma SameOrNext(feed: seq<Candle>, src: Interval, iv: Interval, start: int)
    requires Derived(src, iv) && GoodFeed(feed, src) && GapFree(feed, src, start) && |feed| > 1
    requires !Completes(feed[|feed| - 2], src, Millis(iv))
    ensures Bucket(feed[|feed| - 1].openTime, Millis(iv)) == Bucket(feed[|feed| - 2].openTime, Millis(iv))
  {
    hide Bucket, Millis;
    var y, ms := feed[|feed| - 2], Millis(iv);
    Distribute(|feed| - 2, 1, Millis(src));
    assert feed[|feed| - 1].openTime == y.openTime + Millis(src);
    SubBarFits(y.openTime, Millis(src), ms);
    BucketBounds(y.openTime, ms);
    BucketIs(feed[|feed| - 1].openTime, ms, Bucket(y.openTime, ms));
  }
}
