// Streaming candles: how one closed source bar moves one timeframe of one
// symbol, and what a whole feed of such bars leaves behind.
//
// The streaming form keeps a pending bar per bucket and merges every source bar
// into it.  The batch form groups the source bars of a bucket and takes first
// open, maximum high, minimum low, last close and the summed volumes.
module Candles {
  import opened Wrappers

  datatype Interval =
    | M1 | M3 | M5 | M15 | M30 | H1 | H2 | H4 | H6 | H8 | H12 | D1
    | Unknown(name: string)

  function Millis(i: Interval): (ms: nat)
    requires !i.Unknown?
    ensures ms > 0
  {
    match i
    case M1 => 60_000
    case M3 => 180_000
    case M5 => 300_000
    case M15 => 900_000
    case M30 => 1_800_000
    case H1 => 3_600_000
    case H2 => 7_200_000
    case H4 => 14_400_000
    case H6 => 21_600_000
    case H8 => 28_800_000
    case H12 => 43_200_000
    case D1 => 86_400_000
  }

  const STREAM_TIMEFRAMES: seq<Interval> := [M1, M5, M15, H1, H4, D1]

  const HISTORY_LENGTH: nat := 300

  datatype Candle = Candle(
    interval: Interval, openTime: int, closeTime: int,
    open: real, high: real, low: real, close: real,
    volume: real, quoteVolume: real, tradeCount: int,
    takerBase: real, takerQuote: real, closed: bool)

  // What one timeframe of one symbol shows and holds.  `shared` names the
  // bucket whose pending bar is the very object shown in `latest`.
  datatype Track = Track(
    latest: Option<Candle>, shared: Option<int>,
    pending: map<int, Candle>, history: seq<Candle>)

  const FRESH_TRACK := Track(None, None, map[], [])

  // ---------------------------------------------------------------- one step

  function Bucket(t: int, ms: nat): int
    requires ms > 0
  {
    t / ms * ms
  }

  // A bucket's pending bar right after its first source bar.
  function OpenBucket(src: Candle, iv: Interval, b: int): Candle
    requires !iv.Unknown?
  {
    src.(interval := iv, openTime := b, closeTime := b + Millis(iv) - 1, closed := false)
  }

  function Merge(bar: Candle, src: Candle): Candle {
    bar.(high := Max(bar.high, src.high),
         low := Min(bar.low, src.low),
         close := src.close,
         volume := bar.volume + src.volume,
         quoteVolume := bar.quoteVolume + src.quoteVolume,
         tradeCount := bar.tradeCount + src.tradeCount,
         takerBase := bar.takerBase + src.takerBase,
         takerQuote := bar.takerQuote + src.takerQuote)
  }

  function AppendHistory(h: seq<Candle>, bar: Candle): seq<Candle> {
    if |h| > 0 && h[|h| - 1].openTime == bar.openTime
    then h[..|h| - 1] + [bar]
    else LastN(h + [bar], HISTORY_LENGTH)
  }

  // src merged into the pending bar of bucket b, and so into the bar on display
  // when that is the same object.
  function Gather(t: Track, iv: Interval, b: int, src: Candle): Track
    requires !iv.Unknown?
  {
    var bar := if b in t.pending then Merge(t.pending[b], src) else OpenBucket(src, iv, b);
    t.(latest := if t.shared == Some(b) then Some(bar) else t.latest,
       pending := t.pending[b := bar])
  }

  // Bucket b published: displayed, appended to the history, alone pending.
  function Publish(t: Track, b: int): Track
    requires b in t.pending
  {
    var done := t.pending[b].(closed := true);
    Track(Some(done), Some(b), map[b := done], AppendHistory(t.history, done))
  }

  // The effect of a closed source bar on the track of timeframe iv.
  function Absorb(t: Track, iv: Interval, src: Candle): Track
    requires !iv.Unknown? && !src.interval.Unknown?
  {
    if Millis(iv) < Millis(src.interval) then t
    else if iv == src.interval then
      Track(Some(src), None, t.pending, AppendHistory(t.history, src))
    else
      var b := Bucket(src.openTime, Millis(iv));
      var g := Gather(t, iv, b, src);
      if src.closeTime >= b + Millis(iv) - 1 then Publish(g, b) else g
  }

  function Run(feed: seq<Candle>, iv: Interval): Track
    requires !iv.Unknown? && forall i :: 0 <= i < |feed| ==> !feed[i].interval.Unknown?
  {
    if feed == [] then FRESH_TRACK
    else Absorb(Run(feed[..|feed| - 1], iv), iv, feed[|feed| - 1])
  }

  // -------------------------------------------------------------- batch form

  function MaxHigh(s: seq<Candle>): real
    requires s != []
  {
    if |s| == 1 then s[0].high else Max(MaxHigh(s[..|s| - 1]), s[|s| - 1].high)
  }

  function MinLow(s: seq<Candle>): real
    requires s != []
  {
    if |s| == 1 then s[0].low else Min(MinLow(s[..|s| - 1]), s[|s| - 1].low)
  }

  datatype Totals = Totals(volume: real, quoteVolume: real, tradeCount: int, takerBase: real, takerQuote: real)

  function Total(s: seq<Candle>): Totals {
    if s == [] then Totals(0.0, 0.0, 0, 0.0, 0.0)
    else
      var t, c := Total(s[..|s| - 1]), s[|s| - 1];
      Totals(t.volume + c.volume, t.quoteVolume + c.quoteVolume, t.tradeCount + c.tradeCount,
             t.takerBase + c.takerBase, t.takerQuote + c.takerQuote)
  }

  // One row of the batch resampler: the bars of one bucket, aggregated.
  function Aggregate(s: seq<Candle>, iv: Interval, b: int, closed: bool): Candle
    requires s != [] && !iv.Unknown?
  {
    var t := Total(s);
    Candle(iv, b, b + Millis(iv) - 1, s[0].open, MaxHigh(s), MinLow(s), s[|s| - 1].close,
           t.volume, t.quoteVolume, t.tradeCount, t.takerBase, t.takerQuote, closed)
  }

  // The source bars that open inside bucket b, in feed order.
  function InBucket(feed: seq<Candle>, ms: nat, b: int): seq<Candle>
    requires ms > 0
  {
    if feed == [] then []
    else
      var rest := InBucket(feed[..|feed| - 1], ms, b);
      if Bucket(feed[|feed| - 1].openTime, ms) == b then rest + [feed[|feed| - 1]] else rest
  }

  // The source bar that opens last inside its bucket.
  predicate Completes(c: Candle, src: Interval, ms: nat)
    requires !src.Unknown? && ms > 0
  {
    c.openTime + Millis(src) == Bucket(c.openTime, ms) + ms
  }

  predicate Complete(feed: seq<Candle>, src: Interval, ms: nat, b: int)
    requires !src.Unknown? && ms > 0
  {
    exists c :: c in feed && Bucket(c.openTime, ms) == b && Completes(c, src, ms)
  }

  // The closed bars of timeframe iv in the order in which their last sub-bars arrive.
  function Published(feed: seq<Candle>, src: Interval, iv: Interval): seq<Candle>
    requires !src.Unknown? && !iv.Unknown?
  {
    if feed == [] then []
    else
      var rest := Published(feed[..|feed| - 1], src, iv);
      var c := feed[|feed| - 1];
      var b := Bucket(c.openTime, Millis(iv));
      if Completes(c, src, Millis(iv))
      then rest + [Aggregate(InBucket(feed, Millis(iv), b), iv, b, true)] else rest
  }

  // A feed of one source interval: closed, aligned, strictly increasing; gaps allowed.
  predicate GoodFeed(feed: seq<Candle>, src: Interval)
    requires !src.Unknown?
  {
    && (forall i :: 0 <= i < |feed| ==>
          && feed[i].interval == src && feed[i].closed
          && feed[i].openTime % Millis(src) == 0
          && feed[i].closeTime == feed[i].openTime + Millis(src) - 1)
    && (forall i, j :: 0 <= i < j < |feed| ==> feed[i].openTime < feed[j].openTime)
  }

  // Timeframe iv is built from, not fed by, source interval src.
  predicate Derived(src: Interval, iv: Interval) {
    !src.Unknown? && !iv.Unknown? && Millis(src) < Millis(iv) && Millis(iv) % Millis(src) == 0
  }
}
