// The per-symbol stream store: mutable bar objects, the dictionaries that share
// them, and the kline handler that updates them in place.  Every method is
// proved against the pure step `Candles.Absorb`.
module CandleStore {
  import opened Wrappers
  import opened Candles

  // A kline message as delivered by the exchange; any field may be missing.
  datatype Kline = Kline(
    interval: Option<Interval>, openTime: Option<int>, closeTime: Option<int>,
    open: Option<real>, high: Option<real>, low: Option<real>, close: Option<real>, volume: Option<real>,
    quoteVolume: Option<real>, tradeCount: Option<int>, takerBase: Option<real>, takerQuote: Option<real>,
    closed: Option<bool>)

  function Get<T>(o: Option<T>, default: T): T {
    if o.Some? then o.value else default
  }

  // The source bar of a message that is read as interval iv; a missing close is zero
  // here, while the header keeps the close it had.
  function SourceBar(k: Kline, iv: Interval): (src: Candle)
    requires !iv.Unknown?
    ensures src.interval == iv && src.closed
  {
    var t := Get(k.openTime, 0);
    Candle(iv, t, Get(k.closeTime, t + Millis(iv) - 1),
           Get(k.open, 0.0), Get(k.high, 0.0), Get(k.low, 0.0), Get(k.close, 0.0), Get(k.volume, 0.0),
           Get(k.quoteVolume, 0.0), Get(k.tradeCount, 0), Get(k.takerBase, 0.0), Get(k.takerQuote, 0.0), true)
  }

  // The source bar a message delivers, if it is closed and of a known interval.
  function Delivered(k: Kline, last: Interval): (src: Option<Candle>)
    ensures src.Some? ==> !src.value.interval.Unknown?
  {
    var iv := Get(k.interval, last);
    if Get(k.closed, false) && !iv.Unknown? then Some(SourceBar(k, iv)) else None
  }

  // One bar dictionary, shared by reference and updated in place.
  class Bar {
    const interval: Interval
    const openTime: int
    const closeTime: int
    const open: real
    var high: real
    var low: real
    var close: real
    var volume: real
    var quoteVolume: real
    var tradeCount: int
    var takerBase: real
    var takerQuote: real
    var closed: bool

    constructor (c: Candle)
      ensures Value() == c && interval == c.interval && openTime == c.openTime
    {
      interval, openTime, closeTime, open := c.interval, c.openTime, c.closeTime, c.open;
      high, low, close, volume := c.high, c.low, c.close, c.volume;
      quoteVolume, tradeCount := c.quoteVolume, c.tradeCount;
      takerBase, takerQuote, closed := c.takerBase, c.takerQuote, c.closed;
    }

    function Value(): Candle
      reads this
    {
      Candle(interval, openTime, closeTime, open, high, low, close,
             volume, quoteVolume, tradeCount, takerBase, takerQuote, closed)
    }

    method Accumulate(src: Candle)
      modifies this
      ensures Value() == Merge(old(Value()), src)
    {
      high := Max(high, src.high);
      low := Min(low, src.low);
      close := src.close;
      volume := volume + src.volume;
      quoteVolume := quoteVolume + src.quoteVolume;
      tradeCount := tradeCount + src.tradeCount;
      takerBase := takerBase + src.takerBase;
      takerQuote := takerQuote + src.takerQuote;
    }

    method Close()
      modifies this
      ensures Value() == old(Value()).(closed := true)
    {
      closed := true;
    }
  }

  class SymbolState {
    var klineInterval: Interval
    var klineClose: real
    var klineVolume: real
    var closedKline: bool
    var lastPrice: real
    var timeframes: map<Interval, Bar>
    var building: map<(Interval, int), Bar>
    var history: map<Interval, seq<Candle>>

    // Every stored bar carries the timeframe and open time it is filed under, so
    // distinct keys hold distinct objects and the only possible sharing is a
    // displayed bar with the pending bar of its own bucket.
    ghost predicate Valid()
      reads `building, `timeframes
    {
      && (forall k :: k in building ==> building[k].interval == k.0 && building[k].openTime == k.1)
      && (forall i :: i in timeframes ==> timeframes[i].interval == i)
    }

    ghost function Bars(): set<Bar>
      reads `building, `timeframes
    {
      timeframes.Values + building.Values
    }

    // The bucket whose pending bar is the very object on display, if any.
    ghost function Shared(iv: Interval): Option<int>
      reads `building, `timeframes
    {
      if iv in timeframes && (iv, timeframes[iv].openTime) in building
         && building[(iv, timeframes[iv].openTime)] == timeframes[iv]
      then Some(timeframes[iv].openTime) else None
    }

    ghost function Buckets(iv: Interval): (r: set<int>)
      reads `building
      ensures forall b :: b in r <==> (iv, b) in building
    {
      var r := set k | k in building && k.0 == iv :: k.1;
      assert forall b :: (iv, b) in building ==> (iv, b).1 in r;
      r
    }

    ghost function Pending(iv: Interval): map<int, Candle>
      reads `building, building.Values
    {
      map b | b in Buckets(iv) :: building[(iv, b)].Value()
    }

    // The abstract track of one timeframe.
    ghost function TrackOf(iv: Interval): Track
      reads `building, `timeframes, `history, Bars()
    {
      Track(
        if iv in timeframes then Some(timeframes[iv].Value()) else None,
        Shared(iv),
        Pending(iv),
        if iv in history then history[iv] else [])
    }

    lemma PendingIs(iv: Interval, m: map<int, Candle>)
      requires forall b :: (iv, b) in building <==> b in m
      requires forall b :: b in m ==> building[(iv, b)].Value() == m[b]
      ensures Pending(iv) == m
    {
      var now := Pending(iv);
      forall b ensures b in now <==> b in m {
        assert b in now <==> (iv, b) in building;
      }
      assert now.Keys == m.Keys;
      assert forall b :: b in now ==> now[b] == m[b];
    }

    // Timeframes whose entries and bar contents are unchanged keep their tracks.
    twostate lemma OthersKept(iv: Interval)
      requires forall i :: i != iv ==> (i in timeframes <==> i in old(timeframes))
      requires forall i :: i != iv && i in timeframes ==>
                 timeframes[i] == old(timeframes[i]) && timeframes[i].Value() == old(timeframes[i].Value())
      requires forall k: (Interval, int) :: k.0 != iv ==> (k in building <==> k in old(building))
      requires forall k: (Interval, int) :: k.0 != iv && k in building ==>
                 building[k] == old(building[k]) && building[k].Value() == old(building[k].Value())
      requires forall i :: i != iv ==> (i in history <==> i in old(history))
      requires forall i :: i != iv && i in history ==> history[i] == old(history[i])
      ensures forall i :: i != iv ==> TrackOf(i) == old(TrackOf(i))
    {
      forall i | i != iv ensures TrackOf(i) == old(TrackOf(i)) {
        PendingIs(i, old(Pending(i)));
      }
    }

    constructor ()
      ensures Valid() && Bars() == {} && klineInterval == M1
      ensures forall iv :: TrackOf(iv) == FRESH_TRACK
    {
      klineInterval, klineClose, klineVolume, closedKline, lastPrice := M1, 0.0, 0.0, false, 0.0;
      timeframes, building, history := map[], map[], map[];
      new;
      forall iv ensures TrackOf(iv) == FRESH_TRACK {
        assert Buckets(iv) == {} && Pending(iv) == map[];
      }
    }

    method AppendToHistory(iv: Interval, bar: Bar)
      modifies this`history
      ensures var before := if iv in old(history) then old(history)[iv] else [];
              history == old(history)[iv := AppendHistory(before, bar.Value())]
    {
      var h := if iv in history then history[iv] else [];
      if |h| > 0 && h[|h| - 1].openTime == bar.openTime {
        h := h[..|h| - 1] + [bar.Value()];
      } else {
        h := h + [bar.Value()];
        if |h| > HISTORY_LENGTH {
          h := h[|h| - HISTORY_LENGTH..];
        }
      }
      history := history[iv := h];
    }

    // Pending bars are either untouched references or newly created objects.
    twostate predicate OnlyNewBars()
      reads `building
    {
      forall k :: k in building ==> (k in old(building) && building[k] == old(building[k])) || fresh(building[k])
    }

    // Shows an object that is not pending.
    method Show(bar: Bar)
      requires Valid() && bar !in building.Values
      modifies this`timeframes
      ensures Valid() && timeframes == old(timeframes)[bar.interval := bar]
      ensures Shared(bar.interval) == None && Pending(bar.interval) == old(Pending(bar.interval))
    {
      hide Bar.Value;
      timeframes := timeframes[bar.interval := bar];
      PendingIs(bar.interval, old(Pending(bar.interval)));
    }

    // Shows a new object and records its value.
    method ShowNew(src: Candle) returns (bar: Bar)
      requires Valid()
      modifies this`timeframes, this`history
      ensures Valid() && fresh(bar) && bar.Value() == src
      ensures timeframes == old(timeframes)[src.interval := bar]
      ensures var before := if src.interval in old(history) then old(history)[src.interval] else [];
              history == old(history)[src.interval := AppendHistory(before, src)]
      ensures Shared(src.interval) == None && Pending(src.interval) == old(Pending(src.interval))
    {
      hide AppendHistory, Bar.Value, Shared, Pending;
      bar := new Bar(src);
      Show(bar);
      AppendToHistory(src.interval, bar);
    }

    // The timeframe that equals the source interval shows a new bar each time.
    method RecordSourceBar(src: Candle)
      requires Valid() && !src.interval.Unknown?
      modifies this`timeframes, this`history
      ensures Valid()
      ensures TrackOf(src.interval) == Absorb(old(TrackOf(src.interval)), src.interval, src)
      ensures forall iv :: iv != src.interval ==> TrackOf(iv) == old(TrackOf(iv))
    {
      hide Millis, Bucket, Gather, AppendHistory, Bar.Value, Shared, Pending;
      var bar := ShowNew(src);
      OthersKept(src.interval);
    }

    // Files a new bar under a bucket that has none.
    method FilePending(iv: Interval, b: int, bar: Bar)
      requires Valid() && (iv, b) !in building && bar !in Bars()
      requires bar.interval == iv && bar.openTime == b
      modifies this`building
      ensures Valid() && building == old(building)[(iv, b) := bar]
      ensures Pending(iv) == old(Pending(iv))[b := bar.Value()] && Shared(iv) == old(Shared(iv))
    {
      hide Bar.Value;
      building := building[(iv, b) := bar];
      PendingIs(iv, old(Pending(iv))[b := bar.Value()]);
    }

    // The same, seen on all tracks.
    method File(iv: Interval, b: int, bar: Bar)
      requires Valid() && (iv, b) !in building && bar !in Bars()
      requires bar.interval == iv && bar.openTime == b
      modifies this`building
      ensures Valid() && building == old(building)[(iv, b) := bar]
      ensures TrackOf(iv) == old(TrackOf(iv)).(pending := old(Pending(iv))[b := bar.Value()])
      ensures forall other :: other != iv ==> TrackOf(other) == old(TrackOf(other))
    {
      hide Bar.Value, Pending, Shared;
      FilePending(iv, b, bar);
      OthersKept(iv);
    }

    // The first source bar of a bucket starts its pending bar.
    method OpenPending(iv: Interval, b: int, src: Candle)
      requires Valid() && !iv.Unknown? && (iv, b) !in building
      modifies this`building
      ensures Valid() && OnlyNewBars() && (iv, b) in building
      ensures TrackOf(iv) == Gather(old(TrackOf(iv)), iv, b, src)
      ensures forall other :: other != iv ==> TrackOf(other) == old(TrackOf(other))
    {
      hide Millis, Bucket, Merge, Bar.Value, Pending, TrackOf;
      var c := OpenBucket(src, iv, b);
      assert c.interval == iv && c.openTime == b;
      OpensPending(iv, b, src);
      hide OpenBucket, Gather;
      var bar := new Bar(c);
      File(iv, b, bar);
    }

    // Gathering into a bucket that is not pending files its first bar.
    lemma OpensPending(iv: Interval, b: int, src: Candle)
      requires !iv.Unknown? && (iv, b) !in building
      ensures Gather(TrackOf(iv), iv, b, src) == TrackOf(iv).(pending := Pending(iv)[b := OpenBucket(src, iv, b)])
    {
      hide Merge, OpenBucket, Bar.Value;
    }

    // A later source bar updates the pending bar in place, and with it the bar
    // on display when that is the same object.
    method MergePending(iv: Interval, b: int, src: Candle)
      requires Valid() && !iv.Unknown? && (iv, b) in building
      modifies building[(iv, b)]
      ensures Valid()
      ensures TrackOf(iv) == Gather(old(TrackOf(iv)), iv, b, src)
      ensures forall other :: other != iv ==> TrackOf(other) == old(TrackOf(other))
    {
      hide Millis, Bucket, Merge, OpenBucket, Bar.Value;
      var bar := building[(iv, b)];
      bar.Accumulate(src);
      PendingIs(iv, old(Pending(iv))[b := bar.Value()]);
      OthersKept(iv);
    }

    // Leaves the pending bar of bucket b as the only one of its timeframe.
    method DropStale(iv: Interval, b: int)
      requires Valid() && (iv, b) in building
      modifies this`building
      ensures Valid() && (iv, b) in building && building[(iv, b)] == old(building[(iv, b)])
      ensures forall k :: k in building ==> k in old(building) && building[k] == old(building[k])
      ensures Pending(iv) == map[b := building[(iv, b)].Value()]
      ensures forall other :: other != iv ==> TrackOf(other) == old(TrackOf(other))
    {
      hide Bar.Value;
      building := map k | k in building && (k.0 != iv || k == (iv, b)) :: building[k];
      PendingIs(iv, map[b := building[(iv, b)].Value()]);
      OthersKept(iv);
    }

    // Closes the bar of bucket b, shows that very object, records a copy of it,
    // and drops every other pending bucket of the timeframe.
    method PublishBucket(iv: Interval, b: int)
      requires Valid() && (iv, b) in building
      modifies this`timeframes, this`history, this`building, building[(iv, b)]
      ensures Valid()
      ensures forall k :: k in building ==> k in old(building) && building[k] == old(building[k])
      ensures b in old(Pending(iv)) && TrackOf(iv) == Publish(old(TrackOf(iv)), b)
      ensures forall other :: other != iv ==> TrackOf(other) == old(TrackOf(other))
    {
      hide AppendHistory, Bar.Value;
      var bar := building[(iv, b)];
      bar.Close();
      timeframes := timeframes[iv := bar];
      AppendToHistory(iv, bar);
      OthersKept(iv);
      DropStale(iv, b);
    }

    // A larger timeframe merges the source bar into its bucket's pending bar and
    // publishes that object when the bucket is complete.
    method FeedLarger(iv: Interval, src: Candle)
      requires Valid() && !iv.Unknown? && !src.interval.Unknown?
      requires Millis(iv) >= Millis(src.interval) && iv != src.interval
      modifies this`timeframes, this`history, this`building, building.Values
      ensures Valid() && OnlyNewBars()
      ensures TrackOf(iv) == Absorb(old(TrackOf(iv)), iv, src)
      ensures forall other :: other != iv ==> TrackOf(other) == old(TrackOf(other))
    {
      hide Millis, Bucket, Gather, Publish, Bar.Value, Pending, Shared;
      var b := Bucket(src.openTime, Millis(iv));
      if (iv, b) in building {
        MergePending(iv, b, src);
      } else {
        OpenPending(iv, b, src);
      }
      if src.closeTime >= b + Millis(iv) - 1 {
        PublishBucket(iv, b);
      }
    }

    // One source bar offered to one timeframe.
    method FeedTimeframe(iv: Interval, src: Candle)
      requires Valid() && !iv.Unknown? && !src.interval.Unknown?
      modifies this`timeframes, this`history, this`building, building.Values
      ensures Valid() && OnlyNewBars()
      ensures TrackOf(iv) == Absorb(old(TrackOf(iv)), iv, src)
      ensures forall other :: other != iv ==> TrackOf(other) == old(TrackOf(other))
    {
      hide Millis, Bucket, Gather, Publish, Bar.Value;
      if Millis(iv) >= Millis(src.interval) {
        if iv == src.interval {
          RecordSourceBar(src);
        } else {
          FeedLarger(iv, src);
        }
      }
    }

    // A missing interval or close keeps the one before.
    method RecordHeader(k: Kline)
      modifies `klineInterval, `klineClose, `klineVolume, `closedKline, `lastPrice
      ensures klineInterval == Get(k.interval, old(klineInterval)) && klineClose == Get(k.close, old(klineClose))
      ensures klineVolume == Get(k.volume, 0.0) && closedKline == Get(k.closed, false)
      ensures lastPrice == if klineClose != 0.0 then klineClose else old(lastPrice)
    {
      klineInterval := Get(k.interval, klineInterval);
      klineClose := Get(k.close, klineClose);
      klineVolume, closedKline := Get(k.volume, 0.0), Get(k.closed, false);
      lastPrice := if klineClose != 0.0 then klineClose else lastPrice;
    }

    // The kline message handler: header fields always, tracks only for a closed
    // kline of a known interval.
    method HandleKline(k: Kline)
      requires Valid()
      modifies this, building.Values
      ensures Valid() && OnlyNewBars()
      ensures klineInterval == Get(k.interval, old(klineInterval)) && klineClose == Get(k.close, old(klineClose))
      ensures klineVolume == Get(k.volume, 0.0) && closedKline == Get(k.closed, false)
      ensures lastPrice == if klineClose != 0.0 then klineClose else old(lastPrice)
      ensures var src := Delivered(k, old(klineInterval));
              forall iv :: TrackOf(iv) ==
                if src.Some? && iv in STREAM_TIMEFRAMES then Absorb(old(TrackOf(iv)), iv, src.value)
                    else old(TrackOf(iv))
    {
      hide Millis, Absorb, Bar.Value, SourceBar, Bucket, Gather, Publish, Pending, Shared, Valid;
      RecordHeader(k);
      if closedKline && !klineInterval.Unknown? {
        FeedAllTimeframes(SourceBar(k, klineInterval));
      }
    }

    method FeedAllTimeframes(src: Candle)
      requires Valid() && !src.interval.Unknown?
      modifies this`timeframes, this`history, this`building, building.Values
      ensures Valid() && OnlyNewBars()
      ensures forall iv :: TrackOf(iv) ==
                if iv in STREAM_TIMEFRAMES then Absorb(old(TrackOf(iv)), iv, src) else old(TrackOf(iv))
    {
      hide Millis, Absorb, Bar.Value, TrackOf, Valid;
      for n := 0 to |STREAM_TIMEFRAMES|
        invariant Valid() && OnlyNewBars()
        invariant forall iv :: TrackOf(iv) ==
                    if iv in STREAM_TIMEFRAMES[..n] then Absorb(old(TrackOf(iv)), iv, src) else old(TrackOf(iv))
      {
        assert STREAM_TIMEFRAMES[n] !in STREAM_TIMEFRAMES[..n];
        assert STREAM_TIMEFRAMES[..n + 1] == STREAM_TIMEFRAMES[..n] + [STREAM_TIMEFRAMES[n]];
        FeedTimeframe(STREAM_TIMEFRAMES[n], src);
      }
    }
  }

  // The source bars a sequence of messages delivers; `last` is the interval read before.
  function SourceBars(klines: seq<Kline>, last: Interval): (r: seq<Candle>)
    ensures forall i :: 0 <= i < |r| ==> !r[i].interval.Unknown?
  {
    if klines == [] then []
    else
      var p, k := klines[..|klines| - 1], klines[|klines| - 1];
      var src := Delivered(k, LastInterval(p, last));
      SourceBars(p, last) + if src.Some? then [src.value] else []
  }

  // The interval the messages leave in the header.
  function LastInterval(klines: seq<Kline>, last: Interval): Interval {
    if klines == [] then last else Get(klines[|klines| - 1].interval, LastInterval(klines[..|klines| - 1], last))
  }

  lemma RunAppend(feed: seq<Candle>, x: Candle, iv: Interval)
    requires !iv.Unknown? && !x.interval.Unknown? && forall i :: 0 <= i < |feed| ==> !feed[i].interval.Unknown?
    ensures Run(feed + [x], iv) == Absorb(Run(feed, iv), iv, x)
  {
    assert (feed + [x])[..|feed|] == feed;
  }

  lemma FirstMessages()
    ensures SourceBars([], M1) == [] && LastInterval([], M1) == M1
  {}

  // What one more message adds to the header and to the runs.
  lemma NextMessage(klines: seq<Kline>, n: nat, last: Interval)
    requires n < |klines|
    ensures var before, iv0 := SourceBars(klines[..n], last), LastInterval(klines[..n], last);
            var src := Delivered(klines[n], iv0);
            && LastInterval(klines[..n + 1], last) == Get(klines[n].interval, iv0)
            && forall iv: Interval :: !iv.Unknown? ==>
                 Run(SourceBars(klines[..n + 1], last), iv)
                 == if src.Some? then Absorb(Run(before, iv), iv, src.value) else Run(before, iv)
  {
    hide Absorb, Millis;
    assert klines[..n + 1][..n] == klines[..n];
    var before := SourceBars(klines[..n], last);
    var src := Delivered(klines[n], LastInterval(klines[..n], last));
    assert SourceBars(klines[..n + 1], last) == if src.Some? then before + [src.value] else before;
    hide SourceBars, Delivered;
    if src.Some? {
      forall iv: Interval | !iv.Unknown?
        ensures Run(before + [src.value], iv) == Absorb(Run(before, iv), iv, src.value) {
        RunAppend(before, src.value, iv);
      }
    }
  }

  // The receive loop on any messages: every timeframe's track is the run of the pure
  // step on the source bars they deliver, so everything proved about runs holds of the
  // store.
  method ReceiveAll(klines: seq<Kline>) returns (s: SymbolState)
    ensures fresh(s) && s.Valid()
    ensures forall iv :: iv in STREAM_TIMEFRAMES ==> s.TrackOf(iv) == Run(SourceBars(klines, M1), iv)
  {
    hide Millis, Absorb, Bar.Value, Delivered, SourceBars, LastInterval, SymbolState.TrackOf;
    FirstMessages();
    s := new SymbolState();
    for n := 0 to |klines|
      invariant fresh(s) && s.Valid() && forall k :: k in s.building ==> fresh(s.building[k])
      invariant s.klineInterval == LastInterval(klines[..n], M1)
      invariant forall iv :: iv in STREAM_TIMEFRAMES ==> s.TrackOf(iv) == Run(SourceBars(klines[..n], M1), iv)
    {
      NextMessage(klines, n, M1);
      s.HandleKline(klines[n]);
    }
    assert klines[..|klines|] == klines;
  }
}
