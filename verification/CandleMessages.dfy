// What the exchange's messages say, followed through the store: every shown, pending
// and recorded candle is one or a summary of them.
module CandleMessages {
  import opened Wrappers
  import opened Candles
  import opened CandleTheorems
  import opened CandleStore

  // --------------------------------------------------------------- well-formed bars

  // Open and close lie between low and high.
  predicate WellShaped(c: Candle) {
    c.low <= c.open <= c.high && c.low <= c.close <= c.high
  }

  predicate WellShapedMessage(k: Kline) {
    var open, high, low, close := Get(k.open, 0.0), Get(k.high, 0.0), Get(k.low, 0.0), Get(k.close, 0.0);
    low <= open <= high && low <= close <= high
  }

  ghost predicate WellShapedTrack(t: Track) {
    && (t.latest.Some? ==> WellShaped(t.latest.value))
    && (forall b :: b in t.pending ==> WellShaped(t.pending[b]))
    && forall i :: 0 <= i < |t.history| ==> WellShaped(t.history[i])
  }

  lemma AbsorbKeepsShape(t: Track, iv: Interval, x: Candle)
    requires !iv.Unknown? && !x.interval.Unknown? && WellShapedTrack(t) && WellShaped(x)
    ensures WellShapedTrack(Absorb(t, iv, x))
  {
    hide Millis, Bucket, Merge, OpenBucket, WellShaped;
    forall c: Candle, y: Candle | WellShaped(c) && WellShaped(y) ensures WellShaped(Merge(c, y)) {
      MergeKeepsShape(c, y);
    }
    forall b: int ensures WellShaped(OpenBucket(x, iv, b)) { OpenKeepsShape(x, iv, b); }
    forall c: Candle | WellShaped(c) ensures WellShaped(c.(closed := true)) { CloseKeepsShape(c); }
  }

  lemma MergeKeepsShape(c: Candle, y: Candle)
    requires WellShaped(c) && WellShaped(y)
    ensures WellShaped(Merge(c, y))
  {}

  lemma OpenKeepsShape(x: Candle, iv: Interval, b: int)
    requires WellShaped(x) && !iv.Unknown?
    ensures WellShaped(OpenBucket(x, iv, b))
  {}

  lemma CloseKeepsShape(c: Candle)
    requires WellShaped(c)
    ensures WellShaped(c.(closed := true))
  {}

  // After any well-formed messages, in any order, every candle of every track is
  // well-formed.
  lemma {:induction false} EveryCandleIsWellShaped(klines: seq<Kline>, iv: Interval)
    requires !iv.Unknown? && forall i :: 0 <= i < |klines| ==> WellShapedMessage(klines[i])
    ensures WellShapedTrack(Run(SourceBars(klines, M1), iv))
    decreases |klines|
  {
    hide Absorb, Millis, Delivered;
    if klines == [] {
      FirstMessages();
    } else {
      var n := |klines| - 1;
      EveryCandleIsWellShaped(klines[..n], iv);
      NextMessage(klines, n, M1);
      assert klines[..n + 1] == klines;
      var src := Delivered(klines[n], LastInterval(klines[..n], M1));
      if src.Some? {
        DeliversShape(klines[n], LastInterval(klines[..n], M1));
        AbsorbKeepsShape(Run(SourceBars(klines[..n], M1), iv), iv, src.value);
      }
    }
  }

  lemma DeliversShape(k: Kline, last: Interval)
    requires WellShapedMessage(k) && Delivered(k, last).Some?
    ensures WellShaped(Delivered(k, last).value)
  {
    hide Millis;
  }

  // ------------------------------------------------------ bars and their messages

  // The messages that are closed and of a known interval, and open in bucket b.
  function MessagesIn(klines: seq<Kline>, last: Interval, ms: nat, b: int): seq<Kline>
    requires ms > 0
  {
    if klines == [] then []
    else
      var p, k := klines[..|klines| - 1], klines[|klines| - 1];
      var iv := Get(k.interval, LastInterval(p, last));
      if k.closed == Some(true) && !iv.Unknown? && Bucket(Get(k.openTime, 0), ms) == b
      then MessagesIn(p, last, ms, b) + [k] else MessagesIn(p, last, ms, b)
  }

  // A sum over messages of a field, zero where it is missing.
  function Sum(ks: seq<Kline>, field: Kline -> Option<real>): real {
    if ks == [] then 0.0 else Sum(ks[..|ks| - 1], field) + Get(field(ks[|ks| - 1]), 0.0)
  }

  function Count(ks: seq<Kline>): int {
    if ks == [] then 0 else Count(ks[..|ks| - 1]) + Get(ks[|ks| - 1].tradeCount, 0)
  }

  function VolumeField(k: Kline): Option<real> { k.volume }
  function QuoteField(k: Kline): Option<real> { k.quoteVolume }
  function TakerBaseField(k: Kline): Option<real> { k.takerBase }
  function TakerQuoteField(k: Kline): Option<real> { k.takerQuote }

  // The candle says about price what the messages say together: the first open, the
  // largest high, the smallest low, the last close.
  ghost predicate PricesOf(c: Candle, ks: seq<Kline>) {
    && ks != []
    && c.open == Get(ks[0].open, 0.0) && c.close == Get(ks[|ks| - 1].close, 0.0)
    && (forall k :: k in ks ==> Get(k.high, 0.0) <= c.high && c.low <= Get(k.low, 0.0))
    && (exists k :: k in ks && Get(k.high, 0.0) == c.high)
    && (exists k :: k in ks && Get(k.low, 0.0) == c.low)
  }

  // And about volume their sums.
  predicate VolumesOf(c: Candle, ks: seq<Kline>) {
    && c.volume == Sum(ks, VolumeField) && c.quoteVolume == Sum(ks, QuoteField)
    && c.tradeCount == Count(ks)
    && c.takerBase == Sum(ks, TakerBaseField) && c.takerQuote == Sum(ks, TakerQuoteField)
  }

  ghost predicate Tells(c: Candle, ks: seq<Kline>) {
    PricesOf(c, ks) && VolumesOf(c, ks)
  }

  lemma OneMessage(k: Kline, iv: Interval)
    requires !iv.Unknown?
    ensures Tells(SourceBar(k, iv), [k])
  {
    hide Millis, Sum, Count;
    assert k in [k];
    SumOne(k, VolumeField);
    SumOne(k, QuoteField);
    SumOne(k, TakerBaseField);
    SumOne(k, TakerQuoteField);
    CountAppend([], k);
  }

  lemma SumOne(k: Kline, field: Kline -> Option<real>)
    ensures Sum([k], field) == Get(field(k), 0.0)
  {
    assert [k][..0] == [];
  }

  lemma CountAppend(ks: seq<Kline>, k: Kline)
    ensures Count(ks + [k]) == Count(ks) + Get(k.tradeCount, 0) && Count([k]) == Get(k.tradeCount, 0)
  {
    assert (ks + [k])[..|ks|] == ks && [k][..0] == [];
  }

  lemma MergeTells(c: Candle, ks: seq<Kline>, x: Candle, k: Kline)
    requires Tells(c, ks) && Tells(x, [k])
    ensures Tells(Merge(c, x), ks + [k])
  {
    MergePrices(c, ks, x, k);
    MergeVolumes(c, ks, x, k);
  }

  lemma MergePrices(c: Candle, ks: seq<Kline>, x: Candle, k: Kline)
    requires PricesOf(c, ks) && PricesOf(x, [k])
    ensures PricesOf(Merge(c, x), ks + [k])
  {
    var all := ks + [k];
    assert k in [k] && k in all;
    var h :| h in ks && Get(h.high, 0.0) == c.high;
    var l :| l in ks && Get(l.low, 0.0) == c.low;
    assert h in all && l in all;
  }

  lemma MergeVolumes(c: Candle, ks: seq<Kline>, x: Candle, k: Kline)
    requires VolumesOf(c, ks) && VolumesOf(x, [k])
    ensures VolumesOf(Merge(c, x), ks + [k])
  {
    SumAppend(ks, k, VolumeField);
    SumAppend(ks, k, QuoteField);
    SumAppend(ks, k, TakerBaseField);
    SumAppend(ks, k, TakerQuoteField);
    CountAppend(ks, k);
  }

  lemma SumAppend(ks: seq<Kline>, k: Kline, field: Kline -> Option<real>)
    ensures Sum(ks + [k], field) == Sum(ks, field) + Sum([k], field)
  {
    assert (ks + [k])[..|ks|] == ks && [k][..0] == [];
  }

  // The aggregate of the bars of a bucket tells what the bucket's messages say.
  lemma {:induction false} AggregateTells(klines: seq<Kline>, last: Interval, iv: Interval, b: int, closed: bool)
    requires !iv.Unknown?
    ensures var bars, ks := InBucket(SourceBars(klines, last), Millis(iv), b), MessagesIn(klines, last, Millis(iv), b);
            && |bars| == |ks|
            && (bars != [] ==> Tells(Aggregate(bars, iv, b, closed), ks))
    decreases |klines|
  {
    hide Millis, Bucket, Aggregate, Tells, SourceBar, Merge;
    if klines != [] {
      var p, k := klines[..|klines| - 1], klines[|klines| - 1];
      AggregateTells(p, last, iv, b, closed);
      var at := Get(k.interval, LastInterval(p, last));
      var bars, ks := InBucket(SourceBars(p, last), Millis(iv), b), MessagesIn(p, last, Millis(iv), b);
      DeliveredAt(k, LastInterval(p, last));
      BarsStep(klines, last, Millis(iv), b);
      if k.closed == Some(true) && !at.Unknown? {
        var x := SourceBar(k, at);
        OneMessage(k, at);
        if bars != [] {
          MergeTells(Aggregate(bars, iv, b, closed), ks, x, k);
          MergeIsAggregate(bars, x, iv, b, closed);
        } else {
          OneBarTells(x, k, iv, b, closed);
        }
        assert bars == [] ==> bars + [x] == [x] && ks + [k] == [k];
      }
    }
  }

  lemma DeliveredAt(k: Kline, last: Interval)
    ensures var at := Get(k.interval, last);
            && (Delivered(k, last).Some? <==> k.closed == Some(true) && !at.Unknown?)
            && (Delivered(k, last).Some? ==>
                  Delivered(k, last).value == SourceBar(k, at) && SourceBar(k, at).openTime == Get(k.openTime, 0))
  {
    hide Millis;
  }

  lemma BarsStep(klines: seq<Kline>, last: Interval, ms: nat, b: int)
    requires klines != [] && ms > 0
    ensures var p := klines[..|klines| - 1];
            var src := Delivered(klines[|klines| - 1], LastInterval(p, last));
            var bars := InBucket(SourceBars(p, last), ms, b);
            InBucket(SourceBars(klines, last), ms, b) ==
            if src.Some? && Bucket(src.value.openTime, ms) == b then bars + [src.value] else bars
  {
    hide Bucket, Delivered;
    var p := klines[..|klines| - 1];
    var before := SourceBars(p, last);
    var src := Delivered(klines[|klines| - 1], LastInterval(p, last));
    if src.Some? { assert (before + [src.value])[..|before|] == before; }
    assert before + [] == before;
  }

  lemma OneBarTells(x: Candle, k: Kline, iv: Interval, b: int, closed: bool)
    requires Tells(x, [k]) && !iv.Unknown?
    ensures Tells(Aggregate([x], iv, b, closed), [k])
  {
    hide Millis;
    assert [x][..0] == [] && Total([x]) == Totals(x.volume, x.quoteVolume, x.tradeCount, x.takerBase, x.takerQuote);
  }

  // On messages that deliver a good feed, every pending bar of a larger timeframe tells
  // what the messages of its bucket say so far, and every published bar tells what all
  // of them say.
  lemma CandlesTellTheirMessages(klines: seq<Kline>, src: Interval, iv: Interval)
    requires Derived(src, iv) && GoodFeed(SourceBars(klines, M1), src)
    ensures var t := Run(SourceBars(klines, M1), iv);
            forall b :: b in t.pending ==> Tells(t.pending[b], MessagesIn(klines, M1, Millis(iv), b))
    ensures forall bar :: bar in Published(SourceBars(klines, M1), src, iv) ==>
              bar.closed && Tells(bar, MessagesIn(klines, M1, Millis(iv), bar.openTime))
  {
    hide Millis, Aggregate, Tells, InBucket, MessagesIn, SourceBars, Complete, Run, GoodFeed;
    var feed := SourceBars(klines, M1);
    RunIsBatch(feed, src, iv);
    PublicationsAreFinal(feed, src, iv, |feed|);
    assert feed[..|feed|] == feed;
    var ms := Millis(iv);
    forall b, closed
      ensures InBucket(feed, ms, b) != [] ==>
                Tells(Aggregate(InBucket(feed, ms, b), iv, b, closed), MessagesIn(klines, M1, ms, b))
    {
      AggregateTells(klines, M1, iv, b, closed);
    }
    forall b ensures InBucket(feed, ms, b) != [] ==> Aggregate(InBucket(feed, ms, b), iv, b, true).closed {
      ClosedFlag(InBucket(feed, ms, b), iv, b);
    }
  }

  lemma ClosedFlag(s: seq<Candle>, iv: Interval, b: int)
    requires !iv.Unknown?
    ensures s != [] ==> Aggregate(s, iv, b, true).closed
  {}

  // The store's own objects after any well-formed messages.
  method ReceiveWellShaped(klines: seq<Kline>) returns (s: SymbolState)
    requires forall i :: 0 <= i < |klines| ==> WellShapedMessage(klines[i])
    ensures fresh(s) && s.Valid()
    ensures forall iv :: iv in STREAM_TIMEFRAMES ==> WellShapedTrack(s.TrackOf(iv))
  {
    hide SourceBars, Run;
    s := ReceiveAll(klines);
    forall iv | iv in STREAM_TIMEFRAMES ensures WellShapedTrack(s.TrackOf(iv)) {
      EveryCandleIsWellShaped(klines, iv);
    }
  }

  // One closed message of a streamed interval: the bar shown for it says what the message
  // says, with the message's times.
  method ReceiveOne(s: SymbolState, k: Kline)
    requires s.Valid()
    modifies s, s.building.Values
    ensures s.Valid()
    ensures var iv := Get(k.interval, old(s.klineInterval));
            k.closed == Some(true) && iv in STREAM_TIMEFRAMES && !iv.Unknown? ==>
              && iv in s.timeframes
              && var bar := s.timeframes[iv].Value();
                 && Tells(bar, [k]) && bar.closed && bar.interval == iv
                 && bar.openTime == Get(k.openTime, 0)
                 && bar.closeTime == Get(k.closeTime, bar.openTime + Millis(iv) - 1)
  {
    var iv := Get(k.interval, s.klineInterval);
    if k.closed == Some(true) && !iv.Unknown? {
      OneMessage(k, iv);
      ShowsSource(SourceBar(k, iv));
      DeliveredAt(k, s.klineInterval);
    }
    hide Absorb, Tells, Millis, Delivered;
    s.HandleKline(k);
    if k.closed == Some(true) && !iv.Unknown? && iv in STREAM_TIMEFRAMES {
      assert s.TrackOf(iv).latest == Some(SourceBar(k, iv));
    }
  }

  lemma ShowsSource(x: Candle)
    requires !x.interval.Unknown?
    ensures forall t: Track :: Absorb(t, x.interval, x).latest == Some(x)
  {
    hide AppendHistory, Gather, Publish, Bucket;
  }
}
