// What every feed leaves behind: the streaming tracks equal the batch form,
// publications are final, and closed bars of different timeframes agree.
module CandleTheorems {
  import opened Wrappers
  import opened Candles
  import opened BucketArithmetic

  // ------------------------------------------------- streaming equals batch

  // A bucket is live when it has source bars and no later bucket is complete.
  ghost predicate Live(feed: seq<Candle>, src: Interval, ms: nat, b: int)
    requires !src.Unknown? && ms > 0
  {
    InBucket(feed, ms, b) != [] && forall c :: Complete(feed, src, ms, c) ==> c <= b
  }

  // The live buckets, and only they, are pending, each holding its aggregate.
  ghost predicate PendingIsBatch(pending: map<int, Candle>, feed: seq<Candle>, src: Interval, iv: Interval)
    requires Derived(src, iv)
  {
    var ms := Millis(iv);
    && (forall b :: b in pending <==> Live(feed, src, ms, b))
    && (forall b :: b in pending ==>
          InBucket(feed, ms, b) != []
          && pending[b] == Aggregate(InBucket(feed, ms, b), iv, b, Complete(feed, src, ms, b)))
  }

  // The history is the last 300 published bars; the latest bar is the last of
  // them, shared with its pending bucket, and no complete bucket is newer.
  ghost predicate ShownIsBatch(t: Track, feed: seq<Candle>, src: Interval, iv: Interval)
    requires Derived(src, iv)
  {
    var ms, pub := Millis(iv), Published(feed, src, iv);
    && t.history == LastN(pub, HISTORY_LENGTH)
    && if pub == [] then
      t.latest == None && t.shared == None && forall b :: !Complete(feed, src, ms, b)
    else
      var last := pub[|pub| - 1];
      && t.latest == Some(last) && t.shared == Some(last.openTime)
      && Complete(feed, src, ms, last.openTime)
      && forall b :: Complete(feed, src, ms, b) ==> b <= last.openTime
  }

  lemma {:induction false} InBucketMembers(feed: seq<Candle>, ms: nat, b: int)
    requires ms > 0
    ensures forall c :: c in InBucket(feed, ms, b) ==> c in feed && Bucket(c.openTime, ms) == b
  {
    hide Bucket;
    if feed != [] {
      InBucketMembers(feed[..|feed| - 1], ms, b);
    }
  }

  lemma GoodPrefix(feed: seq<Candle>, src: Interval, n: nat)
    requires !src.Unknown? && GoodFeed(feed, src) && n <= |feed|
    ensures GoodFeed(feed[..n], src)
  {}

  // Everything received so far opens before the next bar, in no later a bucket.
  lemma EarlierBuckets(feed: seq<Candle>, src: Interval, ms: nat)
    requires !src.Unknown? && GoodFeed(feed, src) && feed != [] && ms > 0
    ensures forall c :: c in feed[..|feed| - 1] ==>
                c.openTime < feed[|feed| - 1].openTime
                && Bucket(c.openTime, ms) <= Bucket(feed[|feed| - 1].openTime, ms)
  {
    hide Bucket, Millis;
    forall c | c in feed[..|feed| - 1]
      ensures c.openTime < feed[|feed| - 1].openTime
              && Bucket(c.openTime, ms) <= Bucket(feed[|feed| - 1].openTime, ms)
    {
      BucketMonotone(c.openTime, feed[|feed| - 1].openTime, ms);
    }
  }

  // The newest bar never opens inside a bucket that was complete before it.
  lemma NewestIsNotLate(feed: seq<Candle>, src: Interval, iv: Interval)
    requires Derived(src, iv) && GoodFeed(feed, src) && feed != []
    ensures var p, ms := feed[..|feed| - 1], Millis(iv);
            forall b :: Complete(p, src, ms, b) ==> b < Bucket(feed[|feed| - 1].openTime, ms)
  {
    hide Bucket, Millis;
    var ms, p, x := Millis(iv), feed[..|feed| - 1], feed[|feed| - 1];
    EarlierBuckets(feed, src, ms);
    forall b | Complete(p, src, ms, b) ensures b < Bucket(x.openTime, ms) {
      var c :| c in feed[..|feed| - 1] && Bucket(c.openTime, ms) == b && Completes(c, src, ms);
      SubBarFits(x.openTime, Millis(src), ms);
      BucketBounds(x.openTime, ms);
    }
  }

  lemma CompleteStep(feed: seq<Candle>, src: Interval, ms: nat, b: int)
    requires !src.Unknown? && ms > 0 && feed != []
    ensures Complete(feed, src, ms, b) <==>
                Complete(feed[..|feed| - 1], src, ms, b)
                || (Bucket(feed[|feed| - 1].openTime, ms) == b && Completes(feed[|feed| - 1], src, ms))
  {
    hide Bucket, Millis;
    var p := feed[..|feed| - 1];
    assert feed == p + [feed[|feed| - 1]];
    if Complete(p, src, ms, b) {
      var c :| c in p && Bucket(c.openTime, ms) == b && Completes(c, src, ms);
      assert c in feed;
    }
    if Complete(feed, src, ms, b) {
      var c :| c in feed && Bucket(c.openTime, ms) == b && Completes(c, src, ms);
      assert c in p || c == feed[|feed| - 1];
    }
  }

  // Merging the next bar into an aggregate aggregates one bar more.
  lemma MergeIsAggregate(s: seq<Candle>, x: Candle, iv: Interval, b: int, closed: bool)
    requires s != [] && !iv.Unknown?
    ensures Merge(Aggregate(s, iv, b, closed), x) == Aggregate(s + [x], iv, b, closed)
  {
    assert (s + [x])[..|s|] == s;
  }

  lemma OpenIsAggregate(x: Candle, iv: Interval, b: int)
    requires !iv.Unknown?
    ensures OpenBucket(x, iv, b) == Aggregate([x], iv, b, false)
  {
    assert [x][..0] == [];
    assert Total([x]) == Totals(x.volume, x.quoteVolume, x.tradeCount, x.takerBase, x.takerQuote);
  }

  // The newest bar's bucket was not complete, so it is live exactly when it had bars.
  lemma NewestIsOpen(feed: seq<Candle>, src: Interval, iv: Interval)
    requires Derived(src, iv) && GoodFeed(feed, src) && feed != []
    ensures var p, x, ms := feed[..|feed| - 1], feed[|feed| - 1], Millis(iv);
            var b := Bucket(x.openTime, ms);
            && !Complete(p, src, ms, b) && (Live(p, src, ms, b) <==> InBucket(p, ms, b) != [])
            && InBucket(feed, ms, b) == InBucket(p, ms, b) + [x]
  {
    hide Bucket, Millis, Complete, GoodFeed;
    NewestIsNotLate(feed, src, iv);
  }

  // The pending bar of the newest bar's bucket, before closing, is the batch aggregate.
  lemma NewestBucket(t: Track, feed: seq<Candle>, src: Interval, iv: Interval)
    requires Derived(src, iv) && GoodFeed(feed, src) && feed != []
    requires PendingIsBatch(t.pending, feed[..|feed| - 1], src, iv) && ShownIsBatch(t, feed[..|feed| - 1], src, iv)
    ensures var x := feed[|feed| - 1];
            var b := Bucket(x.openTime, Millis(iv));
            InBucket(feed, Millis(iv), b) != []
            && !Complete(feed[..|feed| - 1], src, Millis(iv), b)
            && Aggregate(InBucket(feed, Millis(iv), b), iv, b, false)
               == if b in t.pending then Merge(t.pending[b], x) else OpenBucket(x, iv, b)
  {
    hide Bucket, Millis, Complete, GoodFeed, InBucket, Live, Aggregate, Merge, OpenBucket, ShownIsBatch;
    var ms, p, x := Millis(iv), feed[..|feed| - 1], feed[|feed| - 1];
    var b := Bucket(x.openTime, ms);
    NewestIsOpen(feed, src, iv);
    if b in t.pending {
      MergeIsAggregate(InBucket(p, ms, b), x, iv, b, false);
    } else {
      assert InBucket(feed, ms, b) == [x];
      OpenIsAggregate(x, iv, b);
    }
  }

  lemma OtherBucket(feed: seq<Candle>, ms: nat, c: int)
    requires ms > 0 && feed != [] && c != Bucket(feed[|feed| - 1].openTime, ms)
    ensures InBucket(feed, ms, c) == InBucket(feed[..|feed| - 1], ms, c)
  {}

  lemma OpenCompletesNothing(feed: seq<Candle>, src: Interval, ms: nat)
    requires !src.Unknown? && ms > 0 && feed != []
    requires !Completes(feed[|feed| - 1], src, ms)
    ensures var p := feed[..|feed| - 1];
            forall c :: Complete(feed, src, ms, c) <==> Complete(p, src, ms, c)
  {
    hide Bucket, Complete;
    forall c ensures Complete(feed, src, ms, c) <==> Complete(feed[..|feed| - 1], src, ms, c) {
      CompleteStep(feed, src, ms, c);
    }
  }

  lemma LiveAfterOpen(feed: seq<Candle>, src: Interval, iv: Interval, c: int)
    requires Derived(src, iv) && GoodFeed(feed, src) && feed != []
    requires !Completes(feed[|feed| - 1], src, Millis(iv))
    requires InBucket(feed, Millis(iv), Bucket(feed[|feed| - 1].openTime, Millis(iv))) != []
    ensures Live(feed, src, Millis(iv), c) <==>
                c == Bucket(feed[|feed| - 1].openTime, Millis(iv)) || Live(feed[..|feed| - 1], src, Millis(iv), c)
  {
    hide Bucket, Millis, Completes, InBucket, Complete, GoodFeed;
    NewestIsNotLate(feed, src, iv);
    OpenCompletesNothing(feed, src, Millis(iv));
    if c != Bucket(feed[|feed| - 1].openTime, Millis(iv)) {
      OtherBucket(feed, Millis(iv), c);
    }
  }

  // A bar that does not complete its bucket updates exactly that pending bar.
  lemma PendingStepOpen(pending: map<int, Candle>, feed: seq<Candle>, src: Interval, iv: Interval)
    requires Derived(src, iv) && GoodFeed(feed, src) && feed != []
    requires PendingIsBatch(pending, feed[..|feed| - 1], src, iv)
    requires !Completes(feed[|feed| - 1], src, Millis(iv))
    requires InBucket(feed, Millis(iv), Bucket(feed[|feed| - 1].openTime, Millis(iv))) != []
    ensures var b := Bucket(feed[|feed| - 1].openTime, Millis(iv));
            PendingIsBatch(pending[b := Aggregate(InBucket(feed, Millis(iv), b), iv, b, false)], feed, src, iv)
  {
    hide Bucket, Millis, Aggregate, Completes, InBucket, Complete, GoodFeed, Live;
    var ms, p := Millis(iv), feed[..|feed| - 1];
    var b := Bucket(feed[|feed| - 1].openTime, ms);
    NewestIsNotLate(feed, src, iv);
    OpenCompletesNothing(feed, src, ms);
    forall c ensures Live(feed, src, ms, c) <==> c == b || Live(p, src, ms, c) {
      LiveAfterOpen(feed, src, iv, c);
    }
    forall c | c != b ensures InBucket(feed, ms, c) == InBucket(p, ms, c) {
      OtherBucket(feed, ms, c);
    }
  }

  lemma BatchStepOpen(t: Track, feed: seq<Candle>, src: Interval, iv: Interval)
    requires Derived(src, iv) && GoodFeed(feed, src) && feed != []
    requires PendingIsBatch(t.pending, feed[..|feed| - 1], src, iv) && ShownIsBatch(t, feed[..|feed| - 1], src, iv)
    requires !Completes(feed[|feed| - 1], src, Millis(iv))
    ensures PendingIsBatch(Absorb(t, iv, feed[|feed| - 1]).pending, feed, src, iv)
    ensures ShownIsBatch(Absorb(t, iv, feed[|feed| - 1]), feed, src, iv)
  {
    hide Bucket, Millis, Aggregate, InBucket, PendingIsBatch, Merge, OpenBucket;
    var ms, p, x := Millis(iv), feed[..|feed| - 1], feed[|feed| - 1];
    var b := Bucket(x.openTime, ms);
    NewestBucket(t, feed, src, iv);
    NewestIsNotLate(feed, src, iv);
    SubBarFits(x.openTime, Millis(src), ms);
    PendingStepOpen(t.pending, feed, src, iv);
    OpenCompletesNothing(feed, src, ms);
    assert t.shared != Some(b);
    assert Published(feed, src, iv) == Published(p, src, iv);
  }

  // No source bar has a bucket after the newest bar's.
  lemma NothingAfterNewest(feed: seq<Candle>, src: Interval, ms: nat, c: int)
    requires !src.Unknown? && GoodFeed(feed, src) && feed != [] && ms > 0
    requires InBucket(feed, ms, c) != []
    ensures c <= Bucket(feed[|feed| - 1].openTime, ms)
  {
    hide Bucket, GoodFeed;
    var p, x := feed[..|feed| - 1], feed[|feed| - 1];
    EarlierBuckets(feed, src, ms);
    InBucketMembers(feed, ms, c);
    var y := InBucket(feed, ms, c)[0];
    assert y in InBucket(feed, ms, c) && feed == p + [x];
  }

  // A completing bar makes its bucket the newest complete one.
  lemma CompletesNewest(feed: seq<Candle>, src: Interval, iv: Interval)
    requires Derived(src, iv) && GoodFeed(feed, src) && feed != []
    requires Completes(feed[|feed| - 1], src, Millis(iv))
    ensures var b := Bucket(feed[|feed| - 1].openTime, Millis(iv));
            Complete(feed, src, Millis(iv), b)
            && forall c :: Complete(feed, src, Millis(iv), c) ==> c <= b
  {
    hide Bucket, Millis, Completes, Complete, GoodFeed;
    var ms := Millis(iv);
    NewestIsNotLate(feed, src, iv);
    forall c ensures Complete(feed, src, ms, c) <==>
        Complete(feed[..|feed| - 1], src, ms, c) || c == Bucket(feed[|feed| - 1].openTime, ms) {
      CompleteStep(feed, src, ms, c);
    }
  }

  lemma LiveAfterClose(feed: seq<Candle>, src: Interval, iv: Interval, c: int)
    requires Derived(src, iv) && GoodFeed(feed, src) && feed != []
    requires Completes(feed[|feed| - 1], src, Millis(iv))
    requires InBucket(feed, Millis(iv), Bucket(feed[|feed| - 1].openTime, Millis(iv))) != []
    ensures Live(feed, src, Millis(iv), c) <==> c == Bucket(feed[|feed| - 1].openTime, Millis(iv))
  {
    hide Bucket, Millis, Completes, Complete, GoodFeed, InBucket;
    CompletesNewest(feed, src, iv);
    if Live(feed, src, Millis(iv), c) {
      NothingAfterNewest(feed, src, Millis(iv), c);
    }
  }

  // A completing bar leaves its own bucket as the only pending one.
  lemma PendingStepClose(feed: seq<Candle>, src: Interval, iv: Interval)
    requires Derived(src, iv) && GoodFeed(feed, src) && feed != []
    requires Completes(feed[|feed| - 1], src, Millis(iv))
    requires InBucket(feed, Millis(iv), Bucket(feed[|feed| - 1].openTime, Millis(iv))) != []
    ensures var b := Bucket(feed[|feed| - 1].openTime, Millis(iv));
            PendingIsBatch(map[b := Aggregate(InBucket(feed, Millis(iv), b), iv, b, true)], feed, src, iv)
  {
    hide Bucket, Millis, Aggregate, Completes, Complete, GoodFeed, InBucket, Live;
    CompletesNewest(feed, src, iv);
    forall c ensures Live(feed, src, Millis(iv), c) <==> c == Bucket(feed[|feed| - 1].openTime, Millis(iv)) {
      LiveAfterClose(feed, src, iv, c);
    }
  }

  // What a completing bar makes of the track.
  lemma AbsorbsClose(t: Track, feed: seq<Candle>, src: Interval, iv: Interval)
    requires Derived(src, iv) && GoodFeed(feed, src) && feed != []
    requires PendingIsBatch(t.pending, feed[..|feed| - 1], src, iv) && ShownIsBatch(t, feed[..|feed| - 1], src, iv)
    requires Completes(feed[|feed| - 1], src, Millis(iv))
    ensures var b := Bucket(feed[|feed| - 1].openTime, Millis(iv));
            InBucket(feed, Millis(iv), b) != [] &&
            var done := Aggregate(InBucket(feed, Millis(iv), b), iv, b, true);
            Absorb(t, iv, feed[|feed| - 1])
            == Track(Some(done), Some(b), map[b := done], AppendHistory(t.history, done))
  {
    hide Bucket, Millis, InBucket, PendingIsBatch, ShownIsBatch, Merge, OpenBucket, AppendHistory;
    NewestBucket(t, feed, src, iv);
  }

  lemma BatchStepClose(t: Track, feed: seq<Candle>, src: Interval, iv: Interval)
    requires Derived(src, iv) && GoodFeed(feed, src) && feed != []
    requires PendingIsBatch(t.pending, feed[..|feed| - 1], src, iv) && ShownIsBatch(t, feed[..|feed| - 1], src, iv)
    requires Completes(feed[|feed| - 1], src, Millis(iv))
    ensures PendingIsBatch(Absorb(t, iv, feed[|feed| - 1]).pending, feed, src, iv)
    ensures ShownIsBatch(Absorb(t, iv, feed[|feed| - 1]), feed, src, iv)
  {
    hide Bucket, Millis, InBucket, PendingIsBatch, Absorb, AppendHistory, GoodFeed, Complete;
    var ms, x := Millis(iv), feed[|feed| - 1];
    var b := Bucket(x.openTime, ms);
    AbsorbsClose(t, feed, src, iv);
    PendingStepClose(feed, src, iv);
    CompletesNewest(feed, src, iv);
    HistoryStep(t, feed, src, iv, Aggregate(InBucket(feed, ms, b), iv, b, true));
  }

  lemma HistoryStep(t: Track, feed: seq<Candle>, src: Interval, iv: Interval, done: Candle)
    requires Derived(src, iv) && GoodFeed(feed, src) && feed != []
    requires PendingIsBatch(t.pending, feed[..|feed| - 1], src, iv) && ShownIsBatch(t, feed[..|feed| - 1], src, iv)
    requires Completes(feed[|feed| - 1], src, Millis(iv))
    requires done.openTime == Bucket(feed[|feed| - 1].openTime, Millis(iv))
    ensures AppendHistory(t.history, done)
            == LastN(Published(feed[..|feed| - 1], src, iv) + [done], HISTORY_LENGTH)
  {
    hide Bucket, Millis;
    var pub := Published(feed[..|feed| - 1], src, iv);
    NewestIsNotLate(feed, src, iv);
    if pub != [] {
      assert t.history[|t.history| - 1] == pub[|pub| - 1];
    }
    LastNAppend(pub, done, HISTORY_LENGTH);
  }

  lemma NothingIsBatch(src: Interval, iv: Interval)
    requires Derived(src, iv)
    ensures PendingIsBatch(Run([], iv).pending, [], src, iv) && ShownIsBatch(Run([], iv), [], src, iv)
  {
    hide Bucket, Millis, Absorb;
  }

  // On every good feed, gaps or not, the streamed track is the batch one.
  lemma {:induction false} RunIsBatch(feed: seq<Candle>, src: Interval, iv: Interval)
    requires Derived(src, iv) && GoodFeed(feed, src)
    ensures PendingIsBatch(Run(feed, iv).pending, feed, src, iv)
    ensures ShownIsBatch(Run(feed, iv), feed, src, iv)
    decreases |feed|
  {
    hide Bucket, Millis, Absorb, Completes, PendingIsBatch, ShownIsBatch;
    if feed == [] {
      NothingIsBatch(src, iv);
    } else {
      var p := feed[..|feed| - 1];
      GoodPrefix(feed, src, |feed| - 1);
      RunIsBatch(p, src, iv);
      if Completes(feed[|feed| - 1], src, Millis(iv)) {
        BatchStepClose(Run(p, iv), feed, src, iv);
      } else {
        BatchStepOpen(Run(p, iv), feed, src, iv);
      }
    }
  }

  // ------------------------------------------------- publications are final

  lemma {:induction false} CompleteIsFinal(feed: seq<Candle>, src: Interval, iv: Interval, n: nat, b: int)
    requires Derived(src, iv) && GoodFeed(feed, src) && n <= |feed|
    requires Complete(feed[..n], src, Millis(iv), b)
    ensures Complete(feed, src, Millis(iv), b)
    ensures InBucket(feed, Millis(iv), b) == InBucket(feed[..n], Millis(iv), b)
    decreases |feed|
  {
    hide Bucket, Millis, Complete;
    if n == |feed| {
      assert feed[..n] == feed;
    } else {
      var p := feed[..|feed| - 1];
      assert p[..n] == feed[..n];
      GoodPrefix(feed, src, |feed| - 1);
      CompleteIsFinal(p, src, iv, n, b);
      CompleteStep(feed, src, Millis(iv), b);
      NewestIsNotLate(feed, src, iv);
      OtherBucket(feed, Millis(iv), b);
    }
  }

  // Bars once published stay in the publication list, and each one already
  // aggregates every bar of its bucket that the whole feed will ever deliver.
  lemma {:induction false} PublicationsAreFinal(feed: seq<Candle>, src: Interval, iv: Interval, n: nat)
    requires Derived(src, iv) && GoodFeed(feed, src) && n <= |feed|
    ensures Published(feed[..n], src, iv) <= Published(feed, src, iv)
    ensures forall bar :: bar in Published(feed[..n], src, iv) ==>
                Complete(feed[..n], src, Millis(iv), bar.openTime)
                && InBucket(feed, Millis(iv), bar.openTime) != []
                && bar == Aggregate(InBucket(feed, Millis(iv), bar.openTime), iv, bar.openTime, true)
    decreases |feed|, n
  {
    hide Bucket, Millis, Complete, Completes;
    if n == 0 {
      assert feed[..0] == [];
    } else if n < |feed| {
      var p := feed[..|feed| - 1];
      assert p[..n] == feed[..n];
      GoodPrefix(feed, src, |feed| - 1);
      PublicationsAreFinal(p, src, iv, n);
      forall bar | bar in Published(feed[..n], src, iv)
        ensures InBucket(feed, Millis(iv), bar.openTime) == InBucket(p, Millis(iv), bar.openTime)
      {
        CompleteIsFinal(feed, src, iv, n, bar.openTime);
        CompleteIsFinal(p, src, iv, n, bar.openTime);
      }
    } else {
      assert feed[..n] == feed;
      NewestPublication(feed, src, iv);
    }
  }

  lemma {:induction false} NewestPublication(feed: seq<Candle>, src: Interval, iv: Interval)
    requires Derived(src, iv) && GoodFeed(feed, src) && feed != []
    ensures forall bar :: bar in Published(feed, src, iv) ==>
                Complete(feed, src, Millis(iv), bar.openTime)
                && InBucket(feed, Millis(iv), bar.openTime) != []
                && bar == Aggregate(InBucket(feed, Millis(iv), bar.openTime), iv, bar.openTime, true)
    decreases |feed|
  {
    hide Bucket, Millis, Complete;
    var p, x := feed[..|feed| - 1], feed[|feed| - 1];
    GoodPrefix(feed, src, |feed| - 1);
    if p != [] { NewestPublication(p, src, iv); }
    forall bar | bar in Published(p, src, iv)
      ensures Complete(feed, src, Millis(iv), bar.openTime)
              && InBucket(feed, Millis(iv), bar.openTime) == InBucket(p, Millis(iv), bar.openTime)
    {
      CompleteIsFinal(feed, src, iv, |feed| - 1, bar.openTime);
    }
    CompleteStep(feed, src, Millis(iv), Bucket(x.openTime, Millis(iv)));
  }

  // After any number of bars the bar on display equals the aggregate of its
  // bucket over the whole feed: sharing the object with the pending dictionary
  // never lets a later bar change it.
  lemma ShownBarIsNeverMutated(feed: seq<Candle>, src: Interval, iv: Interval, n: nat)
    requires Derived(src, iv) && GoodFeed(feed, src) && n <= |feed|
    ensures var t := Run(feed[..n], iv);
            t.latest.Some? ==>
              var b := t.latest.value.openTime;
              && t.shared == Some(b) && b in t.pending && t.pending[b] == t.latest.value
              && InBucket(feed, Millis(iv), b) != []
              && t.latest.value == Aggregate(InBucket(feed, Millis(iv), b), iv, b, true)
  {
    hide Bucket, Millis, Complete, Aggregate, InBucket, Absorb;
    GoodPrefix(feed, src, n);
    RunIsBatch(feed[..n], src, iv);
    PublicationsAreFinal(feed, src, iv, n);
    var t := Run(feed[..n], iv);
    if t.latest.Some? {
      var b := t.latest.value.openTime;
      assert t.latest.value in Published(feed[..n], src, iv);
      CompleteIsFinal(feed, src, iv, n, b);
      assert Live(feed[..n], src, Millis(iv), b);
    }
  }

  // Publication order is time order, so a history never repeats an open time.
  lemma {:induction false} PublishedIncreasing(feed: seq<Candle>, src: Interval, iv: Interval)
    requires Derived(src, iv) && GoodFeed(feed, src)
    ensures forall i, j :: 0 <= i < j < |Published(feed, src, iv)| ==>
                Published(feed, src, iv)[i].openTime < Published(feed, src, iv)[j].openTime
    decreases |feed|
  {
    hide Bucket, Millis, Complete, Completes;
    if feed != [] {
      var p := feed[..|feed| - 1];
      GoodPrefix(feed, src, |feed| - 1);
      PublishedIncreasing(p, src, iv);
      if p != [] { NewestPublication(p, src, iv); }
      NewestIsNotLate(feed, src, iv);
      forall i | 0 <= i < |Published(p, src, iv)|
        ensures Published(p, src, iv)[i].openTime < Bucket(feed[|feed| - 1].openTime, Millis(iv))
      {
        assert Published(p, src, iv)[i] in Published(p, src, iv);
      }
    }
  }

  lemma HistoryIsRecentAndIncreasing(feed: seq<Candle>, src: Interval, iv: Interval)
    requires Derived(src, iv) && GoodFeed(feed, src)
    ensures var h := Run(feed, iv).history;
            && h == LastN(Published(feed, src, iv), 300)
            && |h| <= 300
            && forall i, j :: 0 <= i < j < |h| ==> h[i].openTime < h[j].openTime
  {
    hide Bucket, Millis, Complete, Completes, Absorb;
    RunIsBatch(feed, src, iv);
    PublishedIncreasing(feed, src, iv);
  }

  // The timeframe that equals the source interval just records the feed.
  lemma {:induction false} SourceTimeframeRecordsFeed(feed: seq<Candle>, src: Interval)
    requires !src.Unknown? && GoodFeed(feed, src)
    ensures Run(feed, src) == Track(if feed == [] then None else Some(feed[|feed| - 1]), None, map[],
                                    LastN(feed, HISTORY_LENGTH))
    decreases |feed|
  {
    hide Bucket, Millis, Gather, Publish, AppendHistory;
    if feed != [] {
      var p := feed[..|feed| - 1];
      GoodPrefix(feed, src, |feed| - 1);
      SourceTimeframeRecordsFeed(p, src);
      assert feed == p + [feed[|feed| - 1]];
      RecordsNext(p, feed[|feed| - 1]);
    }
  }

  // A bar with a new open time is appended to the window.
  lemma RecordsNext(p: seq<Candle>, x: Candle)
    requires p != [] ==> p[|p| - 1].openTime != x.openTime
    ensures AppendHistory(LastN(p, HISTORY_LENGTH), x) == LastN(p + [x], HISTORY_LENGTH)
  {
    LastNAppend(p, x, HISTORY_LENGTH);
  }

  // --------------------------------------------------- bars that are not next

  // A track that shows its shared object.
  predicate ShowsShared(t: Track) {
    t.shared.Some? ==> t.shared.value in t.pending && t.latest == Some(t.pending[t.shared.value])
  }

  // The pending bar of bucket b with x in it.
  function Gathered(t: Track, iv: Interval, b: int, x: Candle): Candle
    requires !iv.Unknown?
  {
    if b in t.pending then Merge(t.pending[b], x) else OpenBucket(x, iv, b)
  }

  // A bar changes the displayed bar exactly by publishing another one or by really
  // changing the pending bar of the bucket whose object is on display.
  lemma OnlyLateBarsMutate(t: Track, iv: Interval, x: Candle)
    requires !iv.Unknown? && !x.interval.Unknown? && Millis(x.interval) <= Millis(iv) && iv != x.interval
             && ShowsShared(t)
    ensures var u, b := Absorb(t, iv, x), Bucket(x.openTime, Millis(iv));
            u.latest != t.latest <==>
              if x.closeTime >= b + Millis(iv) - 1
              then t.latest != Some(Gathered(t, iv, b, x).(closed := true))
              else t.shared == Some(b) && Merge(t.pending[b], x) != t.pending[b]
  {
    hide Bucket, Millis, Merge, OpenBucket, AppendHistory;
  }

  // A closed bar of the source interval, aligned, at any time.
  predicate AlignedBar(x: Candle, src: Interval)
    requires !src.Unknown?
  {
    x.interval == src && x.closed && x.openTime % Millis(src) == 0 && x.closeTime == x.openTime + Millis(src) - 1
  }

  // Nothing shown has changed, or one newer bar has been published, which aggregates
  // everything received in its bucket and is the next entry of the history.
  ghost predicate StaysRight(t: Track, u: Track, feed: seq<Candle>, iv: Interval)
    requires !iv.Unknown?
  {
    || (u.latest == t.latest && u.history == t.history)
    || (&& u.latest.Some?
        && var bar := u.latest.value;
           && (t.latest.Some? ==> t.latest.value.openTime < bar.openTime)
           && InBucket(feed, Millis(iv), bar.openTime) != []
           && bar == Aggregate(InBucket(feed, Millis(iv), bar.openTime), iv, bar.openTime, true)
           && u.history == LastN(t.history + [bar], HISTORY_LENGTH))
  }

  // The bar changes the bucket on display, or completes an earlier one.
  predicate Disturbs(t: Track, iv: Interval, src: Interval, x: Candle)
    requires !src.Unknown? && !iv.Unknown?
  {
    t.latest.Some? &&
    var b, shown := Bucket(x.openTime, Millis(iv)), t.latest.value.openTime;
    (b == shown && Merge(t.latest.value, x) != t.latest.value) || (b < shown && Completes(x, src, Millis(iv)))
  }

  // What a good feed leaves on display, in one place.
  lemma ShownFacts(feed: seq<Candle>, src: Interval, iv: Interval)
    requires Derived(src, iv) && GoodFeed(feed, src)
    ensures var t := Run(feed, iv);
            if t.latest.None? then
              t.shared == None && t.history == [] && forall b :: !Complete(feed, src, Millis(iv), b)
            else
              var b := t.latest.value.openTime;
              && t.shared == Some(b) && b in t.pending && t.pending[b] == t.latest.value && t.latest.value.closed
              && t.history != [] && t.history[|t.history| - 1] == t.latest.value
              && forall c :: Complete(feed, src, Millis(iv), c) ==> c <= b
  {
    hide Bucket, Millis, Complete, InBucket, Absorb;
    RunIsBatch(feed, src, iv);
    ShownBarIsNeverMutated(feed, src, iv, |feed|);
    assert feed[..|feed|] == feed;
  }

  // The pending bar of a bucket after the last complete one, with one bar more.
  lemma LaterBucketGathers(feed: seq<Candle>, x: Candle, src: Interval, iv: Interval)
    requires Derived(src, iv) && GoodFeed(feed, src)
    requires forall c :: Complete(feed, src, Millis(iv), c) ==> c < Bucket(x.openTime, Millis(iv))
    ensures var t, b := Run(feed, iv), Bucket(x.openTime, Millis(iv));
            InBucket(feed + [x], Millis(iv), b) != []
            && Aggregate(InBucket(feed + [x], Millis(iv), b), iv, b, false)
               == if b in t.pending then Merge(t.pending[b], x) else OpenBucket(x, iv, b)
  {
    hide Bucket, Millis, Complete, Absorb;
    RunIsBatch(feed, src, iv);
    var t, ms := Run(feed, iv), Millis(iv);
    var b := Bucket(x.openTime, ms);
    assert (feed + [x])[..|feed|] == feed;
    assert InBucket(feed, ms, b) != [] <==> Live(feed, src, ms, b);
    if b in t.pending {
      MergeIsAggregate(InBucket(feed, ms, b), x, iv, b, false);
    } else {
      assert InBucket(feed + [x], ms, b) == [x];
      OpenIsAggregate(x, iv, b);
    }
  }

  // On an aligned bar the close-time test is exactly "this is the last sub-bar".
  lemma ClosesItsBucket(x: Candle, src: Interval, iv: Interval)
    requires Derived(src, iv) && AlignedBar(x, src)
    ensures x.closeTime >= Bucket(x.openTime, Millis(iv)) + Millis(iv) - 1 <==> Completes(x, src, Millis(iv))
  {
    hide Bucket, Millis;
    SubBarFits(x.openTime, Millis(src), Millis(iv));
  }

  lemma LaterBar(feed: seq<Candle>, x: Candle, src: Interval, iv: Interval)
    requires Derived(src, iv) && GoodFeed(feed, src) && AlignedBar(x, src)
    requires var t := Run(feed, iv); t.latest.Some? ==> t.latest.value.openTime < Bucket(x.openTime, Millis(iv))
    ensures StaysRight(Run(feed, iv), Absorb(Run(feed, iv), iv, x), feed + [x], iv)
  {
    hide Bucket, Millis, Complete, Run, InBucket, Merge, OpenBucket, Completes, GoodFeed;
    ShownFacts(feed, src, iv);
    LaterBucketGathers(feed, x, src, iv);
  }

  lemma ShownBucketBar(feed: seq<Candle>, x: Candle, src: Interval, iv: Interval)
    requires Derived(src, iv) && GoodFeed(feed, src) && AlignedBar(x, src)
    requires var t := Run(feed, iv); t.latest.Some? && t.latest.value.openTime == Bucket(x.openTime, Millis(iv))
    ensures var t := Run(feed, iv);
            StaysRight(t, Absorb(t, iv, x), feed + [x], iv) <==> Merge(t.latest.value, x) == t.latest.value
  {
    hide Bucket, Millis, Complete, Run, InBucket, Aggregate, OpenBucket, Completes;
    ShownFacts(feed, src, iv);
    var t := Run(feed, iv);
    assert t.history[..|t.history| - 1] + [t.latest.value] == t.history;
  }

  lemma EarlierBar(feed: seq<Candle>, x: Candle, src: Interval, iv: Interval)
    requires Derived(src, iv) && GoodFeed(feed, src) && AlignedBar(x, src)
    requires var t := Run(feed, iv); t.latest.Some? && Bucket(x.openTime, Millis(iv)) < t.latest.value.openTime
    ensures var t := Run(feed, iv);
            StaysRight(t, Absorb(t, iv, x), feed + [x], iv) <==> !Completes(x, src, Millis(iv))
  {
    hide Bucket, Millis, Complete, Run, InBucket, Aggregate, Completes, GoodFeed, AppendHistory;
    ClosesItsBucket(x, src, iv);
    ShownFacts(feed, src, iv);
    EarlierIsNotPending(feed, src, iv, Bucket(x.openTime, Millis(iv)));
  }

  lemma EarlierIsNotPending(feed: seq<Candle>, src: Interval, iv: Interval, b: int)
    requires Derived(src, iv) && GoodFeed(feed, src)
    requires var t := Run(feed, iv); t.latest.Some? && b < t.latest.value.openTime
    ensures b !in Run(feed, iv).pending
  {
    hide Bucket, Millis, Complete, InBucket, Absorb;
    RunIsBatch(feed, src, iv);
  }

  // After any good feed, whatever aligned bar of the source interval comes next, early
  // or late, first or repeated: display and history stay right exactly when it neither
  // changes the bucket on display nor completes an earlier one.
  lemma NextBarStaysRightIff(feed: seq<Candle>, x: Candle, src: Interval, iv: Interval)
    requires Derived(src, iv) && GoodFeed(feed, src) && AlignedBar(x, src)
    ensures var t := Run(feed, iv);
            StaysRight(t, Absorb(t, iv, x), feed + [x], iv) <==> !Disturbs(t, iv, src, x)
  {
    hide Bucket, Millis, Run, Completes, StaysRight, Merge, Absorb, AlignedBar;
    var t, b := Run(feed, iv), Bucket(x.openTime, Millis(iv));
    if t.latest.None? || t.latest.value.openTime < b {
      LaterBar(feed, x, src, iv);
    } else if t.latest.value.openTime == b {
      ShownBucketBar(feed, x, src, iv);
    } else {
      EarlierBar(feed, x, src, iv);
    }
  }

  // The bar falls behind the display, changes the bucket on display, or completes a
  // bucket while bars of a newer one are waiting.
  predicate Spoils(t: Track, feed: seq<Candle>, iv: Interval, src: Interval, x: Candle)
    requires !src.Unknown? && !iv.Unknown?
  {
    var b := Bucket(x.openTime, Millis(iv));
    || (t.latest.Some? && b < t.latest.value.openTime)
    || (t.latest.Some? && b == t.latest.value.openTime && Merge(t.latest.value, x) != t.latest.value)
    || (feed != [] && b < Bucket(feed[|feed| - 1].openTime, Millis(iv)) && Completes(x, src, Millis(iv)))
  }

  // Which buckets have bars, are complete and are live after one more bar.
  lemma OneBarMore(feed: seq<Candle>, x: Candle, src: Interval, iv: Interval, c: int)
    requires Derived(src, iv)
    ensures var ms, b := Millis(iv), Bucket(x.openTime, Millis(iv));
            && InBucket(feed + [x], ms, c) == InBucket(feed, ms, c) + (if c == b then [x] else [])
            && (Complete(feed + [x], src, ms, c) <==>
                  Complete(feed, src, ms, c) || (c == b && Completes(x, src, ms)))
  {
    hide Bucket, Millis, Complete, Completes;
    assert (feed + [x])[..|feed|] == feed;
    CompleteStep(feed + [x], src, Millis(iv), c);
    assert InBucket(feed, Millis(iv), c) + [] == InBucket(feed, Millis(iv), c);
  }

  // After a good feed a bucket is live exactly when it has bars and is not behind the display.
  lemma LiveIffShown(feed: seq<Candle>, src: Interval, iv: Interval, c: int)
    requires Derived(src, iv) && GoodFeed(feed, src)
    ensures var t := Run(feed, iv);
            Live(feed, src, Millis(iv), c) <==>
              InBucket(feed, Millis(iv), c) != [] && (t.latest.Some? ==> t.latest.value.openTime <= c)
    ensures var t := Run(feed, iv);
            t.latest.Some? ==> Complete(feed, src, Millis(iv), t.latest.value.openTime)
  {
    hide Bucket, Millis, Complete, InBucket, Absorb, Aggregate;
    RunIsBatch(feed, src, iv);
    var t := Run(feed, iv);
    if t.latest.Some? {
      assert Complete(feed, src, Millis(iv), t.latest.value.openTime);
    }
  }

  // The live buckets after one more bar, which does not fall behind the display.
  lemma LiveAfterNext(feed: seq<Candle>, x: Candle, src: Interval, iv: Interval, c: int)
    requires Derived(src, iv) && GoodFeed(feed, src)
    requires var t := Run(feed, iv); t.latest.Some? ==> t.latest.value.openTime <= Bucket(x.openTime, Millis(iv))
    ensures var b := Bucket(x.openTime, Millis(iv));
            Live(feed + [x], src, Millis(iv), c) <==>
              && (c == b || Live(feed, src, Millis(iv), c))
              && (Completes(x, src, Millis(iv)) ==> b <= c)
  {
    hide Bucket, Millis, Complete, Completes, InBucket, Run;
    var ms, b := Millis(iv), Bucket(x.openTime, Millis(iv));
    LiveIffShown(feed, src, iv, c);
    ShownFacts(feed, src, iv);
    forall d
      ensures Complete(feed + [x], src, ms, d) <==> Complete(feed, src, ms, d) || (d == b && Completes(x, src, ms))
    {
      OneBarMore(feed, x, src, iv, d);
    }
    OneBarMore(feed, x, src, iv, c);
    assert Completes(x, src, ms) ==> Complete(feed + [x], src, ms, b);
  }

  // The pending bar of the bar's bucket, which is not behind the display.
  lemma GatheredIsBatch(feed: seq<Candle>, x: Candle, src: Interval, iv: Interval)
    requires Derived(src, iv) && GoodFeed(feed, src)
    requires var t := Run(feed, iv); t.latest.Some? ==> t.latest.value.openTime <= Bucket(x.openTime, Millis(iv))
    ensures var t, ms, b := Run(feed, iv), Millis(iv), Bucket(x.openTime, Millis(iv));
            InBucket(feed + [x], ms, b) != []
            && Gathered(t, iv, b, x) == Aggregate(InBucket(feed + [x], ms, b), iv, b, Complete(feed, src, ms, b))
  {
    hide Bucket, Millis, Complete, InBucket, Run, Live, Aggregate, Merge, OpenBucket, Completes;
    var t, ms, b := Run(feed, iv), Millis(iv), Bucket(x.openTime, Millis(iv));
    RunIsBatch(feed, src, iv);
    LiveIffShown(feed, src, iv, b);
    ShownFacts(feed, src, iv);
    OneBarMore(feed, x, src, iv, b);
    if b in t.pending {
      MergeIsAggregate(InBucket(feed, ms, b), x, iv, b, Complete(feed, src, ms, b));
    } else {
      assert InBucket(feed + [x], ms, b) == [x];
      OpenIsAggregate(x, iv, b);
    }
  }

  // One pending bar replaced or added, with everything else as it was.
  lemma PendingUpdated(
      pending: map<int, Candle>, before: seq<Candle>, after: seq<Candle>, src: Interval, iv: Interval,
      b: int, bar: Candle)
    requires Derived(src, iv) && PendingIsBatch(pending, before, src, iv)
    requires forall c :: Live(after, src, Millis(iv), c) <==> c == b || Live(before, src, Millis(iv), c)
    requires forall c :: c != b ==> InBucket(after, Millis(iv), c) == InBucket(before, Millis(iv), c)
    requires forall c :: Complete(after, src, Millis(iv), c) <==> Complete(before, src, Millis(iv), c)
    requires InBucket(after, Millis(iv), b) != []
    requires bar == Aggregate(InBucket(after, Millis(iv), b), iv, b, Complete(after, src, Millis(iv), b))
    ensures PendingIsBatch(pending[b := bar], after, src, iv)
  {
    hide Millis, Complete, InBucket, Aggregate, Live;
  }

  lemma AbsorbsOpen(t: Track, x: Candle, src: Interval, iv: Interval)
    requires Derived(src, iv) && AlignedBar(x, src) && !Completes(x, src, Millis(iv))
    ensures var b := Bucket(x.openTime, Millis(iv));
            Absorb(t, iv, x).pending == t.pending[b := Gathered(t, iv, b, x)]
  {
    ClosesItsBucket(x, src, iv);
    hide Bucket, Millis, Completes, Merge, OpenBucket, AppendHistory;
  }

  // Without completing, a bar that is not behind the display updates its pending bar.
  lemma PendingAfterOpen(feed: seq<Candle>, x: Candle, src: Interval, iv: Interval)
    requires Derived(src, iv) && GoodFeed(feed, src) && AlignedBar(x, src) && !Completes(x, src, Millis(iv))
    requires var t := Run(feed, iv); t.latest.Some? ==> t.latest.value.openTime <= Bucket(x.openTime, Millis(iv))
    ensures PendingIsBatch(Absorb(Run(feed, iv), iv, x).pending, feed + [x], src, iv)
  {
    var t, ms, b := Run(feed, iv), Millis(iv), Bucket(x.openTime, Millis(iv));
    AbsorbsOpen(t, x, src, iv);
    RunIsBatch(feed, src, iv);
    GatheredIsBatch(feed, x, src, iv);
    hide Bucket, Millis, Complete, Completes, InBucket, Run, Aggregate, Live, Gathered, Absorb;
    hide PendingIsBatch, ShownIsBatch;
    forall c
      ensures Live(feed + [x], src, ms, c) <==> c == b || Live(feed, src, ms, c)
      ensures c != b ==> InBucket(feed + [x], ms, c) == InBucket(feed, ms, c)
      ensures Complete(feed + [x], src, ms, c) <==> Complete(feed, src, ms, c)
    {
      LiveAfterNext(feed, x, src, iv, c);
      OneBarMore(feed, x, src, iv, c);
    }
    PendingUpdated(t.pending, feed, feed + [x], src, iv, b, Gathered(t, iv, b, x));
  }

  // A completing bar leaves only its own bucket pending.
  lemma AbsorbsCompleting(t: Track, x: Candle, src: Interval, iv: Interval)
    requires Derived(src, iv) && AlignedBar(x, src) && Completes(x, src, Millis(iv))
    ensures var b := Bucket(x.openTime, Millis(iv));
            Absorb(t, iv, x).pending == map[b := Gathered(t, iv, b, x).(closed := true)]
  {
    ClosesItsBucket(x, src, iv);
    hide Bucket, Millis, Completes, Merge, OpenBucket, AppendHistory;
  }

  lemma CloseAggregate(s: seq<Candle>, iv: Interval, b: int, closed: bool)
    requires s != [] && !iv.Unknown?
    ensures Aggregate(s, iv, b, closed).(closed := true) == Aggregate(s, iv, b, true)
  {}

  // That is batch exactly when no bars of a newer bucket are waiting.
  lemma PendingAfterClose(feed: seq<Candle>, x: Candle, src: Interval, iv: Interval)
    requires Derived(src, iv) && GoodFeed(feed, src) && AlignedBar(x, src) && Completes(x, src, Millis(iv))
    requires var t := Run(feed, iv); t.latest.Some? ==> t.latest.value.openTime <= Bucket(x.openTime, Millis(iv))
    ensures PendingIsBatch(Absorb(Run(feed, iv), iv, x).pending, feed + [x], src, iv) <==>
              feed == [] || Bucket(feed[|feed| - 1].openTime, Millis(iv)) <= Bucket(x.openTime, Millis(iv))
  {
    hide Bucket, Millis, Complete, Completes, InBucket, Run, Aggregate, Live, Gathered, Absorb;
    var t, ms, b := Run(feed, iv), Millis(iv), Bucket(x.openTime, Millis(iv));
    AbsorbsCompleting(t, x, src, iv);
    GatheredIsBatch(feed, x, src, iv);
    CloseAggregate(InBucket(feed + [x], ms, b), iv, b, Complete(feed, src, ms, b));
    OneBarMore(feed, x, src, iv, b);
    forall c ensures Live(feed + [x], src, ms, c) <==> (c == b || Live(feed, src, ms, c)) && b <= c {
      LiveAfterNext(feed, x, src, iv, c);
    }
    WaitingBuckets(feed, src, iv, b);
  }

  // Bars of a newer bucket are waiting exactly when the newest bar is one.
  lemma WaitingBuckets(feed: seq<Candle>, src: Interval, iv: Interval, b: int)
    requires Derived(src, iv) && GoodFeed(feed, src)
    requires var t := Run(feed, iv); t.latest.Some? ==> t.latest.value.openTime <= b
    ensures (exists c :: b < c && Live(feed, src, Millis(iv), c)) <==>
              feed != [] && b < Bucket(feed[|feed| - 1].openTime, Millis(iv))
  {
    hide Bucket, Millis, Complete, Run, GoodFeed, Live;
    var ms := Millis(iv);
    if c :| b < c && Live(feed, src, ms, c) {
      LiveIffShown(feed, src, iv, c);
      NothingAfterNewest(feed, src, ms, c);
    }
    if feed != [] {
      LiveIffShown(feed, src, iv, Bucket(feed[|feed| - 1].openTime, ms));
    }
  }

  // Behind the display a pending bucket is never batch.
  lemma PendingBehind(feed: seq<Candle>, x: Candle, src: Interval, iv: Interval)
    requires Derived(src, iv) && GoodFeed(feed, src) && AlignedBar(x, src)
    requires var t := Run(feed, iv); t.latest.Some? && Bucket(x.openTime, Millis(iv)) < t.latest.value.openTime
    ensures !PendingIsBatch(Absorb(Run(feed, iv), iv, x).pending, feed + [x], src, iv)
  {
    var t, ms, b := Run(feed, iv), Millis(iv), Bucket(x.openTime, Millis(iv));
    assert b in Absorb(t, iv, x).pending;
    hide Bucket, Millis, Complete, InBucket, Run, GoodFeed, Absorb, Completes;
    var shown := t.latest.value.openTime;
    LiveIffShown(feed, src, iv, shown);
    OneBarMore(feed, x, src, iv, shown);
    assert !Live(feed + [x], src, ms, b);
  }

  // After any good feed and whatever aligned bar next, the whole track stays right,
  // pending buckets included, in order of arrival, exactly when the bar does not spoil it:
  // a late completion drops the newer buckets that are waiting.
  lemma NextTrackStaysRightIff(feed: seq<Candle>, x: Candle, src: Interval, iv: Interval)
    requires Derived(src, iv) && GoodFeed(feed, src) && AlignedBar(x, src)
    ensures var t, u := Run(feed, iv), Absorb(Run(feed, iv), iv, x);
            StaysRight(t, u, feed + [x], iv) && PendingIsBatch(u.pending, feed + [x], src, iv)
            <==> !Spoils(t, feed, iv, src, x)
  {
    hide Bucket, Millis, Run, Completes, StaysRight, Merge, Absorb, AlignedBar, PendingIsBatch;
    var t, b := Run(feed, iv), Bucket(x.openTime, Millis(iv));
    NextBarStaysRightIff(feed, x, src, iv);
    if t.latest.Some? && b < t.latest.value.openTime {
      PendingBehind(feed, x, src, iv);
    } else if Completes(x, src, Millis(iv)) {
      PendingAfterClose(feed, x, src, iv);
    } else {
      PendingAfterOpen(feed, x, src, iv);
    }
  }

  // A late bar that completes an earlier bucket moves the display back in time to a
  // candle of that one bar, and breaks the order of the history.
  lemma LateCompletionMovesBack(feed: seq<Candle>, x: Candle, src: Interval, iv: Interval)
    requires Derived(src, iv) && GoodFeed(feed, src) && AlignedBar(x, src) && Completes(x, src, Millis(iv))
    requires var t := Run(feed, iv); t.latest.Some? && Bucket(x.openTime, Millis(iv)) < t.latest.value.openTime
    ensures var t, u, b := Run(feed, iv), Absorb(Run(feed, iv), iv, x), Bucket(x.openTime, Millis(iv));
            && u.latest == Some(Aggregate([x], iv, b, true)) && b < t.latest.value.openTime
            && |u.history| >= 2 && u.history[|u.history| - 1].openTime < u.history[|u.history| - 2].openTime
  {
    hide Bucket, Millis, Complete, Run, InBucket, Aggregate, Completes, GoodFeed;
    ClosesItsBucket(x, src, iv);
    ShownFacts(feed, src, iv);
    EarlierIsNotPending(feed, src, iv, Bucket(x.openTime, Millis(iv)));
    OpenIsAggregate(x, iv, Bucket(x.openTime, Millis(iv)));
    ClosedAggregate(x, iv, Bucket(x.openTime, Millis(iv)));
  }

  lemma ClosedAggregate(x: Candle, iv: Interval, b: int)
    requires !iv.Unknown?
    ensures Aggregate([x], iv, b, false).(closed := true) == Aggregate([x], iv, b, true)
  {}

  // Redelivering a completing bar counts it twice in the bar on display, and
  // rewrites the newest history entry: strict increase is needed.
  lemma RedeliveryDoubleCounts(feed: seq<Candle>, src: Interval, iv: Interval)
    requires Derived(src, iv) && GoodFeed(feed, src) && feed != []
    requires Completes(feed[|feed| - 1], src, Millis(iv))
    ensures var x, t := feed[|feed| - 1], Run(feed, iv);
            var t' := Absorb(t, iv, x);
            && t.latest.Some? && t'.latest == Some(Merge(t.latest.value, x))
            && t'.latest.value.volume == t.latest.value.volume + x.volume
            && |t'.history| == |t.history| > 0
            && t'.history[|t'.history| - 1] == Merge(t.latest.value, x)
  {
    hide Bucket, Millis, InBucket;
    var x, t := feed[|feed| - 1], Run(feed, iv);
    var b := Bucket(x.openTime, Millis(iv));
    RunIsBatch(feed, src, iv);
    CompletesNewest(feed, src, iv);
    var pub := Published(feed, src, iv);
    assert pub != [] && pub[|pub| - 1].openTime == b && pub[|pub| - 1].closed;
    ShownBarIsNeverMutated(feed, src, iv, |feed|);
    assert feed[..|feed|] == feed;
    assert t.pending[b] == t.latest.value;
  }
}
