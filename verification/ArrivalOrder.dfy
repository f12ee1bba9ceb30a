/** When the bars of a coarse interval are the merge of finer ones, whatever the order in which events arrive. */
module ArrivalOrder {
  import opened Numbers
  import opened Buckets
  import opened Bars
  import opened RollUp

  // ----- First and last arrivals -----

  /** Arrival p is the first one of the instrument with its bucket in [lo, hi). */
  predicate FirstAt(es: seq<Event>, p: int, instrument: string, i: Interval, lo: int, hi: int) {
    && 0 <= p < |es| && Within(es[p], instrument, i, lo, hi)
    && forall q | 0 <= q < p :: !Within(es[q], instrument, i, lo, hi)
  }

  predicate LastAt(es: seq<Event>, p: int, instrument: string, i: Interval, lo: int, hi: int) {
    && 0 <= p < |es| && Within(es[p], instrument, i, lo, hi)
    && forall q | p < q < |es| :: !Within(es[q], instrument, i, lo, hi)
  }

  lemma {:induction false} FirstPrice(es: seq<Event>, p: int, instrument: string, i: Interval, lo: int, hi: int)
    requires FirstAt(es, p, instrument, i, lo, hi)
    ensures var ps := Prices(es, instrument, i, lo, hi);
            ps != [] && ps[0] == es[p].mid
  {
    var init := es[..|es| - 1];
    if p < |init| {
      FirstPrice(init, p, instrument, i, lo, hi);
    } else {
      PricesHoldTheEvents(init, instrument, i, lo, hi);
    }
  }

  lemma {:induction false} LastPrice(es: seq<Event>, p: int, instrument: string, i: Interval, lo: int, hi: int)
    requires LastAt(es, p, instrument, i, lo, hi)
    ensures var ps := Prices(es, instrument, i, lo, hi);
            ps != [] && ps[|ps| - 1] == es[p].mid
  {
    if p < |es| - 1 {
      LastPrice(es[..|es| - 1], p, instrument, i, lo, hi);
    }
  }

  lemma {:induction false} EndsExist(es: seq<Event>, instrument: string, i: Interval, lo: int,
                                     hi: int) returns (p: int, q: int)
    requires Prices(es, instrument, i, lo, hi) != []
    ensures FirstAt(es, p, instrument, i, lo, hi) && LastAt(es, q, instrument, i, lo, hi)
  {
    var init, n := es[..|es| - 1], |es| - 1;
    if Prices(init, instrument, i, lo, hi) == [] {
      PricesHoldTheEvents(init, instrument, i, lo, hi);
      assert forall k | 0 <= k < n :: es[k] in init;
      p, q := n, n;
    } else {
      p, q := EndsExist(init, instrument, i, lo, hi);
      if Within(es[n], instrument, i, lo, hi) {
        q := n;
      }
    }
  }

  // ----- The bars at the two ends -----

  /** The earliest of n consecutive buckets that has an event. */
  function Opening(es: seq<Event>, instrument: string, i: Interval, start: int, n: nat): Option<int> {
    if n == 0 then None else
    var before, c := Opening(es, instrument, i, start, n - 1), BucketAt(start, i, n - 1);
    if before.Some? then before else if PricesFor(es, Key(instrument, i, c)) != [] then Some(c) else None
  }

  /** The latest one. */
  function Closing(es: seq<Event>, instrument: string, i: Interval, start: int, n: nat): Option<int> {
    if n == 0 then None else
    var c := BucketAt(start, i, n - 1);
    if PricesFor(es, Key(instrument, i, c)) != [] then Some(c) else Closing(es, instrument, i, start, n - 1)
  }

  /** The merged bar opens as the earliest bar does and closes as the latest. */
  lemma {:induction false} MergedEnds(es: seq<Event>, round: real -> real, instrument: string, i: Interval,
                                      start: int, n: nat)
    requires StorageRounding(round)
    ensures var bar := Merged(Built(Complete(es), round), instrument, i, start, n);
            var first, last := Opening(es, instrument, i, start, n), Closing(es, instrument, i, start, n);
            && bar.Some? == first.Some? == last.Some?
            && (bar.Some? ==>
                  var ps, qs := PricesFor(es, Key(instrument, i, first.value)),
                    PricesFor(es, Key(instrument, i, last.value));
                  ps != [] && qs != [] && bar.value.open == round(ps[0]) && bar.value.close == round(qs[|qs| - 1]))
  {
    if n > 0 {
      MergedEnds(es, round, instrument, i, start, n - 1);
      CompleteTable(es, round, Key(instrument, i, BucketAt(start, i, n - 1)));
    }
  }

  /** No event of the n buckets lies before the earliest or after the latest of those that have one. */
  lemma {:induction false} EndsEnclose(es: seq<Event>, instrument: string, fine: Interval, coarse: Interval,
                                       start: int, n: nat, e: Event)
    requires Finer(fine, coarse) && AllOnGrid(es, instrument, coarse) && start % Width(fine) == 0
    requires e in es && Within(e, instrument, fine, start, BucketAt(start, fine, n))
    ensures var first, last := Opening(es, instrument, fine, start, n), Closing(es, instrument, fine, start, n);
            first.Some? && last.Some? && first.value <= BucketStart(e.stamp, fine) <= last.value
  {
    if n > 0 {
      var c := BucketAt(start, fine, n - 1);
      BucketAtOnGrid(start, fine, n - 1);
      OpeningInside(es, instrument, fine, start, n - 1);
      if BucketStart(e.stamp, fine) < c {
        EndsEnclose(es, instrument, fine, coarse, start, n - 1, e);
      } else {
        FineBucketIsRange(e.stamp, fine, coarse, c);
        PricesByKey(es, Key(instrument, fine, c));
        assert KeyOf(e, fine) == Key(instrument, fine, c);
      }
    }
  }

  lemma {:induction false} OpeningInside(es: seq<Event>, instrument: string, i: Interval, start: int, n: nat)
    ensures var first, last := Opening(es, instrument, i, start, n), Closing(es, instrument, i, start, n);
            && first.Some? == last.Some?
            && (first.Some? ==>
                  && start <= first.value < BucketAt(start, i, n) && start <= last.value < BucketAt(start, i, n)
                  && PricesFor(es, Key(instrument, i, first.value)) != []
                  && PricesFor(es, Key(instrument, i, last.value)) != [])
  {
    if n > 0 {
      OpeningInside(es, instrument, i, start, n - 1);
      BucketAtLater(start, i, n - 1);
    }
  }

  // ----- The exact conditions -----

  /** The stored coarse bar is the merge of the stored fine ones. */
  ghost predicate Agree(es: seq<Event>, round: real -> real, instrument: string, fine: Interval, coarse: Interval,
                        b: int)
    requires Finer(fine, coarse)
  {
    var rows := Built(Complete(es), round);
    Lookup(rows, Key(instrument, coarse, b)) == Merged(rows, instrument, fine, b, Ratio(fine, coarse))
  }

  /**
   * The first price of the coarse bucket rounds like that of its earliest fine bucket, and the last like that of its
   * latest.
   */
  ghost predicate EndsRoundAlike(es: seq<Event>, round: real -> real, instrument: string, fine: Interval,
                                 coarse: Interval, b: int)
    requires Finer(fine, coarse)
  {
    var ps := PricesFor(es, Key(instrument, coarse, b));
    var first, last := Opening(es, instrument, fine, b, Ratio(fine, coarse)),
      Closing(es, instrument, fine, b, Ratio(fine, coarse));
    && ps != [] && first.Some? && last.Some?
    && var qs, rs := PricesFor(es, Key(instrument, fine, first.value)),
      PricesFor(es, Key(instrument, fine, last.value));
    && qs != [] && rs != []
    && round(ps[0]) == round(qs[0]) && round(ps[|ps| - 1]) == round(rs[|rs| - 1])
  }

  /**
   * For one log, in any order: the roll-up holds exactly if the bucket is empty or the prices at its two ends round
   * alike.
   */
  lemma RollUpExactly(es: seq<Event>, round: real -> real, instrument: string, fine: Interval, coarse: Interval, b: int)
    requires StorageRounding(round) && Finer(fine, coarse) && AllOnGrid(es, instrument, coarse)
    requires b % Width(coarse) == 0
    ensures Agree(es, round, instrument, fine, coarse, b)
            <==> PricesFor(es, Key(instrument, coarse, b)) == []
                 || EndsRoundAlike(es, round, instrument, fine, coarse, b)
  {
    RollUpAnyOrder(es, round, instrument, fine, coarse, b);
    MergedEnds(es, round, instrument, fine, b, Ratio(fine, coarse));
    CompleteTable(es, round, Key(instrument, coarse, b));
  }

  /** Logs that differ in prices only. */
  ghost predicate SameArrivals(es: seq<Event>, fs: seq<Event>) {
    |es| == |fs| && forall j | 0 <= j < |es| :: fs[j].instrument == es[j].instrument && fs[j].stamp == es[j].stamp
  }

  /**
   * Of the events of a range, none has an earlier bucket than the one that arrives first, nor a later one than the
   * last.
   */
  ghost predicate EndsInOrder(es: seq<Event>, instrument: string, i: Interval, lo: int, hi: int) {
    forall p, q | 0 <= q < |es| && Within(es[q], instrument, i, lo, hi) ::
      && (FirstAt(es, p, instrument, i, lo, hi) ==> BucketStart(es[p].stamp, i) <= BucketStart(es[q].stamp, i))
      && (LastAt(es, p, instrument, i, lo, hi) ==> BucketStart(es[q].stamp, i) <= BucketStart(es[p].stamp, i))
  }

  /**
   * The same in terms of arrivals: p and q are the ends of the coarse bucket, r and t those of its outermost fine ones,
   * c and d.
   */
  lemma AgreeByArrivals(es: seq<Event>, round: real -> real, instrument: string, fine: Interval, coarse: Interval,
                        b: int,
                        c: int, d: int, p: int, q: int, r: int, t: int)
    requires StorageRounding(round) && Finer(fine, coarse) && AllOnGrid(es, instrument, coarse)
    requires b % Width(coarse) == 0
    requires Opening(es, instrument, fine, b, Ratio(fine, coarse)) == Some(c)
    requires Closing(es, instrument, fine, b, Ratio(fine, coarse)) == Some(d)
    requires FirstAt(es, p, instrument, fine, b, b + Width(coarse))
    requires LastAt(es, q, instrument, fine, b, b + Width(coarse))
    requires FirstAt(es, r, instrument, fine, c, c + 1) && LastAt(es, t, instrument, fine, d, d + 1)
    ensures Agree(es, round, instrument, fine, coarse, b)
            <==> round(es[p].mid) == round(es[r].mid) && round(es[q].mid) == round(es[t].mid)
  {
    RollUpExactly(es, round, instrument, fine, coarse, b);
    CoarseEnds(es, instrument, fine, coarse, b, p, q);
    FineEnds(es, instrument, fine, c, r, -1);
    FineEnds(es, instrument, fine, d, -1, t);
  }

  lemma CoarseEnds(es: seq<Event>, instrument: string, fine: Interval, coarse: Interval, b: int, p: int, q: int)
    requires Finer(fine, coarse) && AllOnGrid(es, instrument, coarse) && b % Width(coarse) == 0
    requires FirstAt(es, p, instrument, fine, b, b + Width(coarse))
    requires LastAt(es, q, instrument, fine, b, b + Width(coarse))
    ensures var ps := PricesFor(es, Key(instrument, coarse, b));
            ps != [] && ps[0] == es[p].mid && ps[|ps| - 1] == es[q].mid
  {
    CoarsePrices(es, instrument, fine, coarse, b);
    FirstPrice(es, p, instrument, fine, b, b + Width(coarse));
    LastPrice(es, q, instrument, fine, b, b + Width(coarse));
  }

  lemma FineEnds(es: seq<Event>, instrument: string, i: Interval, c: int, r: int, t: int)
    ensures var ps := PricesFor(es, Key(instrument, i, c));
            && (FirstAt(es, r, instrument, i, c, c + 1) ==> ps != [] && ps[0] == es[r].mid)
            && (LastAt(es, t, instrument, i, c, c + 1) ==> ps != [] && ps[|ps| - 1] == es[t].mid)
  {
    if FirstAt(es, r, instrument, i, c, c + 1) {
      FirstPrice(es, r, instrument, i, c, c + 1);
    }
    if LastAt(es, t, instrument, i, c, c + 1) {
      LastPrice(es, t, instrument, i, c, c + 1);
    }
  }

  /** The outermost fine buckets of a coarse bucket that has an event: they enclose it and have events themselves. */
  lemma OuterBuckets(es: seq<Event>, instrument: string, fine: Interval, coarse: Interval, b: int, e: Event)
    returns (c: int, d: int)
    requires Finer(fine, coarse) && AllOnGrid(es, instrument, coarse) && b % Width(coarse) == 0
    requires e in es && Within(e, instrument, fine, b, b + Width(coarse))
    ensures Opening(es, instrument, fine, b, Ratio(fine, coarse)) == Some(c)
    ensures Closing(es, instrument, fine, b, Ratio(fine, coarse)) == Some(d)
    ensures b <= c <= BucketStart(e.stamp, fine) <= d < b + Width(coarse)
    ensures Prices(es, instrument, fine, c, c + 1) != [] && Prices(es, instrument, fine, d, d + 1) != []
  {
    FinerDivides(b, coarse, fine);
    CoarseEnd(b, fine, coarse);
    EndsEnclose(es, instrument, fine, coarse, b, Ratio(fine, coarse), e);
    OpeningInside(es, instrument, fine, b, Ratio(fine, coarse));
    c := Opening(es, instrument, fine, b, Ratio(fine, coarse)).value;
    d := Closing(es, instrument, fine, b, Ratio(fine, coarse)).value;
  }

  lemma InOrderAgrees(es: seq<Event>, round: real -> real, instrument: string, fine: Interval, coarse: Interval, b: int)
    requires StorageRounding(round) && Finer(fine, coarse) && AllOnGrid(es, instrument, coarse)
    requires b % Width(coarse) == 0
    requires EndsInOrder(es, instrument, fine, b, b + Width(coarse))
    ensures Agree(es, round, instrument, fine, coarse, b)
  {
    CoarsePrices(es, instrument, fine, coarse, b);
    if Prices(es, instrument, fine, b, b + Width(coarse)) == [] {
      RollUpExactly(es, round, instrument, fine, coarse, b);
    } else {
      var p, q := EndsExist(es, instrument, fine, b, b + Width(coarse));
      var c, d := OuterBuckets(es, instrument, fine, coarse, b, es[p]);
      var _, d' := OuterBuckets(es, instrument, fine, coarse, b, es[q]);
      assert d' == d;
      FirstInBucket(es, instrument, fine, b, b + Width(coarse), c, p);
      LastInBucket(es, instrument, fine, b, b + Width(coarse), d, q);
      AgreeByArrivals(es, round, instrument, fine, coarse, b, c, d, p, q, p, q);
    }
  }

  /** If the ends are in order, the first arrival is in no bucket after any that has an event. */
  lemma FirstInBucket(es: seq<Event>, instrument: string, i: Interval, lo: int, hi: int, c: int, p: int)
    requires EndsInOrder(es, instrument, i, lo, hi) && lo <= c < hi && Prices(es, instrument, i, c, c + 1) != []
    requires FirstAt(es, p, instrument, i, lo, hi) && c <= BucketStart(es[p].stamp, i)
    ensures FirstAt(es, p, instrument, i, c, c + 1)
  {
    var q, _ := EndsExist(es, instrument, i, c, c + 1);
    assert Within(es[q], instrument, i, lo, hi);
  }

  lemma LastInBucket(es: seq<Event>, instrument: string, i: Interval, lo: int, hi: int, c: int, p: int)
    requires EndsInOrder(es, instrument, i, lo, hi) && lo <= c < hi && Prices(es, instrument, i, c, c + 1) != []
    requires LastAt(es, p, instrument, i, lo, hi) && BucketStart(es[p].stamp, i) <= c
    ensures LastAt(es, p, instrument, i, c, c + 1)
  {
    var q, _ := EndsExist(es, instrument, i, c, c + 1);
    assert Within(es[q], instrument, i, lo, hi);
  }

  /** The log with one price at arrival p and another one everywhere else. */
  function Repriced(es: seq<Event>, p: int, x: real, y: real): (fs: seq<Event>)
    ensures SameArrivals(es, fs)
  {
    seq(|es|, j requires 0 <= j < |es| => es[j].(mid := if j == p then x else y))
  }

  lemma SameAtEnds(es: seq<Event>, fs: seq<Event>, p: int, instrument: string, i: Interval, lo: int, hi: int)
    requires SameArrivals(es, fs)
    ensures FirstAt(es, p, instrument, i, lo, hi) <==> FirstAt(fs, p, instrument, i, lo, hi)
    ensures LastAt(es, p, instrument, i, lo, hi) <==> LastAt(fs, p, instrument, i, lo, hi)
  {
    assert forall j | 0 <= j < |es| :: Within(es[j], instrument, i, lo, hi) == Within(fs[j], instrument, i, lo, hi);
  }

  /** The ends of a range that has an arrival, and of two buckets that have events. */
  lemma OuterArrivals(es: seq<Event>, instrument: string, i: Interval, lo: int, hi: int, c: int, d: int, e: int)
    returns (p: int, q: int, r: int, t: int)
    requires 0 <= e < |es| && Within(es[e], instrument, i, lo, hi)
    requires Prices(es, instrument, i, c, c + 1) != [] && Prices(es, instrument, i, d, d + 1) != []
    ensures FirstAt(es, p, instrument, i, lo, hi) && LastAt(es, q, instrument, i, lo, hi)
    ensures FirstAt(es, r, instrument, i, c, c + 1) && LastAt(es, t, instrument, i, d, d + 1)
  {
    assert es[e] in es;
    PricesHoldTheEvents(es, instrument, i, lo, hi);
    p, q := EndsExist(es, instrument, i, lo, hi);
    var r', _ := EndsExist(es, instrument, i, c, c + 1);
    var _, t' := EndsExist(es, instrument, i, d, d + 1);
    r, t := r', t';
  }

  lemma FirstIsOne(es: seq<Event>, p: int, q: int, instrument: string, i: Interval, lo: int, hi: int)
    requires FirstAt(es, p, instrument, i, lo, hi) && FirstAt(es, q, instrument, i, lo, hi)
    ensures p == q
  {
  }

  lemma LastIsOne(es: seq<Event>, p: int, q: int, instrument: string, i: Interval, lo: int, hi: int)
    requires LastAt(es, p, instrument, i, lo, hi) && LastAt(es, q, instrument, i, lo, hi)
    ensures p == q
  {
  }

  /** A first arrival that is not in the earliest bucket, with a price of its own, makes the roll-up fail. */
  lemma FirstDisagrees(es: seq<Event>, round: real -> real, instrument: string, fine: Interval, coarse: Interval,
                       b: int,
                       p: int, q: int)
    requires StorageRounding(round) && Finer(fine, coarse) && AllOnGrid(es, instrument, coarse)
    requires b % Width(coarse) == 0
    requires FirstAt(es, p, instrument, fine, b, b + Width(coarse))
    requires 0 <= q < |es| && Within(es[q], instrument, fine, b, b + Width(coarse))
    requires BucketStart(es[q].stamp, fine) < BucketStart(es[p].stamp, fine)
    requires forall j | 0 <= j < |es| && j != p :: round(es[j].mid) != round(es[p].mid)
    ensures !Agree(es, round, instrument, fine, coarse, b)
  {
    var c, d := OuterBuckets(es, instrument, fine, coarse, b, es[q]);
    var p', q', r, t := OuterArrivals(es, instrument, fine, b, b + Width(coarse), c, d, q);
    FirstIsOne(es, p, p', instrument, fine, b, b + Width(coarse));
    AgreeByArrivals(es, round, instrument, fine, coarse, b, c, d, p', q', r, t);
  }

  lemma LastDisagrees(es: seq<Event>, round: real -> real, instrument: string, fine: Interval, coarse: Interval, b: int,
                      p: int, q: int)
    requires StorageRounding(round) && Finer(fine, coarse) && AllOnGrid(es, instrument, coarse)
    requires b % Width(coarse) == 0
    requires LastAt(es, p, instrument, fine, b, b + Width(coarse))
    requires 0 <= q < |es| && Within(es[q], instrument, fine, b, b + Width(coarse))
    requires BucketStart(es[p].stamp, fine) < BucketStart(es[q].stamp, fine)
    requires forall j | 0 <= j < |es| && j != p :: round(es[j].mid) != round(es[p].mid)
    ensures !Agree(es, round, instrument, fine, coarse, b)
  {
    var c, d := OuterBuckets(es, instrument, fine, coarse, b, es[q]);
    var p', q', r, t := OuterArrivals(es, instrument, fine, b, b + Width(coarse), c, d, q);
    LastIsOne(es, p, q', instrument, fine, b, b + Width(coarse));
    AgreeByArrivals(es, round, instrument, fine, coarse, b, c, d, p', q', r, t);
  }

  /**
   * For all prices: whatever the events of a log are priced at, the roll-up holds, exactly if in every coarse bucket
   * the first arrival lies in the earliest fine bucket that has an event and the last one in the latest.
   */
  lemma RollUpForAllPrices(es: seq<Event>, round: real -> real, instrument: string, fine: Interval, coarse: Interval,
                           b: int,
                           x: real, y: real)
    requires StorageRounding(round) && round(x) != round(y)
    requires Finer(fine, coarse) && AllOnGrid(es, instrument, coarse) && b % Width(coarse) == 0
    ensures (forall fs | SameArrivals(es, fs) :: Agree(fs, round, instrument, fine, coarse, b))
            <==> EndsInOrder(es, instrument, fine, b, b + Width(coarse))
  {
    var hi := b + Width(coarse);
    if EndsInOrder(es, instrument, fine, b, hi) {
      forall fs | SameArrivals(es, fs) ensures Agree(fs, round, instrument, fine, coarse, b) {
        SameOrder(es, fs, instrument, fine, b, hi);
        InOrderAgrees(fs, round, instrument, fine, coarse, b);
      }
    } else {
      var fs := Disagreement(es, round, instrument, fine, coarse, b, x, y);
    }
  }

  lemma Disagreement(es: seq<Event>, round: real -> real, instrument: string, fine: Interval, coarse: Interval, b: int,
                     x: real, y: real)
    returns (fs: seq<Event>)
    requires StorageRounding(round) && round(x) != round(y)
    requires Finer(fine, coarse) && AllOnGrid(es, instrument, coarse) && b % Width(coarse) == 0
    requires !EndsInOrder(es, instrument, fine, b, b + Width(coarse))
    ensures SameArrivals(es, fs) && !Agree(fs, round, instrument, fine, coarse, b)
  {
    var p, q, first := OutOfOrder(es, instrument, fine, b, b + Width(coarse));
    fs := Repriced(es, p, x, y);
    SameAtEnds(es, fs, p, instrument, fine, b, b + Width(coarse));
    if first {
      FirstDisagrees(fs, round, instrument, fine, coarse, b, p, q);
    } else {
      LastDisagrees(fs, round, instrument, fine, coarse, b, p, q);
    }
  }

  lemma OutOfOrder(es: seq<Event>, instrument: string, i: Interval, lo: int, hi: int) returns (p: int, q: int,
                   first: bool)
    requires !EndsInOrder(es, instrument, i, lo, hi)
    ensures 0 <= q < |es| && Within(es[q], instrument, i, lo, hi)
    ensures if first then FirstAt(es, p, instrument, i, lo, hi)
                          && BucketStart(es[q].stamp, i) < BucketStart(es[p].stamp, i)
            else LastAt(es, p, instrument, i, lo, hi) && BucketStart(es[p].stamp, i) < BucketStart(es[q].stamp, i)
  {
    p, q :| 0 <= q < |es| && Within(es[q], instrument, i, lo, hi)
      && ((FirstAt(es, p, instrument, i, lo, hi) && BucketStart(es[q].stamp, i) < BucketStart(es[p].stamp, i))
          || (LastAt(es, p, instrument, i, lo, hi) && BucketStart(es[p].stamp, i) < BucketStart(es[q].stamp, i)));
    first := FirstAt(es, p, instrument, i, lo, hi) && BucketStart(es[q].stamp, i) < BucketStart(es[p].stamp, i);
  }

  lemma SameOrder(es: seq<Event>, fs: seq<Event>, instrument: string, i: Interval, lo: int, hi: int)
    requires SameArrivals(es, fs) && EndsInOrder(es, instrument, i, lo, hi)
    ensures EndsInOrder(fs, instrument, i, lo, hi)
  {
    forall p, q | 0 <= q < |fs| && Within(fs[q], instrument, i, lo, hi)
      ensures FirstAt(fs, p, instrument, i, lo, hi) ==> BucketStart(fs[p].stamp, i) <= BucketStart(fs[q].stamp, i)
      ensures LastAt(fs, p, instrument, i, lo, hi) ==> BucketStart(fs[q].stamp, i) <= BucketStart(fs[p].stamp, i)
    {
      SameAtEnds(es, fs, p, instrument, i, lo, hi);
      assert Within(es[q], instrument, i, lo, hi);
    }
  }

  const HALF_PAST := Event("BTC-USD", 2.0, Utc(30_000_000))
  const TEN_PAST := Event("BTC-USD", 1.0, Utc(10_000_000))

  /** An event that is late within its own minute is harmless. */
  lemma LateButHarmless(round: real -> real)
    requires StorageRounding(round)
    ensures !InTimeOrder([HALF_PAST, TEN_PAST], "BTC-USD") && Agree([HALF_PAST, TEN_PAST], round, "BTC-USD", M1, M5, 0)
  {
    var es := [HALF_PAST, TEN_PAST];
    assert es[0].stamp.utc > es[1].stamp.utc;
    assert forall j | 0 <= j < |es| :: BucketStart(es[j].stamp, M1) == 0;
    InOrderAgrees(es, round, "BTC-USD", M1, M5, 0);
  }
}
