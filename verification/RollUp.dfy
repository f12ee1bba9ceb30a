/** How the bars of the three intervals agree with each other, and how the table depends on the order of events. */
module RollUp {
  import opened Numbers
  import opened Buckets
  import opened Bars

  /** A run in which every event is handled once and completely. */
  function Complete(es: seq<Event>): seq<Pass> {
    if es == [] then [] else Complete(es[..|es| - 1]) + [Pass(es[|es| - 1], 3)]
  }

  lemma {:induction false} CompleteLevels(es: seq<Event>, rank: nat)
    requires rank < 3
    ensures Level(Complete(es), rank) == es
  {
    if es != [] {
      var init := es[..|es| - 1];
      CompleteLevels(init, rank);
      assert Complete(es)[..|Complete(es)| - 1] == Complete(init);
    }
  }

  /** The table of an undisturbed run, row by row. */
  lemma CompleteTable(es: seq<Event>, round: real -> real, k: Key)
    requires StorageRounding(round)
    ensures Lookup(Built(Complete(es), round), k) == SummaryOrNone(PricesFor(es, k), round)
  {
    TableMeaning(Complete(es), round, k);
    CompleteLevels(es, Rank(k.interval));
  }

  /** The instrument's events have stamps on the grid of the interval. */
  ghost predicate AllOnGrid(es: seq<Event>, instrument: string, i: Interval) {
    forall e | e in es && e.instrument == instrument :: OnGrid(e.stamp, i)
  }

  /** The instrument's events come in the order of their timestamps. */
  ghost predicate InTimeOrder(es: seq<Event>, instrument: string) {
    forall a, b | 0 <= a < b < |es| && es[a].instrument == es[b].instrument == instrument ::
      es[a].stamp.utc <= es[b].stamp.utc
  }

  // ----- A coarse bucket as a range of fine ones -----

  lemma CoarseBucketIsRange(s: Stamp, fine: Interval, coarse: Interval, b: int)
    requires Finer(fine, coarse) && OnGrid(s, coarse) && b % Width(coarse) == 0
    ensures BucketStart(s, coarse) == b <==> b <= BucketStart(s, fine) < b + Width(coarse)
  {
    GridBucket(s, coarse, coarse);
    GridBucket(s, coarse, fine);
    GridPoint(s.utc, s.utc, coarse, b);
    FinerDivides(b, coarse, fine);
    ShiftByMultiple(b, Width(coarse), coarse);
    FinerDivides(b + Width(coarse), coarse, fine);
    NextGridPoint(s.utc, fine, b);
    NextGridPoint(s.utc, fine, b + Width(coarse));
  }

  /** An instant is at or past a grid point exactly if its bucket is. */
  lemma NextGridPoint(x: int, i: Interval, b: int)
    requires b % Width(i) == 0
    ensures b <= x <==> b <= x - x % Width(i)
  {
    if b <= x {
      GridPoint(b, x, i, b);
    }
  }

  lemma FineBucketIsRange(s: Stamp, fine: Interval, coarse: Interval, c: int)
    requires Finer(fine, coarse) && OnGrid(s, coarse) && c % Width(fine) == 0
    ensures BucketStart(s, fine) == c <==> c <= BucketStart(s, fine) < c + Width(fine)
  {
    GridBucket(s, coarse, fine);
    GridPoint(s.utc, s.utc, fine, c);
    NextGridPoint(s.utc, fine, c);
    ShiftByMultiple(c, Width(fine), fine);
    NextGridPoint(s.utc, fine, c + Width(fine));
  }

  lemma {:induction false} SamePrices(es: seq<Event>, instrument: string,
                                      i: Interval, lo: int, hi: int, j: Interval, lo': int, hi': int)
    requires forall e | e in es :: Within(e, instrument, i, lo, hi) == Within(e, instrument, j, lo', hi')
    ensures Prices(es, instrument, i, lo, hi) == Prices(es, instrument, j, lo', hi')
  {
    if es != [] {
      SamePrices(es[..|es| - 1], instrument, i, lo, hi, j, lo', hi');
    }
  }

  lemma CoarsePrices(es: seq<Event>, instrument: string, fine: Interval, coarse: Interval, b: int)
    requires Finer(fine, coarse) && AllOnGrid(es, instrument, coarse) && b % Width(coarse) == 0
    ensures PricesFor(es, Key(instrument, coarse, b)) == Prices(es, instrument, fine, b, b + Width(coarse))
  {
    forall e | e in es
      ensures Within(e, instrument, coarse, b, b + 1) == Within(e, instrument, fine, b, b + Width(coarse))
    {
      if e.instrument == instrument {
        CoarseBucketIsRange(e.stamp, fine, coarse, b);
      }
    }
    SamePrices(es, instrument, coarse, b, b + 1, fine, b, b + Width(coarse));
  }

  lemma FinePrices(es: seq<Event>, instrument: string, fine: Interval, coarse: Interval, c: int)
    requires Finer(fine, coarse) && AllOnGrid(es, instrument, coarse) && c % Width(fine) == 0
    ensures PricesFor(es, Key(instrument, fine, c)) == Prices(es, instrument, fine, c, c + Width(fine))
  {
    forall e | e in es
      ensures Within(e, instrument, fine, c, c + 1) == Within(e, instrument, fine, c, c + Width(fine))
    {
      if e.instrument == instrument {
        FineBucketIsRange(e.stamp, fine, coarse, c);
      }
    }
    SamePrices(es, instrument, fine, c, c + 1, fine, c, c + Width(fine));
  }

  /** In time order, the events of two adjacent ranges of buckets come one range after the other. */
  lemma {:induction false} SplitInOrder(es: seq<Event>, instrument: string, fine: Interval, coarse: Interval,
                                        lo: int, mid: int, hi: int)
    requires Finer(fine, coarse) && AllOnGrid(es, instrument, coarse) && InTimeOrder(es, instrument) && lo <= mid <= hi
    ensures Prices(es, instrument, fine, lo, hi)
         == Prices(es, instrument, fine, lo, mid) + Prices(es, instrument, fine, mid, hi)
  {
    if es != [] {
      var init, last := es[..|es| - 1], es[|es| - 1];
      SplitInOrder(init, instrument, fine, coarse, lo, mid, hi);
      if Within(last, instrument, fine, lo, mid) {
        NothingLater(es, instrument, fine, coarse, lo, mid, hi);
      }
    }
  }

  /** If the last event lies before `mid`, no event lies after it. */
  lemma NothingLater(es: seq<Event>, instrument: string, fine: Interval, coarse: Interval, lo: int, mid: int, hi: int)
    requires Finer(fine, coarse) && AllOnGrid(es, instrument, coarse) && InTimeOrder(es, instrument) && es != []
    requires Within(es[|es| - 1], instrument, fine, lo, mid)
    ensures Prices(es[..|es| - 1], instrument, fine, mid, hi) == []
  {
    var init, last := es[..|es| - 1], es[|es| - 1];
    PricesHoldTheEvents(init, instrument, fine, mid, hi);
    forall e | e in init ensures !Within(e, instrument, fine, mid, hi) {
      if e.instrument == instrument {
        var a :| 0 <= a < |init| && init[a] == e;
        assert es[a].stamp.utc <= es[|es| - 1].stamp.utc;
        LaterBucket(e.stamp, last.stamp, fine, coarse);
      }
    }
  }

  lemma LaterBucket(s: Stamp, later: Stamp, fine: Interval, coarse: Interval)
    requires Finer(fine, coarse) && OnGrid(s, coarse) && OnGrid(later, coarse) && s.utc <= later.utc
    ensures BucketStart(s, fine) <= BucketStart(later, fine)
  {
    FinerDivides(s.offset, coarse, fine);
    FinerDivides(later.offset, coarse, fine);
    GridBucketIsTheBucket(s, later, fine, 0);
  }

  /** In any order, two adjacent ranges of buckets share out the events of their union. */
  lemma {:induction false} SplitAnyOrder(es: seq<Event>, instrument: string, i: Interval, lo: int, mid: int, hi: int)
    requires lo <= mid <= hi
    ensures |Prices(es, instrument, i, lo, hi)|
            == |Prices(es, instrument, i, lo, mid)| + |Prices(es, instrument, i, mid, hi)|
    ensures forall x :: x in Prices(es, instrument, i, lo, hi)
                   <==> x in Prices(es, instrument, i, lo, mid) || x in Prices(es, instrument, i, mid, hi)
  {
    if es != [] {
      SplitAnyOrder(es[..|es| - 1], instrument, i, lo, mid, hi);
    }
  }

  // ----- Merging bars -----

  /** Two bars, the first covering the earlier time, as one. */
  function Combine(a: Option<Bar>, b: Option<Bar>): Option<Bar> {
    if a.None? then b else if b.None? then a else
    var x, y := a.value, b.value;
    Some(Bar(x.open, Max(x.high, y.high), Min(x.low, y.low), y.close, x.volume + y.volume, x.ticks + y.ticks))
  }

  /** The start of the bucket n places after the one that starts at `start`. */
  function BucketAt(start: int, i: Interval, n: nat): int {
    if n == 0 then start else BucketAt(start, i, n - 1) + Width(i)
  }

  /** The stored bars of the n consecutive buckets from `start`, merged in the order of time. */
  function Merged(rows: Table, instrument: string, i: Interval, start: int, n: nat): Option<Bar> {
    if n == 0 then None else
    Combine(Merged(rows, instrument, i, start, n - 1), Lookup(rows, Key(instrument, i, BucketAt(start, i, n - 1))))
  }

  lemma SummaryOfConcat(a: seq<real>, b: seq<real>, round: real -> real)
    requires StorageRounding(round)
    ensures SummaryOrNone(a + b, round) == Combine(SummaryOrNone(a, round), SummaryOrNone(b, round))
  {
    if a == [] {
      assert a + b == b;
    } else if b == [] {
      assert a + b == a;
    } else {
      ExtremaOfUnion(a, b, a + b, round);
    }
  }

  /** The rounded extremes of a list that has the values of two others. */
  lemma ExtremaOfUnion(a: seq<real>, b: seq<real>, c: seq<real>, round: real -> real)
    requires StorageRounding(round) && a != [] && b != [] && c != []
    requires forall x :: x in c <==> x in a || x in b
    ensures round(MaxOf(c)) == Max(round(MaxOf(a)), round(MaxOf(b)))
    ensures round(MinOf(c)) == Min(round(MinOf(a)), round(MinOf(b)))
  {
  }

  lemma {:induction false} BucketAtLater(start: int, i: Interval, n: nat)
    ensures start <= BucketAt(start, i, n)
  {
    if n > 0 {
      BucketAtLater(start, i, n - 1);
    }
  }

  lemma {:induction false} BucketAtOnGrid(start: int, i: Interval, n: nat)
    requires start % Width(i) == 0
    ensures BucketAt(start, i, n) % Width(i) == 0 && start <= BucketAt(start, i, n)
  {
    BucketAtLater(start, i, n);
    if n > 0 {
      BucketAtOnGrid(start, i, n - 1);
      ShiftByMultiple(BucketAt(start, i, n - 1), Width(i), i);
    }
  }

  lemma {:induction false} BucketAtProduct(start: int, i: Interval, n: nat)
    ensures BucketAt(start, i, n) == start + n * Width(i)
  {
    if n > 0 {
      BucketAtProduct(start, i, n - 1);
      assert (n - 1) * Width(i) + Width(i) == n * Width(i);
    }
  }

  /** The fine buckets of a coarse one end where it ends. */
  lemma CoarseEnd(start: int, fine: Interval, coarse: Interval)
    requires Finer(fine, coarse)
    ensures BucketAt(start, fine, Ratio(fine, coarse)) == start + Width(coarse)
  {
    BucketAtProduct(start, fine, Ratio(fine, coarse));
  }

  lemma {:induction false} MergedIsSummary(es: seq<Event>, round: real -> real, instrument: string,
                                           fine: Interval, coarse: Interval, start: int, n: nat)
    requires StorageRounding(round) && Finer(fine, coarse)
    requires AllOnGrid(es, instrument, coarse) && InTimeOrder(es, instrument) && start % Width(fine) == 0
    ensures Merged(Built(Complete(es), round), instrument, fine, start, n)
         == SummaryOrNone(Prices(es, instrument, fine, start, BucketAt(start, fine, n)), round)
  {
    if n == 0 {
      PricesHoldTheEvents(es, instrument, fine, start, start);
    } else {
      MergedIsSummary(es, round, instrument, fine, coarse, start, n - 1);
      BucketAtOnGrid(start, fine, n - 1);
      AppendChild(es, round, instrument, fine, coarse, start, BucketAt(start, fine, n - 1));
    }
  }

  lemma AppendChild(es: seq<Event>, round: real -> real, instrument: string, fine: Interval, coarse: Interval,
                    start: int, c: int)
    requires StorageRounding(round) && Finer(fine, coarse)
    requires AllOnGrid(es, instrument, coarse) && InTimeOrder(es, instrument) && c % Width(fine) == 0 && start <= c
    ensures Combine(SummaryOrNone(Prices(es, instrument, fine, start, c), round),
                    Lookup(Built(Complete(es), round), Key(instrument, fine, c)))
         == SummaryOrNone(Prices(es, instrument, fine, start, c + Width(fine)), round)
  {
    CompleteTable(es, round, Key(instrument, fine, c));
    FinePrices(es, instrument, fine, coarse, c);
    SplitInOrder(es, instrument, fine, coarse, start, c, c + Width(fine));
    SummaryOfConcat(Prices(es, instrument, fine, start, c), Prices(es, instrument, fine, c, c + Width(fine)), round);
  }

  /** How many fine buckets make up a coarse one. */
  function Ratio(fine: Interval, coarse: Interval): nat
    requires Finer(fine, coarse)
  {
    match (fine, coarse)
    case (M1, M5) => 5
    case (M1, H1) => 60
    case (M5, H1) => 12
  }

  /**
   * Roll-up: if every instrument's events arrive in time order, each 5m bar is the merge of its 1m bars and each 1h bar
   * the merge of its 5m bars (and of its 1m bars); where no fine bar exists there is no coarse bar either.
   */
  lemma RollUpInOrder(es: seq<Event>, round: real -> real, instrument: string, fine: Interval, coarse: Interval, b: int)
    requires StorageRounding(round) && Finer(fine, coarse)
    requires AllOnGrid(es, instrument, coarse) && InTimeOrder(es, instrument) && b % Width(coarse) == 0
    ensures var rows := Built(Complete(es), round);
            Lookup(rows, Key(instrument, coarse, b)) == Merged(rows, instrument, fine, b, Ratio(fine, coarse))
  {
    FinerDivides(b, coarse, fine);
    CoarseEnd(b, fine, coarse);
    MergedIsSummary(es, round, instrument, fine, coarse, b, Ratio(fine, coarse));
    CompleteTable(es, round, Key(instrument, coarse, b));
    CoarsePrices(es, instrument, fine, coarse, b);
  }

  /** Bars that agree in everything that does not depend on the order of arrival. */
  predicate SameRange(a: Option<Bar>, b: Option<Bar>) {
    && a.Some? == b.Some?
    && (a.Some? ==>
          && a.value.high == b.value.high && a.value.low == b.value.low
          && a.value.volume == b.value.volume && a.value.ticks == b.value.ticks)
  }

  lemma {:induction false} MergedRange(es: seq<Event>, round: real -> real, instrument: string,
                                       fine: Interval, coarse: Interval, start: int, n: nat)
    requires StorageRounding(round) && Finer(fine, coarse) && AllOnGrid(es, instrument, coarse)
    requires start % Width(fine) == 0
    ensures SameRange(Merged(Built(Complete(es), round), instrument, fine, start, n),
                      SummaryOrNone(Prices(es, instrument, fine, start, BucketAt(start, fine, n)), round))
  {
    if n == 0 {
      PricesHoldTheEvents(es, instrument, fine, start, start);
    } else {
      var rows := Built(Complete(es), round);
      var c := BucketAt(start, fine, n - 1);
      MergedRange(es, round, instrument, fine, coarse, start, n - 1);
      BucketAtOnGrid(start, fine, n - 1);
      AppendRange(es, round, instrument, fine, coarse, start, c, Merged(rows, instrument, fine, start, n - 1));
    }
  }

  lemma AppendRange(es: seq<Event>, round: real -> real, instrument: string, fine: Interval, coarse: Interval,
                    start: int, c: int, before: Option<Bar>)
    requires StorageRounding(round) && Finer(fine, coarse)
    requires AllOnGrid(es, instrument, coarse) && c % Width(fine) == 0 && start <= c
    requires SameRange(before, SummaryOrNone(Prices(es, instrument, fine, start, c), round))
    ensures SameRange(Combine(before, Lookup(Built(Complete(es), round), Key(instrument, fine, c))),
                      SummaryOrNone(Prices(es, instrument, fine, start, c + Width(fine)), round))
  {
    CompleteTable(es, round, Key(instrument, fine, c));
    FinePrices(es, instrument, fine, coarse, c);
    SplitAnyOrder(es, instrument, fine, start, c, c + Width(fine));
    RangeOfUnion(Prices(es, instrument, fine, start, c), Prices(es, instrument, fine, c, c + Width(fine)),
                 Prices(es, instrument, fine, start, c + Width(fine)), round);
  }

  lemma RangeOfUnion(a: seq<real>, b: seq<real>, c: seq<real>, round: real -> real)
    requires StorageRounding(round) && |c| == |a| + |b|
    requires forall x :: x in c <==> x in a || x in b
    ensures SameRange(SummaryOrNone(c, round), Combine(SummaryOrNone(a, round), SummaryOrNone(b, round)))
  {
  }

  /** In any order of arrival, high, low and tick count of a coarse bar are those of its fine bars taken together. */
  lemma RollUpAnyOrder(es: seq<Event>, round: real -> real, instrument: string, fine: Interval, coarse: Interval,
                       b: int)
    requires StorageRounding(round) && Finer(fine, coarse) && AllOnGrid(es, instrument, coarse)
    requires b % Width(coarse) == 0
    ensures var rows := Built(Complete(es), round);
            SameRange(Lookup(rows, Key(instrument, coarse, b)), Merged(rows, instrument, fine, b, Ratio(fine, coarse)))
  {
    FinerDivides(b, coarse, fine);
    CoarseEnd(b, fine, coarse);
    MergedRange(es, round, instrument, fine, coarse, b, Ratio(fine, coarse));
    CompleteTable(es, round, Key(instrument, coarse, b));
    CoarsePrices(es, instrument, fine, coarse, b);
  }

  const LATE := Event("BTC-USD", 2.0, Utc(60_000_000))
  const EARLY := Event("BTC-USD", 1.0, Utc(0))

  /**
   * An event that is late by a whole fine bucket breaks the roll-up: the 5m bar opens with the first arrival, the
   * merged 1m bars with the earliest. Module ArrivalOrder says exactly when that happens.
   */
  lemma LateEventBreaksRollUp(round: real -> real)
    requires StorageRounding(round)
    ensures var rows := Built(Complete([LATE, EARLY]), round);
            var coarse, merged := Lookup(rows, Key("BTC-USD", M5, 0)), Merged(rows, "BTC-USD", M1, 0, Ratio(M1, M5));
            coarse.Some? && merged.Some? && coarse.value.open == round(2.0) && merged.value.open == round(1.0)
  {
    assert KeyOf(LATE, M5) == KeyOf(EARLY, M5) == Key("BTC-USD", M5, 0);
    TwoEvents(LATE, EARLY, Key("BTC-USD", M5, 0));
    CompleteTable([LATE, EARLY], round, Key("BTC-USD", M5, 0));
    assert KeyOf(LATE, M1) != KeyOf(EARLY, M1) == Key("BTC-USD", M1, 0);
    TwoEvents(LATE, EARLY, Key("BTC-USD", M1, 0));
    CompleteTable([LATE, EARLY], round, Key("BTC-USD", M1, 0));
    MergedOpensFirst(Built(Complete([LATE, EARLY]), round), "BTC-USD", M1, 0, Ratio(M1, M5));
  }

  lemma TwoEvents(a: Event, b: Event, k: Key)
    ensures PricesFor([a, b], k)
         == (if KeyOf(a, k.interval) == k then [a.mid] else []) + (if KeyOf(b, k.interval) == k then [b.mid] else [])
  {
    assert [a, b] == [a] + [b];
    PricesConcat([a], [b], k.instrument, k.interval, k.bucket, k.bucket + 1);
    PricesOfOne(a, k.instrument, k.interval, k.bucket, k.bucket + 1);
    PricesOfOne(b, k.instrument, k.interval, k.bucket, k.bucket + 1);
    BelongsByKey(a, k);
    BelongsByKey(b, k);
  }

  /** If the first bucket has a bar, the merged bar opens where that one does. */
  lemma {:induction false} MergedOpensFirst(rows: Table, instrument: string, i: Interval, start: int, n: nat)
    requires n > 0 && Key(instrument, i, start) in rows
    ensures Merged(rows, instrument, i, start, n).Some?
    ensures Merged(rows, instrument, i, start, n).value.open == rows[Key(instrument, i, start)].open
  {
    if n > 1 {
      MergedOpensFirst(rows, instrument, i, start, n - 1);
    } else {
      assert Merged(rows, instrument, i, start, 0) == None;
    }
  }

  // ----- Partitions -----

  function ForInstrument(es: seq<Event>, instrument: string): seq<Event> {
    if es == [] then [] else
    var e := es[|es| - 1];
    ForInstrument(es[..|es| - 1], instrument) + if e.instrument == instrument then [e] else []
  }

  lemma {:induction false} PricesOfInstrument(es: seq<Event>, k: Key)
    ensures PricesFor(es, k) == PricesFor(ForInstrument(es, k.instrument), k)
  {
    if es != [] {
      var init, e := es[..|es| - 1], es[|es| - 1];
      PricesOfInstrument(init, k);
      var more := if e.instrument == k.instrument then [e] else [];
      PricesConcat(ForInstrument(init, k.instrument), more, k.instrument, k.interval, k.bucket, k.bucket + 1);
      PricesOfOne(e, k.instrument, k.interval, k.bucket, k.bucket + 1);
    }
  }

  /**
   * Two logs that order each instrument's events alike build the same table, however they interleave the instruments.
   */
  lemma PartitionIndependence(a: seq<Event>, b: seq<Event>, round: real -> real)
    requires StorageRounding(round)
    requires forall instrument :: ForInstrument(a, instrument) == ForInstrument(b, instrument)
    ensures Built(Complete(a), round) == Built(Complete(b), round)
  {
    var rows, rows' := Built(Complete(a), round), Built(Complete(b), round);
    forall k ensures Lookup(rows, k) == Lookup(rows', k) {
      CompleteTable(a, round, k);
      CompleteTable(b, round, k);
      PricesOfInstrument(a, k);
      PricesOfInstrument(b, k);
    }
    assert forall k :: k in rows <==> Lookup(rows, k).Some?;
    assert forall k :: k in rows' <==> Lookup(rows', k).Some?;
    assert rows.Keys == rows'.Keys;
    forall k | k in rows ensures rows[k] == rows'[k] {
      assert Lookup(rows, k) == Lookup(rows', k);
    }
  }
}
