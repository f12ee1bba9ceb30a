/** Rolling statistics over a window of consolidated prices. */
module Stats {
  import opened Numbers
  import opened Aggregator
  import opened StoredPrices

  /** The statistics of a non-empty window; the averages of relative spreads exist only if some mid is positive. */
  datatype RollingStats = RollingStats(samples: nat, lastMid: Option<real>, avgMid: Option<real>, minMid: Option<real>,
                                       maxMid: Option<real>, variance: Option<real>, avgSpreadBps: Option<real>)

  const NO_STATS := RollingStats(0, None, None, None, None, None, None)

  function MidsOf(rows: seq<Consolidated>): seq<real> {
    seq(|rows|, j requires 0 <= j < |rows| => rows[j].mid)
  }

  function Square(x: real): real {
    x * x
  }

  /** The distances from c. */
  function Distances(xs: seq<real>, c: real): seq<real> {
    seq(|xs|, j requires 0 <= j < |xs| => xs[j] - c)
  }

  function Squares(xs: seq<real>): seq<real> {
    seq(|xs|, j requires 0 <= j < |xs| => Square(xs[j]))
  }

  /** The population variance, the square of what pstdev computes. */
  function Variance(xs: seq<real>): real
    requires xs != []
  {
    Mean(Squares(Distances(xs, Mean(xs))))
  }

  /** The relative spreads of the rows with a positive mid. */
  function Spreads(rows: seq<Consolidated>): seq<real> {
    if rows == [] then [] else
    var r := rows[|rows| - 1];
    Spreads(rows[..|rows| - 1]) + if r.mid > 0.0 then [r.SpreadBps()] else []
  }

  // ----- The variance bound -----

  /** The product of the distances to the two ends. */
  function Room(x: real, lo: real, hi: real): real {
    (hi - x) * (x - lo)
  }

  function Rooms(xs: seq<real>, lo: real, hi: real): seq<real> {
    seq(|xs|, j requires 0 <= j < |xs| => Room(xs[j], lo, hi))
  }

  lemma {:induction false} SumNonNegative(xs: seq<real>)
    requires forall j | 0 <= j < |xs| :: xs[j] >= 0.0
    ensures Sum(xs) >= 0.0
  {
    if xs != [] {
      SumNonNegative(xs[..|xs| - 1]);
    }
  }

  function Scaled(x: real, k: real): real {
    k * x
  }

  function Times(xs: seq<real>, k: real): seq<real> {
    seq(|xs|, j requires 0 <= j < |xs| => Scaled(xs[j], k))
  }

  lemma {:induction false} SumOfTimes(xs: seq<real>, k: real)
    ensures Sum(Times(xs, k)) == k * Sum(xs)
  {
    if xs != [] {
      var n := |xs| - 1;
      SumOfTimes(xs[..n], k);
      assert Times(xs, k)[..n] == Times(xs[..n], k);
      Spread(k, Sum(xs[..n]), xs[n]);
    }
  }

  lemma Spread(k: real, s: real, x: real)
    ensures k * (s + x) == k * s + k * x
  {
  }

  /** A linear relation between terms holds between their sums. */
  lemma {:induction false} SumOfTerms(ds: seq<real>, ss: seq<real>, us: seq<real>, room: real)
    requires |ds| == |ss| == |us|
    requires forall j | 0 <= j < |ds| :: ds[j] + ss[j] == us[j] + room
    ensures Sum(ds) + Sum(ss) == Sum(us) + room * |ds| as real
  {
    if ds != [] {
      var n := |ds| - 1;
      SumOfTerms(ds[..n], ss[..n], us[..n], room);
      Distribute(room, n as real);
    }
  }

  lemma {:induction false} DistancesAddUp(xs: seq<real>, c: real)
    ensures Sum(Distances(xs, c)) == Sum(xs) - c * |xs| as real
  {
    if xs != [] {
      var n := |xs| - 1;
      DistancesAddUp(xs[..n], c);
      assert Distances(xs, c)[..n] == Distances(xs[..n], c);
      Distribute(c, n as real);
    }
  }

  /** The distances from the mean cancel out. */
  lemma MeanBalances(xs: seq<real>)
    requires xs != []
    ensures Sum(Distances(xs, Mean(xs))) == 0.0
  {
    DistancesAddUp(xs, Mean(xs));
  }

  lemma TermIdentity(x: real, c: real, lo: real, hi: real)
    ensures Square(x - c) + Room(x, lo, hi) == (lo + hi - 2.0 * c) * (x - c) + Room(c, lo, hi)
  {
  }

  lemma RoomNonNegative(x: real, lo: real, hi: real)
    requires lo <= x <= hi
    ensures Room(x, lo, hi) >= 0.0
  {
  }

  /**
   * In any window the mean lies between the extremes, and the variance is at most (max - mean)(mean - min), hence at
   * most a quarter of the squared range.
   */
  lemma VarianceBound(xs: seq<real>)
    requires xs != []
    ensures var avg, lo, hi := Mean(xs), MinOf(xs), MaxOf(xs);
            && lo <= avg <= hi
            && 0.0 <= Variance(xs) <= Room(avg, lo, hi) <= Square(hi - lo) / 4.0
  {
    var avg, lo, hi := Mean(xs), MinOf(xs), MaxOf(xs);
    assert forall j | 0 <= j < |xs| :: xs[j] in xs;
    MeanWithinExtremes(xs);
    MeanBalances(xs);
    DeviationBound(xs, avg, lo, hi, lo + hi - 2.0 * avg, Room(avg, lo, hi));
    QuarterOfRange(avg, lo, hi);
  }

  lemma DeviationBound(xs: seq<real>, c: real, lo: real, hi: real, k: real, room: real)
    requires xs != [] && Between(xs, lo, hi) && Sum(Distances(xs, c)) == 0.0
    requires k == lo + hi - 2.0 * c && room == Room(c, lo, hi)
    ensures 0.0 <= Mean(Squares(Distances(xs, c))) <= room
  {
    var ts := Distances(xs, c);
    var ds, ss, us := Squares(ts), Rooms(xs, lo, hi), Times(ts, k);
    forall j | 0 <= j < |xs| ensures ds[j] + ss[j] == us[j] + room && ds[j] >= 0.0 && ss[j] >= 0.0 {
      TermOfSums(xs[j], c, lo, hi, k, room);
    }
    SumOfTimes(ts, k);
    NoShare(Sum(ts), k);
    MeanWithin(ds, ss, us, room);
  }

  lemma TermOfSums(x: real, c: real, lo: real, hi: real, k: real, room: real)
    requires lo <= x <= hi && k == lo + hi - 2.0 * c && room == Room(c, lo, hi)
    ensures Square(x - c) + Room(x, lo, hi) == Scaled(x - c, k) + room
    ensures Square(x - c) >= 0.0 && Room(x, lo, hi) >= 0.0
  {
    TermIdentity(x, c, lo, hi);
    RoomNonNegative(x, lo, hi);
    SquareNonNegative(x - c);
  }

  lemma MeanWithin(ds: seq<real>, ss: seq<real>, us: seq<real>, room: real)
    requires |ds| == |ss| == |us| > 0 && Sum(us) == 0.0
    requires forall j | 0 <= j < |ds| :: ds[j] + ss[j] == us[j] + room && ds[j] >= 0.0 && ss[j] >= 0.0
    ensures 0.0 <= Mean(ds) <= room
  {
    SumOfTerms(ds, ss, us, room);
    SumNonNegative(ds);
    SumNonNegative(ss);
    QuotientWithin(Sum(ds), |ds| as real, room);
  }

  lemma NoShare(t: real, k: real)
    requires t == 0.0
    ensures k * t == 0.0
  {
  }

  lemma SquareNonNegative(x: real)
    ensures Square(x) >= 0.0
  {
  }

  lemma QuarterOfRange(c: real, lo: real, hi: real)
    ensures Room(c, lo, hi) <= Square(hi - lo) / 4.0
  {
    var gap := (hi - c) - (c - lo);
    SquareNonNegative(gap);
    assert Square(hi - lo) - 4.0 * Room(c, lo, hi) == Square(gap);
  }

  // ----- The average spread -----

  lemma {:induction false} SpreadsBelow(rows: seq<Consolidated>)
    requires forall r | r in rows :: Published(r)
    ensures |Spreads(rows)| == |rows|
    ensures forall x | x in Spreads(rows) :: 0.0 <= x < 20000.0
  {
    if rows != [] {
      var init, r := rows[..|rows| - 1], rows[|rows| - 1];
      assert rows == init + [r];
      SpreadsBelow(init);
      PublishedSpread(r);
    }
  }

  /**
   * Over rows that consolidation produced, the average spread exists and lies, like every single one, in [0, 20000).
   */
  lemma AverageSpreadBound(rows: seq<Consolidated>)
    requires rows != [] && forall r | r in rows :: Published(r)
    ensures Spreads(rows) != [] && 0.0 <= Mean(Spreads(rows)) < 20000.0
  {
    SpreadsBelow(rows);
    var xs := Spreads(rows);
    MeanWithinExtremes(xs);
  }

  lemma {:induction false} SpreadsOfPositiveMids(rows: seq<Consolidated>)
    ensures Spreads(rows) != [] <==> exists r | r in rows :: r.mid > 0.0
    ensures forall x | x in Spreads(rows) :: exists r | r in rows :: r.mid > 0.0 && r.SpreadBps() == x
  {
    if rows != [] {
      var init, last := rows[..|rows| - 1], rows[|rows| - 1];
      assert rows == init + [last];
      SpreadsOfPositiveMids(init);
    }
  }

  /** The average over stored rows keeps the bounds of its terms. */
  lemma AverageOfStored(rows: seq<Consolidated>)
    requires Spreads(rows) != []
    ensures (forall r | r in rows :: Stored(r)) ==>
              && 0.0 <= Mean(Spreads(rows)) <= 30000.0
              && ((forall r | r in rows && r.mid > 0.0 :: !Dust(r)) ==> Mean(Spreads(rows)) < 20000.0)
  {
    var xs := Spreads(rows);
    MeanWithinExtremes(xs);
    SpreadsOfPositiveMids(rows);
    if forall r | r in rows :: Stored(r) {
      var least :| least in rows && least.mid > 0.0 && least.SpreadBps() == MinOf(xs);
      var greatest :| greatest in rows && greatest.mid > 0.0 && greatest.SpreadBps() == MaxOf(xs);
      StoredSpreadBound(least);
      StoredSpreadBound(greatest);
    }
  }

  // ----- The window -----

  /** A stored consolidated price with the columns that the query looks at; the timestamp is in microseconds. */
  datatype PriceRecord = PriceRecord(instrument: string, timestamp: int, price: Consolidated)

  function WindowStart(now: int, seconds: int): int {
    now - seconds * 1_000_000
  }

  predicate Selects(r: PriceRecord, instrument: string, since: int) {
    r.instrument == instrument && r.timestamp >= since
  }

  /**
   * What the query may return: the selected rows, each as often as the table has it, in the order of their timestamps.
   */
  ghost predicate Answers(records: seq<PriceRecord>, table: seq<PriceRecord>, instrument: string, since: int) {
    && InOrder(records)
    && forall r :: multiset(records)[r] == if Selects(r, instrument, since) then multiset(table)[r] else 0
  }

  predicate InOrder(records: seq<PriceRecord>) {
    forall i, j | 0 <= i < j < |records| :: records[i].timestamp <= records[j].timestamp
  }

  function PricesIn(records: seq<PriceRecord>): seq<Consolidated> {
    seq(|records|, j requires 0 <= j < |records| => records[j].price)
  }

  lemma AnswersHold(records: seq<PriceRecord>, table: seq<PriceRecord>, instrument: string, since: int)
    requires Answers(records, table, instrument, since)
    ensures forall r :: r in records <==> r in table && Selects(r, instrument, since)
  {
    forall r ensures r in records <==> r in table && Selects(r, instrument, since) {
      assert r in records <==> r in multiset(records);
      assert r in table <==> r in multiset(table);
    }
  }

  lemma NothingSelected(records: seq<PriceRecord>, table: seq<PriceRecord>, instrument: string, since: int)
    requires Answers(records, table, instrument, since)
    ensures records == [] <==> forall r | r in table && r.instrument == instrument :: r.timestamp < since
  {
    AnswersHold(records, table, instrument, since);
    if records != [] {
      assert records[0] in records;
    }
  }

  /** The last mid is that of a newest selected row, and the mids of all of them lie between the extremes. */
  ghost predicate DescribesWindow(s: RollingStats, table: seq<PriceRecord>, instrument: string, since: int) {
    && s.lastMid.Some? && s.minMid.Some? && s.maxMid.Some?
    && (forall r | r in table && r.instrument == instrument && r.timestamp >= since ::
          s.minMid.value <= r.price.mid <= s.maxMid.value)
    && (exists newest | newest in table && newest.instrument == instrument && newest.timestamp >= since ::
          && newest.price.mid == s.lastMid.value
          && forall r | r in table && r.instrument == instrument && r.timestamp >= since ::
               r.timestamp <= newest.timestamp)
  }

  lemma WindowDescribed(s: RollingStats, table: seq<PriceRecord>, instrument: string, since: int,
                        records: seq<PriceRecord>)
    requires Answers(records, table, instrument, since) && records != []
    requires s.lastMid == Some(records[|records| - 1].price.mid) && DescribesMids(s, PricesIn(records))
    ensures DescribesWindow(s, table, instrument, since)
  {
    AnswersHold(records, table, instrument, since);
    var newest := records[|records| - 1];
    forall r | r in records ensures r.timestamp <= newest.timestamp && s.minMid.value <= r.price.mid <= s.maxMid.value {
      var j :| 0 <= j < |records| && records[j] == r;
      assert PricesIn(records)[j] in PricesIn(records);
    }
    assert newest in records;
  }

  /** Every table has an answer. */
  lemma {:induction false} AnswerExists(table: seq<PriceRecord>, instrument: string,
                                        since: int) returns (records: seq<PriceRecord>)
    ensures Answers(records, table, instrument, since)
  {
    if table == [] {
      records := [];
    } else {
      var init, last := table[..|table| - 1], table[|table| - 1];
      assert table == init + [last];
      records := AnswerExists(init, instrument, since);
      if Selects(last, instrument, since) {
        records := InsertInOrder(records, last);
      }
    }
  }

  lemma {:induction false} InsertInOrder(records: seq<PriceRecord>, r: PriceRecord) returns (more: seq<PriceRecord>)
    requires InOrder(records)
    ensures InOrder(more) && multiset(more) == multiset(records) + multiset{r}
  {
    if records == [] || records[|records| - 1].timestamp <= r.timestamp {
      more := records + [r];
    } else {
      var front, last := records[..|records| - 1], records[|records| - 1];
      assert records == front + [last];
      var longer := InsertInOrder(front, r);
      NotAfter(longer, front, r, last);
      more := longer + [last];
    }
  }

  lemma NotAfter(longer: seq<PriceRecord>, front: seq<PriceRecord>, r: PriceRecord, last: PriceRecord)
    requires multiset(longer) == multiset(front) + multiset{r}
    requires InOrder(front + [last]) && r.timestamp <= last.timestamp
    ensures forall x | x in longer :: x.timestamp <= last.timestamp
  {
    forall x | x in longer ensures x.timestamp <= last.timestamp {
      assert x in multiset(longer);
      if x != r {
        assert x in multiset(front);
        var j :| 0 <= j < |front| && front[j] == x;
        assert (front + [last])[j] == x && (front + [last])[|front|] == last;
      }
    }
  }

  // ----- The computation -----

  /** The statistics of the rows that the query for the last so many seconds returned. */
  method ComputeRollingStats(ghost table: seq<PriceRecord>, ghost instrument: string, ghost now: int,
                             ghost windowSeconds: int, records: seq<PriceRecord>)
    returns (s: RollingStats)
    requires Answers(records, table, instrument, WindowStart(now, windowSeconds))
    ensures s == NO_STATS
            <==> forall r | r in table && r.instrument == instrument :: r.timestamp < now - windowSeconds * 1_000_000
    ensures s.samples == |records|
    ensures records != [] ==> DescribesWindow(s, table, instrument, now - windowSeconds * 1_000_000)
    ensures records != [] ==> DescribesMids(s, PricesIn(records)) && DescribesVariance(s, PricesIn(records))
    ensures DescribesSpreads(s.avgSpreadBps, PricesIn(records))
  {
    ghost var since := WindowStart(now, windowSeconds);
    var rows := PricesIn(records);
    NothingSelected(records, table, instrument, since);
    if rows == [] {
      return NO_STATS;
    }
    var mids := MidsOf(rows);
    var spreadsBps: seq<real> := [];
    for i := 0 to |rows|
      invariant spreadsBps == Spreads(rows[..i])
    {
      assert rows[..i + 1][..i] == rows[..i];
      if rows[i].mid > 0.0 {
        spreadsBps := spreadsBps + [rows[i].SpreadBps()];
      }
    }
    assert rows[..|rows|] == rows;
    var avgSpread := None;
    if spreadsBps != [] {
      avgSpread := Some(Mean(spreadsBps));
    }
    SpreadsDescribed(avgSpread, rows);
    s := RollingStats(|rows|, Some(mids[|mids| - 1]), Some(Mean(mids)), Some(MinOf(mids)), Some(MaxOf(mids)),
                      Some(Variance(mids)), avgSpread);
    MidsDescribed(s, rows);
    WindowDescribed(s, table, instrument, since, records);
  }

  /** The value is bounded by the distances of c from the two ends, and by a quarter of the squared range. */
  predicate WithinRoom(v: real, c: real, lo: real, hi: real) {
    0.0 <= v <= (hi - c) * (c - lo) && v <= (hi - lo) * (hi - lo) / 4.0
  }

  lemma VarianceWithinRoom(xs: seq<real>)
    requires xs != []
    ensures MinOf(xs) <= Mean(xs) <= MaxOf(xs)
    ensures WithinRoom(Variance(xs), Mean(xs), MinOf(xs), MaxOf(xs))
  {
    VarianceBound(xs);
  }

  /** The values are the mids of the rows. */
  predicate AreMids(xs: seq<real>, rows: seq<Consolidated>) {
    |xs| == |rows| && forall j | 0 <= j < |xs| :: xs[j] == rows[j].mid
  }

  /** The values are the squared distances of the rows' mids from c. */
  predicate AreDeviations(ds: seq<real>, rows: seq<Consolidated>, c: real) {
    |ds| == |rows| && forall j | 0 <= j < |ds| :: ds[j] == (rows[j].mid - c) * (rows[j].mid - c)
  }

  /** The extremes are mids of rows and no row is beyond them; the average stands for the mids and lies between them. */
  ghost predicate DescribesMids(s: RollingStats, rows: seq<Consolidated>) {
    && s.minMid.Some? && (exists r | r in rows :: r.mid == s.minMid.value)
    && (forall r | r in rows :: s.minMid.value <= r.mid)
    && s.maxMid.Some? && (exists r | r in rows :: r.mid == s.maxMid.value)
    && (forall r | r in rows :: r.mid <= s.maxMid.value)
    && s.avgMid.Some? && (forall xs | AreMids(xs, rows) :: Averages(s.avgMid.value, xs))
    && s.minMid.value <= s.avgMid.value <= s.maxMid.value
  }

  /**
   * The variance stands for the squared distances from the average. The average's place between the extremes bounds it,
   * and it is zero exactly if all mids are the same.
   */
  ghost predicate DescribesVariance(s: RollingStats, rows: seq<Consolidated>) {
    && s.avgMid.Some? && s.minMid.Some? && s.maxMid.Some? && s.variance.Some?
    && (forall ds | AreDeviations(ds, rows, s.avgMid.value) :: Averages(s.variance.value, ds))
    && (s.variance.value == 0.0 <==> s.minMid.value == s.maxMid.value)
    && WithinRoom(s.variance.value, s.avgMid.value, s.minMid.value, s.maxMid.value)
  }

  /**
   * The average spread exists exactly if some mid is positive, and stands for the spreads of those rows. Over prices as
   * published it exists and is below 20000; over prices as stored it is at most 30000, and below 20000 without dust.
   */
  ghost predicate DescribesSpreads(avg: Option<real>, rows: seq<Consolidated>) {
    && (avg.Some? <==> exists r | r in rows :: r.mid > 0.0)
    && (avg.Some? ==> exists at, xs :: SpreadsAt(at, rows, xs) && Averages(avg.value, xs))
    && (rows != [] && (forall r | r in rows :: Published(r)) ==> avg.Some? && 0.0 <= avg.value < 20000.0)
    && (avg.Some? && (forall r | r in rows :: Stored(r)) ==>
          && 0.0 <= avg.value <= 30000.0
          && ((forall r | r in rows && r.mid > 0.0 :: !Dust(r)) ==> avg.value < 20000.0))
  }

  /**
   * The values are, in order, the relative spreads of the rows at these positions, which are those with a positive mid.
   */
  ghost predicate SpreadsAt(at: seq<nat>, rows: seq<Consolidated>, xs: seq<real>) {
    && Ascends(at) && |at| == |xs|
    && (forall k | 0 <= k < |at| :: at[k] < |rows| && IsSpread(xs[k], rows[at[k]]))
    && (forall j | 0 <= j < |rows| :: j in at <==> rows[j].mid > 0.0)
  }

  lemma {:induction false} SpreadsByPosition(rows: seq<Consolidated>) returns (at: seq<nat>)
    ensures SpreadsAt(at, rows, Spreads(rows))
  {
    if rows == [] {
      at := [];
    } else {
      var n := |rows| - 1;
      var before := SpreadsByPosition(rows[..n]);
      at := before + if rows[n].mid > 0.0 then [n] else [];
      OneMoreSpread(before, rows, Spreads(rows[..n]));
    }
  }

  lemma OneMoreSpread(at: seq<nat>, rows: seq<Consolidated>, xs: seq<real>)
    requires rows != [] && SpreadsAt(at, rows[..|rows| - 1], xs)
    ensures var n := |rows| - 1;
            SpreadsAt(at + (if rows[n].mid > 0.0 then [n] else []), rows,
                      xs + if rows[n].mid > 0.0 then [rows[n].SpreadBps()] else [])
  {
    var n := |rows| - 1;
    forall a | a in at ensures a < n {
      var k :| 0 <= k < |at| && at[k] == a;
    }
    if rows[n].mid > 0.0 {
      AscendsOn(at, n);
      SpreadTimesMid(rows[n].ask - rows[n].bid, rows[n].mid);
    } else {
      assert at + [] == at && xs + [] == xs;
    }
  }

  /** The value is the spread relative to the mid, in basis points. */
  predicate IsSpread(x: real, r: Consolidated) {
    x * r.mid == 10000.0 * (r.ask - r.bid)
  }

  lemma SpreadTimesMid(spread: real, mid: real)
    requires mid > 0.0
    ensures (spread / mid * 10000.0) * mid == 10000.0 * spread
  {
    var share := spread / mid;
    assert share * mid == spread;
    assert (share * 10000.0) * mid == 10000.0 * (share * mid);
  }

  lemma SpreadsDescribed(avg: Option<real>, rows: seq<Consolidated>)
    requires avg == if Spreads(rows) == [] then None else Some(Mean(Spreads(rows)))
    ensures DescribesSpreads(avg, rows)
  {
    SpreadsOfPositiveMids(rows);
    if Spreads(rows) != [] {
      MeanAverages(Spreads(rows));
      var at := SpreadsByPosition(rows);
      AverageOfStored(rows);
    }
    if rows != [] && forall r | r in rows :: Published(r) {
      AverageSpreadBound(rows);
    }
  }

  lemma MidsDescribed(s: RollingStats, rows: seq<Consolidated>)
    requires rows != []
    requires var mids := MidsOf(rows);
             && s.avgMid == Some(Mean(mids)) && s.minMid == Some(MinOf(mids)) && s.maxMid == Some(MaxOf(mids))
             && s.variance == Some(Variance(mids))
    ensures DescribesMids(s, rows) && DescribesVariance(s, rows)
  {
    var mids := MidsOf(rows);
    VarianceWithinRoom(mids);
    MeanAverages(mids);
    RowOfMid(rows, MinOf(mids));
    RowOfMid(rows, MaxOf(mids));
    forall r | r in rows ensures MinOf(mids) <= r.mid <= MaxOf(mids) {
      var j :| 0 <= j < |rows| && rows[j] == r;
      assert mids[j] in mids;
    }
    forall xs | AreMids(xs, rows) ensures xs == mids {
      assert forall j | 0 <= j < |xs| :: xs[j] == mids[j];
    }
    VarianceStandsForDeviations(rows, mids);
    NoVariance(mids);
  }

  lemma VarianceStandsForDeviations(rows: seq<Consolidated>, mids: seq<real>)
    requires rows != [] && mids == MidsOf(rows)
    ensures forall ds | AreDeviations(ds, rows, Mean(mids)) :: Averages(Variance(mids), ds)
  {
    var c := Mean(mids);
    var squares := Squares(Distances(mids, c));
    MeanAverages(squares);
    forall ds | AreDeviations(ds, rows, c) ensures ds == squares {
      forall j | 0 <= j < |ds| ensures ds[j] == squares[j] {
        assert Distances(mids, c)[j] == rows[j].mid - c;
      }
    }
  }

  /** Without variance all values are the mean, and so the extremes meet; and conversely. */
  lemma NoVariance(xs: seq<real>)
    requires xs != []
    ensures Variance(xs) == 0.0 <==> MinOf(xs) == MaxOf(xs)
  {
    var c := Mean(xs);
    VarianceBound(xs);
    if Variance(xs) == 0.0 {
      AllAtMean(xs, c);
    } else {
      NoRoom(c, MinOf(xs), MaxOf(xs), Variance(xs));
    }
  }

  lemma AllAtMean(xs: seq<real>, c: real)
    requires xs != [] && Mean(Squares(Distances(xs, c))) == 0.0
    ensures forall x | x in xs :: x == c
  {
    var squares := Squares(Distances(xs, c));
    MeanAverages(squares);
    forall j | 0 <= j < |squares| ensures squares[j] == Square(xs[j] - c) >= 0.0 {
      SquareNonNegative(xs[j] - c);
    }
    SumOfZeros(squares);
    forall x | x in xs ensures x == c {
      var j :| 0 <= j < |xs| && xs[j] == x;
      assert squares[j] == Square(x - c) == 0.0;
      NoSquare(x - c);
    }
  }

  lemma NoSquare(x: real)
    ensures Square(x) == 0.0 ==> x == 0.0
  {
    if x > 0.0 {
      PositiveProduct(x, x, Square(x));
    } else if x < 0.0 {
      PositiveProduct(-x, -x, Square(x));
    }
  }

  lemma PositiveProduct(x: real, y: real, product: real)
    requires x > 0.0 && y > 0.0 && product == x * y
    ensures product > 0.0
  {
  }

  lemma NoRoom(c: real, lo: real, hi: real, v: real)
    requires 0.0 <= v <= Room(c, lo, hi) && lo <= c <= hi && v != 0.0
    ensures lo != hi
  {
  }

  /** Terms that are not negative and add up to nothing are all nothing. */
  lemma {:induction false} SumOfZeros(xs: seq<real>)
    requires Sum(xs) == 0.0 && forall j | 0 <= j < |xs| :: xs[j] >= 0.0
    ensures forall j | 0 <= j < |xs| :: xs[j] == 0.0
  {
    if xs != [] {
      SumNonNegative(xs[..|xs| - 1]);
      SumOfZeros(xs[..|xs| - 1]);
    }
  }

  lemma RowOfMid(rows: seq<Consolidated>, mid: real)
    requires mid in MidsOf(rows)
    ensures exists r | r in rows :: r.mid == mid
  {
    var j :| 0 <= j < |rows| && MidsOf(rows)[j] == mid;
    assert rows[j] in rows;
  }
}
