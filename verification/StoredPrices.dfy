/** Consolidated prices as they are published, and as rows with ten decimal places give them back. */
module StoredPrices {
  import opened Numbers
  import opened Aggregator
  import opened Rounding

  /** A row that some round of consolidation produced. */
  ghost predicate Published(r: Consolidated) {
    exists quotes, clock, maxAge :: |clock| == |quotes| && Consolidate(quotes, clock, maxAge) == Some(r)
  }

  lemma PublishedSpread(r: Consolidated)
    requires Published(r)
    ensures r.mid > 0.0 && 0.0 <= r.SpreadBps() < 20000.0
  {
    var quotes, clock, maxAge :| |clock| == |quotes| && Consolidate(quotes, clock, maxAge) == Some(r);
    SpreadBound(quotes, clock, maxAge);
  }

  /** One in the last of the ten places of a price column. */
  const UNIT := 1.0 / SCALE

  /** A published price as its row gives it back. */
  function StoredPrice(c: Consolidated): Consolidated {
    c.(mid := TenPlaces(c.mid), bid := TenPlaces(c.bid), ask := TenPlaces(c.ask))
  }

  ghost predicate Stored(r: Consolidated) {
    exists c :: Published(c) && r == StoredPrice(c)
  }

  /**
   * The rows that reach 20000: the rounding made the bid vanish and left an ask of twice the mid or more, or one, one
   * and three units.
   */
  predicate Dust(r: Consolidated) {
    (r.bid == 0.0 && r.ask >= 2.0 * r.mid) || (r.bid == r.mid == UNIT && r.ask == 3.0 * UNIT)
  }

  /**
   * Rounding to ten places can break the bound of 20000 basis points, by as much as the rounding of one unit does to a
   * row with that mid: to 30000 at a mid of one unit, and hardly at all at ordinary prices. Exactly the dust rows reach
   * 20000.
   */
  lemma StoredSpreadBound(r: Consolidated)
    requires Stored(r)
    ensures 0.0 <= r.bid <= r.mid <= r.ask <= 2.0 * r.mid + UNIT
    ensures r.mid > 0.0 ==> 0.0 <= r.SpreadBps() <= SpreadLimit(r.mid) <= 30000.0
    ensures r.mid > 0.0 ==> (SpreadLimit(r.mid) == 30000.0 <==> r.mid == UNIT)
    ensures r.mid > 0.0 ==> (r.SpreadBps() < 20000.0 <==> !Dust(r))
  {
    StoredBook(r);
    if r.mid > 0.0 {
      SpreadOfRow(r);
    }
  }

  /** In basis points: twice the mid, and one unit. */
  function SpreadLimit(mid: real): real
    requires mid > 0.0
  {
    20000.0 + UNIT / mid * 10000.0
  }

  lemma SpreadOfRow(r: Consolidated)
    requires 0.0 <= r.bid <= r.mid <= r.ask <= 2.0 * r.mid + UNIT && UNIT <= r.mid
    ensures 0.0 < r.mid && 0.0 <= r.SpreadBps() <= SpreadLimit(r.mid) <= 30000.0
    ensures SpreadLimit(r.mid) == 30000.0 <==> r.mid == UNIT
    ensures r.SpreadBps() < 20000.0 <==> r.ask - r.bid < 2.0 * r.mid
  {
    assert UNIT > 0.0;
    SpreadWithin(r.ask - r.bid, r.mid, UNIT);
  }

  lemma StoredBook(r: Consolidated)
    requires Stored(r)
    ensures 0.0 <= r.bid <= r.mid <= r.ask <= 2.0 * r.mid + UNIT
    ensures r.mid > 0.0 ==> UNIT <= r.mid
    ensures r.mid > 0.0 ==> (r.ask - r.bid < 2.0 * r.mid <==> !Dust(r))
  {
    var c :| Published(c) && r == StoredPrice(c);
    PublishedShape(c);
    RoundedBook(r, c.bid, c.mid, c.ask);
  }

  /** The stored row in terms of its three prices. */
  lemma RoundedBook(r: Consolidated, bid: real, mid: real, ask: real)
    requires r.bid == TenPlaces(bid) && r.mid == TenPlaces(mid) && r.ask == TenPlaces(ask)
    requires 0.0 < bid <= mid <= ask < 2.0 * mid
    requires 2.0 * mid == bid + ask || mid == ask || mid == bid
    ensures 0.0 <= r.bid <= r.mid <= r.ask <= 2.0 * r.mid + UNIT
    ensures r.mid > 0.0 ==> UNIT <= r.mid
    ensures r.mid > 0.0 ==> (r.ask - r.bid < 2.0 * r.mid <==> !Dust(r))
  {
    UnitsOfBook(bid * SCALE, mid * SCALE, ask * SCALE);
    RowOfUnits(r, Nearest(bid * SCALE), Nearest(mid * SCALE), Nearest(ask * SCALE));
  }

  /** A published ask is below twice the mid, and the mid is halfway or one side of the book. */
  lemma PublishedShape(c: Consolidated)
    requires Published(c)
    ensures 0.0 < c.bid <= c.mid <= c.ask < 2.0 * c.mid
    ensures 2.0 * c.mid == c.bid + c.ask || c.mid == c.ask || c.mid == c.bid
  {
    var quotes, clock, maxAge :| |clock| == |quotes| && Consolidate(quotes, clock, maxAge) == Some(c);
    SpreadBound(quotes, clock, maxAge);
    CandidatesArePositive(quotes, clock, maxAge);
    var cs := Candidates(quotes, clock, maxAge);
    if Crossed(cs) {
      MeanOfMidsAboveHalfAsk(cs);
    }
  }

  /** The same in whole units, after rounding. */
  lemma UnitsOfBook(bid: real, mid: real, ask: real)
    requires 0.0 < bid <= mid <= ask < 2.0 * mid
    requires 2.0 * mid == bid + ask || mid == ask || mid == bid
    ensures var b, m, a := Nearest(bid), Nearest(mid), Nearest(ask);
            && 0 <= b <= m <= a <= 2 * m + 1
            && (m > 0 ==> (a - b >= 2 * m <==> (b == 0 && a >= 2 * m) || (b == 1 && m == 1 && a == 3)))
  {
    NearestIsMonotone(bid, mid);
    NearestIsMonotone(mid, ask);
  }

  /** Back from units: all of this is linear. */
  lemma RowOfUnits(r: Consolidated, b: int, m: int, a: int)
    requires r.bid == b as real / SCALE && r.mid == m as real / SCALE && r.ask == a as real / SCALE
    requires 0 <= b <= m <= a <= 2 * m + 1
    requires m > 0 ==> (a - b >= 2 * m <==> (b == 0 && a >= 2 * m) || (b == 1 && m == 1 && a == 3))
    ensures 0.0 <= r.bid <= r.mid <= r.ask <= 2.0 * r.mid + UNIT
    ensures r.mid > 0.0 ==> UNIT <= r.mid
    ensures r.mid > 0.0 ==> (r.ask - r.bid < 2.0 * r.mid <==> !Dust(r))
  {
  }

  lemma SpreadWithin(spread: real, mid: real, unit: real)
    requires 0.0 <= spread <= 2.0 * mid + unit && 0.0 < unit <= mid
    ensures 0.0 <= spread / mid * 10000.0 <= 20000.0 + unit / mid * 10000.0 <= 30000.0
    ensures 20000.0 + unit / mid * 10000.0 == 30000.0 <==> mid == unit
    ensures spread / mid * 10000.0 < 20000.0 <==> spread < 2.0 * mid
  {
    var share := unit / mid;
    assert share * mid == unit;
    if mid == unit {
      QuotientIs(unit, mid, 1.0);
    } else {
      QuotientBelow(unit, mid, 1.0);
    }
    QuotientWithin(spread, mid, 2.0 + share);
    QuotientBelowTwo(spread, mid, spread / mid);
  }

  lemma QuotientBelowTwo(x: real, n: real, quotient: real)
    requires n > 0.0 && quotient * n == x
    ensures quotient < 2.0 <==> x < 2.0 * n
  {
    if quotient < 2.0 {
      ScaleLess(quotient, 2.0, n);
    }
  }

  // ----- Rows that reach the bound -----

  /**
   * At a mid of any number n of units the bound is reached: a quote of a tenth of a unit against 2n and six tenths. The
   * bid vanishes, and the stored row shows 20000 basis points and 10000 shared among n. So dust can have any size of
   * ask.
   */
  lemma DustRow(n: nat) returns (r: Consolidated)
    requires n > 0
    ensures Stored(r) && r.bid == 0.0 && r.mid == n as real * UNIT && r.ask == 2.0 * r.mid + UNIT
    ensures r.mid > 0.0 && r.SpreadBps() == SpreadLimit(r.mid)
  {
    var bid, ask := 0.1 / SCALE, ((2 * n) as real + 0.6) / SCALE;
    var q := Quote("binance", bid, ask, 0);
    var c := ConsolidateCandidates([q]);
    SingleQuote(q);
    SingleQuoteIsPublished(q);
    r := StoredPrice(c);
    assert Stored(r);
    DustPrices(n, bid, c.mid, ask);
    SpreadOfDust(r.ask, r.mid);
  }

  lemma DustPrices(n: nat, bid: real, mid: real, ask: real)
    requires n > 0 && bid == 0.1 / SCALE && ask == ((2 * n) as real + 0.6) / SCALE && mid == (bid + ask) / 2.0
    ensures TenPlaces(bid) == 0.0 && TenPlaces(mid) == n as real * UNIT && TenPlaces(mid) > 0.0
    ensures TenPlaces(ask) == 2.0 * TenPlaces(mid) + UNIT
  {
    assert bid * SCALE == 0.1 && ask * SCALE == (2 * n) as real + 0.6 && mid * SCALE == n as real + 0.35;
    assert Nearest(0.1) == 0 && Nearest(n as real + 0.35) == n && Nearest((2 * n) as real + 0.6) == 2 * n + 1;
  }

  lemma SpreadOfDust(ask: real, mid: real)
    requires mid > 0.0 && ask == 2.0 * mid + UNIT
    ensures (ask - 0.0) / mid * 10000.0 == SpreadLimit(mid)
  {
    assert UNIT / mid * mid == UNIT;
    QuotientIs(ask, mid, 2.0 + UNIT / mid);
  }

  lemma SingleQuote(q: Quote)
    requires q.bid <= q.ask
    ensures var c := ConsolidateCandidates([q]);
            c.bid == q.bid && c.ask == q.ask && c.mid == (q.bid + q.ask) / 2.0
  {
    assert q in [q];
    assert BestBid([q]) == q.bid && BestAsk([q]) == q.ask;
  }

  lemma SingleQuoteIsPublished(q: Quote)
    requires Positive(q) && q.timestamp == 0
    ensures Published(ConsolidateCandidates([q]))
  {
    assert [q][..0] == [] && [0][..0] == [];
    var clock := [0];
    assert Candidates([q], clock, 0) == [q];
    assert Consolidate([q], clock, 0) == Some(ConsolidateCandidates([q]));
  }
}
