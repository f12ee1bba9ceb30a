/** The scan for the largest cross-venue arbitrage in one round of quotes. */
module ArbitrageScan {
  import opened Numbers
  import opened Aggregator
  import Rounding

  datatype Arbitrage = Arbitrage(buyVenue: string, buyPrice: real, sellVenue: string, sellPrice: real,
                                 spread: real, spreadBps: real)

  function PositiveQuotes(qs: seq<Quote>): seq<Quote> {
    if qs == [] then [] else
    var n := |qs| - 1;
    PositiveQuotes(qs[..n]) + if Positive(qs[n]) then [qs[n]] else []
  }

  lemma {:induction false} PositiveQuotesHolds(qs: seq<Quote>)
    ensures forall q :: q in PositiveQuotes(qs) <==> q in qs && Positive(q)
  {
    if qs != [] {
      var n := |qs| - 1;
      assert qs == qs[..n] + [qs[n]];
      PositiveQuotesHolds(qs[..n]);
    }
  }

  function SpreadBps(buy: Quote, sell: Quote): real
    requires Positive(buy) && Positive(sell)
  {
    (sell.bid - buy.ask) / ((buy.ask + sell.bid) / 2.0) * 10000.0
  }

  /** The record of buying at one venue's ask and selling at another's bid. */
  function Trade(buy: Quote, sell: Quote): Arbitrage
    requires Positive(buy) && Positive(sell)
  {
    Arbitrage(buy.source, buy.ask, sell.source, sell.bid, sell.bid - buy.ask, SpreadBps(buy, sell))
  }

  /** Buying from quote i and selling to quote j, at another venue, earns something. */
  predicate Opportunity(qs: seq<Quote>, i: int, j: int) {
    0 <= i < |qs| && 0 <= j < |qs| && qs[i].source != qs[j].source && qs[j].bid > qs[i].ask
  }

  function Gain(qs: seq<Quote>, i: int, j: int): real
    requires 0 <= i < |qs| && 0 <= j < |qs|
  {
    qs[j].bid - qs[i].ask
  }

  predicate ScannedBefore(i: int, j: int, i': int, j': int) {
    i < i' || (i == i' && j < j')
  }

  /** The opportunity with the largest spread; among equals, the first one in scan order. */
  ghost predicate FirstBest(qs: seq<Quote>, i: int, j: int) {
    && Opportunity(qs, i, j)
    && (forall i', j' | Opportunity(qs, i', j') ::
          Gain(qs, i', j') <= Gain(qs, i, j) && (ScannedBefore(i', j', i, j) ==> Gain(qs, i', j') < Gain(qs, i, j)))
  }

  ghost predicate AllPositive(qs: seq<Quote>) {
    forall q | q in qs :: Positive(q)
  }

  /** What the scan reports of the positive quotes. */
  ghost predicate Reports(qs: seq<Quote>, r: Option<Arbitrage>)
    requires AllPositive(qs)
  {
    match r
    case None => forall i, j :: !Opportunity(qs, i, j)
    case Some(a) => exists i, j :: FirstBest(qs, i, j) && a == Trade(qs[i], qs[j])
  }

  /** What detect_arbitrage reports of a round: the scan of its positive quotes. */
  ghost predicate Detects(quotes: seq<Quote>, r: Option<Arbitrage>) {
    PositiveQuotesHolds(quotes);
    Reports(PositiveQuotes(quotes), r)
  }

  // ----- The report in terms of the round -----

  /** Two positive quotes of the round, at different venues, of which the second bids more than the first asks. */
  predicate Earning(quotes: seq<Quote>, i: int, j: int) {
    && 0 <= i < |quotes| && quotes[i].bid > 0.0 && quotes[i].ask > 0.0
    && 0 <= j < |quotes| && quotes[j].bid > 0.0 && quotes[j].ask > 0.0
    && quotes[i].source != quotes[j].source && quotes[j].bid > quotes[i].ask
  }

  /**
   * The report says to buy at the one quote's venue and ask and to sell at the other's venue and bid, and its basis
   * points relate the spread to the midpoint.
   */
  predicate Tells(a: Arbitrage, buy: Quote, sell: Quote) {
    && a.buyVenue == buy.source && a.buyPrice == buy.ask
    && a.sellVenue == sell.source && a.sellPrice == sell.bid
    && a.spread == a.sellPrice - a.buyPrice
    && a.spreadBps * (a.buyPrice + a.sellPrice) == 20000.0 * (a.sellPrice - a.buyPrice)
  }

  /** The report tells of quotes i and j. No other pair earns more, and none that comes earlier as much. */
  ghost predicate IsReport(quotes: seq<Quote>, i: int, j: int, a: Arbitrage) {
    && Earning(quotes, i, j)
    && Tells(a, quotes[i], quotes[j])
    && (forall i', j' | Earning(quotes, i', j') ::
          && quotes[j'].bid - quotes[i'].ask <= a.spread
          && (i' < i || (i' == i && j' < j) ==> quotes[j'].bid - quotes[i'].ask < a.spread))
  }

  /** The positions of the positive quotes in the round. */
  ghost predicate PlacesOf(quotes: seq<Quote>, qs: seq<Quote>, at: seq<nat>) {
    && Ascends(at) && |at| == |qs|
    && (forall k | 0 <= k < |at| :: at[k] < |quotes| && qs[k] == quotes[at[k]])
    && (forall j | 0 <= j < |quotes| :: j in at <==> quotes[j].bid > 0.0 && quotes[j].ask > 0.0)
  }

  lemma {:induction false} PositivePlaces(quotes: seq<Quote>) returns (at: seq<nat>)
    ensures PlacesOf(quotes, PositiveQuotes(quotes), at)
  {
    if quotes == [] {
      at := [];
    } else {
      var n := |quotes| - 1;
      var before := PositivePlaces(quotes[..n]);
      at := before + if Positive(quotes[n]) then [n] else [];
      OneMorePlace(quotes, PositiveQuotes(quotes[..n]), before);
    }
  }

  lemma OneMorePlace(quotes: seq<Quote>, qs: seq<Quote>, at: seq<nat>)
    requires quotes != [] && PlacesOf(quotes[..|quotes| - 1], qs, at)
    ensures var last := quotes[|quotes| - 1];
            PlacesOf(quotes, qs + (if Positive(last) then [last] else []),
                     at + if Positive(last) then [|quotes| - 1] else [])
  {
    var n := |quotes| - 1;
    forall a | a in at ensures a < n {
      var k :| 0 <= k < |at| && at[k] == a;
    }
    if Positive(quotes[n]) {
      AscendsOn(at, n);
    } else {
      assert at + [] == at && qs + [] == qs;
    }
  }

  lemma ReportInWords(quotes: seq<Quote>, r: Option<Arbitrage>)
    requires Detects(quotes, r)
    ensures r.None? <==> forall i, j :: !Earning(quotes, i, j)
    ensures r.Some? ==> exists i, j :: IsReport(quotes, i, j, r.value)
  {
    PositiveQuotesHolds(quotes);
    var qs := PositiveQuotes(quotes);
    var at := PositivePlaces(quotes);
    if r.Some? {
      SomethingToTell(quotes, qs, at, r.value);
    } else {
      NothingToTell(quotes, qs, at);
    }
  }

  lemma SomethingToTell(quotes: seq<Quote>, qs: seq<Quote>, at: seq<nat>, a: Arbitrage)
    requires PlacesOf(quotes, qs, at) && AllPositive(qs) && Reports(qs, Some(a))
    ensures exists i, j :: IsReport(quotes, i, j, a)
  {
    var b, s :| FirstBest(qs, b, s) && a == Trade(qs[b], qs[s]);
    assert qs[b] in qs && qs[s] in qs;
    TradeTells(qs[b], qs[s], a);
    ReportAt(quotes, qs, at, b, s, a);
  }

  lemma NothingToTell(quotes: seq<Quote>, qs: seq<Quote>, at: seq<nat>)
    requires PlacesOf(quotes, qs, at) && forall i, j :: !Opportunity(qs, i, j)
    ensures forall i, j :: !Earning(quotes, i, j)
  {
    forall i, j ensures !Earning(quotes, i, j) {
      if Earning(quotes, i, j) {
        var k, l := EarningPlaces(quotes, qs, at, i, j);
        assert false;
      }
    }
  }

  /** The pair (i, j) of the round is an opportunity among the positive quotes. */
  lemma EarningPlaces(quotes: seq<Quote>, qs: seq<Quote>, at: seq<nat>, i: int, j: int) returns (k: int, l: int)
    requires PlacesOf(quotes, qs, at) && Earning(quotes, i, j)
    ensures Opportunity(qs, k, l) && at[k] == i && at[l] == j
  {
    k :| 0 <= k < |at| && at[k] == i;
    l :| 0 <= l < |at| && at[l] == j;
  }

  lemma ReportAt(quotes: seq<Quote>, qs: seq<Quote>, at: seq<nat>, b: int, s: int, a: Arbitrage)
    requires PlacesOf(quotes, qs, at) && FirstBest(qs, b, s) && Tells(a, qs[b], qs[s])
    ensures IsReport(quotes, at[b], at[s], a)
  {
    assert at[b] in at && at[s] in at;
    forall i', j' | Earning(quotes, i', j')
      ensures quotes[j'].bid - quotes[i'].ask <= a.spread
      ensures i' < at[b] || (i' == at[b] && j' < at[s]) ==> quotes[j'].bid - quotes[i'].ask < a.spread
    {
      var k, l := EarningPlaces(quotes, qs, at, i', j');
      assert Gain(qs, k, l) <= Gain(qs, b, s);
    }
  }

  lemma TradeTells(buy: Quote, sell: Quote, a: Arbitrage)
    requires Positive(buy) && Positive(sell) && a == Trade(buy, sell)
    ensures Tells(a, buy, sell)
  {
    BpsOfMidpoint(buy.ask, sell.bid);
  }

  lemma BpsOfMidpoint(ask: real, bid: real)
    requires ask + bid > 0.0
    ensures ((bid - ask) / ((ask + bid) / 2.0) * 10000.0) * (ask + bid) == 20000.0 * (bid - ask)
  {
    var mid := (ask + bid) / 2.0;
    var share := (bid - ask) / mid;
    assert share * mid == bid - ask;
    assert ask + bid == 2.0 * mid;
    assert (share * 10000.0) * (2.0 * mid) == 20000.0 * (share * mid);
  }

  // ----- The scan -----

  /** The positions of the quotes to buy from and to sell to. */
  datatype Pair = Pair(buy: nat, sell: nat)

  predicate Earns(qs: seq<Quote>, best: Option<Pair>) {
    best.Some? ==> Opportunity(qs, best.value.buy, best.value.sell)
  }

  /** The best pair so far or, if it earns more, one more pair. */
  function Better(qs: seq<Quote>, i: nat, j: nat, best: Option<Pair>): Option<Pair>
    requires Earns(qs, best)
  {
    if Opportunity(qs, i, j) && (best.None? || Gain(qs, i, j) > Gain(qs, best.value.buy, best.value.sell))
    then Some(Pair(i, j)) else best
  }

  /** The scan from a pair on, given the best one before it. */
  function ScanFrom(qs: seq<Quote>, i: nat, j: nat, best: Option<Pair>): (r: Option<Pair>)
    requires i <= |qs| && j <= |qs| && Earns(qs, best)
    ensures Earns(qs, r)
    decreases |qs| - i, |qs| - j
  {
    if i == |qs| then best
    else if j == |qs| then ScanFrom(qs, i + 1, 0, best)
    else ScanFrom(qs, i, j + 1, Better(qs, i, j, best))
  }

  ghost function TradeOf(qs: seq<Quote>, best: Option<Pair>): Option<Arbitrage>
    requires AllPositive(qs) && Earns(qs, best)
  {
    if best.None? then None else
    assert qs[best.value.buy] in qs && qs[best.value.sell] in qs;
    Some(Trade(qs[best.value.buy], qs[best.value.sell]))
  }

  /** The report as a function of the quotes. */
  ghost function Detection(quotes: seq<Quote>): Option<Arbitrage> {
    PositiveQuotesHolds(quotes);
    TradeOf(PositiveQuotes(quotes), ScanFrom(PositiveQuotes(quotes), 0, 0, None))
  }

  method DetectArbitrage(quotes: seq<Quote>) returns (best: Option<Arbitrage>)
    ensures Detects(quotes, best) && best == Detection(quotes)
    ensures best.None? <==> forall i, j :: !Earning(quotes, i, j)
    ensures best.Some? ==> exists i, j :: IsReport(quotes, i, j, best.value)
  {
    var qs := PositiveQuotes(quotes);
    PositiveQuotesHolds(quotes);
    if |qs| < 2 {
      NothingToCompare(quotes);
      ReportInWords(quotes, None);
      return None;
    }
    best := None;
    ghost var pair: Option<Pair>, report := None, ScanFrom(qs, 0, 0, None);
    for i := 0 to |qs|
      invariant Earns(qs, pair) && best == TradeOf(qs, pair) && report == ScanFrom(qs, i, 0, pair)
    {
      for j := 0 to |qs|
        invariant Earns(qs, pair) && best == TradeOf(qs, pair) && report == ScanFrom(qs, i, j, pair)
      {
        best := BetterOf(qs, i, j, best, pair);
        pair := Better(qs, i, j, pair);
      }
    }
    DetectionHolds(quotes);
    ReportInWords(quotes, best);
  }

  /** Compares what was found so far with one more pair. */
  method BetterOf(qs: seq<Quote>, i: nat, j: nat, found: Option<Arbitrage>, ghost pair: Option<Pair>)
    returns (best: Option<Arbitrage>)
    requires AllPositive(qs) && i < |qs| && j < |qs| && Earns(qs, pair) && found == TradeOf(qs, pair)
    ensures best == TradeOf(qs, Better(qs, i, j, pair))
  {
    var buy, sell := qs[i], qs[j];
    assert buy in qs && sell in qs;
    best := found;
    if buy.source != sell.source {
      if sell.bid - buy.ask > 0.0 {
        var arb := Trade(buy, sell);
        if best.None? || arb.spread > best.value.spread {
          best := Some(arb);
        }
      }
    }
  }

  // ----- What the scan finds -----

  /** The best pair before (i, j): none, or one that no other beats, and no earlier one equals. */
  ghost predicate BestBefore(qs: seq<Quote>, i: int, j: int, best: Option<Pair>) {
    match best
    case None => forall i', j' | ScannedBefore(i', j', i, j) :: !Opportunity(qs, i', j')
    case Some(Pair(b, s)) =>
      && ScannedBefore(b, s, i, j) && Opportunity(qs, b, s)
      && (forall i', j' | ScannedBefore(i', j', i, j) && Opportunity(qs, i', j') ::
            Gain(qs, i', j') <= Gain(qs, b, s) && (ScannedBefore(i', j', b, s) ==> Gain(qs, i', j') < Gain(qs, b, s)))
  }

  lemma {:induction false} ScanFindsBest(qs: seq<Quote>, i: nat, j: nat, best: Option<Pair>)
    requires i <= |qs| && j <= |qs| && Earns(qs, best) && BestBefore(qs, i, j, best)
    ensures BestBefore(qs, |qs|, |qs|, ScanFrom(qs, i, j, best))
    decreases |qs| - i, |qs| - j
  {
    if i == |qs| {
      RestOutside(qs, j, best);
    } else if j == |qs| {
      RowEnd(qs, i, best);
      ScanFindsBest(qs, i + 1, 0, best);
    } else {
      OneMorePair(qs, i, j, best);
      ScanFindsBest(qs, i, j + 1, Better(qs, i, j, best));
    }
  }

  lemma OneMorePair(qs: seq<Quote>, i: nat, j: nat, best: Option<Pair>)
    requires i < |qs| && j < |qs| && Earns(qs, best) && BestBefore(qs, i, j, best)
    ensures BestBefore(qs, i, j + 1, Better(qs, i, j, best))
  {
  }

  lemma RowEnd(qs: seq<Quote>, i: nat, best: Option<Pair>)
    requires BestBefore(qs, i, |qs|, best)
    ensures BestBefore(qs, i + 1, 0, best)
  {
  }

  lemma RestOutside(qs: seq<Quote>, j: nat, best: Option<Pair>)
    requires BestBefore(qs, |qs|, j, best) && j <= |qs|
    ensures BestBefore(qs, |qs|, |qs|, best)
  {
  }

  /** There is always a report, and by ReportIsUnique it is the only one. */
  lemma DetectionHolds(quotes: seq<Quote>)
    ensures Detects(quotes, Detection(quotes))
  {
    PositiveQuotesHolds(quotes);
    var qs := PositiveQuotes(quotes);
    ScanFindsBest(qs, 0, 0, None);
    BestIsReported(qs, ScanFrom(qs, 0, 0, None));
  }

  lemma BestIsReported(qs: seq<Quote>, best: Option<Pair>)
    requires AllPositive(qs) && Earns(qs, best) && BestBefore(qs, |qs|, |qs|, best)
    ensures Reports(qs, TradeOf(qs, best))
  {
    if best.Some? {
      assert FirstBest(qs, best.value.buy, best.value.sell);
    }
  }

  lemma NothingToCompare(quotes: seq<Quote>)
    requires |PositiveQuotes(quotes)| < 2
    ensures Detection(quotes) == None && Detects(quotes, None)
  {
    DetectionHolds(quotes);
    PositiveQuotesHolds(quotes);
    ReportIsUnique(PositiveQuotes(quotes), None, Detection(quotes));
  }

  // ----- What the report means -----

  /** The report is unambiguous: scan order breaks every tie. */
  lemma ReportIsUnique(qs: seq<Quote>, r: Option<Arbitrage>, r': Option<Arbitrage>)
    requires AllPositive(qs) && Reports(qs, r) && Reports(qs, r')
    ensures r == r'
  {
  }

  /** What is stored of a report: its relative spread is quantized to four places. */
  function StoredTrade(a: Arbitrage): Arbitrage {
    a.(spreadBps := Rounding.FourPlaces(a.spreadBps))
  }

  /** The widest value of the column, in basis points: twelve digits with four places. */
  const COLUMN_LIMIT := 100_000_000.0

  /**
   * A reported spread is positive and below 20000 basis points; quantized, it is within half of the last place of that
   * and at most 20000, so it always fits the column.
   */
  lemma ReportedSpreadBound(qs: seq<Quote>, a: Arbitrage)
    requires AllPositive(qs) && Reports(qs, Some(a))
    ensures a.buyVenue != a.sellVenue
    ensures a.spread == a.sellPrice - a.buyPrice > 0.0
    ensures 0.0 < a.spreadBps < 20000.0
    ensures var stored := StoredTrade(a).spreadBps;
            0.0 <= stored <= 20000.0 < COLUMN_LIMIT && -0.00005 <= stored - a.spreadBps <= 0.00005
  {
    var i, j :| FirstBest(qs, i, j) && a == Trade(qs[i], qs[j]);
    assert qs[i] in qs && qs[j] in qs;
    BpsBound(qs[j].bid - qs[i].ask, (qs[i].ask + qs[j].bid) / 2.0);
    Rounding.FourPlacesStays(a.spreadBps, 0, 20000);
  }

  lemma BpsBound(spread: real, mid: real)
    requires 0.0 < spread < 2.0 * mid
    ensures 0.0 < spread / mid * 10000.0 < 20000.0
  {
    QuotientBelow(spread, mid, 2.0);
    QuotientAbove(spread, mid, 0.0);
  }

  lemma BestPlaces(qs: seq<Quote>) returns (b: nat, s: nat)
    requires qs != []
    ensures b < |qs| && s < |qs| && qs[b].ask == BestAsk(qs) && qs[s].bid == BestBid(qs)
  {
    var asks, bids := Asks(qs), Bids(qs);
    b :| 0 <= b < |asks| && asks[b] == MinOf(asks);
    s :| 0 <= s < |bids| && bids[s] == MaxOf(bids);
  }

  /** No quote of another venue bids above the best ask or asks below the best bid. */
  predicate CrossesAlone(qs: seq<Quote>, venue: string)
    requires qs != []
  {
    forall q | q in qs && q.source != venue :: q.bid <= BestAsk(qs) && BestBid(qs) <= q.ask
  }

  /** The best ask and the best bid are quoted, possibly among others, by two different venues. */
  predicate BestsApart(qs: seq<Quote>)
    requires qs != []
  {
    exists i, j | 0 <= i < |qs| && 0 <= j < |qs| ::
      qs[i].ask == BestAsk(qs) && qs[j].bid == BestBid(qs) && qs[i].source != qs[j].source
  }

  /** No venue's bids exceed its own asks: in particular, one quote per venue with its bid at most its ask. */
  ghost predicate VenuesUncrossed(qs: seq<Quote>) {
    forall p, q | p in qs && q in qs && p.source == q.source :: p.bid <= q.ask
  }

  /** The quadratic scan finds something exactly if the book is crossed, and not by a single venue on its own. */
  lemma ScanFindsCrossing(qs: seq<Quote>, r: Option<Arbitrage>)
    requires AllPositive(qs) && Reports(qs, r) && qs != []
    ensures r.Some? <==> Crossed(qs) && forall venue :: !CrossesAlone(qs, venue)
  {
    if r.Some? {
      var i, j :| FirstBest(qs, i, j) && r.value == Trade(qs[i], qs[j]);
      assert qs[i] in qs && qs[j] in qs;
      forall venue ensures !CrossesAlone(qs, venue) {
        assert qs[i].source != venue || qs[j].source != venue;
      }
    } else if Crossed(qs) {
      var b, s := BestPlaces(qs);
      assert !Opportunity(qs, b, s);
      forall q | q in qs && q.source != qs[b].source ensures q.bid <= BestAsk(qs) && BestBid(qs) <= q.ask {
        var k :| 0 <= k < |qs| && qs[k] == q;
        assert !Opportunity(qs, b, k) && !Opportunity(qs, k, s);
      }
      assert CrossesAlone(qs, qs[b].source);
    }
  }

  /**
   * The scan reports the best bid against the best ask exactly if the book is crossed and they are at different venues.
   */
  lemma ScanIsMaxMinusMin(qs: seq<Quote>, r: Option<Arbitrage>)
    requires AllPositive(qs) && Reports(qs, r) && qs != []
    ensures r.Some? && r.value.sellPrice == BestBid(qs) && r.value.buyPrice == BestAsk(qs)
            <==> Crossed(qs) && BestsApart(qs)
    ensures r.Some? && r.value.spread == BestBid(qs) - BestAsk(qs) <==> Crossed(qs) && BestsApart(qs)
  {
    if r.Some? {
      var i, j :| FirstBest(qs, i, j) && r.value == Trade(qs[i], qs[j]);
      assert qs[i] in qs && qs[j] in qs;
      assert BestBid(qs) >= qs[j].bid > qs[i].ask >= BestAsk(qs);
    }
    if Crossed(qs) && BestsApart(qs) {
      var b, s :| 0 <= b < |qs| && 0 <= s < |qs| &&
        qs[b].ask == BestAsk(qs) && qs[s].bid == BestBid(qs) && qs[b].source != qs[s].source;
      assert Opportunity(qs, b, s);
    }
  }

  /** If no venue crosses itself, a crossed book meets both conditions. */
  lemma UncrossedVenues(qs: seq<Quote>)
    requires qs != [] && VenuesUncrossed(qs) && Crossed(qs)
    ensures BestsApart(qs) && forall venue :: !CrossesAlone(qs, venue)
  {
    var b, s := BestPlaces(qs);
    assert qs[b] in qs && qs[s] in qs;
    forall venue ensures !CrossesAlone(qs, venue) {
      assert qs[b].source != venue || qs[s].source != venue;
    }
  }

  // ----- Relative spreads -----

  /** Trades are ordered by relative spread as they are by the ratio of bid to ask. */
  lemma RelativeSpreadOrder(buy: Quote, sell: Quote, buy': Quote, sell': Quote)
    requires Positive(buy) && Positive(sell) && Positive(buy') && Positive(sell')
    ensures SpreadBps(buy, sell) <= SpreadBps(buy', sell') <==> sell.bid * buy'.ask <= sell'.bid * buy.ask
  {
    var a, b, a', b' := buy.ask, sell.bid, buy'.ask, sell'.bid;
    Complement(a, b);
    Complement(a', b');
    ShareOrder(a, b, a', b', a / (a + b), a' / (a' + b'));
  }

  /** The relative spread as twice one minus the ask's share. */
  lemma Complement(a: real, b: real)
    requires a > 0.0 && b > 0.0
    ensures (b - a) / ((a + b) / 2.0) == 2.0 - 4.0 * (a / (a + b))
  {
    var x := a / (a + b);
    var m := (a + b) / 2.0;
    assert a == 2.0 * x * m;
    assert (2.0 - 4.0 * x) * m == b - a;
    QuotientIs(b - a, m, 2.0 - 4.0 * x);
  }

  /** The order of two shares, x and x', of a in a + b and of a' in a' + b'. */
  lemma ShareOrder(a: real, b: real, a': real, b': real, x: real, x': real)
    requires a > 0.0 && b > 0.0 && a' > 0.0 && b' > 0.0
    requires x * (a + b) == a && x' * (a' + b') == a'
    ensures x' <= x <==> b * a' <= b' * a
  {
    var n, n' := a + b, a' + b';
    assert (x * n') * n == a * n' && (x' * n') * n == a' * n;
    assert a * n' - a' * n == b' * a - b * a';
    if x' < x {
      ScaleLess(x', x, n');
      ScaleLess(x' * n', x * n', n);
    } else if x < x' {
      ScaleLess(x, x', n');
      ScaleLess(x * n', x' * n', n);
    }
  }

  /** The ratio of bid to ask of a trade is at most that of another one. */
  predicate RatioAtMost(buy: Quote, sell: Quote, a: Arbitrage) {
    ProductAtMost(sell.bid, a.buyPrice, a.sellPrice, buy.ask)
  }

  predicate ProductAtMost(x: real, y: real, x': real, y': real) {
    x * y <= x' * y'
  }

  lemma RatioOfReport(buy: Quote, sell: Quote, a: Arbitrage, buy': Quote, sell': Quote)
    requires Positive(buy) && Positive(sell) && Positive(buy') && Positive(sell') && a == Trade(buy', sell')
    ensures SpreadBps(buy, sell) <= a.spreadBps <==> RatioAtMost(buy, sell, a)
  {
    RelativeSpreadOrder(buy, sell, buy', sell');
  }

  /** Two quotes at different venues. */
  predicate Apart(qs: seq<Quote>, i: int, j: int) {
    0 <= i < |qs| && 0 <= j < |qs| && qs[i].source != qs[j].source
  }

  /** No trade between different venues has a larger spread relative to its mid. */
  ghost predicate LargestBps(qs: seq<Quote>, a: Arbitrage)
    requires AllPositive(qs)
  {
    forall i, j | Apart(qs, i, j) :: Positive(qs[i]) && Positive(qs[j]) && SpreadBps(qs[i], qs[j]) <= a.spreadBps
  }

  /** The reported trade has the largest relative spread exactly if it has the largest ratio of bid to ask. */
  lemma LargestByRatio(qs: seq<Quote>, a: Arbitrage)
    requires AllPositive(qs) && Reports(qs, Some(a))
    ensures LargestBps(qs, a) <==> forall i, j | Apart(qs, i, j) :: RatioAtMost(qs[i], qs[j], a)
  {
    var b, s :| FirstBest(qs, b, s) && a == Trade(qs[b], qs[s]);
    assert qs[b] in qs && qs[s] in qs;
    forall i, j | Apart(qs, i, j)
      ensures Positive(qs[i]) && Positive(qs[j])
      ensures SpreadBps(qs[i], qs[j]) <= a.spreadBps <==> RatioAtMost(qs[i], qs[j], a)
    {
      assert qs[i] in qs && qs[j] in qs;
      RatioOfReport(qs[i], qs[j], a, qs[b], qs[s]);
    }
  }

  /** In particular if the best bid and the best ask are at different venues. */
  lemma BestsApartMaximisesBps(qs: seq<Quote>, a: Arbitrage, i: int, j: int)
    requires AllPositive(qs) && Reports(qs, Some(a)) && BestsApart(qs) && Apart(qs, i, j)
    ensures RatioAtMost(qs[i], qs[j], a)
  {
    ReportMeansCrossed(qs, a);
    ScanIsMaxMinusMin(qs, Some(a));
    assert qs[i] in qs && qs[j] in qs;
    RatioOfBests(qs[i], qs[j], a);
  }

  lemma RatioOfBests(buy: Quote, sell: Quote, a: Arbitrage)
    requires 0.0 < sell.bid <= a.sellPrice && 0.0 < a.buyPrice <= buy.ask
    ensures RatioAtMost(buy, sell, a)
  {
    CrossProducts(sell.bid, a.buyPrice, a.sellPrice, buy.ask);
  }

  lemma CrossProducts(bid: real, lowest: real, highest: real, ask: real)
    requires 0.0 < bid <= highest && 0.0 < lowest <= ask
    ensures bid * lowest <= highest * ask
  {
    ProductNonNegative(highest - bid, lowest);
    ProductNonNegative(highest, ask - lowest);
  }

  // ----- The largest relative spread, told from the quotes -----

  /** The venue quotes the best ask and the best bid, and no other venue quotes either. */
  predicate BestsAt(qs: seq<Quote>, venue: string)
    requires qs != []
  {
    forall q | q in qs && (q.ask == BestAsk(qs) || q.bid == BestBid(qs)) :: q.source == venue
  }

  /** The quotes of the other venues. */
  function Others(qs: seq<Quote>, venue: string): (os: seq<Quote>)
    ensures forall q :: q in os <==> q in qs && q.source != venue
  {
    if qs == [] then [] else
    var n := |qs| - 1;
    assert qs == qs[..n] + [qs[n]];
    Others(qs[..n], venue) + if qs[n].source != venue then [qs[n]] else []
  }

  /** Some best ask comes before every quote of another venue with this ask. */
  predicate AsksFirst(qs: seq<Quote>, venue: string, ask: real)
    requires qs != []
  {
    exists f | 0 <= f < |qs| ::
      qs[f].ask == BestAsk(qs) && forall k | 0 <= k < f :: qs[k].source == venue || qs[k].ask != ask
  }

  /**
   * With both bests at one venue, the trades that compete buy there and sell to the best bid elsewhere, or buy at the
   * best ask elsewhere and sell there. The former wins if it has the larger spread, or the same and is scanned first,
   * and then it has the larger ratio too; the latter may win with the smaller ratio.
   */
  predicate LargestBesideVenue(qs: seq<Quote>, venue: string)
    requires qs != []
  {
    var os := Others(qs, venue);
    && os != []
    && var bids, asks := BestBid(os) + BestAsk(os), BestBid(qs) + BestAsk(qs);
    || bids > asks
    || (bids == asks && AsksFirst(qs, venue, BestAsk(os)))
    || (bids < asks && ProductAtMost(BestBid(os), BestAsk(os), BestBid(qs), BestAsk(qs)))
  }

  lemma VenueOfBests(qs: seq<Quote>) returns (venue: string)
    requires qs != []
    ensures BestsApart(qs) || BestsAt(qs, venue)
  {
    var b, s := BestPlaces(qs);
    venue := qs[b].source;
    if !BestsApart(qs) {
      forall q | q in qs && (q.ask == BestAsk(qs) || q.bid == BestBid(qs)) ensures q.source == venue {
        var k :| 0 <= k < |qs| && qs[k] == q;
        assert qs[s].source == venue;
      }
    }
  }

  /** Where the other venues' best bid and best ask are. */
  lemma OtherPlaces(qs: seq<Quote>, venue: string) returns (b: nat, s: nat)
    requires Others(qs, venue) != []
    ensures b < |qs| && qs[b].source != venue && qs[b].ask == BestAsk(Others(qs, venue))
    ensures s < |qs| && qs[s].source != venue && qs[s].bid == BestBid(Others(qs, venue))
  {
    var os := Others(qs, venue);
    var b', s' := BestPlaces(os);
    assert os[b'] in os && os[s'] in os;
    b :| 0 <= b < |qs| && qs[b] == os[b'];
    s :| 0 <= s < |qs| && qs[s] == os[s'];
  }

  /** The reported trade buys or sells at the one venue: two others would do worse than one of them with it. */
  lemma TradesWithVenue(qs: seq<Quote>, venue: string, b: int, s: int)
    requires qs != [] && BestsAt(qs, venue) && FirstBest(qs, b, s)
    ensures qs[b].source == venue || qs[s].source == venue
  {
    var _, s' := BestPlaces(qs);
    assert qs[b] in qs && qs[s] in qs && qs[s'] in qs;
    if qs[b].source != venue && qs[s].source != venue {
      assert qs[s].bid < qs[s'].bid;
      assert Opportunity(qs, b, s');
      assert false;
    }
  }

  /**
   * A report that buys at the venue: it pays the best ask, sells to the best other bid, and was preferred to the
   * reverse.
   */
  lemma BuysAtVenue(qs: seq<Quote>, venue: string, b: int, s: int)
    requires qs != [] && BestsAt(qs, venue) && FirstBest(qs, b, s) && qs[b].source == venue
    ensures var os := Others(qs, venue);
            && os != [] && qs[b].ask == BestAsk(qs) && qs[s].bid == BestBid(os)
            && BestBid(os) + BestAsk(os) >= BestBid(qs) + BestAsk(qs)
            && (BestBid(os) + BestAsk(os) == BestBid(qs) + BestAsk(qs) ==> AsksFirst(qs, venue, BestAsk(os)))
  {
    assert qs[b] in qs && qs[s] in qs && qs[s] in Others(qs, venue);
    var y, x := BestPlaces(qs);
    var y', x' := OtherPlaces(qs, venue);
    assert qs[y] in qs && qs[x] in qs;
    assert Opportunity(qs, y, x') && Gain(qs, y, x') <= Gain(qs, b, s);
    assert Opportunity(qs, y', x) ==> Gain(qs, y', x) <= Gain(qs, b, s);
    if BestBid(Others(qs, venue)) + BestAsk(Others(qs, venue)) == BestBid(qs) + BestAsk(qs) {
      forall k | 0 <= k < b ensures qs[k].source == venue || qs[k].ask != BestAsk(Others(qs, venue)) {
        assert Opportunity(qs, k, x) ==>
            && Gain(qs, k, x) <= Gain(qs, b, s)
            && (ScannedBefore(k, x, b, s) ==> Gain(qs, k, x) < Gain(qs, b, s));
      }
    }
  }

  /**
   * A report that sells at the venue: it pays the best other ask and gets the best bid, and was preferred to the
   * reverse.
   */
  lemma SellsAtVenue(qs: seq<Quote>, venue: string, b: int, s: int)
    requires qs != [] && BestsAt(qs, venue) && FirstBest(qs, b, s) && qs[s].source == venue
    ensures var os := Others(qs, venue);
            && os != [] && qs[b].ask == BestAsk(os) && qs[s].bid == BestBid(qs)
            && BestBid(os) + BestAsk(os) <= BestBid(qs) + BestAsk(qs)
            && (BestBid(os) + BestAsk(os) == BestBid(qs) + BestAsk(qs) ==> !AsksFirst(qs, venue, BestAsk(os)))
  {
    assert qs[b] in qs && qs[s] in qs && qs[b] in Others(qs, venue);
    var y, x := BestPlaces(qs);
    var y', x' := OtherPlaces(qs, venue);
    assert qs[y] in qs && qs[x] in qs;
    assert Opportunity(qs, y', x) && Gain(qs, y', x) <= Gain(qs, b, s);
    assert Opportunity(qs, y, x') ==> Gain(qs, y, x') <= Gain(qs, b, s);
    assert forall f | 0 <= f < |qs| :: qs[f] in qs;
    if BestBid(Others(qs, venue)) + BestAsk(Others(qs, venue)) == BestBid(qs) + BestAsk(qs) {
      ReverseComesLater(qs, b, s, x');
    }
  }

  /** If the reverse trades with seller x earn the same, the quotes with the best ask come after the report's. */
  lemma ReverseComesLater(qs: seq<Quote>, b: int, s: int, x: int)
    requires qs != [] && FirstBest(qs, b, s) && 0 <= x < |qs| && qs[x].bid - BestAsk(qs) == Gain(qs, b, s)
    requires forall f | 0 <= f < |qs| && qs[f].ask == BestAsk(qs) ::
             qs[f].source != qs[x].source && qs[f].source != qs[b].source
    ensures forall f | 0 <= f < |qs| && qs[f].ask == BestAsk(qs) :: b < f
  {
    forall f | 0 <= f < |qs| && qs[f].ask == BestAsk(qs) ensures b < f {
      assert Opportunity(qs, f, x) && Gain(qs, f, x) == Gain(qs, b, s);
    }
  }

  /** Bid and ask in between the bests, with at least their sum, have at least their product. */
  lemma ProductOfCloser(bid: real, ask: real, best: real, lowest: real)
    requires 0.0 < lowest < bid <= best && bid + ask >= best + lowest
    ensures bid * ask >= best * lowest
  {
    var rest := best + lowest - bid;
    assert bid * rest == best * lowest + (best - bid) * (bid - lowest);
    ProductNonNegative(bid, ask - rest);
    ProductNonNegative(best - bid, bid - lowest);
  }

  lemma ProductOfInner(bid: real, ask: real, best: real, lowest: real)
    requires 0.0 < lowest < bid < best && bid + ask == best + lowest
    ensures !ProductAtMost(bid, ask, best, lowest)
  {
    var rise, fall := best - bid, bid - lowest;
    assert bid * ask == best * lowest + rise * fall;
    assert rise * fall > 0.0;
  }

  /** Buying at the lowest ask and selling to the best other bid has at least the ratio of the reverse trade. */
  lemma BuyerRatio(buy: Quote, sell: Quote, a: Arbitrage, best: real, ask: real)
    requires 0.0 < a.buyPrice < a.sellPrice <= best && a.sellPrice + ask >= best + a.buyPrice
    requires 0.0 < sell.bid <= best && 0.0 < ask <= buy.ask
    ensures RatioAtMost(buy, sell, a)
  {
    ProductOfCloser(a.sellPrice, ask, best, a.buyPrice);
    ProductNonNegative(best - sell.bid, a.buyPrice);
    ProductNonNegative(a.sellPrice, buy.ask - ask);
  }

  lemma BuyerIsLargest(qs: seq<Quote>, venue: string, a: Arbitrage, i: int, j: int)
    requires AllPositive(qs) && Apart(qs, i, j) && Others(qs, venue) != []
    requires var os := Others(qs, venue);
             && a.buyPrice == BestAsk(qs) && a.sellPrice == BestBid(os) > BestAsk(qs)
             && BestBid(os) + BestAsk(os) >= BestBid(qs) + BestAsk(qs)
    ensures RatioAtMost(qs[i], qs[j], a)
  {
    assert qs[i] in qs && qs[j] in qs;
    PositiveBests(qs);
    OtherBests(qs, venue);
    if qs[j].source != venue {
      assert qs[j] in Others(qs, venue);
      RatioOfBests(qs[i], qs[j], a);
    } else {
      assert qs[i] in Others(qs, venue);
      BuyerRatio(qs[i], qs[j], a, BestBid(qs), BestAsk(Others(qs, venue)));
    }
  }

  /** The other venues' bests are not better than those of all. */
  lemma OtherBests(qs: seq<Quote>, venue: string)
    requires AllPositive(qs) && Others(qs, venue) != []
    ensures var os := Others(qs, venue);
            0.0 < BestBid(os) <= BestBid(qs) && 0.0 < BestAsk(qs) <= BestAsk(os)
  {
    var b, s := OtherPlaces(qs, venue);
    assert qs[b] in qs && qs[s] in qs;
    PositiveBests(qs);
  }

  /**
   * Selling to the best bid and buying at the lowest other ask has at least the ratio of the reverse trade if the
   * products say so.
   */
  lemma SellerRatio(buy: Quote, sell: Quote, a: Arbitrage, bid: real, lowest: real)
    requires 0.0 < sell.bid <= bid && 0.0 < lowest <= buy.ask && a.buyPrice > 0.0 && a.sellPrice > 0.0
    requires ProductAtMost(bid, a.buyPrice, a.sellPrice, lowest)
    ensures RatioAtMost(buy, sell, a)
  {
    ProductNonNegative(bid - sell.bid, a.buyPrice);
    ProductNonNegative(a.sellPrice, buy.ask - lowest);
  }

  lemma SellerIsLargest(qs: seq<Quote>, venue: string, a: Arbitrage, i: int, j: int)
    requires AllPositive(qs) && Apart(qs, i, j) && Others(qs, venue) != []
    requires a.buyPrice == BestAsk(Others(qs, venue)) && a.sellPrice == BestBid(qs)
    requires ProductAtMost(BestBid(Others(qs, venue)), a.buyPrice, a.sellPrice, BestAsk(qs))
    ensures RatioAtMost(qs[i], qs[j], a)
  {
    assert qs[i] in qs && qs[j] in qs;
    OtherBests(qs, venue);
    if qs[i].source != venue {
      assert qs[i] in Others(qs, venue);
      RatioOfBests(qs[i], qs[j], a);
    } else {
      assert qs[j] in Others(qs, venue);
      SellerRatio(qs[i], qs[j], a, BestBid(Others(qs, venue)), BestAsk(qs));
    }
  }

  lemma PositiveBests(qs: seq<Quote>)
    requires qs != [] && AllPositive(qs)
    ensures BestBid(qs) > 0.0 && BestAsk(qs) > 0.0
  {
    var b, s := BestPlaces(qs);
    assert qs[b] in qs && qs[s] in qs;
  }

  /**
   * The reported trade also has the largest spread relative to its mid, told from the quotes: exactly if the bests are
   * at different venues, or at one venue where the trades with the others are as LargestBesideVenue says.
   */
  lemma ReportMaximisesBps(qs: seq<Quote>, a: Arbitrage)
    requires qs != [] && AllPositive(qs) && Reports(qs, Some(a))
    ensures LargestBps(qs, a)
            <==> BestsApart(qs) || exists venue :: BestsAt(qs, venue) && LargestBesideVenue(qs, venue)
  {
    LargestByRatio(qs, a);
    if BestsApart(qs) {
      forall i, j | Apart(qs, i, j) ensures RatioAtMost(qs[i], qs[j], a) {
        BestsApartMaximisesBps(qs, a, i, j);
      }
    } else {
      var venue := VenueOfBests(qs);
      LargestAtVenue(qs, a, venue);
      OneVenueOfBests(qs, venue);
    }
  }

  lemma OneVenueOfBests(qs: seq<Quote>, venue: string)
    requires qs != [] && BestsAt(qs, venue)
    ensures forall other | BestsAt(qs, other) :: other == venue
  {
    var b, _ := BestPlaces(qs);
    assert qs[b] in qs;
  }

  lemma LargestAtVenue(qs: seq<Quote>, a: Arbitrage, venue: string)
    requires qs != [] && AllPositive(qs) && Reports(qs, Some(a)) && BestsAt(qs, venue)
    ensures (forall i, j | Apart(qs, i, j) :: RatioAtMost(qs[i], qs[j], a)) <==> LargestBesideVenue(qs, venue)
  {
    var b, s :| FirstBest(qs, b, s) && a == Trade(qs[b], qs[s]);
    TradesWithVenue(qs, venue, b, s);
    if qs[b].source == venue {
      BuysAtVenue(qs, venue, b, s);
      forall i, j | Apart(qs, i, j) ensures RatioAtMost(qs[i], qs[j], a) {
        BuyerIsLargest(qs, venue, a, i, j);
      }
    } else {
      SellsAtVenue(qs, venue, b, s);
      SellerAtVenue(qs, a, venue);
    }
  }

  /**
   * The report that sells at the venue has the largest ratio exactly if the other venues' product of bests is not
   * larger.
   */
  lemma SellerAtVenue(qs: seq<Quote>, a: Arbitrage, venue: string)
    requires qs != [] && AllPositive(qs) && BestsAt(qs, venue) && Others(qs, venue) != []
    requires var os := Others(qs, venue);
             && a.buyPrice == BestAsk(os) && a.sellPrice == BestBid(qs) > BestAsk(os)
             && BestBid(os) + BestAsk(os) <= BestBid(qs) + BestAsk(qs)
             && (BestBid(os) + BestAsk(os) == BestBid(qs) + BestAsk(qs) ==> !AsksFirst(qs, venue, BestAsk(os)))
    ensures (forall i, j | Apart(qs, i, j) :: RatioAtMost(qs[i], qs[j], a)) <==> LargestBesideVenue(qs, venue)
  {
    if ProductAtMost(BestBid(Others(qs, venue)), a.buyPrice, a.sellPrice, BestAsk(qs)) {
      forall i, j | Apart(qs, i, j) ensures RatioAtMost(qs[i], qs[j], a) {
        SellerIsLargest(qs, venue, a, i, j);
      }
    } else {
      RatioBeside(qs, a, venue);
    }
    SellerByProducts(qs, a, venue);
  }

  /** The reverse trade is one between different venues. */
  lemma RatioBeside(qs: seq<Quote>, a: Arbitrage, venue: string)
    requires qs != [] && BestsAt(qs, venue) && Others(qs, venue) != []
    requires !ProductAtMost(BestBid(Others(qs, venue)), a.buyPrice, a.sellPrice, BestAsk(qs))
    ensures exists i, j :: Apart(qs, i, j) && !RatioAtMost(qs[i], qs[j], a)
  {
    var y, _ := BestPlaces(qs);
    var _, x' := OtherPlaces(qs, venue);
    assert qs[y] in qs;
    assert Apart(qs, y, x') && !RatioAtMost(qs[y], qs[x'], a);
  }

  lemma SellerByProducts(qs: seq<Quote>, a: Arbitrage, venue: string)
    requires qs != [] && AllPositive(qs) && BestsAt(qs, venue) && Others(qs, venue) != []
    requires var os := Others(qs, venue);
             && a.buyPrice == BestAsk(os) && a.sellPrice == BestBid(qs) > BestAsk(os)
             && BestBid(os) + BestAsk(os) <= BestBid(qs) + BestAsk(qs)
             && (BestBid(os) + BestAsk(os) == BestBid(qs) + BestAsk(qs) ==> !AsksFirst(qs, venue, BestAsk(os)))
    ensures ProductAtMost(BestBid(Others(qs, venue)), a.buyPrice, a.sellPrice, BestAsk(qs))
            <==> LargestBesideVenue(qs, venue)
  {
    var os := Others(qs, venue);
    if BestBid(os) + BestAsk(os) == BestBid(qs) + BestAsk(qs) {
      BelowBestBid(qs, venue);
      ProductOfInner(BestBid(os), BestAsk(os), BestBid(qs), BestAsk(qs));
    }
  }

  /** With equal sums, the other venues' best bid lies between the bests of all. */
  lemma BelowBestBid(qs: seq<Quote>, venue: string)
    requires qs != [] && AllPositive(qs) && BestsAt(qs, venue) && Others(qs, venue) != []
    requires BestBid(qs) > BestAsk(Others(qs, venue))
    requires BestBid(Others(qs, venue)) + BestAsk(Others(qs, venue)) == BestBid(qs) + BestAsk(qs)
    ensures 0.0 < BestAsk(qs) < BestBid(Others(qs, venue)) < BestBid(qs)
  {
    var _, s := OtherPlaces(qs, venue);
    assert qs[s] in qs;
    OtherBests(qs, venue);
  }

  lemma {:induction false} AllFreshCandidates(quotes: seq<Quote>, clock: seq<int>, maxAge: int)
    requires |clock| == |quotes|
    requires forall j | 0 <= j < |quotes| && Positive(quotes[j]) :: IsFresh(quotes[j], clock[j], maxAge)
    ensures Candidates(quotes, clock, maxAge) == PositiveQuotes(quotes)
  {
    if quotes != [] {
      var n := |quotes| - 1;
      AllFreshCandidates(quotes[..n], clock[..n], maxAge);
    }
  }

  /**
   * Scan and consolidation, if all positive quotes of a round are fresh: an arbitrage is reported exactly if
   * consolidation takes its crossed-book branch and no venue crosses the book alone, and its spread is the best bid
   * less the best ask exactly if moreover those are at different venues.
   */
  lemma DetectionMatchesFallback(quotes: seq<Quote>, clock: seq<int>, maxAge: int, r: Option<Arbitrage>)
    requires |clock| == |quotes| && Detects(quotes, r)
    requires forall j | 0 <= j < |quotes| && Positive(quotes[j]) :: IsFresh(quotes[j], clock[j], maxAge)
    ensures var cs := Candidates(quotes, clock, maxAge);
            && (r.Some? <==> cs != [] && Crossed(cs) && forall venue :: !CrossesAlone(cs, venue))
            && (r.Some? && r.value.spread == BestBid(cs) - BestAsk(cs) <==> cs != [] && Crossed(cs) && BestsApart(cs))
            && (cs != [] && Crossed(cs) && VenuesUncrossed(cs)
              ==> r.Some? && r.value.spread == BestBid(cs) - BestAsk(cs))
  {
    AllFreshCandidates(quotes, clock, maxAge);
    PositiveQuotesHolds(quotes);
    var qs := PositiveQuotes(quotes);
    if qs != [] {
      ScanFindsCrossing(qs, r);
      ScanIsMaxMinusMin(qs, r);
      if Crossed(qs) && VenuesUncrossed(qs) {
        UncrossedVenues(qs);
      }
    }
  }

  /** Whatever the venues do, a reported arbitrage means that the book is crossed. */
  lemma ReportMeansCrossed(qs: seq<Quote>, a: Arbitrage)
    requires AllPositive(qs) && Reports(qs, Some(a))
    ensures qs != [] && Crossed(qs) && a.spread <= BestBid(qs) - BestAsk(qs)
  {
  }

  /** A venue that crosses the book alone: there is nothing to report. */
  lemma SelfCrossedVenue()
    ensures var qs := [Quote("kraken", 2.0, 1.0, 0)];
            AllPositive(qs) && Crossed(qs) && CrossesAlone(qs, "kraken") && Reports(qs, None)
  {
  }

  /** A venue that crosses itself does not always do so alone: here the best bid and the best ask are still traded. */
  lemma SelfCrossedButTraded()
    ensures var qs := [Quote("kraken", 2.0, 1.0, 0), Quote("binance", 3.0, 4.0, 0)];
            AllPositive(qs) && !VenuesUncrossed(qs) && Reports(qs, Some(Trade(qs[0], qs[1])))
  {
    var qs := [Quote("kraken", 2.0, 1.0, 0), Quote("binance", 3.0, 4.0, 0)];
    assert qs[0] in qs;
    assert FirstBest(qs, 0, 1);
  }

  /** The largest spread is reported though another one is larger relative to its mid. */
  lemma LargestSpreadNotLargestBps()
    ensures var qs := [Quote("binance", 2.0, 100.0, 0), Quote("kraken", 110.0, 1.0, 0)];
            && AllPositive(qs) && Reports(qs, Some(Trade(qs[0], qs[1])))
            && Opportunity(qs, 1, 0) && SpreadBps(qs[0], qs[1]) < SpreadBps(qs[1], qs[0])
  {
  }
}
