/**
 * OHLC bars: the table that single bar updates build, and what each of its rows means in terms of the events
 * that were written into it.
 */
module Bars {
  import opened Numbers
  import opened Buckets

  /** The columns that identify a bar. */
  datatype Key = Key(instrument: string, interval: Interval, bucket: int)

  datatype Bar = Bar(open: real, high: real, low: real, close: real, volume: real, ticks: nat)

  type Table = map<Key, Bar>

  /** A quote event the consumer accepts: a known instrument, the mid of its prices, the time it is filed under. */
  datatype Event = Event(instrument: string, mid: real, stamp: Stamp)

  /** One bar update: a price for one row. */
  datatype Write = Write(key: Key, price: real)

  /** What a price column does to a value on the way to the database. */
  ghost predicate StorageRounding(round: real -> real) {
    && (forall x, y :: x <= y ==> round(x) <= round(y))
    && (forall x :: round(round(x)) == round(x))
  }

  /** The row after one more price: created from the price alone, or read back and widened by it. */
  function Record(row: Option<Bar>, price: real, round: real -> real): Bar {
    match row
    case None => Bar(round(price), round(price), round(price), round(price), 0.0, 1)
    case Some(b) =>
      b.(high := round(Max(b.high, price)), low := round(Min(b.low, price)), close := round(price),
         ticks := b.ticks + 1)
  }

  function Lookup(rows: Table, k: Key): Option<Bar> {
    if k in rows then Some(rows[k]) else None
  }

  function Store(rows: Table, w: Write, round: real -> real): Table {
    rows[w.key := Record(Lookup(rows, w.key), w.price, round)]
  }

  function Play(rows: Table, ws: seq<Write>, round: real -> real): Table {
    if ws == [] then rows else Store(Play(rows, ws[..|ws| - 1], round), ws[|ws| - 1], round)
  }

  lemma {:induction false} PlayConcat(rows: Table, a: seq<Write>, b: seq<Write>, round: real -> real)
    ensures Play(rows, a + b, round) == Play(Play(rows, a, round), b, round)
  {
    if b == [] {
      assert a + b == a;
    } else {
      assert (a + b)[..|a + b| - 1] == a + b[..|b| - 1];
      PlayConcat(rows, a, b[..|b| - 1], round);
    }
  }

  // ----- What a row means -----

  /** The bar that a list of prices amounts to: first, greatest, least, last and number, each price rounded once. */
  function Summary(prices: seq<real>, round: real -> real): Bar
    requires prices != []
  {
    Bar(round(prices[0]), round(MaxOf(prices)), round(MinOf(prices)), round(prices[|prices| - 1]), 0.0, |prices|)
  }

  function SummaryOrNone(prices: seq<real>, round: real -> real): Option<Bar> {
    if prices == [] then None else Some(Summary(prices, round))
  }

  function PricesAt(ws: seq<Write>, k: Key): seq<real> {
    if ws == [] then [] else
    var w := ws[|ws| - 1];
    PricesAt(ws[..|ws| - 1], k) + if w.key == k then [w.price] else []
  }

  lemma {:induction false} PricesAtConcat(a: seq<Write>, b: seq<Write>, k: Key)
    ensures PricesAt(a + b, k) == PricesAt(a, k) + PricesAt(b, k)
  {
    if b == [] {
      assert a + b == a;
    } else {
      assert (a + b)[..|a + b| - 1] == a + b[..|b| - 1];
      PricesAtConcat(a, b[..|b| - 1], k);
    }
  }

  /** Widening a rounded extreme by a price and rounding is widening the exact one and rounding. */
  lemma RoundingTwice(x: real, price: real, round: real -> real)
    requires StorageRounding(round)
    ensures round(Max(round(x), price)) == round(Max(x, price))
    ensures round(Min(round(x), price)) == round(Min(x, price))
  {
    assert round(round(x)) == round(x);
    assert x <= price ==> round(x) <= round(price);
    assert price <= x ==> round(price) <= round(x);
    assert round(x) <= price ==> round(round(x)) <= round(price);
    assert price <= round(x) ==> round(price) <= round(round(x));
  }

  /**
   * Rounding high and low again at every stored tick gives what rounding the true extremes once gives: one more
   * recorded price turns the summary of a list into the summary of the longer list.
   */
  lemma RecordExtendsSummary(prices: seq<real>, price: real, round: real -> real)
    requires StorageRounding(round)
    ensures Record(SummaryOrNone(prices, round), price, round) == Summary(prices + [price], round)
  {
    var longer := prices + [price];
    assert longer[..|longer| - 1] == prices;
    if prices != [] {
      var high, low := MaxOf(prices), MinOf(prices);
      RoundingTwice(high, price, round);
      RoundingTwice(low, price, round);
    }
  }

  /** Any list of bar updates leaves in each row the summary of the prices written to it. */
  lemma {:induction false} PlayIsSummary(ws: seq<Write>, round: real -> real, k: Key)
    requires StorageRounding(round)
    ensures Lookup(Play(map[], ws, round), k) == SummaryOrNone(PricesAt(ws, k), round)
  {
    if ws != [] {
      var init, w := ws[..|ws| - 1], ws[|ws| - 1];
      PlayIsSummary(init, round, k);
      var before := Play(map[], init, round);
      assert Play(map[], ws, round) == Store(before, w, round);
      if w.key == k {
        assert PricesAt(ws, k) == PricesAt(init, k) + [w.price];
        RecordExtendsSummary(PricesAt(init, k), w.price, round);
      } else {
        assert Lookup(Store(before, w, round), k) == Lookup(before, k);
        assert PricesAt(ws, k) == PricesAt(init, k);
      }
    }
  }

  // ----- From events to rows -----

  function KeyOf(e: Event, i: Interval): Key {
    Key(e.instrument, i, BucketStart(e.stamp, i))
  }

  /** The three updates of an event, in the order of their transactions. */
  function Writes(e: Event): seq<Write> {
    [Write(KeyOf(e, M1), e.mid), Write(KeyOf(e, M5), e.mid), Write(KeyOf(e, H1), e.mid)]
  }

  /** How many of an event's three transactions were committed. */
  type Progress = n: nat | n <= 3

  /** One attempt to handle an event; it may be cut short between two transactions. */
  datatype Pass = Pass(event: Event, done: Progress)

  function PassWrites(ps: seq<Pass>): seq<Write> {
    if ps == [] then [] else
    var p := ps[|ps| - 1];
    PassWrites(ps[..|ps| - 1]) + Writes(p.event)[..p.done]
  }

  /** The table that a run of the consumer builds, starting from none. */
  function Built(ps: seq<Pass>, round: real -> real): Table {
    Play(map[], PassWrites(ps), round)
  }

  /** Each pass changes the table by the updates it commits, and by nothing else. */
  lemma OneMorePass(ps: seq<Pass>, p: Pass, round: real -> real)
    ensures Built(ps + [p], round) == Play(Built(ps, round), Writes(p.event)[..p.done], round)
  {
    assert (ps + [p])[..|ps + [p]| - 1] == ps;
    PlayConcat(map[], PassWrites(ps), Writes(p.event)[..p.done], round);
  }

  /** The place of an interval in the order of the three transactions. */
  function Rank(i: Interval): nat {
    match i
    case M1 => 0
    case M5 => 1
    case H1 => 2
  }

  /** The events whose transaction number `rank` was committed, in order. */
  function Level(ps: seq<Pass>, rank: nat): seq<Event> {
    if ps == [] then [] else
    var p := ps[|ps| - 1];
    Level(ps[..|ps| - 1], rank) + if p.done > rank then [p.event] else []
  }

  /** The mids of the instrument's events whose bucket lies in [lo, hi), in order. */
  function Prices(es: seq<Event>, instrument: string, i: Interval, lo: int, hi: int): seq<real> {
    if es == [] then [] else
    var e := es[|es| - 1];
    Prices(es[..|es| - 1], instrument, i, lo, hi) + if Within(e, instrument, i, lo, hi) then [e.mid] else []
  }

  predicate Within(e: Event, instrument: string, i: Interval, lo: int, hi: int) {
    e.instrument == instrument && lo <= BucketStart(e.stamp, i) < hi
  }

  /** The mids of the events that belong to a row. */
  function PricesFor(es: seq<Event>, k: Key): seq<real> {
    Prices(es, k.instrument, k.interval, k.bucket, k.bucket + 1)
  }

  lemma {:induction false} PricesConcat(a: seq<Event>, b: seq<Event>, instrument: string, i: Interval, lo: int, hi: int)
    ensures Prices(a + b, instrument, i, lo, hi) == Prices(a, instrument, i, lo, hi) + Prices(b, instrument, i, lo, hi)
  {
    if b == [] {
      assert a + b == a;
    } else {
      assert (a + b)[..|a + b| - 1] == a + b[..|b| - 1];
      PricesConcat(a, b[..|b| - 1], instrument, i, lo, hi);
    }
  }

  /** A row has prices exactly if an event belongs to it, and every such event's mid is among them. */
  lemma {:induction false} PricesHoldTheEvents(es: seq<Event>, instrument: string, i: Interval, lo: int, hi: int)
    ensures Prices(es, instrument, i, lo, hi) != [] <==> exists e :: e in es && Within(e, instrument, i, lo, hi)
    ensures forall e :: e in es && Within(e, instrument, i, lo, hi) ==> e.mid in Prices(es, instrument, i, lo, hi)
  {
    if es != [] {
      var init, last := es[..|es| - 1], es[|es| - 1];
      assert es == init + [last];
      PricesHoldTheEvents(init, instrument, i, lo, hi);
      assert last in es;
    }
  }

  lemma {:induction false} PricesOfPasses(ps: seq<Pass>, k: Key)
    ensures PricesAt(PassWrites(ps), k) == PricesFor(Level(ps, Rank(k.interval)), k)
  {
    if ps != [] {
      var init, p := ps[..|ps| - 1], ps[|ps| - 1];
      PricesOfPasses(init, k);
      PricesAtConcat(PassWrites(init), Writes(p.event)[..p.done], k);
      PricesOfOnePass(p, k);
      PricesForConcat(Level(init, Rank(k.interval)), if p.done > Rank(k.interval) then [p.event] else [], k);
    }
  }

  lemma PricesForConcat(a: seq<Event>, b: seq<Event>, k: Key)
    ensures PricesFor(a + b, k) == PricesFor(a, k) + PricesFor(b, k)
  {
    PricesConcat(a, b, k.instrument, k.interval, k.bucket, k.bucket + 1);
  }

  lemma PricesOfOnePass(p: Pass, k: Key)
    ensures PricesAt(Writes(p.event)[..p.done], k)
         == PricesFor(if p.done > Rank(k.interval) then [p.event] else [], k)
  {
    PricesAtThree(Writes(p.event), p.done, k);
    PricesOfOne(p.event, k.instrument, k.interval, k.bucket, k.bucket + 1);
  }

  /** Of one event's updates, only the one of the row's own interval can hit the row. */
  lemma PricesAtThree(ws: seq<Write>, done: Progress, k: Key)
    requires |ws| == 3 && ws[0].key.interval == M1 && ws[1].key.interval == M5 && ws[2].key.interval == H1
    ensures var w := ws[Rank(k.interval)];
            PricesAt(ws[..done], k) == if done > Rank(k.interval) && w.key == k then [w.price] else []
  {
    assert ws[..0] == [] && ws[..1] == ws[..0] + [ws[0]];
    assert ws[..2] == ws[..1] + [ws[1]] && ws[..3] == ws[..2] + [ws[2]];
    PricesAtMore(ws[..0], ws[0], k);
    PricesAtMore(ws[..1], ws[1], k);
    PricesAtMore(ws[..2], ws[2], k);
  }

  lemma PricesAtMore(ws: seq<Write>, w: Write, k: Key)
    ensures PricesAt(ws + [w], k) == PricesAt(ws, k) + if w.key == k then [w.price] else []
  {
    assert (ws + [w])[..|ws|] == ws;
  }

  lemma PricesOfOne(e: Event, instrument: string, i: Interval, lo: int, hi: int)
    ensures Prices([e], instrument, i, lo, hi) == if Within(e, instrument, i, lo, hi) then [e.mid] else []
  {
  }

  lemma BelongsByKey(e: Event, k: Key)
    ensures Within(e, k.instrument, k.interval, k.bucket, k.bucket + 1) <==> KeyOf(e, k.interval) == k
  {
  }

  /** A row gets prices exactly if some event is filed under its key. */
  lemma PricesByKey(es: seq<Event>, k: Key)
    ensures PricesFor(es, k) != [] <==> exists e :: e in es && KeyOf(e, k.interval) == k
  {
    PricesHoldTheEvents(es, k.instrument, k.interval, k.bucket, k.bucket + 1);
    forall e ensures Within(e, k.instrument, k.interval, k.bucket, k.bucket + 1) <==> KeyOf(e, k.interval) == k {
      BelongsByKey(e, k);
    }
  }

  /**
   * The whole table, for any run of the consumer, however often events are redelivered or attempts cut short: a row
   * exists exactly if an event was committed to it, and it holds the first, greatest, least and last mid and the
   * number of the events committed to it.
   */
  lemma TableMeaning(ps: seq<Pass>, round: real -> real, k: Key)
    requires StorageRounding(round)
    ensures var es := Level(ps, Rank(k.interval));
            && Lookup(Built(ps, round), k) == SummaryOrNone(PricesFor(es, k), round)
            && (k in Built(ps, round) <==> exists e :: e in es && KeyOf(e, k.interval) == k)
  {
    PlayIsSummary(PassWrites(ps), round, k);
    PricesOfPasses(ps, k);
    PricesByKey(Level(ps, Rank(k.interval)), k);
  }

  // ----- The table in words -----

  /** The attempt commits the update of the row. */
  predicate CommitsTo(p: Pass, k: Key) {
    && p.event.instrument == k.instrument && BucketStart(p.event.stamp, k.interval) == k.bucket
    && match k.interval
       case M1 => p.done >= 1
       case M5 => p.done >= 2
       case H1 => p.done == 3
  }

  /** The positions of the attempts that commit to the row, in order. */
  ghost predicate CommittedAt(at: seq<nat>, ps: seq<Pass>, k: Key) {
    && Ascends(at) && (forall i | 0 <= i < |at| :: at[i] < |ps|)
    && (forall j | 0 <= j < |ps| :: j in at <==> CommitsTo(ps[j], k))
  }

  /**
   * The bar has the first and the last of the committed mids, a greatest and a least one that none exceeds, and their
   * number, as rounded by the columns.
   */
  ghost predicate ShowsMids(bar: Bar, at: seq<nat>, ps: seq<Pass>, round: real -> real)
    requires at != [] && forall i | 0 <= i < |at| :: at[i] < |ps|
  {
    && bar.open == round(ps[at[0]].event.mid) && bar.close == round(ps[at[|at| - 1]].event.mid)
    && (forall i | 0 <= i < |at| :: bar.low <= round(ps[at[i]].event.mid) <= bar.high)
    && (exists i | 0 <= i < |at| :: bar.high == round(ps[at[i]].event.mid))
    && (exists i | 0 <= i < |at| :: bar.low == round(ps[at[i]].event.mid))
    && bar.volume == 0.0 && bar.ticks == |at|
  }

  /** The mids of the attempts at these positions, in order. */
  ghost predicate MidsAt(prices: seq<real>, at: seq<nat>, ps: seq<Pass>) {
    |prices| == |at| && forall i | 0 <= i < |at| :: at[i] < |ps| && prices[i] == ps[at[i]].event.mid
  }

  lemma {:induction false} CommittedPlaces(ps: seq<Pass>, k: Key) returns (at: seq<nat>)
    ensures CommittedAt(at, ps, k) && MidsAt(PricesFor(Level(ps, Rank(k.interval)), k), at, ps)
  {
    if ps == [] {
      at := [];
    } else {
      var init, p := ps[..|ps| - 1], ps[|ps| - 1];
      assert ps == init + [p];
      var before := CommittedPlaces(init, k);
      at := before + if CommitsTo(p, k) then [|init|] else [];
      CommittedMore(before, init, p, k);
      OneMoreCommitted(init, p, k);
      MidsMore(PricesFor(Level(init, Rank(k.interval)), k), before, init, p, CommitsTo(p, k));
    }
  }

  lemma CommittedMore(at: seq<nat>, init: seq<Pass>, p: Pass, k: Key)
    requires CommittedAt(at, init, k)
    ensures CommittedAt(at + (if CommitsTo(p, k) then [|init|] else []), init + [p], k)
  {
    PlacesMore(at, |init|, if CommitsTo(p, k) then [|init|] else []);
    assert forall j | 0 <= j < |init| :: (init + [p])[j] == init[j];
  }

  lemma MidsMore(prices: seq<real>, at: seq<nat>, init: seq<Pass>, p: Pass, more: bool)
    requires MidsAt(prices, at, init)
    ensures MidsAt(prices + (if more then [p.event.mid] else []), at + (if more then [|init|] else []), init + [p])
  {
  }

  lemma OneMoreCommitted(init: seq<Pass>, p: Pass, k: Key)
    ensures PricesFor(Level(init + [p], Rank(k.interval)), k)
         == PricesFor(Level(init, Rank(k.interval)), k) + if CommitsTo(p, k) then [p.event.mid] else []
  {
    assert (init + [p])[..|init|] == init;
    PricesForConcat(Level(init, Rank(k.interval)), if p.done > Rank(k.interval) then [p.event] else [], k);
    PricesOfOne(p.event, k.instrument, k.interval, k.bucket, k.bucket + 1);
  }

  /**
   * After any run, with redelivery and attempts cut short, a row exists exactly if an attempt committed to it, and
   * shows these.
   */
  lemma TableInWords(ps: seq<Pass>, round: real -> real, k: Key) returns (at: seq<nat>)
    requires StorageRounding(round)
    ensures CommittedAt(at, ps, k)
    ensures k in Built(ps, round) <==> at != []
    ensures at != [] ==> ShowsMids(Built(ps, round)[k], at, ps, round)
  {
    at := CommittedPlaces(ps, k);
    TableMeaning(ps, round, k);
    if at != [] {
      SummaryInWords(PricesFor(Level(ps, Rank(k.interval)), k), round, at, ps);
    }
  }

  lemma SummaryInWords(prices: seq<real>, round: real -> real, at: seq<nat>, ps: seq<Pass>)
    requires StorageRounding(round) && prices != [] && MidsAt(prices, at, ps)
    ensures ShowsMids(Summary(prices, round), at, ps, round)
  {
    var greatest, least := MaxOf(prices), MinOf(prices);
    var g :| 0 <= g < |prices| && prices[g] == greatest;
    var l :| 0 <= l < |prices| && prices[l] == least;
    forall i | 0 <= i < |at| ensures round(least) <= round(ps[at[i]].event.mid) <= round(greatest) {
      assert prices[i] in prices;
    }
  }
}
