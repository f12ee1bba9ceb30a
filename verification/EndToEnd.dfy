/** From the quotes that rounds of polling store to the bars that the consumer builds of them. */
module EndToEnd {
  import opened Numbers
  import opened Buckets
  import opened Bars
  import opened RollUp
  import opened Recovery
  import opened KafkaConsumer
  import FetchRound
  import Partitions

  // ----- What the bars should show -----

  predicate BelongsTo(r: FetchRound.QuoteRow, k: Key) {
    r.symbol == k.instrument && BucketStart(Utc(r.quote.timestamp), k.interval) == k.bucket
  }

  /** The mids of the quotes that belong to a row, in order. */
  function QuoteMids(topic: seq<FetchRound.QuoteRow>, k: Key): seq<real> {
    if topic == [] then [] else
    var r := topic[|topic| - 1];
    QuoteMids(topic[..|topic| - 1], k) + if BelongsTo(r, k) then [r.quote.Mid()] else []
  }

  // ----- The broker -----

  /** The messages under an instrument's key, in the order in which they were sent. */
  function MessagesOf(topic: seq<FetchRound.QuoteRow>, instrument: string): seq<Payload> {
    if topic == [] then [] else
    var r := topic[|topic| - 1];
    MessagesOf(topic[..|topic| - 1], instrument) + if r.symbol == instrument then [PayloadOf(r.symbol, r.quote)] else []
  }

  /** The payloads with an instrument's name, in the order in which they were handled. */
  function ArrivalsOf(ds: seq<Delivery>, instrument: string): seq<Payload> {
    if ds == [] then [] else
    var p := ds[|ds| - 1].payload;
    ArrivalsOf(ds[..|ds| - 1], instrument) + if p.instrument == Some(instrument) then [p] else []
  }

  /** Every message was delivered once, and those of one key in their order; keys may be interleaved in any way. */
  ghost predicate Carries(ds: seq<Delivery>, topic: seq<FetchRound.QuoteRow>) {
    forall instrument :: ArrivalsOf(ds, instrument) == MessagesOf(topic, instrument)
  }

  // ----- Both sides in terms of payloads -----

  predicate Sound(p: Payload) {
    p.bid.Some? && p.bid.value.Finite? && p.ask.Some? && p.ask.value.Finite? && p.ts.Some?
  }

  function PayloadMids(ps: seq<Payload>, k: Key): seq<real> {
    if ps == [] then [] else
    var p := ps[|ps| - 1];
    PayloadMids(ps[..|ps| - 1], k)
    + if Sound(p) && BucketStart(p.ts.value, k.interval) == k.bucket
      then [(p.bid.value.value + p.ask.value.value) / 2.0] else []
  }

  lemma PayloadMidsMore(ps: seq<Payload>, more: seq<Payload>, k: Key)
    requires |more| <= 1
    ensures PayloadMids(ps + more, k) == PayloadMids(ps, k) + PayloadMids(more, k)
  {
    if more == [] {
      assert ps + more == ps;
    } else {
      assert more == [more[0]] && (ps + more)[..|ps|] == ps && more[..0] == [];
    }
  }

  lemma {:induction false} MessagesAreSound(topic: seq<FetchRound.QuoteRow>, k: Key)
    ensures forall p | p in MessagesOf(topic, k.instrument) :: Sound(p)
    ensures PayloadMids(MessagesOf(topic, k.instrument), k) == QuoteMids(topic, k)
  {
    if topic != [] {
      var init, r := topic[..|topic| - 1], topic[|topic| - 1];
      MessagesAreSound(init, k);
      var more := if r.symbol == k.instrument then [PayloadOf(r.symbol, r.quote)] else [];
      PayloadMidsMore(MessagesOf(init, k.instrument), more, k);
    }
  }

  lemma {:induction false} PricesOfArrivals(known: set<string>, ds: seq<Delivery>, k: Key)
    requires k.instrument in known && k.instrument != ""
    requires forall p | p in ArrivalsOf(ds, k.instrument) :: Sound(p)
    ensures PricesFor(Accepted(known, ds), k) == PayloadMids(ArrivalsOf(ds, k.instrument), k)
  {
    if ds != [] {
      var init, d := ds[..|ds| - 1], ds[|ds| - 1];
      var more := if d.payload.instrument == Some(k.instrument) then [d.payload] else [];
      assert ArrivalsOf(ds, k.instrument) == ArrivalsOf(init, k.instrument) + more;
      PricesOfArrivals(known, init, k);
      PayloadMidsMore(ArrivalsOf(init, k.instrument), more, k);
      var e := Accept(known, d);
      var es := if e.Some? then [e.value] else [];
      PricesConcat(Accepted(known, init), es, k.instrument, k.interval, k.bucket, k.bucket + 1);
      assert more != [] ==> Sound(more[0]);
      PriceOfArrival(known, d, k);
    }
  }

  lemma PriceOfArrival(known: set<string>, d: Delivery, k: Key)
    requires k.instrument in known && k.instrument != ""
    requires d.payload.instrument == Some(k.instrument) ==> Sound(d.payload)
    ensures var e := Accept(known, d);
            var more := if d.payload.instrument == Some(k.instrument) then [d.payload] else [];
            PricesFor(if e.Some? then [e.value] else [], k) == PayloadMids(more, k)
  {
    var e := Accept(known, d);
    if e.Some? {
      PricesOfOne(e.value, k.instrument, k.interval, k.bucket, k.bucket + 1);
    }
    if d.payload.instrument == Some(k.instrument) {
      assert [d.payload][..0] == [];
    }
  }

  lemma PricesOfTopic(known: set<string>, topic: seq<FetchRound.QuoteRow>, ds: seq<Delivery>, k: Key)
    requires k.instrument in known && k.instrument != "" && Carries(ds, topic)
    ensures PricesFor(Accepted(known, ds), k) == QuoteMids(topic, k)
  {
    MessagesAreSound(topic, k);
    assert ArrivalsOf(ds, k.instrument) == MessagesOf(topic, k.instrument);
    PricesOfArrivals(known, ds, k);
  }

  // ----- The end-to-end statements -----

  /**
   * From polling to bars: after any rounds, once the consumer has handled what the broker accepted of them, with
   * instruments interleaved in any way, each bar of a known instrument holds the first, greatest, least and last mid,
   * and the number, of the quotes stored in its bucket and accepted by the broker.
   */
  lemma BarsOfRounds(clients: seq<string>, rounds: seq<seq<FetchRound.Poll>>, known: set<string>, ds: seq<Delivery>,
                     round: real -> real, k: Key)
    requires StorageRounding(round) && FetchRound.AllComplete(clients, rounds)
    requires k.instrument in known && k.instrument != "" && Carries(ds, FetchRound.RoundsTopic(clients, rounds))
    ensures Lookup(HandleAll(map[], known, ds, round), k)
         == SummaryOrNone(QuoteMids(FetchRound.RoundsTopic(clients, rounds), k), round)
  {
    HandleAllIsComplete(map[], known, ds, round);
    CompleteTable(Accepted(known, ds), round, k);
    PricesOfTopic(known, FetchRound.RoundsTopic(clients, rounds), ds, k);
  }

  /**
   * The same with crashes and redelivery: if the handler's calls resume and catch up, for each instrument over its own
   * messages, the bar shows the prices of those quotes; only its tick count can be larger.
   */
  lemma BarsOfRoundsRecover(clients: seq<string>, rounds: seq<seq<FetchRound.Poll>>, known: set<string>,
                            ds: seq<Delivery>,
                            hs: seq<Handling>, attempts: string -> seq<Attempt>, round: real -> real, k: Key)
    requires StorageRounding(round) && FetchRound.AllComplete(clients, rounds)
    requires k.instrument in known && k.instrument != "" && Carries(ds, FetchRound.RoundsTopic(clients, rounds))
    requires forall instrument ::
               Partitions.Recovers(PassesAmong(known, hs), Accepted(known, ds), instrument, attempts(instrument))
    ensures SameOhlc(Lookup(AfterAll(map[], known, hs, round), k),
                     SummaryOrNone(QuoteMids(FetchRound.RoundsTopic(clients, rounds), k), round))
  {
    CallsBuildTheTable(known, hs, round);
    Partitions.PartitionsCatchUp(PassesAmong(known, hs), Accepted(known, ds), attempts, round, k);
    CompleteTable(Accepted(known, ds), round, k);
    PricesOfTopic(known, FetchRound.RoundsTopic(clients, rounds), ds, k);
  }
}
