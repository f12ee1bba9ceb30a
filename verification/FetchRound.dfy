/** The polling task: one round over all instruments and exchanges, and what rounds leave in the stores. */
module FetchRound {
  import opened Numbers
  import opened Aggregator
  import opened ArbitrageScan
  import LiveFeed

  /**
   * What one exchange client returns for one instrument: nothing, or a price, with the time its row is stamped, the
   * clock when the staleness gate examines it, and whether the message broker accepts it.
   */
  datatype Answer = Silent | Answered(bid: real, ask: real, at: int, checkedAt: int, delivered: bool)

  /**
   * One selected instrument of a round, with one answer per client, and the symbols whose cache entries lapse
   * meanwhile: before a row is created, and during the publication.
   */
  datatype Poll = Poll(symbol: string, answers: seq<Answer>, lapsed: seq<string>, lapses: LiveFeed.Lapses)

  datatype QuoteRow = QuoteRow(symbol: string, quote: Quote)

  datatype PriceRow = PriceRow(symbol: string, price: Consolidated)

  datatype ArbitrageRow = ArbitrageRow(symbol: string, arbitrage: Arbitrage)

  // ----- What a round yields -----

  function Collected(clients: seq<string>, answers: seq<Answer>): seq<Quote>
    requires |answers| <= |clients|
  {
    if answers == [] then [] else
    var n := |answers| - 1;
    Collected(clients, answers[..n]) + if answers[n].Answered? then [Quoted(clients[n], answers[n])] else []
  }

  function ClockOf(clients: seq<string>, answers: seq<Answer>): (clock: seq<int>)
    requires |answers| <= |clients|
    ensures |clock| == |Collected(clients, answers)|
  {
    if answers == [] then [] else
    var n := |answers| - 1;
    ClockOf(clients, answers[..n]) + if answers[n].Answered? then [answers[n].checkedAt] else []
  }

  function Outcome(clients: seq<string>, p: Poll, maxAge: int): Option<Consolidated>
    requires |p.answers| == |clients|
  {
    Consolidate(Collected(clients, p.answers), ClockOf(clients, p.answers), maxAge)
  }

  predicate Complete(clients: seq<string>, round: seq<Poll>) {
    forall j | 0 <= j < |round| :: |round[j].answers| == |clients|
  }

  function Label(symbol: string, quotes: seq<Quote>): seq<QuoteRow> {
    if quotes == [] then [] else Label(symbol, quotes[..|quotes| - 1]) + [QuoteRow(symbol, quotes[|quotes| - 1])]
  }

  lemma {:induction false} LabelLength(symbol: string, quotes: seq<Quote>)
    ensures |Label(symbol, quotes)| == |quotes|
  {
    if quotes != [] {
      LabelLength(symbol, quotes[..|quotes| - 1]);
    }
  }

  lemma LabelNext(symbol: string, quotes: seq<Quote>, q: Quote)
    ensures Label(symbol, quotes + [q]) == Label(symbol, quotes) + [QuoteRow(symbol, q)]
  {
    assert (quotes + [q])[..|quotes|] == quotes;
  }

  /** The failed fetches of a round. */
  function Failures(clients: seq<string>, round: seq<Poll>): nat
    requires Complete(clients, round)
  {
    if round == [] then 0 else
    var p := round[|round| - 1];
    CollectedLength(clients, p.answers);
    Failures(clients, round[..|round| - 1]) + |clients| - |Collected(clients, p.answers)|
  }

  /** Every client is asked once about every instrument. */
  lemma {:induction false} FetchedOrFailed(clients: seq<string>, round: seq<Poll>)
    requires Complete(clients, round)
    ensures |QuoteRows(clients, round)| + Failures(clients, round) == |clients| * |round|
  {
    if round != [] {
      FetchedOrFailed(clients, round[..|round| - 1]);
      LabelLength(round[|round| - 1].symbol, Collected(clients, round[|round| - 1].answers));
      assert |clients| * |round| == |clients| * (|round| - 1) + |clients|;
    }
  }

  lemma {:induction false} CollectedLength(clients: seq<string>, answers: seq<Answer>)
    requires |answers| <= |clients|
    ensures |Collected(clients, answers)| <= |answers|
  {
    if answers != [] {
      CollectedLength(clients, answers[..|answers| - 1]);
    }
  }

  function Quoted(client: string, a: Answer): Quote
    requires a.Answered?
  {
    Quote(client, a.bid, a.ask, a.at)
  }

  /** One more client's answer, in the quotes of the round, in their rows, and in what is sent. */
  lemma CollectedNext(clients: seq<string>, p: Poll, j: nat)
    requires |p.answers| == |clients| && j < |clients|
    ensures var quotes, row := Collected(clients, p.answers[..j]), StoredRow(p.symbol, clients[j], p.answers[j]);
            && Collected(clients, p.answers[..j + 1])
                 == quotes + (if p.answers[j].Answered? then [Quoted(clients[j], p.answers[j])] else [])
            && Label(p.symbol, Collected(clients, p.answers[..j + 1])) == Label(p.symbol, quotes) + row
            && Sent(p.symbol, clients, p.answers[..j + 1])
                 == Sent(p.symbol, clients, p.answers[..j]) + SentRow(p.symbol, clients[j], p.answers[j])
  {
    assert p.answers[..j + 1][..j] == p.answers[..j];
    var quotes := Collected(clients, p.answers[..j]);
    if p.answers[j].Answered? {
      LabelNext(p.symbol, quotes, Quoted(clients[j], p.answers[j]));
    } else {
      assert Collected(clients, p.answers[..j + 1]) == quotes;
    }
  }

  function QuoteRows(clients: seq<string>, round: seq<Poll>): seq<QuoteRow>
    requires Complete(clients, round)
  {
    if round == [] then [] else
    var p := round[|round| - 1];
    QuoteRows(clients, round[..|round| - 1]) + Label(p.symbol, Collected(clients, p.answers))
  }

  function PriceRows(clients: seq<string>, round: seq<Poll>, maxAge: int): seq<PriceRow>
    requires Complete(clients, round)
  {
    if round == [] then [] else
    PriceRows(clients, round[..|round| - 1], maxAge) + PricesFrom(clients, round[|round| - 1], maxAge)
  }

  function PricesFrom(clients: seq<string>, p: Poll, maxAge: int): seq<PriceRow>
    requires |p.answers| == |clients|
  {
    match Outcome(clients, p, maxAge)
    case None => []
    case Some(c) => [PriceRow(p.symbol, c)]
  }

  /** What one instrument adds to the arbitrage rows: what the scan detects, if the instrument consolidates at all. */
  ghost function ArbitragesFrom(clients: seq<string>, p: Poll, maxAge: int): seq<ArbitrageRow>
    requires |p.answers| == |clients|
  {
    if Outcome(clients, p, maxAge).None? then [] else ArbitrageRows(p.symbol, Detection(Collected(clients, p.answers)))
  }

  function ArbitrageRows(symbol: string, detected: Option<Arbitrage>): seq<ArbitrageRow> {
    if detected.None? then [] else [ArbitrageRow(symbol, StoredTrade(detected.value))]
  }

  ghost function RoundArbitrages(clients: seq<string>, round: seq<Poll>, maxAge: int): seq<ArbitrageRow>
    requires Complete(clients, round)
  {
    if round == [] then [] else
    RoundArbitrages(clients, round[..|round| - 1], maxAge) + ArbitragesFrom(clients, round[|round| - 1], maxAge)
  }

  // ----- What the broker gets -----

  /** The quotes of one instrument that the broker accepted as messages, in order. */
  function Sent(symbol: string, clients: seq<string>, answers: seq<Answer>): seq<QuoteRow>
    requires |answers| <= |clients|
  {
    if answers == [] then [] else
    var n := |answers| - 1;
    Sent(symbol, clients, answers[..n]) + SentRow(symbol, clients[n], answers[n])
  }

  /** The row of one answer, if it is one. */
  function StoredRow(symbol: string, client: string, a: Answer): seq<QuoteRow> {
    if a.Answered? then [QuoteRow(symbol, Quoted(client, a))] else []
  }

  /** The message of one answer, if the broker accepts it. */
  function SentRow(symbol: string, client: string, a: Answer): seq<QuoteRow> {
    if a.Answered? && a.delivered then [QuoteRow(symbol, Quoted(client, a))] else []
  }

  function RoundTopic(clients: seq<string>, round: seq<Poll>): seq<QuoteRow>
    requires Complete(clients, round)
  {
    if round == [] then [] else
    var p := round[|round| - 1];
    RoundTopic(clients, round[..|round| - 1]) + Sent(p.symbol, clients, p.answers)
  }

  predicate AllComplete(clients: seq<string>, rounds: seq<seq<Poll>>) {
    forall i | 0 <= i < |rounds| :: Complete(clients, rounds[i])
  }

  function RoundsTopic(clients: seq<string>, rounds: seq<seq<Poll>>): seq<QuoteRow>
    requires AllComplete(clients, rounds)
  {
    if rounds == [] then [] else
    RoundsTopic(clients, rounds[..|rounds| - 1]) + RoundTopic(clients, rounds[|rounds| - 1])
  }

  /** Only stored quotes are sent, and all of them if the broker accepts all. */
  lemma {:induction false} SentIsStored(symbol: string, clients: seq<string>, answers: seq<Answer>)
    requires |answers| <= |clients|
    ensures Subsequence(Sent(symbol, clients, answers), Label(symbol, Collected(clients, answers)))
    ensures (forall a | a in answers && a.Answered? :: a.delivered) ==>
              Sent(symbol, clients, answers) == Label(symbol, Collected(clients, answers))
  {
    if answers != [] {
      var n := |answers| - 1;
      assert answers == answers[..n] + [answers[n]];
      SentIsStored(symbol, clients, answers[..n]);
      var row, sent := StoredRow(symbol, clients[n], answers[n]), SentRow(symbol, clients[n], answers[n]);
      LabelAnswer(symbol, clients, answers);
      OneMoreSent(Sent(symbol, clients, answers[..n]), Label(symbol, Collected(clients, answers[..n])), row, sent);
    }
  }

  lemma LabelAnswer(symbol: string, clients: seq<string>, answers: seq<Answer>)
    requires 0 < |answers| <= |clients|
    ensures var n := |answers| - 1;
            Label(symbol, Collected(clients, answers))
              == Label(symbol, Collected(clients, answers[..n])) + StoredRow(symbol, clients[n], answers[n])
  {
    var n := |answers| - 1;
    if answers[n].Answered? {
      LabelNext(symbol, Collected(clients, answers[..n]), Quoted(clients[n], answers[n]));
    } else {
      assert Collected(clients, answers) == Collected(clients, answers[..n]);
    }
  }

  lemma OneMoreSent(sent: seq<QuoteRow>, stored: seq<QuoteRow>, row: seq<QuoteRow>, message: seq<QuoteRow>)
    requires Subsequence(sent, stored) && |row| <= 1 && (message == [] || message == row)
    ensures Subsequence(sent + message, stored + row)
  {
    assert sent + [] == sent && stored + [] == stored;
    if row != [] {
      assert row == [row[0]];
      SubsequenceOfLonger(sent, stored, row[0]);
      SubsequenceOfBoth(sent, stored, row[0]);
    }
  }

  lemma RoundsTopicNext(topic: seq<QuoteRow>, clients: seq<string>, rounds: seq<seq<Poll>>, i: nat)
    requires AllComplete(clients, rounds) && i < |rounds|
    ensures topic + RoundsTopic(clients, rounds[..i]) + RoundTopic(clients, rounds[i])
         == topic + RoundsTopic(clients, rounds[..i + 1])
  {
    assert rounds[..i + 1][..i] == rounds[..i];
    LiveFeed.Regroup(topic, RoundsTopic(clients, rounds[..i]), RoundTopic(clients, rounds[i]));
  }

  // ----- Answers by position -----

  /** The quote says what the client answered, and when. */
  predicate Transcribes(q: Quote, client: string, a: Answer) {
    a.Answered? && q.source == client && q.bid == a.bid && q.ask == a.ask && q.timestamp == a.at
  }

  /** The quotes and clock readings are, in order, those of the answers at these positions, which are all that came. */
  ghost predicate AnsweredAt(at: seq<nat>, clients: seq<string>, answers: seq<Answer>, quotes: seq<Quote>,
                             clock: seq<int>)
    requires |answers| <= |clients|
  {
    && Ascends(at) && |at| == |quotes| == |clock|
    && (forall k | 0 <= k < |at| ::
          && at[k] < |answers| && Transcribes(quotes[k], clients[at[k]], answers[at[k]])
          && clock[k] == answers[at[k]].checkedAt)
    && (forall j | 0 <= j < |answers| :: j in at <==> answers[j].Answered?)
  }

  /** The rows are, in order, those of the answers at these positions, which are all that the broker accepts. */
  ghost predicate DeliveredAt(at: seq<nat>, symbol: string, clients: seq<string>, answers: seq<Answer>,
                              rows: seq<QuoteRow>)
    requires |answers| <= |clients|
  {
    && Ascends(at) && |at| == |rows|
    && (forall k | 0 <= k < |at| ::
          at[k] < |answers| && rows[k].symbol == symbol && Transcribes(rows[k].quote, clients[at[k]], answers[at[k]]))
    && (forall j | 0 <= j < |answers| :: j in at <==> answers[j].Answered? && answers[j].delivered)
  }

  /** Rows of one instrument for these quotes, in order. */
  predicate RowsFor(rows: seq<QuoteRow>, symbol: string, quotes: seq<Quote>) {
    |rows| == |quotes| && forall k | 0 <= k < |rows| :: rows[k].symbol == symbol && rows[k].quote == quotes[k]
  }

  lemma {:induction false} AnswersByPosition(clients: seq<string>, answers: seq<Answer>) returns (at: seq<nat>)
    requires |answers| <= |clients|
    ensures AnsweredAt(at, clients, answers, Collected(clients, answers), ClockOf(clients, answers))
  {
    if answers == [] {
      at := [];
    } else {
      var n := |answers| - 1;
      var before := AnswersByPosition(clients, answers[..n]);
      at := before + if answers[n].Answered? then [n] else [];
      OneMoreAnswer(before, clients, answers, Collected(clients, answers[..n]), ClockOf(clients, answers[..n]));
    }
  }

  lemma OneMoreAnswer(at: seq<nat>, clients: seq<string>, answers: seq<Answer>, quotes: seq<Quote>, clock: seq<int>)
    requires 0 < |answers| <= |clients| && AnsweredAt(at, clients, answers[..|answers| - 1], quotes, clock)
    ensures var n := |answers| - 1;
            var a := answers[n];
            AnsweredAt(at + (if a.Answered? then [n] else []), clients, answers,
                       quotes + (if a.Answered? then [Quoted(clients[n], a)] else []),
                       clock + if a.Answered? then [a.checkedAt] else [])
  {
    var n := |answers| - 1;
    PlacesMore(at, n, if answers[n].Answered? then [n] else []);
    forall j | 0 <= j < n ensures j in at <==> answers[j].Answered? {
      assert answers[..n][j] == answers[j];
    }
    forall k | 0 <= k < |at|
      ensures at[k] < n && Transcribes(quotes[k], clients[at[k]], answers[at[k]])
      ensures clock[k] == answers[at[k]].checkedAt
    {
      assert answers[..n][at[k]] == answers[at[k]];
    }
  }

  lemma {:induction false} DeliveriesByPosition(symbol: string, clients: seq<string>, answers: seq<Answer>)
    returns (at: seq<nat>)
    requires |answers| <= |clients|
    ensures DeliveredAt(at, symbol, clients, answers, Sent(symbol, clients, answers))
  {
    if answers == [] {
      at := [];
    } else {
      var n := |answers| - 1;
      var before := DeliveriesByPosition(symbol, clients, answers[..n]);
      at := before + if answers[n].Answered? && answers[n].delivered then [n] else [];
      OneMoreDelivery(before, symbol, clients, answers, Sent(symbol, clients, answers[..n]));
    }
  }

  lemma OneMoreDelivery(at: seq<nat>, symbol: string, clients: seq<string>, answers: seq<Answer>, rows: seq<QuoteRow>)
    requires 0 < |answers| <= |clients| && DeliveredAt(at, symbol, clients, answers[..|answers| - 1], rows)
    ensures var n := |answers| - 1;
            DeliveredAt(at + (if answers[n].Answered? && answers[n].delivered then [n] else []), symbol, clients,
                        answers, rows + SentRow(symbol, clients[n], answers[n]))
  {
    var n := |answers| - 1;
    PlacesMore(at, n, if answers[n].Answered? && answers[n].delivered then [n] else []);
    forall j | 0 <= j < n ensures j in at <==> answers[j].Answered? && answers[j].delivered {
      assert answers[..n][j] == answers[j];
    }
    forall k | 0 <= k < |at|
      ensures at[k] < n && rows[k].symbol == symbol && Transcribes(rows[k].quote, clients[at[k]], answers[at[k]])
    {
      assert answers[..n][at[k]] == answers[at[k]];
    }
  }

  lemma {:induction false} LabelByPosition(symbol: string, quotes: seq<Quote>)
    ensures RowsFor(Label(symbol, quotes), symbol, quotes)
  {
    if quotes != [] {
      LabelByPosition(symbol, quotes[..|quotes| - 1]);
    }
  }

  // ----- What a round does to the cache and to the protocol -----

  /** What one instrument does to the cache. */
  function InstrumentCache(cache: map<string, Consolidated>, clients: seq<string>, p: Poll, maxAge: int)
    : map<string, Consolidated>
    requires |p.answers| == |clients|
  {
    var rest := LiveFeed.Without(cache, p.lapsed);
    match Outcome(clients, p, maxAge)
    case None => rest
    case Some(c) => LiveFeed.CacheAfter(rest, p.symbol, c, p.lapses)
  }

  /** What one instrument does in the publication protocol. */
  function InstrumentSteps(clients: seq<string>, p: Poll, maxAge: int): seq<LiveFeed.Step>
    requires |p.answers| == |clients|
  {
    LiveFeed.Expiries(p.lapsed) +
    match Outcome(clients, p, maxAge)
    case None => []
    case Some(c) => LiveFeed.Publication(p.symbol, c, p.lapses)
  }

  function RoundCache(cache: map<string, Consolidated>, clients: seq<string>, round: seq<Poll>, maxAge: int)
    : map<string, Consolidated>
    requires Complete(clients, round)
  {
    if round == [] then cache else
    InstrumentCache(RoundCache(cache, clients, round[..|round| - 1], maxAge), clients, round[|round| - 1], maxAge)
  }

  function RoundSteps(clients: seq<string>, round: seq<Poll>, maxAge: int): seq<LiveFeed.Step>
    requires Complete(clients, round)
  {
    if round == [] then [] else
    RoundSteps(clients, round[..|round| - 1], maxAge) + InstrumentSteps(clients, round[|round| - 1], maxAge)
  }

  /** The instruments selected in a sequence of rounds, counted once a round. */
  function Selected(rounds: seq<seq<Poll>>): nat {
    if rounds == [] then 0 else Selected(rounds[..|rounds| - 1]) + |rounds[|rounds| - 1]|
  }

  /** The requests for n instruments: one to each client. */
  function Asked(clients: seq<string>, n: nat): nat {
    if n == 0 then 0 else Asked(clients, n - 1) + |clients|
  }

  lemma {:induction false} AskedIs(clients: seq<string>, n: nat)
    ensures Asked(clients, n) == |clients| * n
  {
    if n > 0 {
      AskedIs(clients, n - 1);
      assert |clients| * n == |clients| * (n - 1) + |clients|;
    }
  }

  /** The requests that a sequence of rounds makes: one to each client for each selected instrument. */
  function Requests(clients: seq<string>, rounds: seq<seq<Poll>>): nat {
    |clients| * Selected(rounds)
  }

  lemma RequestsNext(clients: seq<string>, rounds: seq<seq<Poll>>, i: nat)
    requires i < |rounds|
    ensures Requests(clients, rounds[..i + 1]) == Requests(clients, rounds[..i]) + |clients| * |rounds[i]|
  {
    assert rounds[..i + 1][..i] == rounds[..i];
  }

  /** In any round there are at most as many arbitrages as consolidated prices, and as many of those as quotes. */
  lemma {:induction false} RoundLedger(clients: seq<string>, round: seq<Poll>, maxAge: int)
    requires Complete(clients, round)
    ensures |RoundArbitrages(clients, round, maxAge)| <= |PriceRows(clients, round, maxAge)|
            <= |QuoteRows(clients, round)|
  {
    if round != [] {
      RoundLedger(clients, round[..|round| - 1], maxAge);
      InstrumentLedger(clients, round[|round| - 1], maxAge);
    }
  }

  lemma InstrumentLedger(clients: seq<string>, p: Poll, maxAge: int)
    requires |p.answers| == |clients|
    ensures |ArbitragesFrom(clients, p, maxAge)| <= |PricesFrom(clients, p, maxAge)|
         <= |Label(p.symbol, Collected(clients, p.answers))|
  {
    LabelLength(p.symbol, Collected(clients, p.answers));
  }

  // ----- One instrument in words -----

  /** The answer has positive prices and is not older than the limit when it is examined. */
  predicate Passes(a: Answer, maxAge: int) {
    a.Answered? && a.bid > 0.0 && a.ask > 0.0 && a.checkedAt - a.at <= maxAge
  }

  /** What is stored differs from a report at most in the last place of its basis points. */
  ghost predicate StoredReport(quotes: seq<Quote>, i: int, j: int, a: Arbitrage, stored: Arbitrage) {
    && IsReport(quotes, i, j, a)
    && stored.buyVenue == a.buyVenue && stored.buyPrice == a.buyPrice
    && stored.sellVenue == a.sellVenue && stored.sellPrice == a.sellPrice && stored.spread == a.spread
    && -0.00005 <= stored.spreadBps - a.spreadBps <= 0.00005
  }

  /**
   * An instrument adds one price row, under its own symbol, exactly if some answer passes the gate. It adds an
   * arbitrage row, under its own symbol, exactly if it adds a price and some pair of its quotes earns; and that row
   * tells of a report of these quotes.
   */
  lemma InstrumentInWords(clients: seq<string>, p: Poll, maxAge: int)
    requires |p.answers| == |clients|
    ensures var prices := PricesFrom(clients, p, maxAge);
            && |prices| <= 1
            && (prices != [] <==> exists j :: 0 <= j < |p.answers| && Passes(p.answers[j], maxAge))
            && (prices != [] ==> prices[0].symbol == p.symbol)
    ensures var quotes, rows := Collected(clients, p.answers), ArbitragesFrom(clients, p, maxAge);
            && |rows| <= 1
            && (rows != [] <==> PricesFrom(clients, p, maxAge) != [] && exists i, j :: Earning(quotes, i, j))
            && (rows != [] ==>
                  rows[0].symbol == p.symbol && exists i, j, a :: StoredReport(quotes, i, j, a, rows[0].arbitrage))
  {
    SomeAnswerPasses(clients, p.answers, maxAge);
    var quotes := Collected(clients, p.answers);
    DetectionHolds(quotes);
    ReportInWords(quotes, Detection(quotes));
    if Detection(quotes).Some? {
      var a := Detection(quotes).value;
      var i, j :| IsReport(quotes, i, j, a);
      PositiveQuotesHolds(quotes);
      ReportedSpreadBound(PositiveQuotes(quotes), a);
      assert StoredReport(quotes, i, j, a, StoredTrade(a));
    }
  }

  lemma SomeAnswerPasses(clients: seq<string>, answers: seq<Answer>, maxAge: int)
    requires |answers| == |clients|
    ensures Candidates(Collected(clients, answers), ClockOf(clients, answers), maxAge) != []
            <==> exists j :: 0 <= j < |answers| && Passes(answers[j], maxAge)
  {
    var quotes, clock := Collected(clients, answers), ClockOf(clients, answers);
    var at := AnswersByPosition(clients, answers);
    var through := CandidatesByPosition(quotes, clock, maxAge);
    if through != [] {
      SomeCandidatePasses(at, through, clients, answers, quotes, clock, maxAge);
    }
    if j :| 0 <= j < |answers| && Passes(answers[j], maxAge) {
      PassingIsCandidate(at, through, clients, answers, quotes, clock, maxAge, j);
    }
  }

  lemma SomeCandidatePasses(at: seq<nat>, through: seq<nat>, clients: seq<string>, answers: seq<Answer>,
                            quotes: seq<Quote>, clock: seq<int>, maxAge: int)
    requires |answers| == |clients| && AnsweredAt(at, clients, answers, quotes, clock)
    requires through != [] && GateAt(through, quotes, clock, maxAge, Candidates(quotes, clock, maxAge))
    ensures exists j :: 0 <= j < |answers| && Passes(answers[j], maxAge)
  {
    var k := through[0];
    assert k in through && k < |quotes|;
    assert Transcribes(quotes[k], clients[at[k]], answers[at[k]]);
    assert Passes(answers[at[k]], maxAge);
  }

  lemma PassingIsCandidate(at: seq<nat>, through: seq<nat>, clients: seq<string>, answers: seq<Answer>,
                           quotes: seq<Quote>, clock: seq<int>, maxAge: int, j: nat)
    requires |answers| == |clients| && AnsweredAt(at, clients, answers, quotes, clock)
    requires GateAt(through, quotes, clock, maxAge, Candidates(quotes, clock, maxAge))
    requires j < |answers| && Passes(answers[j], maxAge)
    ensures through != []
  {
    var k :| 0 <= k < |at| && at[k] == j;
    assert Transcribes(quotes[k], clients[j], answers[j]);
    assert k in through;
  }

  // ----- What a round does to the stores -----

  /** The stores that a round adds to, and the steps made in the protocol. */
  datatype Stores = Stores(quotes: seq<QuoteRow>, prices: seq<PriceRow>, arbitrages: seq<ArbitrageRow>,
                           topic: seq<QuoteRow>, cache: map<string, Consolidated>, trace: seq<LiveFeed.Step>)

  ghost function AfterInstrument(st: Stores, clients: seq<string>, p: Poll, maxAge: int): Stores
    requires |p.answers| == |clients|
  {
    Stores(st.quotes + Label(p.symbol, Collected(clients, p.answers)), st.prices + PricesFrom(clients, p, maxAge),
           st.arbitrages + ArbitragesFrom(clients, p, maxAge), st.topic + Sent(p.symbol, clients, p.answers),
           InstrumentCache(st.cache, clients, p, maxAge),
           st.trace + InstrumentSteps(clients, p, maxAge))
  }

  ghost function AfterRound(st: Stores, clients: seq<string>, round: seq<Poll>, maxAge: int): Stores
    requires Complete(clients, round)
  {
    if round == [] then st else
    AfterInstrument(AfterRound(st, clients, round[..|round| - 1], maxAge), clients, round[|round| - 1], maxAge)
  }

  /** What a round adds to each store. */
  lemma {:induction false} AfterRoundIs(st: Stores, clients: seq<string>, round: seq<Poll>, maxAge: int)
    requires Complete(clients, round)
    ensures AfterRound(st, clients, round, maxAge)
         == Stores(st.quotes + QuoteRows(clients, round), st.prices + PriceRows(clients, round, maxAge),
                   st.arbitrages + RoundArbitrages(clients, round, maxAge), st.topic + RoundTopic(clients, round),
                   RoundCache(st.cache, clients, round, maxAge),
                   st.trace + RoundSteps(clients, round, maxAge))
  {
    if round != [] {
      var init, p := round[..|round| - 1], round[|round| - 1];
      AfterRoundIs(st, clients, init, maxAge);
      LiveFeed.Regroup(st.quotes, QuoteRows(clients, init), Label(p.symbol, Collected(clients, p.answers)));
      LiveFeed.Regroup(st.prices, PriceRows(clients, init, maxAge), PricesFrom(clients, p, maxAge));
      LiveFeed.Regroup(st.arbitrages, RoundArbitrages(clients, init, maxAge), ArbitragesFrom(clients, p, maxAge));
      LiveFeed.Regroup(st.topic, RoundTopic(clients, init), Sent(p.symbol, clients, p.answers));
      LiveFeed.Regroup(st.trace, RoundSteps(clients, init, maxAge), InstrumentSteps(clients, p, maxAge));
    }
  }

  lemma AfterRoundNext(st: Stores, clients: seq<string>, round: seq<Poll>, i: nat, maxAge: int)
    requires Complete(clients, round) && i < |round|
    ensures AfterInstrument(AfterRound(st, clients, round[..i], maxAge), clients, round[i], maxAge)
         == AfterRound(st, clients, round[..i + 1], maxAge)
  {
    assert round[..i + 1][..i] == round[..i];
  }

  // ----- Agreement with the publication protocol -----

  function PricesOf(prices: seq<PriceRow>, symbol: string): seq<Consolidated> {
    if prices == [] then [] else
    var r := prices[|prices| - 1];
    PricesOf(prices[..|prices| - 1], symbol) + if r.symbol == symbol then [r.price] else []
  }

  /** The stores show what the protocol's worker has done so far, and it is between two publications. */
  ghost predicate Shows(s: LiveFeed.State, prices: seq<PriceRow>, cache: map<string, Consolidated>) {
    && s.worker == LiveFeed.Idle
    && (forall symbol :: SamePrices(LiveFeed.Of(s.rows, symbol), PricesOf(prices, symbol)))
    && SameEntries(s.cache, cache)
  }

  ghost predicate SameEntries(rows: map<string, LiveFeed.Row>, cache: map<string, Consolidated>) {
    cache.Keys == rows.Keys && forall symbol | symbol in cache :: rows[symbol].price == cache[symbol]
  }

  ghost predicate SamePrices(rows: seq<LiveFeed.Row>, prices: seq<Consolidated>) {
    |rows| == |prices| && forall j | 0 <= j < |rows| :: rows[j].price == prices[j]
  }

  lemma {:induction false} SameAfterLapses(rows: map<string, LiveFeed.Row>, cache: map<string, Consolidated>,
                                           symbols: seq<string>)
    requires SameEntries(rows, cache)
    ensures SameEntries(LiveFeed.Without(rows, symbols), LiveFeed.Without(cache, symbols))
  {
    if symbols != [] {
      SameAfterLapses(rows, cache, symbols[..|symbols| - 1]);
    }
  }

  lemma SameAfterPublication(rows: map<string, LiveFeed.Row>, cache: map<string, Consolidated>, symbol: string,
                             row: LiveFeed.Row, lapses: LiveFeed.Lapses)
    requires SameEntries(rows, cache)
    ensures SameEntries(LiveFeed.CacheAfter(rows, symbol, row, lapses),
                        LiveFeed.CacheAfter(cache, symbol, row.price, lapses))
  {
    SameAfterLapses(rows, cache, lapses.created);
    SameAfterLapses(LiveFeed.Without(rows, lapses.created)[symbol := row],
                    LiveFeed.Without(cache, lapses.created)[symbol := row.price], lapses.cached);
  }

  lemma ShowsOneMore(s: LiveFeed.State, s': LiveFeed.State, prices: seq<PriceRow>, cache: map<string, Consolidated>,
                     symbol: string, row: LiveFeed.Row, lapses: LiveFeed.Lapses)
    requires Shows(s, prices, cache) && s'.worker == LiveFeed.Idle
    requires s'.rows == s.rows[symbol := LiveFeed.Of(s.rows, symbol) + [row]]
    requires s'.cache == LiveFeed.CacheAfter(s.cache, symbol, row, lapses)
    ensures Shows(s', prices + [PriceRow(symbol, row.price)], LiveFeed.CacheAfter(cache, symbol, row.price, lapses))
  {
    var prices' := prices + [PriceRow(symbol, row.price)];
    forall x ensures SamePrices(LiveFeed.Of(s'.rows, x), PricesOf(prices', x)) {
      SamePricesMore(LiveFeed.Of(s.rows, x), prices, symbol, row, x);
    }
    SameAfterPublication(s.cache, cache, symbol, row, lapses);
  }

  lemma SamePricesMore(rows: seq<LiveFeed.Row>, prices: seq<PriceRow>, symbol: string, row: LiveFeed.Row, x: string)
    requires SamePrices(rows, PricesOf(prices, x))
    ensures SamePrices(if x == symbol then rows + [row] else rows, PricesOf(prices + [PriceRow(symbol, row.price)], x))
  {
    assert (prices + [PriceRow(symbol, row.price)])[..|prices|] == prices;
  }

  /**
   * Creating, caching and broadcasting one price, in this order and with entries lapsing in between, are steps the
   * protocol allows, and end between publications.
   */
  lemma PublicationRuns(trace: seq<LiveFeed.Step>, prices: seq<PriceRow>, cache: map<string, Consolidated>,
                        symbol: string, price: Consolidated, lapses: LiveFeed.Lapses)
    requires LiveFeed.Run(trace).Some? && Shows(LiveFeed.Run(trace).value, prices, cache)
    ensures var trace' := trace + LiveFeed.Publication(symbol, price, lapses);
            && LiveFeed.Run(trace').Some?
            && Shows(LiveFeed.Run(trace').value, prices + [PriceRow(symbol, price)],
                     LiveFeed.CacheAfter(cache, symbol, price, lapses))
  {
    var s := LiveFeed.Run(trace).value;
    LiveFeed.RunPublication(trace, symbol, price, lapses);
    ShowsOneMore(s, LiveFeed.Run(trace + LiveFeed.Publication(symbol, price, lapses)).value, prices, cache, symbol,
                 LiveFeed.Row(|LiveFeed.Of(s.rows, symbol)|, price), lapses);
  }

  lemma ExpiriesRun(trace: seq<LiveFeed.Step>, prices: seq<PriceRow>, cache: map<string, Consolidated>,
                    symbols: seq<string>)
    requires LiveFeed.Run(trace).Some? && Shows(LiveFeed.Run(trace).value, prices, cache)
    ensures var trace' := trace + LiveFeed.Expiries(symbols);
            LiveFeed.Run(trace').Some? && Shows(LiveFeed.Run(trace').value, prices, LiveFeed.Without(cache, symbols))
  {
    LiveFeed.RunExpiries(trace, symbols);
    SameAfterLapses(LiveFeed.Run(trace).value.cache, cache, symbols);
  }

  /** Every unexpired cache entry is the newest price created for its symbol. */
  lemma CacheIsNewest(trace: seq<LiveFeed.Step>, prices: seq<PriceRow>, cache: map<string, Consolidated>,
                      symbol: string)
    requires LiveFeed.Run(trace).Some? && Shows(LiveFeed.Run(trace).value, prices, cache) && symbol in cache
    ensures var ps := PricesOf(prices, symbol);
            ps != [] && cache[symbol] == ps[|ps| - 1]
  {
    LiveFeed.CacheShowsNewest(trace, symbol);
    var rows := LiveFeed.Of(LiveFeed.Run(trace).value.rows, symbol);
    assert SamePrices(rows, PricesOf(prices, symbol));
    SameLast(rows, PricesOf(prices, symbol));
  }

  lemma SameLast(rows: seq<LiveFeed.Row>, prices: seq<Consolidated>)
    requires SamePrices(rows, prices) && rows != []
    ensures prices != [] && rows[|rows| - 1].price == prices[|prices| - 1]
  {
  }

  // ----- Clients of the service -----

  /**
   * Any interleaving of clients with the service's own steps shows its stores, so that what clients are guaranteed
   * holds of the stored prices: updates are a contiguous run of them, and a live client that has drained its queue saw
   * the newest last.
   */
  lemma ClientsSeeStoredPrices(steps: seq<LiveFeed.Step>, trace: seq<LiveFeed.Step>, prices: seq<PriceRow>,
                               cache: map<string, Consolidated>, id: nat)
    requires LiveFeed.Run(steps).Some? && LiveFeed.WithoutClients(steps) == trace
    requires id in LiveFeed.Run(steps).value.clients
    requires LiveFeed.Run(trace).Some? && Shows(LiveFeed.Run(trace).value, prices, cache)
    ensures var c := LiveFeed.Run(steps).value.clients[id];
            var ps, us := PricesOf(prices, c.symbol), LiveFeed.Updates(c.transcript);
            && c.joined + |us| <= |ps|
            && (forall j | 0 <= j < |us| :: us[j].price == ps[c.joined + j])
            && (c.phase == LiveFeed.Live ==> c.joined + |us| + |c.queue| == |ps|)
            && (c.phase == LiveFeed.Live && c.queue == [] && c.transcript != [] ==>
                  ps != [] && c.transcript[|c.transcript| - 1].row.price == ps[|ps| - 1])
  {
    LiveFeed.WorkerAlone(steps);
    var s := LiveFeed.Run(steps).value;
    var c := s.clients[id];
    LiveFeed.NoGap(steps, id);
    assert SamePrices(LiveFeed.Of(s.rows, c.symbol), PricesOf(prices, c.symbol));
    LiveFeed.RunKeeps(steps);
    assert LiveFeed.FeedOk(LiveFeed.FeedOf(s, c.symbol));
    if c.phase == LiveFeed.Live && c.queue == [] {
      LiveFeed.CaughtUpClientIsCurrent(steps, id);
    }
  }

  // ----- The task -----

  class Service {
    var quotes: seq<QuoteRow>
    var prices: seq<PriceRow>
    var arbitrages: seq<ArbitrageRow>
    var cache: map<string, Consolidated>
    var spreadGauge: map<string, real>
    var fetched: nat
    var failed: nat
    var topic: seq<QuoteRow>
    var published: nat
    var unpublished: nat
    const maxAge: int
    ghost var trace: seq<LiveFeed.Step>

    /** The stores are those of a run of the publication protocol. */
    ghost predicate InProtocol()
      reads this`trace, this`prices, this`cache
    {
      LiveFeed.Run(trace).Some? && Shows(LiveFeed.Run(trace).value, prices, cache)
    }

    ghost function Now(): Stores
      reads this`quotes, this`prices, this`arbitrages, this`topic, this`cache, this`trace
    {
      Stores(quotes, prices, arbitrages, topic, cache, trace)
    }

    ghost predicate Valid()
      reads this
    {
      && InProtocol()
      && GaugesBounded()
      && Counted()
    }

    ghost predicate GaugesBounded()
      reads this`spreadGauge
    {
      forall symbol | symbol in spreadGauge :: 0.0 <= spreadGauge[symbol] < 20000.0
    }

    ghost predicate Counted()
      reads this`topic, this`published, this`unpublished, this`fetched, this`quotes
    {
      published == |topic| && published + unpublished == fetched == |quotes|
    }

    constructor (maxAge: int)
      ensures Valid() && this.maxAge == maxAge
      ensures quotes == [] && prices == [] && arbitrages == [] && topic == [] && fetched == 0 && failed == 0
    {
      this.maxAge := maxAge;
      quotes, prices, arbitrages, topic := [], [], [], [];
      cache, spreadGauge := map[], map[];
      fetched, failed, published, unpublished := 0, 0, 0, 0;
      trace := [];
    }

    /** Stores one quote and offers it to the broker, whose refusal changes nothing but a counter. */
    method StoreQuote(symbol: string, quote: Quote, delivered: bool)
      requires Counted()
      modifies this`quotes, this`fetched, this`topic, this`published, this`unpublished
      ensures Counted()
      ensures quotes == old(quotes) + [QuoteRow(symbol, quote)] && fetched == old(fetched) + 1
      ensures topic == old(topic) + if delivered then [QuoteRow(symbol, quote)] else []
    {
      quotes := quotes + [QuoteRow(symbol, quote)];
      fetched := fetched + 1;
      if delivered {
        topic := topic + [QuoteRow(symbol, quote)];
        published := published + 1;
      } else {
        unpublished := unpublished + 1;
      }
    }

    /** Takes one client's answer. */
    method TakeAnswer(symbol: string, client: string, answer: Answer) returns (quote: Option<Quote>)
      requires Counted()
      modifies this`quotes, this`fetched, this`failed, this`topic, this`published, this`unpublished
      ensures Counted()
      ensures quote == if answer.Answered? then Some(Quoted(client, answer)) else None
      ensures quote.Some? ==> Transcribes(quote.value, client, answer)
      ensures quotes == old(quotes) + StoredRow(symbol, client, answer)
      ensures topic == old(topic) + SentRow(symbol, client, answer)
      ensures failed == old(failed) + if answer.Silent? then 1 else 0
    {
      match answer {
        case Silent =>
          failed := failed + 1;
          return None;
        case Answered(bid, ask, at, _, delivered) =>
          quote := Some(Quote(client, bid, ask, at));
          StoreQuote(symbol, quote.value, delivered);
      }
    }

    /** Asks every client about one instrument. */
    method CollectQuotes(clients: seq<string>, poll: Poll) returns (roundQuotes: seq<Quote>)
      requires Counted() && |poll.answers| == |clients|
      modifies this`quotes, this`fetched, this`failed, this`topic, this`published, this`unpublished
      ensures Counted()
      ensures roundQuotes == Collected(clients, poll.answers)
      ensures quotes == old(quotes) + Label(poll.symbol, roundQuotes)
      ensures fetched == old(fetched) + |roundQuotes| && failed == old(failed) + |clients| - |roundQuotes|
      ensures topic == old(topic) + Sent(poll.symbol, clients, poll.answers)
      ensures exists at :: AnsweredAt(at, clients, poll.answers, roundQuotes, ClockOf(clients, poll.answers))
      ensures old(quotes) <= quotes && RowsFor(quotes[|old(quotes)|..], poll.symbol, roundQuotes)
      ensures old(topic) <= topic
      ensures exists at :: DeliveredAt(at, poll.symbol, clients, poll.answers, topic[|old(topic)|..])
    {
      roundQuotes := [];
      for j := 0 to |clients|
        invariant roundQuotes == Collected(clients, poll.answers[..j]) && |roundQuotes| <= j
        invariant quotes == old(quotes) + Label(poll.symbol, roundQuotes)
        invariant failed == old(failed) + j - |roundQuotes|
        invariant Counted() && topic == old(topic) + Sent(poll.symbol, clients, poll.answers[..j])
      {
        CollectedNext(clients, poll, j);
        var answer := poll.answers[j];
        LiveFeed.Regroup(old(quotes), Label(poll.symbol, roundQuotes), StoredRow(poll.symbol, clients[j], answer));
        LiveFeed.Regroup(old(topic), Sent(poll.symbol, clients, poll.answers[..j]),
          SentRow(poll.symbol, clients[j], answer));
        var quote := TakeAnswer(poll.symbol, clients[j], answer);
        if quote.Some? {
          roundQuotes := roundQuotes + [quote.value];
        }
      }
      assert poll.answers[..|clients|] == poll.answers;
      LabelByPosition(poll.symbol, roundQuotes);
      assert quotes[|old(quotes)|..] == Label(poll.symbol, roundQuotes);
      assert topic[|old(topic)|..] == Sent(poll.symbol, clients, poll.answers);
      ghost var at := AnswersByPosition(clients, poll.answers);
      ghost var deliveredAt := DeliveriesByPosition(poll.symbol, clients, poll.answers);
    }

    /** Stores a consolidated price, caches it and broadcasts it, in this order, while cache entries may lapse. */
    method Publish(symbol: string, cp: Consolidated, lapses: LiveFeed.Lapses)
      requires InProtocol()
      modifies this`prices, this`cache, this`spreadGauge, this`trace
      ensures InProtocol()
      ensures prices == old(prices) + [PriceRow(symbol, cp)]
      ensures cache == LiveFeed.CacheAfter(old(cache), symbol, cp, lapses)
      ensures spreadGauge == if cp.mid > 0.0 then old(spreadGauge)[symbol := cp.SpreadBps()] else old(spreadGauge)
      ensures trace == old(trace) + LiveFeed.Publication(symbol, cp, lapses)
    {
      PublicationRuns(trace, prices, cache, symbol, cp, lapses);
      prices := prices + [PriceRow(symbol, cp)];
      if cp.mid > 0.0 {
        spreadGauge := spreadGauge[symbol := cp.SpreadBps()];
      }
      cache := LiveFeed.Without(cache, lapses.created);
      cache := cache[symbol := cp];
      cache := LiveFeed.Without(cache, lapses.cached);
      trace := trace + LiveFeed.Publication(symbol, cp, lapses);
    }

    /** Stores the arbitrage that the scan detects, if any. */
    method RecordArbitrage(symbol: string, roundQuotes: seq<Quote>) returns (arbs: nat)
      modifies this`arbitrages
      ensures var rows := ArbitrageRows(symbol, Detection(roundQuotes));
              arbitrages == old(arbitrages) + rows && arbs == |rows|
    {
      var arb := DetectArbitrage(roundQuotes);
      if arb.None? {
        return 0;
      }
      arbitrages := arbitrages + [ArbitrageRow(symbol, StoredTrade(arb.value))];
      return 1;
    }

    /** The part of a round that concerns one instrument. */
    method FetchInstrument(clients: seq<string>, poll: Poll)
      returns (written: nat, consolidated: nat, arbs: nat)
      requires Valid() && |poll.answers| == |clients|
      modifies this
      ensures Valid()
      ensures Now() == AfterInstrument(old(Now()), clients, poll, maxAge)
      ensures |quotes| == |old(quotes)| + written && |prices| == |old(prices)| + consolidated
      ensures |arbitrages| == |old(arbitrages)| + arbs
      ensures fetched == old(fetched) + written && failed == old(failed) + |clients| - written
    {
      var roundQuotes := CollectQuotes(clients, poll);
      LabelLength(poll.symbol, roundQuotes);
      written := |roundQuotes|;
      consolidated := PublishOutcome(clients, poll, roundQuotes);
      arbs := 0;
      if consolidated > 0 {
        arbs := RecordArbitrage(poll.symbol, roundQuotes);
      }
    }

    /** Consolidates what was collected and publishes the outcome, if there is one. */
    method PublishOutcome(clients: seq<string>, poll: Poll, roundQuotes: seq<Quote>) returns (consolidated: nat)
      requires InProtocol() && GaugesBounded() && |poll.answers| == |clients|
      requires roundQuotes == Collected(clients, poll.answers)
      modifies this`prices, this`cache, this`spreadGauge, this`trace
      ensures InProtocol() && GaugesBounded()
      ensures var rows := PricesFrom(clients, poll, maxAge);
              && prices == old(prices) + rows && consolidated == |rows|
              && cache == InstrumentCache(old(cache), clients, poll, maxAge)
              && trace == old(trace) + InstrumentSteps(clients, poll, maxAge)
    {
      Lapse(poll.lapsed);
      var price := Consolidate(roundQuotes, ClockOf(clients, poll.answers), maxAge);
      if price.None? {
        return 0;
      }
      SpreadBound(roundQuotes, ClockOf(clients, poll.answers), maxAge);
      LiveFeed.Regroup(old(trace), LiveFeed.Expiries(poll.lapsed),
        LiveFeed.Publication(poll.symbol, price.value, poll.lapses));
      Publish(poll.symbol, price.value, poll.lapses);
      return 1;
    }

    /** The loop over the instruments of a round. */
    method FetchInstruments(clients: seq<string>, round: seq<Poll>)
      returns (written: nat, consolidated: nat, arbs: nat)
      requires Valid() && Complete(clients, round)
      modifies this
      ensures Valid()
      ensures Now() == AfterRound(old(Now()), clients, round, maxAge)
      ensures |quotes| == |old(quotes)| + written && |prices| == |old(prices)| + consolidated
      ensures |arbitrages| == |old(arbitrages)| + arbs
      ensures fetched == old(fetched) + written && fetched + failed == old(fetched + failed) + Asked(clients, |round|)
    {
      written, consolidated, arbs := 0, 0, 0;
      ghost var before, fetched0, failed0 := Now(), fetched, failed;
      for i := 0 to |round|
        invariant Valid()
        invariant Now() == AfterRound(before, clients, round[..i], maxAge)
        invariant |quotes| == |before.quotes| + written && |prices| == |before.prices| + consolidated
        invariant |arbitrages| == |before.arbitrages| + arbs
        invariant fetched == fetched0 + written && fetched + failed == fetched0 + failed0 + Asked(clients, i)
      {
        AfterRoundNext(before, clients, round, i, maxAge);
        var w, c, a := FetchInstrument(clients, round[i]);
        written, consolidated, arbs := written + w, consolidated + c, arbs + a;
      }
      assert round[..|round|] == round;
    }

    /** One round. Its ledger holds whatever the exchanges and the broker do. */
    method FetchQuotes(clients: seq<string>, round: seq<Poll>)
      returns (written: nat, consolidated: nat, arbs: nat)
      requires Valid() && Complete(clients, round)
      modifies this
      ensures Valid()
      ensures quotes == old(quotes) + QuoteRows(clients, round) && written == |QuoteRows(clients, round)|
      ensures prices == old(prices) + PriceRows(clients, round, maxAge)
      ensures consolidated == |PriceRows(clients, round, maxAge)|
      ensures cache == RoundCache(old(cache), clients, round, maxAge)
      ensures trace == old(trace) + RoundSteps(clients, round, maxAge)
      ensures arbitrages == old(arbitrages) + RoundArbitrages(clients, round, maxAge)
      ensures arbs == |RoundArbitrages(clients, round, maxAge)|
      ensures arbs <= consolidated <= written
      ensures topic == old(topic) + RoundTopic(clients, round)
      ensures fetched == old(fetched) + written
      ensures fetched + failed == old(fetched + failed) + |clients| * |round|
    {
      written, consolidated, arbs := FetchInstruments(clients, round);
      AfterRoundIs(old(Now()), clients, round, maxAge);
      RoundLedger(clients, round, maxAge);
      AskedIs(clients, |round|);
    }

    /** A round, and cache entries lapsing after it. */
    method RunRound(clients: seq<string>, round: seq<Poll>, lapsing: seq<string>)
      returns (written: nat, consolidated: nat, arbs: nat)
      requires Valid() && Complete(clients, round)
      modifies this
      ensures Valid()
      ensures fetched + failed == old(fetched + failed) + |clients| * |round|
      ensures |quotes| == |old(quotes)| + written && |prices| == |old(prices)| + consolidated
      ensures |arbitrages| == |old(arbitrages)| + arbs && arbs <= consolidated <= written
      ensures topic == old(topic) + RoundTopic(clients, round)
    {
      written, consolidated, arbs := FetchQuotes(clients, round);
      Lapse(lapsing);
    }

    /** Any sequence of rounds, with cache entries lapsing in between. */
    method RunRounds(clients: seq<string>, rounds: seq<seq<Poll>>, lapsing: seq<seq<string>>)
      returns (written: nat, consolidated: nat, arbs: nat)
      requires Valid() && |lapsing| == |rounds|
      requires AllComplete(clients, rounds)
      modifies this
      ensures Valid()
      ensures fetched + failed == old(fetched + failed) + Requests(clients, rounds)
      ensures |quotes| == |old(quotes)| + written && |prices| == |old(prices)| + consolidated
      ensures |arbitrages| == |old(arbitrages)| + arbs && arbs <= consolidated <= written
      ensures topic == old(topic) + RoundsTopic(clients, rounds)
    {
      written, consolidated, arbs := 0, 0, 0;
      for i := 0 to |rounds|
        invariant Valid()
        invariant fetched + failed == old(fetched + failed) + Requests(clients, rounds[..i])
        invariant |quotes| == |old(quotes)| + written && |prices| == |old(prices)| + consolidated
        invariant |arbitrages| == |old(arbitrages)| + arbs && arbs <= consolidated <= written
        invariant topic == old(topic) + RoundsTopic(clients, rounds[..i])
      {
        RequestsNext(clients, rounds, i);
        RoundsTopicNext(old(topic), clients, rounds, i);
        var w, c, a := RunRound(clients, rounds[i], lapsing[i]);
        written, consolidated, arbs := written + w, consolidated + c, arbs + a;
      }
      assert rounds[..|rounds|] == rounds;
    }

    /** Cache entries lapse. */
    method Lapse(symbols: seq<string>)
      requires InProtocol()
      modifies this`cache, this`trace
      ensures InProtocol() && cache == LiveFeed.Without(old(cache), symbols)
      ensures trace == old(trace) + LiveFeed.Expiries(symbols)
    {
      ExpiriesRun(trace, prices, cache, symbols);
      cache := LiveFeed.Without(cache, symbols);
      trace := trace + LiveFeed.Expiries(symbols);
    }

    /** What a reader of the cache gets: nothing, or the newest price created for the symbol. */
    method CachedPrice(symbol: string) returns (r: Option<Consolidated>)
      requires Valid()
      ensures r.Some? ==> var ps := PricesOf(prices, symbol); ps != [] && r.value == ps[|ps| - 1]
      ensures r.Some? <==> symbol in cache
    {
      if symbol in cache {
        CacheIsNewest(trace, prices, cache, symbol);
        r := Some(cache[symbol]);
      } else {
        r := None;
      }
    }
  }
}
