/**
 * The publication protocol: one worker that creates price rows, caches and broadcasts them, and any number of WebSocket
 * clients that join, read the cache and drain their queues, interleaved step by step.
 */
module LiveFeed {
  import opened Numbers
  import opened Aggregator

  /** A consolidated price row; the number is its position among the rows of its instrument. */
  datatype Row = Row(number: nat, price: Consolidated)

  /** Where the worker is between creating a row and having broadcast it. */
  datatype Worker = Idle | Created(symbol: string, row: Row) | Cached(symbol: string, row: Row)

  datatype Message = Snapshot(row: Row) | Update(row: Row)

  /** How far a client's connect handler has got; `Live` is after it has returned. */
  datatype Phase = Started | Joined | Accepted | Fetched(snapshot: Option<Row>) | Live | Closed

  /**
   * A client: the symbol it follows, its channel's queue, and what it was sent. The number of broadcasts made before it
   * joined its group is recorded for the statements below; no step depends on it.
   */
  datatype Client = Client(symbol: string, phase: Phase, queue: seq<Row>, transcript: seq<Message>, joined: nat)

  /**
   * The rows created so far and those broadcast so far, by symbol (the latter is a record too), and the shared state.
   */
  datatype State = State(rows: map<string, seq<Row>>, sent: map<string, seq<Row>>, cache: map<string, Row>,
                         worker: Worker, clients: map<nat, Client>)

  /** What one client's handlers do between two points where others may run. */
  datatype Action = GroupAdd | Accept | ReadCache | SendSnapshot | Deliver | Disconnect

  datatype Step =
    | CreateRow(symbol: string, price: Consolidated)
    | SetCache
    | GroupSend
    | Expire(symbol: string)
    | Connect(id: nat, url: string)
    | Act(id: nat, action: Action)

  const INITIAL := State(map[], map[], map[], Idle, map[])

  function Of(m: map<string, seq<Row>>, symbol: string): seq<Row> {
    if symbol in m then m[symbol] else []
  }

  function UpperChar(c: char): char {
    if 'a' <= c <= 'z' then c - 'a' + 'A' else c
  }

  /** upper() on the characters that the URL route lets through. */
  function Upper(s: string): string {
    if s == [] then [] else [UpperChar(s[0])] + Upper(s[1..])
  }

  predicate RouteChar(c: char) {
    'A' <= c <= 'Z' || 'a' <= c <= 'z' || '0' <= c <= '9' || c == '-'
  }

  /** The symbols that the URL route lets through: at least one character, and only letters, digits and hyphens. */
  predicate Routable(url: string) {
    url != [] && forall c | c in url :: RouteChar(c)
  }

  /** The clients that a group send reaches: those that have joined the symbol's group and not left it. */
  predicate Member(c: Client, symbol: string) {
    c.symbol == symbol && c.phase != Started && c.phase != Closed
  }

  function Fan(clients: map<nat, Client>, symbol: string, row: Row): map<nat, Client> {
    map id | id in clients ::
      if Member(clients[id], symbol) then clients[id].(queue := clients[id].queue + [row]) else clients[id]
  }

  function WithClient(s: State, id: nat, c: Client): State {
    s.(clients := s.clients[id := c])
  }

  /** What connect sends before it returns. */
  function Greeting(snapshot: Option<Row>): seq<Message> {
    if snapshot.Some? then [Snapshot(snapshot.value)] else []
  }

  /**
   * One symbol's part of the state: rows created, rows broadcast, the row created and not broadcast yet if any, the
   * cache entry, and whether the cache has yet to be set to the newest row.
   */
  datatype Feed = Feed(rows: seq<Row>, sent: seq<Row>, pending: seq<Row>, cached: Option<Row>, behind: bool)

  function FeedOf(s: State, symbol: string): Feed {
    var busy := !s.worker.Idle? && s.worker.symbol == symbol;
    Feed(Of(s.rows, symbol), Of(s.sent, symbol), if busy then [s.worker.row] else [],
         if symbol in s.cache then Some(s.cache[symbol]) else None, busy && s.worker.Created?)
  }

  /** The client after an action, given its symbol's feed; None where the action is not possible. */
  function Advance(c: Client, action: Action, f: Feed): Option<Client> {
    match (action, c.phase)
    case (GroupAdd, Started) => Some(c.(phase := Joined, joined := |f.sent|))
    case (Accept, Joined) => Some(c.(phase := Accepted))
    case (ReadCache, Accepted) => Some(c.(phase := Fetched(f.cached)))
    case (SendSnapshot, Fetched(snapshot)) => Some(c.(phase := Live, transcript := c.transcript + Greeting(snapshot)))
    case (Deliver, Live) =>
      if c.queue == [] then None
      else Some(c.(queue := c.queue[1..], transcript := c.transcript + [Update(c.queue[0])]))
    case (Disconnect, Live) => Some(c.(phase := Closed))
    case _ => None
  }

  /** The state after a step, or None where the step is not possible. */
  function Next(s: State, step: Step): Option<State> {
    match step
    case CreateRow(symbol, price) =>
      if s.worker != Idle then None else
      var row := Row(|Of(s.rows, symbol)|, price);
      Some(s.(rows := s.rows[symbol := Of(s.rows, symbol) + [row]], worker := Created(symbol, row)))
    case SetCache =>
      if !s.worker.Created? then None else
      Some(s.(cache := s.cache[s.worker.symbol := s.worker.row], worker := Cached(s.worker.symbol, s.worker.row)))
    case GroupSend =>
      if !s.worker.Cached? then None else
      var symbol, row := s.worker.symbol, s.worker.row;
      Some(s.(sent := s.sent[symbol := Of(s.sent, symbol) + [row]], clients := Fan(s.clients, symbol, row),
        worker := Idle))
    case Expire(symbol) =>
      Some(s.(cache := s.cache - {symbol}))
    case Connect(id, url) =>
      if id in s.clients || !Routable(url) then None
      else Some(WithClient(s, id, Client(Upper(url), Started, [], [], 0)))
    case Act(id, action) =>
      if id !in s.clients then None else
      var c := s.clients[id];
      match Advance(c, action, FeedOf(s, c.symbol))
      case None => None
      case Some(c') => Some(WithClient(s, id, c'))
  }

  /** The state after a list of steps, or None if one of them is not possible. */
  function Run(steps: seq<Step>): Option<State> {
    if steps == [] then Some(INITIAL) else
    match Run(steps[..|steps| - 1])
    case None => None
    case Some(s) => Next(s, steps[|steps| - 1])
  }

  // ----- The invariant -----

  ghost predicate FeedOk(f: Feed) {
    && f.rows == f.sent + f.pending && |f.pending| <= 1
    && (forall j | 0 <= j < |f.rows| :: f.rows[j].number == j)
    && (f.cached.Some? ==>
          var newest := if f.behind then f.sent else f.rows;
          newest != [] && f.cached.value == newest[|newest| - 1])
  }

  /** A row that a client may see on connecting: a created one, not older than the last broadcast before it joined. */
  predicate RecentRow(r: Row, rows: seq<Row>, joined: nat) {
    r.number < |rows| && rows[r.number] == r && r.number + 1 >= joined
  }

  predicate HasSnapshot(t: seq<Message>) {
    t != [] && t[0].Snapshot?
  }

  /** At most one snapshot, and only at the start. */
  predicate SnapshotFirst(t: seq<Message>) {
    forall j | 0 < j < |t| :: t[j].Update?
  }

  /** The rows of the updates of a transcript. */
  function Updates(t: seq<Message>): seq<Row> {
    if t == [] then [] else
    var m := t[|t| - 1];
    Updates(t[..|t| - 1]) + if m.Update? then [m.row] else []
  }

  ghost predicate ClientOk(c: Client, f: Feed) {
    && c.joined <= |f.sent|
    && SnapshotFirst(c.transcript)
    && (HasSnapshot(c.transcript) ==> RecentRow(c.transcript[0].row, f.rows, c.joined))
    && (c.phase == Started ==> c.queue == [])
    && (c.phase != Live && c.phase != Closed ==> c.transcript == [])
    && (c.phase.Fetched? && c.phase.snapshot.Some? ==> RecentRow(c.phase.snapshot.value, f.rows, c.joined))
    && (c.phase != Started && c.phase != Closed ==> Updates(c.transcript) + c.queue == f.sent[c.joined..])
    && (c.phase == Closed ==>
          c.joined + |Updates(c.transcript)| <= |f.sent|
          && Updates(c.transcript) == f.sent[c.joined..c.joined + |Updates(c.transcript)|])
  }

  ghost predicate FeedsOk(s: State) {
    forall symbol :: FeedOk(FeedOf(s, symbol))
  }

  ghost predicate ClientsOk(s: State) {
    forall id | id in s.clients :: ClientOk(s.clients[id], FeedOf(s, s.clients[id].symbol))
  }

  ghost predicate Inv(s: State) {
    FeedsOk(s) && ClientsOk(s)
  }

  lemma FeedsKept(s: State, id: nat, c: Client)
    requires FeedsOk(s)
    ensures FeedsOk(WithClient(s, id, c))
  {
    assert forall symbol :: FeedOf(WithClient(s, id, c), symbol) == FeedOf(s, symbol);
  }

  lemma OtherClientsKept(s: State, id: nat, c: Client)
    requires ClientsOk(s) && ClientOk(c, FeedOf(s, c.symbol))
    ensures ClientsOk(WithClient(s, id, c))
  {
  }

  /** Steps that leave the clients and the broadcasts alone, and only add rows. */
  ghost predicate OnlyAddsRows(s: State, s': State) {
    && s'.clients == s.clients
    && forall symbol ::
         FeedOf(s', symbol).sent == FeedOf(s, symbol).sent && FeedOf(s, symbol).rows <= FeedOf(s', symbol).rows
  }

  lemma AllClientsKept(s: State, s': State)
    requires ClientsOk(s) && OnlyAddsRows(s, s')
    ensures ClientsOk(s')
  {
  }

  lemma CreateKeeps(s: State, symbol: string, price: Consolidated)
    requires Inv(s) && s.worker == Idle
    ensures Inv(Next(s, CreateRow(symbol, price)).value)
  {
    var s' := Next(s, CreateRow(symbol, price)).value;
    forall x ensures FeedOk(FeedOf(s', x)) {
      assert FeedOk(FeedOf(s, x));
    }
    AllClientsKept(s, s');
  }

  lemma SetCacheKeeps(s: State)
    requires Inv(s) && s.worker.Created?
    ensures Inv(Next(s, SetCache).value)
  {
    var s' := Next(s, SetCache).value;
    forall x ensures FeedOk(FeedOf(s', x)) {
      assert FeedOk(FeedOf(s, x));
    }
    AllClientsKept(s, s');
  }

  lemma ExpireKeeps(s: State, symbol: string)
    requires Inv(s)
    ensures Inv(Next(s, Expire(symbol)).value)
  {
    var s' := Next(s, Expire(symbol)).value;
    forall x ensures FeedOk(FeedOf(s', x)) {
      assert FeedOk(FeedOf(s, x));
    }
    AllClientsKept(s, s');
  }

  /** A broadcast appends to what a client has yet to receive, if the client is in the group. */
  lemma SendReachesClient(c: Client, f: Feed, f': Feed, row: Row)
    requires ClientOk(c, f) && f'.rows == f.rows && f'.sent == f.sent + [row]
    ensures ClientOk(if Member(c, c.symbol) then c.(queue := c.queue + [row]) else c, f')
  {
  }

  lemma FeedAfterSend(s: State, x: string)
    requires FeedOk(FeedOf(s, x)) && s.worker.Cached?
    ensures var f, f' := FeedOf(s, x), FeedOf(Next(s, GroupSend).value, x);
            FeedOk(f') && (if x == s.worker.symbol then f'.rows == f.rows
              && f'.sent == f.sent + [s.worker.row] else f' == f)
  {
  }

  lemma ClientAfterSend(s: State, id: nat)
    requires FeedsOk(s) && ClientsOk(s) && s.worker.Cached? && id in s.clients
    ensures var s' := Next(s, GroupSend).value;
            ClientOk(s'.clients[id], FeedOf(s', s'.clients[id].symbol))
  {
    var s', c := Next(s, GroupSend).value, s.clients[id];
    FeedAfterSend(s, c.symbol);
    if c.symbol == s.worker.symbol {
      SendReachesClient(c, FeedOf(s, c.symbol), FeedOf(s', c.symbol), s.worker.row);
    }
  }

  lemma GroupSendKeeps(s: State)
    requires Inv(s) && s.worker.Cached?
    ensures Inv(Next(s, GroupSend).value)
  {
    var s' := Next(s, GroupSend).value;
    assert FeedsOk(s') by {
      forall x ensures FeedOk(FeedOf(s', x)) {
        FeedAfterSend(s, x);
      }
    }
    assert ClientsOk(s') by {
      forall id | id in s'.clients ensures ClientOk(s'.clients[id], FeedOf(s', s'.clients[id].symbol)) {
        ClientAfterSend(s, id);
      }
    }
  }

  lemma DeliveryOk(c: Client, f: Feed)
    requires ClientOk(c, f) && c.phase == Live && c.queue != []
    ensures ClientOk(c.(queue := c.queue[1..], transcript := c.transcript + [Update(c.queue[0])]), f)
  {
  }

  lemma GreetingOk(c: Client, f: Feed)
    requires ClientOk(c, f) && c.phase.Fetched?
    ensures ClientOk(c.(phase := Live, transcript := c.transcript + Greeting(c.phase.snapshot)), f)
  {
    var t := Greeting(c.phase.snapshot);
    assert c.transcript == [] && c.transcript + t == t;
    assert Updates(t) == [] by {
      if t != [] {
        assert t[..|t| - 1] == [];
      }
    }
  }

  /** What the cache shows is never older than the last broadcast. */
  lemma CachedRowIsRecent(f: Feed, joined: nat)
    requires FeedOk(f) && joined <= |f.sent| && f.cached.Some?
    ensures RecentRow(f.cached.value, f.rows, joined)
  {
  }

  lemma ActionOk(c: Client, action: Action, f: Feed)
    requires FeedOk(f) && ClientOk(c, f) && Advance(c, action, f).Some?
    ensures ClientOk(Advance(c, action, f).value, f)
  {
    match action
    case GroupAdd => assert Updates(c.transcript) + c.queue == [];
    case Accept =>
    case ReadCache => if f.cached.Some? { CachedRowIsRecent(f, c.joined); }
    case SendSnapshot => GreetingOk(c, f);
    case Deliver => DeliveryOk(c, f);
    case Disconnect =>
  }

  lemma ActChangesOneClient(s: State, id: nat, action: Action)
    requires Next(s, Act(id, action)).Some?
    ensures id in s.clients
    ensures var c := s.clients[id];
            var c' := Advance(c, action, FeedOf(s, c.symbol));
            c'.Some? && c'.value.symbol == c.symbol && Next(s, Act(id, action)).value == WithClient(s, id, c'.value)
  {
  }

  lemma ActKeeps(s: State, id: nat, action: Action)
    requires Inv(s) && Next(s, Act(id, action)).Some?
    ensures Inv(Next(s, Act(id, action)).value)
  {
    ActChangesOneClient(s, id, action);
    var c := s.clients[id];
    var f := FeedOf(s, c.symbol);
    assert FeedOk(f) && ClientOk(c, f);
    ActionOk(c, action, f);
    FeedsKept(s, id, Advance(c, action, f).value);
    OtherClientsKept(s, id, Advance(c, action, f).value);
  }

  lemma ConnectKeeps(s: State, id: nat, url: string)
    requires Inv(s) && Next(s, Connect(id, url)).Some?
    ensures Inv(Next(s, Connect(id, url)).value)
  {
    var c := Client(Upper(url), Started, [], [], 0);
    FeedsKept(s, id, c);
    OtherClientsKept(s, id, c);
  }

  lemma StepKeeps(s: State, step: Step)
    requires Inv(s) && Next(s, step).Some?
    ensures Inv(Next(s, step).value)
  {
    match step
    case CreateRow(symbol, price) => CreateKeeps(s, symbol, price);
    case SetCache => SetCacheKeeps(s);
    case GroupSend => GroupSendKeeps(s);
    case Expire(symbol) => ExpireKeeps(s, symbol);
    case Connect(id, url) => ConnectKeeps(s, id, url);
    case Act(id, action) => ActKeeps(s, id, action);
  }

  lemma {:induction false} RunKeeps(steps: seq<Step>)
    requires Run(steps).Some?
    ensures Inv(Run(steps).value)
  {
    if steps != [] {
      RunKeeps(steps[..|steps| - 1]);
      StepKeeps(Run(steps[..|steps| - 1]).value, steps[|steps| - 1]);
    }
  }

  // ----- What clients are guaranteed -----

  /**
   * No gaps, for every interleaving: the broadcasts are the created rows in order, at most the newest one missing; a
   * client's transcript is at most one snapshot followed by a contiguous run, in order, of the broadcasts since it
   * joined; a live client's queue holds exactly the rest of them.
   */
  lemma NoGap(steps: seq<Step>, id: nat)
    requires Run(steps).Some? && id in Run(steps).value.clients
    ensures var c := Run(steps).value.clients[id];
            var f, n := FeedOf(Run(steps).value, c.symbol), |Updates(c.transcript)|;
            && f.sent <= f.rows && |f.rows| <= |f.sent| + 1
            && SnapshotFirst(c.transcript)
            && c.joined + n <= |f.sent|
            && Updates(c.transcript) == f.sent[c.joined..c.joined + n]
            && (c.phase == Live ==> c.queue == f.sent[c.joined + n..])
  {
    RunKeeps(steps);
    var c := Run(steps).value.clients[id];
    ClientSeesAll(c, FeedOf(Run(steps).value, c.symbol));
  }

  lemma ClientSeesAll(c: Client, f: Feed)
    requires FeedOk(f) && ClientOk(c, f)
    ensures var n := |Updates(c.transcript)|;
            && f.sent <= f.rows && |f.rows| <= |f.sent| + 1
            && SnapshotFirst(c.transcript)
            && c.joined + n <= |f.sent|
            && Updates(c.transcript) == f.sent[c.joined..c.joined + n]
            && (c.phase == Live ==> c.queue == f.sent[c.joined + n..])
  {
  }

  /**
   * The snapshot is a created row and not older than the last broadcast before the client joined, so that no row falls
   * between it and the first update.
   */
  lemma SnapshotNotStale(steps: seq<Step>, id: nat)
    requires Run(steps).Some? && id in Run(steps).value.clients && HasSnapshot(Run(steps).value.clients[id].transcript)
    ensures var c := Run(steps).value.clients[id];
            var rows := FeedOf(Run(steps).value, c.symbol).rows;
            exists k :: 0 <= k < |rows| && c.transcript[0].row == rows[k] && c.joined <= k + 1
  {
    RunKeeps(steps);
    var c := Run(steps).value.clients[id];
    var f := FeedOf(Run(steps).value, c.symbol);
    assert ClientOk(c, f);
    assert c.transcript[0].row == f.rows[c.transcript[0].row.number];
  }

  /**
   * Once the worker is idle and a live client has drained its queue, the last thing it saw, if any, is the newest row.
   */
  lemma CaughtUpClientIsCurrent(steps: seq<Step>, id: nat)
    requires Run(steps).Some? && id in Run(steps).value.clients && Run(steps).value.clients[id].phase == Live
    requires Run(steps).value.worker == Idle && Run(steps).value.clients[id].queue == []
    ensures var c := Run(steps).value.clients[id];
            var rows := FeedOf(Run(steps).value, c.symbol).rows;
            && (c.transcript != [] ==> rows != [] && c.transcript[|c.transcript| - 1].row == rows[|rows| - 1])
            && (c.transcript == [] ==> c.joined == |rows|)
  {
    RunKeeps(steps);
    var c := Run(steps).value.clients[id];
    DrainedClientIsCurrent(c, FeedOf(Run(steps).value, c.symbol));
  }

  lemma DrainedClientIsCurrent(c: Client, f: Feed)
    requires FeedOk(f) && ClientOk(c, f) && c.phase == Live && f.pending == [] && c.queue == []
    ensures c.transcript != [] ==> f.rows != [] && c.transcript[|c.transcript| - 1].row == f.rows[|f.rows| - 1]
    ensures c.transcript == [] ==> c.joined == |f.rows|
  {
    var us := Updates(c.transcript);
    assert us + c.queue == us && f.sent + f.pending == f.sent;
    if c.transcript != [] {
      UpdatesInPlace(c.transcript, |c.transcript| - 1);
    }
  }

  /** While the worker is between two publications, a cache entry is the newest row of its symbol. */
  lemma CacheShowsNewest(steps: seq<Step>, symbol: string)
    requires Run(steps).Some? && Run(steps).value.worker == Idle && symbol in Run(steps).value.cache
    ensures var s := Run(steps).value;
            var rows := Of(s.rows, symbol);
            rows != [] && s.cache[symbol] == rows[|rows| - 1]
  {
    RunKeeps(steps);
    assert FeedOk(FeedOf(Run(steps).value, symbol));
  }

  /** Where the updates of a transcript stand in it. */
  lemma {:induction false} UpdatesInPlace(t: seq<Message>, j: nat)
    requires SnapshotFirst(t) && j < |t|
    ensures |t| == |Updates(t)| + if HasSnapshot(t) then 1 else 0
    ensures t[j].Update? ==>
              var k := if HasSnapshot(t) then j - 1 else j;
              0 <= k < |Updates(t)| && t[j].row == Updates(t)[k]
  {
    var init := t[..|t| - 1];
    if init == [] {
      assert Updates(init) == [];
    } else {
      UpdatesInPlace(init, if j < |init| then j else 0);
    }
  }

  lemma RunMore(steps: seq<Step>, step: Step)
    requires Run(steps).Some?
    ensures Run(steps + [step]) == Next(Run(steps).value, step)
  {
  }

  lemma {:induction false} RunConcat(a: seq<Step>, b: seq<Step>)
    ensures Run(a + b).Some? ==> Run(a).Some?
  {
    if b == [] {
      assert a + b == a;
    } else {
      assert (a + b)[..|a + b| - 1] == a + b[..|b| - 1];
      RunConcat(a, b[..|b| - 1]);
    }
  }

  // ----- Whole publications -----

  /** Cache entries that lapse, one after the other. */
  function Expiries(symbols: seq<string>): seq<Step> {
    if symbols == [] then [] else Expiries(symbols[..|symbols| - 1]) + [Expire(symbols[|symbols| - 1])]
  }

  function Without<V>(cache: map<string, V>, symbols: seq<string>): map<string, V> {
    if symbols == [] then cache else Without(cache, symbols[..|symbols| - 1]) - {symbols[|symbols| - 1]}
  }

  /** What is left are the entries of the other symbols. */
  lemma {:induction false} WithoutInWords<V>(cache: map<string, V>, symbols: seq<string>, symbol: string)
    ensures symbol in Without(cache, symbols) <==> symbol in cache && symbol !in symbols
    ensures symbol in Without(cache, symbols) ==> Without(cache, symbols)[symbol] == cache[symbol]
  {
    if symbols != [] {
      WithoutInWords(cache, symbols[..|symbols| - 1], symbol);
      assert symbols == symbols[..|symbols| - 1] + [symbols[|symbols| - 1]];
    }
  }

  lemma {:induction false} RunExpiries(steps: seq<Step>, symbols: seq<string>)
    requires Run(steps).Some?
    ensures var s := Run(steps).value;
            Run(steps + Expiries(symbols)) == Some(s.(cache := Without(s.cache, symbols)))
  {
    if symbols == [] {
      assert steps + Expiries(symbols) == steps;
    } else {
      var init, last := symbols[..|symbols| - 1], symbols[|symbols| - 1];
      RunExpiries(steps, init);
      RunMore(steps + Expiries(init), Expire(last));
      assert steps + Expiries(symbols) == steps + Expiries(init) + [Expire(last)];
    }
  }

  /** The entries that lapse during a publication: before the cache is set, and between that and the broadcast. */
  datatype Lapses = Lapses(created: seq<string>, cached: seq<string>)

  /** The worker's three steps for one price, with entries lapsing in between. */
  function Publication(symbol: string, price: Consolidated, lapses: Lapses): seq<Step> {
    Caching(symbol, price, lapses.created) + Sending(lapses.cached)
  }

  function Caching(symbol: string, price: Consolidated, lapsing: seq<string>): seq<Step> {
    [CreateRow(symbol, price)] + Expiries(lapsing) + [SetCache]
  }

  function Sending(lapsing: seq<string>): seq<Step> {
    Expiries(lapsing) + [GroupSend]
  }

  /** What the cache holds after setting an entry, when others lapse before and after that. */
  function CacheAfter<V>(cache: map<string, V>, symbol: string, value: V, lapses: Lapses): map<string, V> {
    Without(Without(cache, lapses.created)[symbol := value], lapses.cached)
  }

  lemma Regroup<T>(a: seq<T>, b: seq<T>, c: seq<T>)
    ensures a + (b + c) == (a + b) + c
  {
  }

  /**
   * After a publication the cache has its value, unless that lapsed since it was set, and what did not lapse of the
   * rest.
   */
  lemma CacheAfterInWords<V>(cache: map<string, V>, symbol: string, value: V, lapses: Lapses, other: string)
    requires other != symbol
    ensures var after := CacheAfter(cache, symbol, value, lapses);
            && (symbol in after <==> symbol !in lapses.cached) && (symbol in after ==> after[symbol] == value)
            && (other in after <==> other in cache && other !in lapses.created && other !in lapses.cached)
            && (other in after ==> after[other] == cache[other])
  {
    var set0 := Without(cache, lapses.created)[symbol := value];
    WithoutInWords(cache, lapses.created, other);
    WithoutInWords(set0, lapses.cached, symbol);
    WithoutInWords(set0, lapses.cached, other);
  }

  /** The row is created, and entries lapse before the cache is set. */
  lemma RunCreating(steps: seq<Step>, symbol: string, price: Consolidated, lapsing: seq<string>)
    requires Run(steps).Some? && Run(steps).value.worker == Idle
    ensures var s := Run(steps).value;
            var row := Row(|Of(s.rows, symbol)|, price);
            Run(steps + ([CreateRow(symbol, price)] + Expiries(lapsing))) ==
              Some(s.(rows := s.rows[symbol := Of(s.rows, symbol) + [row]], cache := Without(s.cache, lapsing),
                      worker := Created(symbol, row)))
  {
    RunMore(steps, CreateRow(symbol, price));
    RunExpiries(steps + [CreateRow(symbol, price)], lapsing);
    Regroup(steps, [CreateRow(symbol, price)], Expiries(lapsing));
  }

  /** The first half: the row is created and the cache set to it. */
  lemma RunCaching(steps: seq<Step>, symbol: string, price: Consolidated, lapsing: seq<string>)
    requires Run(steps).Some? && Run(steps).value.worker == Idle
    ensures var s := Run(steps).value;
            var row := Row(|Of(s.rows, symbol)|, price);
            Run(steps + Caching(symbol, price, lapsing)) ==
              Some(s.(rows := s.rows[symbol := Of(s.rows, symbol) + [row]],
                cache := Without(s.cache, lapsing)[symbol := row],
                      worker := Cached(symbol, row)))
  {
    var most := [CreateRow(symbol, price)] + Expiries(lapsing);
    RunCreating(steps, symbol, price, lapsing);
    RunMore(steps + most, SetCache);
    assert steps + (most + [SetCache]) == steps + most + [SetCache];
  }

  /** The second half: entries lapse, and the row is broadcast. */
  lemma RunSending(steps: seq<Step>, symbol: string, row: Row, lapsing: seq<string>)
    requires Run(steps).Some? && Run(steps).value.worker == Cached(symbol, row)
    ensures var s := Run(steps).value;
            Run(steps + Sending(lapsing)) ==
              Some(s.(sent := s.sent[symbol := Of(s.sent, symbol) + [row]], cache := Without(s.cache, lapsing),
                      worker := Idle, clients := Fan(s.clients, symbol, row)))
  {
    RunExpiries(steps, lapsing);
    RunMore(steps + Expiries(lapsing), GroupSend);
    assert steps + (Expiries(lapsing) + [GroupSend]) == steps + Expiries(lapsing) + [GroupSend];
  }

  /** A whole publication, as seen from the states before and after it. */
  lemma RunPublication(steps: seq<Step>, symbol: string, price: Consolidated, lapses: Lapses)
    requires Run(steps).Some? && Run(steps).value.worker == Idle
    ensures var s := Run(steps).value;
            var row := Row(|Of(s.rows, symbol)|, price);
            Run(steps + Publication(symbol, price, lapses)) ==
              Some(State(s.rows[symbol := Of(s.rows, symbol) + [row]], s.sent[symbol := Of(s.sent, symbol) + [row]],
                         CacheAfter(s.cache, symbol, row, lapses), Idle, Fan(s.clients, symbol, row)))
  {
    var row := Row(|Of(Run(steps).value.rows, symbol)|, price);
    RunCaching(steps, symbol, price, lapses.created);
    RunSending(steps + Caching(symbol, price, lapses.created), symbol, row, lapses.cached);
    Regroup(steps, Caching(symbol, price, lapses.created), Sending(lapses.cached));
  }

  // ----- The worker's part of a run -----

  /** The steps of the worker and of the cache. */
  function WithoutClients(steps: seq<Step>): seq<Step> {
    if steps == [] then [] else
    var last := steps[|steps| - 1];
    WithoutClients(steps[..|steps| - 1]) + if last.Connect? || last.Act? then [] else [last]
  }

  /**
   * Clients do not disturb the worker: without their steps a run is still one, and creates, caches and broadcasts the
   * same.
   */
  lemma {:induction false} WorkerAlone(steps: seq<Step>)
    requires Run(steps).Some?
    ensures var alone := Run(WithoutClients(steps));
            alone.Some? && alone.value == Run(steps).value.(clients := map[])
  {
    if steps != [] {
      var init, last := steps[..|steps| - 1], steps[|steps| - 1];
      WorkerAlone(init);
      if last.Connect? || last.Act? {
        assert WithoutClients(steps) == WithoutClients(init);
        ClientStepApart(Run(init).value, last);
      } else {
        WorkerStepAlone(Run(init).value, last);
        RunMore(WithoutClients(init), last);
      }
    }
  }

  lemma ClientStepApart(s: State, step: Step)
    requires Next(s, step).Some? && (step.Connect? || step.Act?)
    ensures Next(s, step).value.(clients := map[]) == s.(clients := map[])
  {
  }

  lemma WorkerStepAlone(s: State, step: Step)
    requires Next(s, step).Some? && !step.Connect? && !step.Act?
    ensures Next(s.(clients := map[]), step) == Some(Next(s, step).value.(clients := map[]))
  {
  }
}
