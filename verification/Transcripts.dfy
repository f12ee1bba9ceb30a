/** In what order a WebSocket client sees prices, and which instruments a client can follow. */
module Transcripts {
  import opened Numbers
  import opened Aggregator
  import opened LiveFeed

  // ----- The order of a transcript -----

  predicate NewestLast(t: seq<Message>) {
    forall i, j | 0 <= i < j < |t| :: t[i].row.number <= t[j].row.number
  }

  lemma OrderOfTranscript(c: Client, f: Feed)
    requires FeedOk(f) && ClientOk(c, f)
    ensures NewestLast(c.transcript)
            <==> !HasSnapshot(c.transcript) || |c.transcript| == 1 || c.transcript[0].row.number <= c.joined
  {
    var t := c.transcript;
    forall j | 0 <= j < |t| && t[j].Update? ensures t[j].row.number == c.joined + j - if HasSnapshot(t) then 1 else 0 {
      UpdateNumber(c, f, j);
    }
    if HasSnapshot(t) && |t| > 1 {
      assert t[1].Update?;
    }
  }

  lemma UpdateNumber(c: Client, f: Feed, j: nat)
    requires FeedOk(f) && ClientOk(c, f) && j < |c.transcript| && c.transcript[j].Update?
    ensures c.transcript[j].row.number == c.joined + j - if HasSnapshot(c.transcript) then 1 else 0
  {
    UpdatesInPlace(c.transcript, j);
    var k := if HasSnapshot(c.transcript) then j - 1 else j;
    var rest := f.sent[c.joined..];
    assert Updates(c.transcript) <= rest;
    assert c.transcript[j].row == rest[k] == f.rows[c.joined + k];
  }

  /** A client whose cache reading yielded `snapshot`, at any time after it. */
  predicate Greeted(c: Client, symbol: string, joined: nat, snapshot: Option<Row>) {
    && c.symbol == symbol && c.joined == joined
    && match c.phase
       case Fetched(read) => read == snapshot
       case Live => GreetedBy(c.transcript, snapshot)
       case Closed => GreetedBy(c.transcript, snapshot)
       case _ => false
  }

  predicate GreetedBy(t: seq<Message>, snapshot: Option<Row>) {
    if snapshot.Some? then t != [] && t[0] == Snapshot(snapshot.value) else !HasSnapshot(t)
  }

  lemma {:induction false} StaysGreeted(before: seq<Step>, after: seq<Step>, id: nat, symbol: string, joined: nat,
                                        snapshot: Option<Row>)
    requires Run(before).Some? && id in Run(before).value.clients
    requires Greeted(Run(before).value.clients[id], symbol, joined, snapshot)
    requires Run(before + after).Some?
    ensures id in Run(before + after).value.clients
    ensures Greeted(Run(before + after).value.clients[id], symbol, joined, snapshot)
  {
    if after == [] {
      assert before + after == before;
    } else {
      var init, last := after[..|after| - 1], after[|after| - 1];
      assert (before + after)[..|before + after| - 1] == before + init;
      StaysGreeted(before, init, id, symbol, joined, snapshot);
      RunKeeps(before + init);
      GreetedStep(Run(before + init).value, last, id, symbol, joined, snapshot);
    }
  }

  lemma GreetedStep(s: State, step: Step, id: nat, symbol: string, joined: nat, snapshot: Option<Row>)
    requires Inv(s) && Next(s, step).Some? && id in s.clients && Greeted(s.clients[id], symbol, joined, snapshot)
    ensures id in Next(s, step).value.clients && Greeted(Next(s, step).value.clients[id], symbol, joined, snapshot)
  {
    if step.Act? && step.id == id {
      ActChangesOneClient(s, id, step.action);
      assert ClientOk(s.clients[id], FeedOf(s, symbol));
      GreetedAction(s.clients[id], step.action, FeedOf(s, symbol), symbol, joined, snapshot);
    } else {
      OthersOnlyQueue(s, step, id);
    }
  }

  /** Whatever others do, a client's queue is all that changes for it. */
  lemma OthersOnlyQueue(s: State, step: Step, id: nat)
    requires Next(s, step).Some? && id in s.clients && !(step.Act? && step.id == id)
    ensures id in Next(s, step).value.clients
    ensures var c, c' := s.clients[id], Next(s, step).value.clients[id];
            c' == c.(queue := c'.queue)
  {
  }

  lemma GreetedAction(c: Client, action: Action, f: Feed, symbol: string, joined: nat, snapshot: Option<Row>)
    requires ClientOk(c, f) && Greeted(c, symbol, joined, snapshot) && Advance(c, action, f).Some?
    ensures Greeted(Advance(c, action, f).value, symbol, joined, snapshot)
  {
  }

  /**
   * When a transcript steps back in time, told from the moment at which the client reads the cache: exactly if its
   * queue then already holds a row, and the cache a newer one than the first of them. The newer row is seen first as
   * the snapshot, and again after older ones.
   */
  lemma TranscriptOrder(before: seq<Step>, after: seq<Step>, id: nat)
    requires Run(before).Some? && id in Run(before).value.clients
    requires Run(before + [Act(id, ReadCache)] + after).Some?
    ensures id in Run(before + [Act(id, ReadCache)] + after).value.clients
    ensures var c, t := Run(before).value.clients[id],
            Run(before + [Act(id, ReadCache)] + after).value.clients[id].transcript;
            var cached := FeedOf(Run(before).value, c.symbol).cached;
            Updates(t) != [] ==>
              (!NewestLast(t) <==> c.queue != [] && cached.Some? && cached.value.number > c.queue[0].number)
  {
    var c, read := Run(before).value.clients[id], before + [Act(id, ReadCache)];
    var f := FeedOf(Run(before).value, c.symbol);
    RunConcat(read, after);
    ReadingGreets(before, id);
    StaysGreeted(read, after, id, c.symbol, c.joined, f.cached);
    ClientIsOk(before, id);
    ClientIsOk(read + after, id);
    var end := Run(read + after).value;
    WhenReading(c, f, end.clients[id], FeedOf(end, c.symbol));
  }

  lemma ReadingGreets(before: seq<Step>, id: nat)
    requires Run(before).Some? && id in Run(before).value.clients && Run(before + [Act(id, ReadCache)]).Some?
    ensures var c := Run(before).value.clients[id];
            && c.phase == Accepted
            && id in Run(before + [Act(id, ReadCache)]).value.clients
            && Greeted(Run(before + [Act(id, ReadCache)]).value.clients[id], c.symbol, c.joined,
                       FeedOf(Run(before).value, c.symbol).cached)
  {
    RunMore(before, Act(id, ReadCache));
    ActChangesOneClient(Run(before).value, id, ReadCache);
  }

  lemma ClientIsOk(steps: seq<Step>, id: nat)
    requires Run(steps).Some? && id in Run(steps).value.clients
    ensures var c := Run(steps).value.clients[id];
            FeedOk(FeedOf(Run(steps).value, c.symbol)) && ClientOk(c, FeedOf(Run(steps).value, c.symbol))
  {
    RunKeeps(steps);
  }

  lemma WhenReading(c: Client, f: Feed, c': Client, f': Feed)
    requires FeedOk(f) && ClientOk(c, f) && c.phase == Accepted
    requires FeedOk(f') && ClientOk(c', f') && Greeted(c', c.symbol, c.joined, f.cached)
    ensures Updates(c'.transcript) != [] ==>
              (!NewestLast(c'.transcript) <==>
                 c.queue != [] && f.cached.Some? && f.cached.value.number > c.queue[0].number)
  {
    OrderOfTranscript(c', f');
    assert Updates(c.transcript) + c.queue == c.queue;
    if c.queue != [] {
      assert c.queue[0] == f.sent[c.joined] == f.rows[c.joined];
    }
    if Updates(c'.transcript) != [] && f.cached.Some? {
      UpdatesInPlace(c'.transcript, 0);
    }
  }

  // ----- A transcript that steps back -----

  const SYMBOL := "BTC-USD"
  const NO_LAPSES := Lapses([], [])

  /** The feed between publications, with the cache entry still there. */
  function Settled(rows: seq<Row>): Feed {
    Feed(rows, rows, [], if rows == [] then None else Some(rows[|rows| - 1]), false)
  }

  /** Client 0 and its feed after some steps. */
  ghost predicate ClientAt(steps: seq<Step>, c: Client, rows: seq<Row>) {
    && Run(steps).Some? && Run(steps).value.worker == Idle
    && 0 in Run(steps).value.clients && Run(steps).value.clients[0] == c
    && FeedOf(Run(steps).value, c.symbol) == Settled(rows)
  }

  lemma ActAt(steps: seq<Step>, c: Client, rows: seq<Row>, action: Action, c': Client)
    requires ClientAt(steps, c, rows) && Advance(c, action, Settled(rows)) == Some(c') && c'.symbol == c.symbol
    ensures ClientAt(steps + [Act(0, action)], c', rows)
  {
  }

  lemma PublicationAt(steps: seq<Step>, c: Client, rows: seq<Row>, price: Consolidated, c': Client)
    requires ClientAt(steps, c, rows) && c.phase == Joined && c' == c.(queue := c.queue + [Row(|rows|, price)])
    ensures ClientAt(steps + Publication(c.symbol, price, NO_LAPSES), c', rows + [Row(|rows|, price)])
  {
    RunPublication(steps, c.symbol, price, NO_LAPSES);
  }

  /** A client that joined before two publications and reads the cache after both. */
  lemma SeesNewerFirst(before: seq<Step>, r0: Row, r1: Row) returns (steps: seq<Step>)
    requires ClientAt(before, Client(SYMBOL, Joined, [r0, r1], [], 0), [r0, r1])
    ensures ClientAt(steps, Client(SYMBOL, Live, [r1], [Snapshot(r1), Update(r0)], 0), [r0, r1])
  {
    var c0, c1 := Client(SYMBOL, Joined, [r0, r1], [], 0), Client(SYMBOL, Accepted, [r0, r1], [], 0);
    var c2, c3 := Client(SYMBOL, Fetched(Some(r1)), [r0, r1], [], 0), Client(SYMBOL, Live, [r0, r1], [Snapshot(r1)], 0);
    var c4 := Client(SYMBOL, Live, [r1], [Snapshot(r1), Update(r0)], 0);
    assert [] + Greeting(Some(r1)) == [Snapshot(r1)];
    assert [r0, r1][1..] == [r1] && [Snapshot(r1)] + [Update(r0)] == [Snapshot(r1), Update(r0)];
    ActAt(before, c0, [r0, r1], Accept, c1);
    steps := before + [Act(0, Accept)];
    ActAt(steps, c1, [r0, r1], ReadCache, c2);
    steps := steps + [Act(0, ReadCache)];
    ActAt(steps, c2, [r0, r1], SendSnapshot, c3);
    steps := steps + [Act(0, SendSnapshot)];
    ActAt(steps, c3, [r0, r1], Deliver, c4);
    steps := steps + [Act(0, Deliver)];
  }

  lemma ConnectsFirst()
    ensures ClientAt([Connect(0, SYMBOL)], Client(SYMBOL, Started, [], [], 0), [])
  {
    assert Followable(SYMBOL);
    Connecting(SYMBOL);
  }

  lemma JoinsFirst() returns (steps: seq<Step>)
    ensures ClientAt(steps, Client(SYMBOL, Joined, [], [], 0), [])
  {
    ConnectsFirst();
    steps := [Connect(0, SYMBOL)];
    ActAt(steps, Client(SYMBOL, Started, [], [], 0), [], GroupAdd, Client(SYMBOL, Joined, [], [], 0));
    steps := steps + [Act(0, GroupAdd)];
  }

  lemma TwoPublications(before: seq<Step>, price: Consolidated) returns (steps: seq<Step>)
    requires ClientAt(before, Client(SYMBOL, Joined, [], [], 0), [])
    ensures var rows := [Row(0, price), Row(1, price)];
            ClientAt(steps, Client(SYMBOL, Joined, rows, [], 0), rows)
  {
    var r0, r1 := Row(0, price), Row(1, price);
    assert [] + [r0] == [r0] && [r0] + [r1] == [r0, r1];
    PublicationAt(before, Client(SYMBOL, Joined, [], [], 0), [], price, Client(SYMBOL, Joined, [r0], [], 0));
    steps := before + Publication(SYMBOL, price, NO_LAPSES);
    PublicationAt(steps, Client(SYMBOL, Joined, [r0], [], 0), [r0], price, Client(SYMBOL, Joined, [r0, r1], [], 0));
    steps := steps + Publication(SYMBOL, price, NO_LAPSES);
  }

  /**
   * A transcript can step back: with two publications between joining the group and reading the cache, the client is
   * sent the second row as its snapshot and then the first one as an update.
   */
  lemma TranscriptCanStepBack(price: Consolidated) returns (steps: seq<Step>)
    ensures Run(steps).Some? && 0 in Run(steps).value.clients
    ensures Run(steps).value.clients[0].symbol == "BTC-USD"
    ensures Run(steps).value.clients[0].transcript == [Snapshot(Row(1, price)), Update(Row(0, price))]
    ensures !NewestLast(Run(steps).value.clients[0].transcript)
  {
    steps := JoinsFirst();
    steps := TwoPublications(steps, price);
    steps := SeesNewerFirst(steps, Row(0, price), Row(1, price));
    var t := Run(steps).value.clients[0].transcript;
    assert t[0].row.number > t[1].row.number;
  }

  // ----- Joining and leaving -----

  /**
   * A client whose handler runs undisturbed joins, is sent what the cache has as its snapshot, if anything, and is
   * live.
   */
  lemma ConnectCompletes(steps: seq<Step>, id: nat)
    requires Run(steps).Some? && id in Run(steps).value.clients && Run(steps).value.clients[id].phase == Started
    ensures var s, c := Run(steps).value, Run(steps).value.clients[id];
            var end := Run(steps + [Act(id, GroupAdd)] + [Act(id, Accept)] + [Act(id, ReadCache)]
                           + [Act(id, SendSnapshot)]);
            && end.Some? && id in end.value.clients
            && end.value.clients[id] ==
                 Client(c.symbol, Live, c.queue,
                        c.transcript + (if c.symbol in s.cache then [Snapshot(s.cache[c.symbol])] else []),
                        |Of(s.sent, c.symbol)|)
  {
    var s, c := Run(steps).value, Run(steps).value.clients[id];
    var cached := if c.symbol in s.cache then Some(s.cache[c.symbol]) else None;
    var c1 := c.(phase := Joined, joined := |Of(s.sent, c.symbol)|);
    ClientMoves(steps, id, GroupAdd, c1);
    var one := steps + [Act(id, GroupAdd)];
    ClientMoves(one, id, Accept, c1.(phase := Accepted));
    var two := one + [Act(id, Accept)];
    ClientMoves(two, id, ReadCache, c1.(phase := Fetched(cached)));
    var three := two + [Act(id, ReadCache)];
    ClientMoves(three, id, SendSnapshot, c1.(phase := Live, transcript := c.transcript + Greeting(cached)));
  }

  lemma ClientMoves(steps: seq<Step>, id: nat, action: Action, c: Client)
    requires Run(steps).Some? && id in Run(steps).value.clients
    requires var s := Run(steps).value;
             && Advance(s.clients[id], action, FeedOf(s, s.clients[id].symbol)) == Some(c)
             && c.symbol == s.clients[id].symbol
    ensures Run(steps + [Act(id, action)]) == Some(WithClient(Run(steps).value, id, c))
  {
    RunMore(steps, Act(id, action));
  }

  /** A live client can always take the next row of its queue, and is sent it; and it can always leave. */
  lemma LiveCanMove(steps: seq<Step>, id: nat)
    requires Run(steps).Some? && id in Run(steps).value.clients && Run(steps).value.clients[id].phase == Live
    ensures var c := Run(steps).value.clients[id];
            var taken := Run(steps + [Act(id, Deliver)]);
            && (taken.Some? <==> c.queue != [])
            && (taken.Some? ==>
                  && id in taken.value.clients
                  && taken.value.clients[id] ==
                       c.(queue := c.queue[1..], transcript := c.transcript + [Update(c.queue[0])]))
            && Run(steps + [Act(id, Disconnect)]).Some?
  {
    var c := Run(steps).value.clients[id];
    RunMore(steps, Act(id, Deliver));
    if c.queue != [] {
      ClientMoves(steps, id, Deliver, c.(queue := c.queue[1..], transcript := c.transcript + [Update(c.queue[0])]));
    }
    ClientMoves(steps, id, Disconnect, c.(phase := Closed));
  }

  /** The client has left: it is in no group, and nothing more happens for it. */
  ghost predicate Left(s: State, id: nat, queue: seq<Row>, transcript: seq<Message>) {
    && id in s.clients && s.clients[id].phase == Closed
    && s.clients[id].queue == queue && s.clients[id].transcript == transcript
  }

  lemma {:induction false} StaysLeft(before: seq<Step>, after: seq<Step>, id: nat, queue: seq<Row>,
                                     transcript: seq<Message>)
    requires Run(before).Some? && Left(Run(before).value, id, queue, transcript) && Run(before + after).Some?
    ensures Left(Run(before + after).value, id, queue, transcript)
  {
    if after == [] {
      assert before + after == before;
    } else {
      var init, last := after[..|after| - 1], after[|after| - 1];
      assert (before + after)[..|before + after| - 1] == before + init;
      StaysLeft(before, init, id, queue, transcript);
      LeftStep(Run(before + init).value, last, id, queue, transcript);
    }
  }

  lemma LeftStep(s: State, step: Step, id: nat, queue: seq<Row>, transcript: seq<Message>)
    requires Next(s, step).Some? && Left(s, id, queue, transcript)
    ensures Left(Next(s, step).value, id, queue, transcript)
  {
  }

  /**
   * Leaving is final. However the run goes on, the client's queue and transcript stay what they were when it left: no
   * broadcast reaches it, it is in no group, and none of its handlers runs again.
   */
  lemma DisconnectIsFinal(before: seq<Step>, after: seq<Step>, id: nat)
    requires Run(before).Some? && id in Run(before).value.clients
    requires Run(before + [Act(id, Disconnect)] + after).Some?
    ensures var c, end := Run(before).value.clients[id], Run(before + [Act(id, Disconnect)] + after).value;
            && id in end.clients
            && end.clients[id].queue == c.queue && end.clients[id].transcript == c.transcript
            && (forall symbol :: !Member(end.clients[id], symbol))
            && (forall action :: Next(end, Act(id, action)).None?)
  {
    var c, left := Run(before).value.clients[id], before + [Act(id, Disconnect)];
    RunConcat(left, after);
    RunMore(before, Act(id, Disconnect));
    StaysLeft(left, after, id, c.queue, c.transcript);
  }

  // ----- Which instruments can be followed -----

  predicate Capital(c: char) {
    'A' <= c <= 'Z' || '0' <= c <= '9' || c == '-'
  }

  /** Upper-casing works letter by letter. */
  lemma {:induction false} UpperInWords(s: string, i: nat)
    requires i < |s|
    ensures |Upper(s)| == |s|
    ensures Upper(s)[i] as int == if 'a' <= s[i] <= 'z' then s[i] as int - 32 else s[i] as int
  {
    if |s| > 1 {
      UpperInWords(s[1..], if i == 0 then 0 else i - 1);
    }
  }

  lemma {:induction false} UpperOfCapitals(s: string)
    requires forall c | c in s :: Capital(c)
    ensures Upper(s) == s
  {
    if s != [] {
      assert s == [s[0]] + s[1..];
      assert s[0] in s && Capital(s[0]);
      UpperOfCapitals(s[1..]);
    }
  }

  lemma {:induction false} UpperIsCapital(s: string)
    requires forall c | c in s :: RouteChar(c)
    ensures |Upper(s)| == |s| && forall c | c in Upper(s) :: Capital(c)
  {
    if s != [] {
      assert s == [s[0]] + s[1..];
      assert s[0] in s && RouteChar(s[0]) && Capital(UpperChar(s[0]));
      UpperIsCapital(s[1..]);
    }
  }

  lemma SymbolKept(s: State, step: Step, id: nat)
    requires Next(s, step).Some? && id in Next(s, step).value.clients
    ensures var symbol := Next(s, step).value.clients[id].symbol;
            || (step.Connect? && Routable(step.url) && symbol == Upper(step.url))
            || (id in s.clients && symbol == s.clients[id].symbol)
  {
  }

  lemma {:induction false} ClientsFollowUpperCase(steps: seq<Step>, id: nat)
    requires Run(steps).Some? && id in Run(steps).value.clients
    ensures exists url :: Routable(url) && Run(steps).value.clients[id].symbol == Upper(url)
  {
    var before, step := steps[..|steps| - 1], steps[|steps| - 1];
    SymbolKept(Run(before).value, step, id);
    if id in Run(before).value.clients {
      ClientsFollowUpperCase(before, id);
    }
  }

  /** After some steps the client is in the group to which the symbol's prices are broadcast. */
  ghost predicate Followed(symbol: string, steps: seq<Step>, id: nat) {
    Run(steps).Some? && id in Run(steps).value.clients && Member(Run(steps).value.clients[id], symbol)
  }

  /** The symbols a client can follow: at least one character, and only capitals, digits and hyphens. */
  predicate Followable(symbol: string) {
    symbol != [] && forall c | c in symbol :: Capital(c)
  }

  /**
   * The route admits letters, digits and hyphens and connecting upper-cases them, while the worker broadcasts under the
   * instrument's symbol as it stands. So some client can ever receive an instrument's prices exactly if its symbol is
   * not empty and has only capitals, digits and hyphens.
   */
  lemma FeedReachable(symbol: string)
    ensures (exists steps, id :: Followed(symbol, steps, id)) <==> Followable(symbol)
  {
    forall steps, id | Followed(symbol, steps, id) ensures Followable(symbol) {
      ClientsFollowUpperCase(steps, id);
      var url :| Routable(url) && symbol == Upper(url);
      UpperIsCapital(url);
    }
    if Followable(symbol) {
      var steps := Joining(symbol);
      assert Followed(symbol, steps, 0);
    }
  }

  lemma Joining(symbol: string) returns (steps: seq<Step>)
    requires Followable(symbol)
    ensures Followed(symbol, steps, 0)
  {
    Connecting(symbol);
    RunMore([Connect(0, symbol)], Act(0, GroupAdd));
    steps := [Connect(0, symbol)] + [Act(0, GroupAdd)];
  }

  lemma Connecting(symbol: string)
    requires Followable(symbol)
    ensures Run([Connect(0, symbol)]) == Some(WithClient(INITIAL, 0, Client(symbol, Started, [], [], 0)))
  {
    UpperOfCapitals(symbol);
    var steps := [Connect(0, symbol)];
    assert [] + steps == steps && Run([]) == Some(INITIAL);
    RunMore([], Connect(0, symbol));
  }

  /** Instruments that a round would poll and broadcast, and that no client can follow. */
  lemma UnreachableFeeds(steps: seq<Step>, id: nat)
    ensures !Followed("btc-usd", steps, id) && !Followed("BTC-USD_PERP", steps, id)
  {
    assert "btc-usd"[0] == 'b' && !Capital('b');
    assert "BTC-USD_PERP"[7] == '_' && !Capital('_');
    FeedReachable("btc-usd");
    FeedReachable("BTC-USD_PERP");
  }
}
