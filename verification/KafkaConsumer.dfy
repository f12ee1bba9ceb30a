/** The consumer service: from Kafka payloads to rows of the bar table. */
module KafkaConsumer {
  import opened Numbers
  import opened Buckets
  import opened Bars
  import opened RollUp
  import Aggregator

  /** What Decimal reads: a number, or an infinity or not-a-number. */
  datatype Price = Finite(value: real) | NotFinite

  /** A decoded quote message. A field is None if it is missing or, for prices and timestamp, cannot be read. */
  datatype Payload = Payload(instrument: Option<string>, bid: Option<Price>, ask: Option<Price>, ts: Option<Stamp>)

  /** A payload and the clock at the moment it is handled. */
  datatype Delivery = Delivery(payload: Payload, now: Stamp)

  /** What one poll of the topic returns. */
  datatype Poll = Idle | Failed | Undecodable | Message(delivery: Delivery)

  /** One turn of the consumer loop, and whether the stop signal arrives during it. */
  datatype Turn = Turn(poll: Poll, signalled: bool)

  /** The payload names a known instrument and has prices. */
  predicate Readable(known: set<string>, p: Payload) {
    && p.instrument.Some? && p.instrument.value != "" && p.instrument.value in known
    && p.bid.Some? && p.ask.Some?
  }

  /** Prices that can be read but not stored: nothing is committed, and the exception ends the process. */
  predicate Raises(known: set<string>, d: Delivery) {
    Readable(known, d.payload) && !(d.payload.bid.value.Finite? && d.payload.ask.value.Finite?)
  }

  /** The event of a delivery, or None if no bar is updated for it. */
  function Accept(known: set<string>, d: Delivery): Option<Event> {
    var p := d.payload;
    if !Readable(known, p) || Raises(known, d) then None
    else Some(Event(p.instrument.value, (p.bid.value.value + p.ask.value.value) / 2.0,
                    if p.ts.Some? then p.ts.value else d.now))
  }

  /** The message that the producer sends for a stored quote; its timestamp is written in UTC. */
  function PayloadOf(symbol: string, q: Aggregator.Quote): Payload {
    Payload(Some(symbol), Some(Finite(q.bid)), Some(Finite(q.ask)), Some(Utc(q.timestamp)))
  }

  /**
   * The consumer files a published quote of a known instrument under the quote's own mid and time, whenever it handles
   * it.
   */
  lemma PublishedQuoteAccepted(known: set<string>, symbol: string, q: Aggregator.Quote, now: Stamp)
    requires symbol in known && symbol != "" && q.timestamp >= 0
    ensures var p := PayloadOf(symbol, q);
            && p.instrument == Some(symbol) && p.bid == Some(Finite(q.bid)) && p.ask == Some(Finite(q.ask))
            && p.ts.Some? && p.ts.value.utc == q.timestamp && p.ts.value.offset == 0
    ensures var e := Accept(known, Delivery(PayloadOf(symbol, q), now));
            e == Some(Event(symbol, q.Mid(), Utc(q.timestamp))) && OnGrid(e.value.stamp, H1)
  {
  }

  function Accepted(known: set<string>, ds: seq<Delivery>): seq<Event> {
    if ds == [] then [] else
    var e := Accept(known, ds[|ds| - 1]);
    Accepted(known, ds[..|ds| - 1]) + if e.Some? then [e.value] else []
  }

  /** The rows after one delivery of which `alive` transactions were committed. */
  function Handle(rows: Table, known: set<string>, d: Delivery, alive: Progress, round: real -> real): Table {
    match Accept(known, d)
    case None => rows
    case Some(e) => Play(rows, Writes(e)[..alive], round)
  }

  function HandleAll(rows: Table, known: set<string>, ds: seq<Delivery>, round: real -> real): Table {
    if ds == [] then rows else
    Handle(HandleAll(rows, known, ds[..|ds| - 1], round), known, ds[|ds| - 1], 3, round)
  }

  /** The deliveries that the loop has handled, whether it goes on, and whether an exception ended it. */
  datatype Run = Run(handled: seq<Delivery>, running: bool, raised: bool)

  function TakeTurn(known: set<string>, r: Run, t: Turn, stopAfter: Option<int>): Run {
    if !r.running then r else
    match t.poll
    case Message(d) =>
      if Raises(known, d) then r.(running := false, raised := true) else
      var handled := r.handled + [d];
      Run(handled, !t.signalled && !(stopAfter.Some? && |handled| >= stopAfter.value), false)
    case _ =>
      r.(running := !t.signalled)
  }

  function Loop(known: set<string>, turns: seq<Turn>, stopAfter: Option<int>): Run {
    if turns == [] then Run([], true, false)
    else TakeTurn(known, Loop(known, turns[..|turns| - 1], stopAfter), turns[|turns| - 1], stopAfter)
  }

  function Messages(turns: seq<Turn>): seq<Delivery> {
    if turns == [] then [] else
    var t := turns[|turns| - 1];
    Messages(turns[..|turns| - 1]) + if t.poll.Message? then [t.poll.delivery] else []
  }

  /** How many messages a bound lets through: at least one, because it is tested after the message is handled. */
  function Room(bound: int): nat {
    if bound < 1 then 1 else bound
  }

  /** No stop signal arrives. */
  predicate Unsignalled(turns: seq<Turn>) {
    forall t | t in turns :: !t.signalled
  }

  /**
   * The loop handles a prefix of the messages, skipping polls that yield none, and never more than the bound lets
   * through. An exception ends it exactly at a message that raises; the bound ends it exactly when all that it lets
   * through are handled; while it goes on, all messages are handled. Without signal nothing else ends it.
   */
  lemma {:induction false} HandledMessages(known: set<string>, turns: seq<Turn>, stopAfter: Option<int>)
    ensures var run, all := Loop(known, turns, stopAfter), Messages(turns);
            && run.handled <= all
            && (stopAfter.Some? ==> |run.handled| <= Room(stopAfter.value))
            && (run.running ==> run.handled == all && (stopAfter.Some? ==> |all| < Room(stopAfter.value)))
            && (forall d | d in run.handled :: !Raises(known, d))
            && (run.raised ==> !run.running && |run.handled| < |all| && Raises(known, all[|run.handled|]))
            && (Unsignalled(turns) && !run.running && !run.raised ==>
                  stopAfter.Some? && |run.handled| == Room(stopAfter.value))
  {
    if turns != [] {
      assert turns == turns[..|turns| - 1] + [turns[|turns| - 1]];
      HandledMessages(known, turns[..|turns| - 1], stopAfter);
      assert Unsignalled(turns) ==> Unsignalled(turns[..|turns| - 1]) && !turns[|turns| - 1].signalled;
    }
  }

  /** Once it has stopped, further turns do not matter. */
  lemma {:induction false} StaysStopped(known: set<string>, turns: seq<Turn>, i: nat, stopAfter: Option<int>)
    requires i <= |turns| && !Loop(known, turns[..i], stopAfter).running
    ensures Loop(known, turns, stopAfter) == Loop(known, turns[..i], stopAfter)
  {
    if i < |turns| {
      var init := turns[..|turns| - 1];
      assert init[..i] == turns[..i];
      StaysStopped(known, init, i, stopAfter);
    } else {
      assert turns[..i] == turns;
    }
  }

  lemma LoopNext(known: set<string>, turns: seq<Turn>, i: nat, stopAfter: Option<int>)
    requires i < |turns|
    ensures Loop(known, turns[..i + 1], stopAfter)
            == TakeTurn(known, Loop(known, turns[..i], stopAfter), turns[i], stopAfter)
  {
    assert turns[..i + 1][..i] == turns[..i];
  }

  /** Once a signal arrives nothing after its turn is handled, and its own message still is, unless that raises. */
  lemma SignalStops(known: set<string>, turns: seq<Turn>, j: nat, stopAfter: Option<int>)
    requires j < |turns| && turns[j].signalled
    ensures var run := Loop(known, turns, stopAfter);
            && !run.running && run.handled <= Messages(turns[..j + 1])
            && (Loop(known, turns[..j], stopAfter).running && !run.raised ==> run.handled == Messages(turns[..j + 1]))
  {
    LoopNext(known, turns, j, stopAfter);
    StaysStopped(known, turns, j + 1, stopAfter);
    HandledMessages(known, turns[..j + 1], stopAfter);
    HandledMessages(known, turns[..j], stopAfter);
    assert turns[..j + 1][..j] == turns[..j];
  }

  // ----- One payload in words -----

  /**
   * The row after one more price: a new one, or the old one with its extremes widened, its close replaced and one tick
   * more.
   */
  predicate Widened(before: Option<Bar>, after: Option<Bar>, price: real, round: real -> real) {
    && after.Some?
    && match before
       case None => after.value == Bar(round(price), round(price), round(price), round(price), 0.0, 1)
       case Some(b) =>
         && after.value.open == b.open && after.value.volume == b.volume
         && after.value.high == round(if price > b.high then price else b.high)
         && after.value.low == round(if price < b.low then price else b.low)
         && after.value.close == round(price) && after.value.ticks == b.ticks + 1
  }

  /** The payload names a known instrument and has two finite prices. */
  predicate Usable(known: set<string>, p: Payload) {
    && p.instrument.Some? && p.instrument.value != "" && p.instrument.value in known
    && p.bid.Some? && p.bid.value.Finite? && p.ask.Some? && p.ask.value.Finite?
  }

  /**
   * A usable payload widens, for each interval whose transaction is committed, the row of the bucket of its own time
   * or, if it has none, of the time of handling, by the midpoint of its prices. No other row changes; and no row does
   * for any other payload.
   */
  ghost predicate FiledOrNot(before: Table, after: Table, known: set<string>, d: Delivery, alive: Progress,
                             round: real -> real)
  {
    var p := d.payload;
    if !Usable(known, p) then after == before else
    var price, stamp := (p.bid.value.value + p.ask.value.value) / 2.0, if p.ts.Some? then p.ts.value else d.now;
    forall k :: FiledUnder(Lookup(before, k), Lookup(after, k), k, p.instrument.value, price, stamp, alive, round)
  }

  /**
   * One row before and after a usable payload of these contents, of which the first `alive` transactions are committed.
   */
  predicate FiledUnder(before: Option<Bar>, after: Option<Bar>, k: Key, instrument: string, price: real, stamp: Stamp,
                       alive: Progress, round: real -> real)
  {
    var committed := match k.interval case M1 => alive >= 1 case M5 => alive >= 2 case H1 => alive >= 3;
    if k.instrument == instrument && k.bucket == BucketStart(stamp, k.interval) && committed
    then Widened(before, after, price, round)
    else after == before
  }

  lemma HandleInWords(rows: Table, known: set<string>, d: Delivery, alive: Progress, round: real -> real)
    ensures FiledOrNot(rows, Handle(rows, known, d, alive, round), known, d, alive, round)
  {
    if Usable(known, d.payload) {
      var e, after := Accept(known, d).value, Handle(rows, known, d, alive, round);
      forall k ensures FiledUnder(Lookup(rows, k), Lookup(after, k), k, e.instrument, e.mid, e.stamp, alive, round) {
        PlayThree(rows, Writes(e), alive, round, k);
      }
    }
  }

  /** Three updates of different intervals change a row at most once. */
  lemma PlayThree(rows: Table, ws: seq<Write>, alive: Progress, round: real -> real, k: Key)
    requires |ws| == 3 && ws[0].key.interval == M1 && ws[1].key.interval == M5 && ws[2].key.interval == H1
    ensures var w, after := ws[Rank(k.interval)], Lookup(Play(rows, ws[..alive], round), k);
            if w.key == k && Rank(k.interval) < alive then Widened(Lookup(rows, k), after, w.price, round)
            else after == Lookup(rows, k)
  {
    assert ws[..0] == [] && ws[..1] == ws[..0] + [ws[0]];
    assert ws[..2] == ws[..1] + [ws[1]] && ws[..3] == ws[..2] + [ws[2]];
    if alive >= 1 {
      PlayOneWrite(rows, ws[..0], ws[0], round, k);
    }
    if alive >= 2 {
      PlayOneWrite(rows, ws[..1], ws[1], round, k);
    }
    if alive >= 3 {
      PlayOneWrite(rows, ws[..2], ws[2], round, k);
    }
  }

  lemma PlayOneWrite(rows: Table, ws: seq<Write>, w: Write, round: real -> real, k: Key)
    ensures var before, after := Lookup(Play(rows, ws, round), k), Lookup(Play(rows, ws + [w], round), k);
            if w.key == k then Widened(before, after, w.price, round) else after == before
  {
    assert (ws + [w])[..|ws|] == ws;
  }

  class OhlcBuilder {
    var rows: Table
    const known: set<string>
    const round: real -> real

    constructor (known: set<string>, round: real -> real)
      ensures this.known == known && this.round == round && rows == map[]
    {
      this.known, this.round := known, round;
      rows := map[];
    }

    /** One transaction: lock or create the row, widen it, save it. */
    method UpdateBar(instrument: string, interval: Interval, ts: Stamp, price: real)
      modifies this`rows
      ensures rows == Store(old(rows), Write(Key(instrument, interval, BucketStart(ts, interval)), price), round)
    {
      var k := Key(instrument, interval, BucketStart(ts, interval));
      if k !in rows {
        rows := rows[k := Bar(round(price), round(price), round(price), round(price), 0.0, 1)];
      } else {
        var bar := rows[k];
        var high := if price > bar.high then price else bar.high;
        var low := if price < bar.low then price else bar.low;
        rows := rows[k := bar.(high := round(high), low := round(low), close := round(price), ticks := bar.ticks + 1)];
      }
    }

    /** Handles one payload; the process survives for `alive` of its transactions. */
    method HandleEvent(d: Delivery, alive: Progress) returns (raised: bool)
      modifies this`rows
      ensures rows == Handle(old(rows), known, d, alive, round)
      ensures raised <==> Raises(known, d)
      ensures d.payload.instrument.None? || d.payload.instrument.value == "" || d.payload.instrument.value !in known
              || d.payload.bid.None? || d.payload.ask.None?
              ==> rows == old(rows) && !raised
      ensures FiledOrNot(old(rows), rows, known, d, alive, round)
    {
      HandleInWords(rows, known, d, alive, round);
      var p := d.payload;
      if p.instrument.None? || p.instrument.value == "" {
        return false;
      }
      if p.instrument.value !in known {
        return false;
      }
      if p.bid.None? || p.ask.None? {
        return false;
      }
      if p.bid.value.NotFinite? || p.ask.value.NotFinite? {
        return true;
      }
      var mid := (p.bid.value.value + p.ask.value.value) / 2.0;
      var ts := d.now;
      if p.ts.Some? {
        ts := p.ts.value;
      }
      ghost var ws := Writes(Event(p.instrument.value, mid, ts));
      var intervals := [M1, M5, H1];
      for j := 0 to alive
        invariant rows == Play(old(rows), ws[..j], round)
      {
        UpdateBar(p.instrument.value, intervals[j], ts, mid);
        assert ws[j] == Write(Key(p.instrument.value, intervals[j], BucketStart(ts, intervals[j])), mid);
        assert ws[..j + 1][..j] == ws[..j];
      }
      return false;
    }

    /** The consumer loop over what the polls return; it counts ignored payloads as processed too. */
    method RunConsumer(turns: seq<Turn>, stopAfter: Option<int>) returns (processed: nat, raised: bool)
      modifies this`rows
      ensures var run := Loop(known, turns, stopAfter);
              && processed == |run.handled| && raised == run.raised
              && rows == HandleAll(old(rows), known, run.handled, round)
    {
      var running := true;
      processed, raised := 0, false;
      ghost var rows0, run := rows, Run([], true, false);
      var i := 0;
      while running && i < |turns|
        invariant 0 <= i <= |turns| && run == Loop(known, turns[..i], stopAfter)
        invariant run.running == running && run.raised == raised && |run.handled| == processed
        invariant rows == HandleAll(rows0, known, run.handled, round)
      {
        var turn := turns[i];
        LoopNext(known, turns, i, stopAfter);
        if turn.signalled {
          running := false;
        }
        if turn.poll.Message? {
          HandleOneMore(rows0, known, run.handled, turn.poll.delivery, round);
          raised := HandleEvent(turn.poll.delivery, 3);
          if raised {
            running := false;
          } else {
            processed := processed + 1;
            if stopAfter.Some? && processed >= stopAfter.value {
              running := false;
            }
          }
        }
        run := TakeTurn(known, run, turn, stopAfter);
        i := i + 1;
      }
      if running {
        assert turns[..i] == turns;
      } else {
        StaysStopped(known, turns, i, stopAfter);
      }
    }
  }

  lemma HandleOneMore(rows: Table, known: set<string>, ds: seq<Delivery>, d: Delivery, round: real -> real)
    ensures HandleAll(rows, known, ds + [d], round) == Handle(HandleAll(rows, known, ds, round), known, d, 3, round)
  {
    assert (ds + [d])[..|ds + [d]| - 1] == ds;
  }

  /** What a run of the loop leaves is the undisturbed run over the accepted events among its deliveries. */
  lemma {:induction false} HandleAllIsComplete(rows: Table, known: set<string>, ds: seq<Delivery>, round: real -> real)
    ensures HandleAll(rows, known, ds, round) == Play(rows, PassWrites(Complete(Accepted(known, ds))), round)
  {
    if ds != [] {
      var init, e := ds[..|ds| - 1], Accept(known, ds[|ds| - 1]);
      HandleAllIsComplete(rows, known, init, round);
      if e.None? {
        assert Accepted(known, ds) == Accepted(known, init);
      } else {
        PlayOneMore(rows, Accepted(known, init), e.value, round);
      }
    }
  }

  lemma PlayOneMore(rows: Table, es: seq<Event>, e: Event, round: real -> real)
    ensures Play(rows, PassWrites(Complete(es + [e])), round)
         == Play(Play(rows, PassWrites(Complete(es)), round), Writes(e)[..3], round)
  {
    var ps := Complete(es + [e]);
    assert (es + [e])[..|es + [e]| - 1] == es;
    assert ps == Complete(es) + [Pass(e, 3)];
    assert ps[..|ps| - 1] == Complete(es);
    PlayConcat(rows, PassWrites(Complete(es)), Writes(e)[..3], round);
  }

  // ----- The service and the meaning of its table -----

  /** A delivery and the number of transactions that the process survives while handling it. */
  datatype Handling = Handling(delivery: Delivery, alive: Progress)

  /** The rows after a list of calls of the handler, some of them cut short. */
  function AfterAll(rows: Table, known: set<string>, hs: seq<Handling>, round: real -> real): Table {
    if hs == [] then rows else
    var h := hs[|hs| - 1];
    Handle(AfterAll(rows, known, hs[..|hs| - 1], round), known, h.delivery, h.alive, round)
  }

  function PassesAmong(known: set<string>, hs: seq<Handling>): seq<Pass> {
    if hs == [] then [] else
    var h := hs[|hs| - 1];
    var e := Accept(known, h.delivery);
    PassesAmong(known, hs[..|hs| - 1]) + if e.Some? then [Pass(e.value, h.alive)] else []
  }

  /**
   * What any calls of the handler leave in an empty table, crashes and ignored payloads included, is what the passes of
   * the accepted events build; so all that is proved of such passes holds of the service.
   */
  lemma {:induction false} CallsBuildTheTable(known: set<string>, hs: seq<Handling>, round: real -> real)
    ensures AfterAll(map[], known, hs, round) == Built(PassesAmong(known, hs), round)
  {
    if hs != [] {
      var init, h := hs[..|hs| - 1], hs[|hs| - 1];
      CallsBuildTheTable(known, init, round);
      var e := Accept(known, h.delivery);
      if e.Some? {
        OneMorePass(PassesAmong(known, init), Pass(e.value, h.alive), round);
      } else {
        assert PassesAmong(known, hs) == PassesAmong(known, init);
      }
    }
  }

  /** No call of the handler ever makes a row for an instrument that is not known. */
  lemma {:induction false} KnownInstrumentsOnly(known: set<string>, hs: seq<Handling>, round: real -> real)
    ensures forall k | k in AfterAll(map[], known, hs, round) :: k.instrument in known && k.instrument != ""
  {
    if hs != [] {
      var init, h := hs[..|hs| - 1], hs[|hs| - 1];
      KnownInstrumentsOnly(known, init, round);
      StillKnown(AfterAll(map[], known, init, round), known, h.delivery, h.alive, round);
    }
  }

  /** And so for the loop. */
  lemma {:induction false} LoopKnowsInstruments(known: set<string>, ds: seq<Delivery>, round: real -> real)
    ensures forall k | k in HandleAll(map[], known, ds, round) :: k.instrument in known && k.instrument != ""
  {
    if ds != [] {
      LoopKnowsInstruments(known, ds[..|ds| - 1], round);
      StillKnown(HandleAll(map[], known, ds[..|ds| - 1], round), known, ds[|ds| - 1], 3, round);
    }
  }

  lemma StillKnown(rows: Table, known: set<string>, d: Delivery, alive: Progress, round: real -> real)
    requires forall k | k in rows :: k.instrument in known && k.instrument != ""
    ensures forall k | k in Handle(rows, known, d, alive, round) :: k.instrument in known && k.instrument != ""
  {
    var after := Handle(rows, known, d, alive, round);
    HandleInWords(rows, known, d, alive, round);
    forall k | k in after ensures k.instrument in known && k.instrument != "" {
      assert Lookup(after, k).Some?;
    }
  }

  /**
   * A run of the loop from an empty table leaves, in every row, the summary of the accepted events that belong to it.
   */
  lemma RunMeaning(known: set<string>, turns: seq<Turn>, stopAfter: Option<int>, round: real -> real, k: Key)
    requires StorageRounding(round)
    ensures var handled := Loop(known, turns, stopAfter).handled;
            Lookup(HandleAll(map[], known, handled, round), k)
              == SummaryOrNone(PricesFor(Accepted(known, handled), k), round)
  {
    var handled := Loop(known, turns, stopAfter).handled;
    HandleAllIsComplete(map[], known, handled, round);
    CompleteTable(Accepted(known, handled), round, k);
  }
}
