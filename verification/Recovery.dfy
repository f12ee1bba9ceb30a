/** What redelivery and crashes between the three transactions of an event do to the bars. */
module Recovery {
  import opened Numbers
  import opened Buckets
  import opened Bars
  import opened RollUp

  /** One attempt at the event at an offset of the log. */
  datatype Attempt = Attempt(offset: nat, done: Progress)

  function PassesOf(log: seq<Event>, attempts: seq<Attempt>): seq<Pass>
    requires forall a | a in attempts :: a.offset < |log|
  {
    seq(|attempts|, j requires 0 <= j < |attempts| => Pass(log[attempts[j].offset], attempts[j].done))
  }

  /** The furthest offset that the consumer can handle next: the next event only after a complete attempt. */
  function Next(attempts: seq<Attempt>): nat {
    if attempts == [] then 0 else
    var a := attempts[|attempts| - 1];
    if a.done == 3 then a.offset + 1 else a.offset
  }

  /**
   * The runs that redelivery and crashes allow: the consumer starts at the first event and never skips one, but may at
   * any time be set back to an earlier event or to the same one.
   */
  predicate Resumes(attempts: seq<Attempt>, size: nat)
    ensures Resumes(attempts, size) ==> forall a | a in attempts :: a.offset < size
  {
    attempts == [] ||
    var init, a := attempts[..|attempts| - 1], attempts[|attempts| - 1];
    assert attempts == init + [a];
    Resumes(init, size) && a.offset < size && a.offset <= Next(init)
  }

  /**
   * A run may begin at the first event only, and go on at the event after the last one or, if that was cut short, at
   * it; or before.
   */
  lemma ResumesMore(attempts: seq<Attempt>, a: Attempt, size: nat)
    requires Resumes(attempts, size)
    ensures Resumes(attempts + [a], size)
            <==> a.offset < size
                 && if attempts == [] then a.offset == 0 else
                    var last := attempts[|attempts| - 1];
                    a.offset <= if last.done == 3 then last.offset + 1 else last.offset
  {
    assert (attempts + [a])[..|attempts|] == attempts;
  }

  /** The last thing the run did was to handle the last event completely. */
  predicate CaughtUp(attempts: seq<Attempt>, size: nat) {
    attempts != [] && attempts[|attempts| - 1].done == 3 && attempts[|attempts| - 1].offset + 1 == size
  }

  // ----- The walk over the log -----

  /** The offsets whose transaction number `rank` was committed. */
  function Offsets(attempts: seq<Attempt>, rank: nat): seq<nat> {
    if attempts == [] then [] else
    var a := attempts[|attempts| - 1];
    Offsets(attempts[..|attempts| - 1], rank) + if a.done > rank then [a.offset] else []
  }

  predicate Inside(w: seq<nat>, size: nat) {
    forall j | 0 <= j < |w| :: w[j] < size
  }

  function Pick(log: seq<Event>, w: seq<nat>): seq<Event>
    requires Inside(w, |log|)
  {
    seq(|w|, j requires 0 <= j < |w| => log[w[j]])
  }

  lemma PickFront(log: seq<Event>, w: seq<nat>)
    requires w != [] && Inside(w, |log|)
    ensures Inside(w[1..], |log|) && Pick(log, w) == [log[w[0]]] + Pick(log, w[1..])
  {
  }

  lemma PickBack(log: seq<Event>, w: seq<nat>)
    requires w != [] && Inside(w, |log|)
    ensures Inside(w[..|w| - 1], |log|) && Pick(log, w) == Pick(log, w[..|w| - 1]) + [log[w[|w| - 1]]]
  {
  }

  /** Offsets that start at 0 and never skip one: each is at most one past the one before. */
  predicate Walk(w: seq<nat>) {
    w == [] ||
    var init, o := w[..|w| - 1], w[|w| - 1];
    Walk(init) && o <= if init == [] then 0 else init[|init| - 1] + 1
  }

  lemma {:induction false} OffsetsWalk(attempts: seq<Attempt>, rank: nat, size: nat)
    requires rank < 3 && Resumes(attempts, size)
    ensures var w := Offsets(attempts, rank);
            Walk(w) && Inside(w, size) && Next(attempts) <= if w == [] then 0 else w[|w| - 1] + 1
  {
    if attempts != [] {
      var init, a := attempts[..|attempts| - 1], attempts[|attempts| - 1];
      assert attempts == init + [a];
      OffsetsWalk(init, rank, size);
      if a.done > rank {
        var w := Offsets(attempts, rank);
        assert w == Offsets(init, rank) + [a.offset];
        assert w[..|w| - 1] == Offsets(init, rank);
      } else {
        assert Offsets(attempts, rank) == Offsets(init, rank);
      }
    }
  }

  lemma {:induction false} LevelIsPick(log: seq<Event>, attempts: seq<Attempt>, rank: nat)
    requires forall a | a in attempts :: a.offset < |log|
    requires Inside(Offsets(attempts, rank), |log|)
    ensures Level(PassesOf(log, attempts), rank) == Pick(log, Offsets(attempts, rank))
  {
    if attempts != [] {
      var init := attempts[..|attempts| - 1];
      assert Offsets(init, rank) <= Offsets(attempts, rank);
      LevelIsPick(log, init, rank);
      var ps := PassesOf(log, attempts);
      assert ps[..|ps| - 1] == PassesOf(log, init);
    }
  }

  /** The same values with the same first one; none lost in number. */
  ghost predicate SameSpan(replayed: seq<real>, once: seq<real>) {
    && (replayed == [] <==> once == [])
    && (replayed != [] ==> replayed[0] == once[0])
    && (forall x :: x in replayed <==> x in once)
    && |replayed| >= |once|
  }

  /** One past the greatest offset reached. */
  function Reach(w: seq<nat>): (r: nat)
    ensures forall o | o in w :: o < r
    ensures w != [] ==> r - 1 in w
  {
    if w == [] then 0 else
    var init, o := w[..|w| - 1], w[|w| - 1];
    assert w == init + [o];
    if o < Reach(init) then Reach(init) else o + 1
  }

  /** A walk has written, to any row, the span of the events it has reached. */
  lemma {:induction false} WalkSpan(log: seq<Event>, w: seq<nat>, k: Key)
    requires Walk(w) && Inside(w, |log|)
    ensures Reach(w) <= |log|
    ensures SameSpan(PricesFor(Pick(log, w), k), PricesFor(log[..Reach(w)], k))
  {
    if w != [] {
      var init, o := w[..|w| - 1], w[|w| - 1];
      assert w == init + [o];
      WalkSpan(log, init, k);
      PickBack(log, w);
      if o < Reach(init) {
        SpanWithin(Pick(log, init), log[..Reach(init)], o, k);
        assert log[..Reach(init)][o] == log[o];
      } else {
        assert o == Reach(init);
        assert log[..Reach(w)] == log[..Reach(init)] + [log[o]];
        SpanGrows(Pick(log, init), log[..Reach(init)], log[o], k);
      }
    }
  }

  lemma SpanGrows(replayed: seq<Event>, once: seq<Event>, e: Event, k: Key)
    requires SameSpan(PricesFor(replayed, k), PricesFor(once, k))
    ensures SameSpan(PricesFor(replayed + [e], k), PricesFor(once + [e], k))
  {
  }

  /** One event gives a row no price, or one that all the events give it too. */
  lemma PriceOfMember(es: seq<Event>, o: nat, k: Key)
    requires o < |es|
    ensures var price := PricesFor([es[o]], k);
            price == [] || (price == [es[o].mid] && es[o].mid in PricesFor(es, k))
  {
    PricesOfOne(es[o], k.instrument, k.interval, k.bucket, k.bucket + 1);
    PricesHoldTheEvents(es, k.instrument, k.interval, k.bucket, k.bucket + 1);
  }

  lemma SpanWithin(replayed: seq<Event>, once: seq<Event>, o: nat, k: Key)
    requires o < |once| && SameSpan(PricesFor(replayed, k), PricesFor(once, k))
    ensures SameSpan(PricesFor(replayed + [once[o]], k), PricesFor(once, k))
  {
    PricesForConcat(replayed, [once[o]], k);
    PriceOfMember(once, o, k);
  }

  predicate NoSkips(w: seq<nat>) {
    |w| < 2 || (w[1] <= w[0] + 1 && NoSkips(w[1..]))
  }

  lemma {:induction false} WalkHasNoSkips(w: seq<nat>)
    requires Walk(w)
    ensures NoSkips(w) && (w != [] ==> w[0] == 0)
  {
    if w != [] {
      var init := w[..|w| - 1];
      WalkHasNoSkips(init);
      assert w == init + [w[|w| - 1]];
      NoSkipsExtends(init, w[|w| - 1]);
    }
  }

  lemma {:induction false} NoSkipsExtends(w: seq<nat>, o: nat)
    requires NoSkips(w) && (w != [] ==> o <= w[|w| - 1] + 1)
    ensures NoSkips(w + [o])
  {
    if |w| > 1 {
      NoSkipsExtends(w[1..], o);
      assert (w + [o])[1..] == w[1..] + [o];
    }
  }

  predicate SameEnd(a: seq<real>, b: seq<real>) {
    && (a == [] <==> b == [])
    && (a != [] ==> a[|a| - 1] == b[|b| - 1])
  }

  function Least(w: seq<nat>): (m: nat)
    requires w != []
    ensures m in w && forall o | o in w :: m <= o
  {
    assert w == [w[0]] + w[1..];
    if |w| == 1 || w[0] < Least(w[1..]) then w[0] else Least(w[1..])
  }

  /** A walk that ends at the last event ends, in any row, on the last of the events from its least offset on. */
  lemma {:induction false} WalkEnd(log: seq<Event>, w: seq<nat>, k: Key)
    requires w != [] && NoSkips(w) && Inside(w, |log|) && w[|w| - 1] + 1 == |log|
    ensures SameEnd(PricesFor(Pick(log, w), k), PricesFor(log[Least(w)..], k))
  {
    var o, rest := w[0], w[1..];
    PickFront(log, w);
    assert w == [o] + rest;
    if rest == [] {
      assert Pick(log, rest) == [] && log[o..] == [log[o]];
    } else {
      WalkEnd(log, rest, k);
      EndOfLonger(log, o, Least(rest), Pick(log, rest), k);
    }
  }

  lemma EndOfLonger(log: seq<Event>, o: nat, least: nat, picked: seq<Event>, k: Key)
    requires o < |log| && least < |log| && least <= o + 1
    requires SameEnd(PricesFor(picked, k), PricesFor(log[least..], k))
    ensures SameEnd(PricesFor([log[o]] + picked, k), PricesFor(log[if o < least then o else least..], k))
  {
    if o < least {
      assert log[o..] == [log[o]] + log[least..];
      EndGrows(log[o], picked, log[least..], k);
    } else {
      assert log[least..][o - least] == log[o];
      EndWithin(picked, log[least..], o - least, k);
    }
  }

  lemma EndGrows(e: Event, a: seq<Event>, b: seq<Event>, k: Key)
    requires SameEnd(PricesFor(a, k), PricesFor(b, k))
    ensures SameEnd(PricesFor([e] + a, k), PricesFor([e] + b, k))
  {
    PricesForConcat([e], a, k);
    PricesForConcat([e], b, k);
  }

  lemma EndWithin(a: seq<Event>, b: seq<Event>, o: nat, k: Key)
    requires o < |b| && SameEnd(PricesFor(a, k), PricesFor(b, k))
    ensures SameEnd(PricesFor([b[o]] + a, k), PricesFor(b, k))
  {
    PricesForConcat([b[o]], a, k);
    PriceOfMember(b, o, k);
  }

  // ----- Recovery -----

  /** Bars that agree in all four prices; the first may count more ticks. */
  predicate SameOhlc(a: Option<Bar>, b: Option<Bar>) {
    && a.Some? == b.Some?
    && (a.Some? ==> a.value.(ticks := 0) == b.value.(ticks := 0) && a.value.ticks >= b.value.ticks)
  }

  lemma WalkToTheEnd(log: seq<Event>, w: seq<nat>, k: Key, round: real -> real)
    requires Walk(w) && w != [] && Inside(w, |log|) && w[|w| - 1] + 1 == |log|
    ensures SameOhlc(SummaryOrNone(PricesFor(Pick(log, w), k), round), SummaryOrNone(PricesFor(log, k), round))
  {
    WalkSpan(log, w, k);
    assert w[|w| - 1] in w && log[..Reach(w)] == log;
    WalkHasNoSkips(w);
    WalkEnd(log, w, k);
    assert w[0] in w && log[Least(w)..] == log;
    SameSummary(PricesFor(Pick(log, w), k), PricesFor(log, k), round);
  }

  lemma SameSummary(replayed: seq<real>, once: seq<real>, round: real -> real)
    requires SameSpan(replayed, once) && SameEnd(replayed, once)
    ensures SameOhlc(SummaryOrNone(replayed, round), SummaryOrNone(once, round))
  {
    if once != [] {
      SameExtrema(replayed, once);
    }
  }

  /**
   * Recovery: however often the consumer crashed between transactions and was set back, once it has caught up every bar
   * of every interval exists and shows the prices of the undisturbed run; only tick counts can be larger.
   */
  lemma CaughtUpTable(log: seq<Event>, attempts: seq<Attempt>, round: real -> real, k: Key)
    requires StorageRounding(round) && Resumes(attempts, |log|) && CaughtUp(attempts, |log|)
    ensures SameOhlc(Lookup(Built(PassesOf(log, attempts), round), k), Lookup(Built(Complete(log), round), k))
  {
    var rank := Rank(k.interval);
    OffsetsWalk(attempts, rank, |log|);
    LevelIsPick(log, attempts, rank);
    WalkToTheEnd(log, Offsets(attempts, rank), k, round);
    TableMeaning(PassesOf(log, attempts), round, k);
    CompleteTable(log, round, k);
  }

  function UpTo(n: nat): seq<nat> {
    seq(n, j => j)
  }

  function FromTo(from: nat, n: nat): seq<nat>
    requires from <= n
  {
    seq(n - from, j requires 0 <= j => from + j)
  }

  lemma {:induction false} ReplayWalks(n: nat, from: nat, to: nat)
    requires from <= to <= n
    ensures Walk(UpTo(n) + FromTo(from, to))
    decreases n + to
  {
    var w := UpTo(n) + FromTo(from, to);
    if from < to {
      assert w[..|w| - 1] == UpTo(n) + FromTo(from, to - 1);
      ReplayWalks(n, from, to - 1);
    } else if n > 0 {
      assert w[..|w| - 1] == UpTo(n - 1) + FromTo(0, 0);
      ReplayWalks(n - 1, 0, 0);
    }
  }

  lemma PickReplay(log: seq<Event>, from: nat)
    requires from <= |log|
    ensures var w := UpTo(|log|) + FromTo(from, |log|);
            Inside(w, |log|) && Pick(log, w) == log + log[from..]
  {
  }

  /**
   * Replay: handling any suffix of a handled log again changes no price of any bar, and raises each tick count by
   * exactly the number of replayed events in the bar.
   */
  lemma SuffixReplay(log: seq<Event>, from: nat, round: real -> real, k: Key)
    requires StorageRounding(round) && from <= |log|
    ensures var once := Lookup(Built(Complete(log), round), k);
            var twice := Lookup(Built(Complete(log + log[from..]), round), k);
            && SameOhlc(twice, once)
            && (once.Some? ==> twice.value.ticks == once.value.ticks + |PricesFor(log[from..], k)|)
  {
    CompleteTable(log, round, k);
    CompleteTable(log + log[from..], round, k);
    PricesConcat(log, log[from..], k.instrument, k.interval, k.bucket, k.bucket + 1);
    ReplayedSummary(log, from, round, k);
  }

  lemma ReplayedSummary(log: seq<Event>, from: nat, round: real -> real, k: Key)
    requires from <= |log|
    ensures SameOhlc(SummaryOrNone(PricesFor(log + log[from..], k), round), SummaryOrNone(PricesFor(log, k), round))
  {
    if from < |log| {
      var w := UpTo(|log|) + FromTo(from, |log|);
      ReplayWalks(|log|, from, |log|);
      PickReplay(log, from);
      WalkToTheEnd(log, w, k, round);
    } else {
      assert log + log[from..] == log;
    }
  }

  // ----- Tick counts of interrupted runs -----

  function Ticks(rows: Table, k: Key): nat {
    if k in rows then rows[k].ticks else 0
  }

  /** The tick counts of the n consecutive buckets from `start`, added up. */
  function TickSum(rows: Table, instrument: string, i: Interval, start: int, n: nat): nat {
    if n == 0 then 0 else
    TickSum(rows, instrument, i, start, n - 1) + Ticks(rows, Key(instrument, i, BucketAt(start, i, n - 1)))
  }

  /** The attempts at events of the row's bucket that stopped after exactly this many transactions. */
  function Stopped(ps: seq<Pass>, k: Key, done: Progress): nat {
    if ps == [] then 0 else
    var p := ps[|ps| - 1];
    Stopped(ps[..|ps| - 1], k, done) + if p.done == done && KeyOf(p.event, k.interval) == k then 1 else 0
  }

  lemma {:induction false} LevelsDifferByStopped(ps: seq<Pass>, k: Key, rank: nat)
    requires rank < 2
    ensures |PricesFor(Level(ps, rank), k)| == |PricesFor(Level(ps, rank + 1), k)| + Stopped(ps, k, rank + 1)
  {
    if ps != [] {
      var init, p := ps[..|ps| - 1], ps[|ps| - 1];
      LevelsDifferByStopped(init, k, rank);
      LevelGrows(init, p, k, rank);
      LevelGrows(init, p, k, rank + 1);
      assert ps == init + [p];
    }
  }

  lemma LevelGrows(init: seq<Pass>, p: Pass, k: Key, rank: nat)
    ensures |PricesFor(Level(init + [p], rank), k)|
         == |PricesFor(Level(init, rank), k)| + if p.done > rank && KeyOf(p.event, k.interval) == k then 1 else 0
  {
    assert (init + [p])[..|init + [p]| - 1] == init;
    var more := if p.done > rank then [p.event] else [];
    PricesForConcat(Level(init, rank), more, k);
    BelongsByKey(p.event, k);
    PricesOfOne(p.event, k.instrument, k.interval, k.bucket, k.bucket + 1);
  }

  lemma {:induction false} LevelWithin(ps: seq<Pass>, rank: nat)
    ensures forall e | e in Level(ps, rank) :: exists p :: p in ps && p.event == e
  {
    if ps != [] {
      var init, p := ps[..|ps| - 1], ps[|ps| - 1];
      assert ps == init + [p];
      LevelWithin(init, rank);
      assert p in ps;
    }
  }

  lemma {:induction false} TickSumIsCount(ps: seq<Pass>, round: real -> real, instrument: string,
                                          fine: Interval, coarse: Interval, start: int, n: nat)
    requires StorageRounding(round) && Finer(fine, coarse) && start % Width(fine) == 0
    requires AllOnGrid(Level(ps, Rank(fine)), instrument, coarse)
    ensures TickSum(Built(ps, round), instrument, fine, start, n)
         == |Prices(Level(ps, Rank(fine)), instrument, fine, start, BucketAt(start, fine, n))|
  {
    var es := Level(ps, Rank(fine));
    if n == 0 {
      PricesHoldTheEvents(es, instrument, fine, start, start);
    } else {
      TickSumIsCount(ps, round, instrument, fine, coarse, start, n - 1);
      BucketAtOnGrid(start, fine, n - 1);
      AddChildTicks(ps, round, instrument, fine, coarse, start, BucketAt(start, fine, n - 1));
    }
  }

  lemma AddChildTicks(ps: seq<Pass>, round: real -> real, instrument: string, fine: Interval, coarse: Interval,
                      start: int, c: int)
    requires StorageRounding(round) && Finer(fine, coarse) && c % Width(fine) == 0 && start <= c
    requires AllOnGrid(Level(ps, Rank(fine)), instrument, coarse)
    ensures var es := Level(ps, Rank(fine));
            |Prices(es, instrument, fine, start, c + Width(fine))|
              == |Prices(es, instrument, fine, start, c)| + Ticks(Built(ps, round), Key(instrument, fine, c))
  {
    TicksOfChild(ps, round, instrument, fine, coarse, c);
    SplitAnyOrder(Level(ps, Rank(fine)), instrument, fine, start, c, c + Width(fine));
  }

  lemma TicksOfRow(ps: seq<Pass>, round: real -> real, k: Key)
    requires StorageRounding(round)
    ensures Ticks(Built(ps, round), k) == |PricesFor(Level(ps, Rank(k.interval)), k)|
  {
    TableMeaning(ps, round, k);
  }

  lemma TicksOfChild(ps: seq<Pass>, round: real -> real, instrument: string, fine: Interval, coarse: Interval, c: int)
    requires StorageRounding(round) && Finer(fine, coarse) && c % Width(fine) == 0
    requires AllOnGrid(Level(ps, Rank(fine)), instrument, coarse)
    ensures Ticks(Built(ps, round), Key(instrument, fine, c))
         == |Prices(Level(ps, Rank(fine)), instrument, fine, c, c + Width(fine))|
  {
    TicksOfRow(ps, round, Key(instrument, fine, c));
    FinePrices(Level(ps, Rank(fine)), instrument, fine, coarse, c);
  }

  ghost predicate PassesOnGrid(ps: seq<Pass>, instrument: string) {
    forall p | p in ps && p.event.instrument == instrument :: OnGrid(p.event.stamp, H1)
  }

  /**
   * Interrupted runs, in any order and with any redelivery: over an hour, the 1m tick counts exceed the 5m ones by the
   * number of attempts that stopped after one transaction, and those exceed the 1h count by the number that stopped
   * after two.
   */
  lemma CrashTickLaw(ps: seq<Pass>, round: real -> real, instrument: string, hour: int)
    requires StorageRounding(round) && hour % Width(H1) == 0 && PassesOnGrid(ps, instrument)
    ensures var rows := Built(ps, round);
            var k := Key(instrument, H1, hour);
            var minutes, fives := TickSum(rows, instrument, M1, hour, Ratio(M1, H1)),
              TickSum(rows, instrument, M5, hour, Ratio(M5, H1));
            minutes == fives + Stopped(ps, k, 1) && fives == Ticks(rows, k) + Stopped(ps, k, 2)
  {
    var k := Key(instrument, H1, hour);
    HourTicks(ps, round, instrument, M1, hour);
    HourTicks(ps, round, instrument, M5, hour);
    TicksOfRow(ps, round, k);
    LevelsDifferByStopped(ps, k, 0);
    LevelsDifferByStopped(ps, k, 1);
  }

  lemma HourTicks(ps: seq<Pass>, round: real -> real, instrument: string, fine: Interval, hour: int)
    requires StorageRounding(round) && Finer(fine, H1)
    requires hour % Width(H1) == 0 && PassesOnGrid(ps, instrument)
    ensures TickSum(Built(ps, round), instrument, fine, hour, Ratio(fine, H1))
         == |PricesFor(Level(ps, Rank(fine)), Key(instrument, H1, hour))|
  {
    LevelWithin(ps, Rank(fine));
    FinerDivides(hour, H1, fine);
    CoarseEnd(hour, fine, H1);
    TickSumIsCount(ps, round, instrument, fine, H1, hour, Ratio(fine, H1));
    CoarsePrices(Level(ps, Rank(fine)), instrument, fine, H1, hour);
  }

  // ----- Ticks of a whole table -----

  /** The tick counts of all bars of an interval, added up. */
  ghost function TotalTicks(rows: Table, i: Interval): nat {
    if rows == map[] then 0 else
    var k :| k in rows;
    TotalTicks(rows - {k}, i) + if k.interval == i then rows[k].ticks else 0
  }

  lemma {:induction false} TotalTicksWithout(rows: Table, i: Interval, k: Key)
    requires k in rows
    ensures TotalTicks(rows, i) == TotalTicks(rows - {k}, i) + if k.interval == i then rows[k].ticks else 0
    decreases |rows|
  {
    var c :| c in rows
      && TotalTicks(rows, i) == TotalTicks(rows - {c}, i) + if c.interval == i then rows[c].ticks else 0;
    if c != k {
      TotalTicksWithout(rows - {c}, i, k);
      TotalTicksWithout(rows - {k}, i, c);
      assert rows - {c} - {k} == rows - {k} - {c};
    }
  }

  lemma StoreAddsATick(rows: Table, w: Write, round: real -> real, i: Interval)
    ensures TotalTicks(Store(rows, w, round), i) == TotalTicks(rows, i) + if w.key.interval == i then 1 else 0
  {
    var after := Store(rows, w, round);
    TotalTicksWithout(after, i, w.key);
    assert after - {w.key} == rows - {w.key};
    if w.key in rows {
      TotalTicksWithout(rows, i, w.key);
    } else {
      assert rows - {w.key} == rows;
    }
  }

  lemma {:induction false} PlayAddsTicks(rows: Table, ws: seq<Write>, round: real -> real, i: Interval)
    ensures TotalTicks(Play(rows, ws, round), i) == TotalTicks(rows, i) + WritesOf(ws, i)
  {
    if ws != [] {
      PlayAddsTicks(rows, ws[..|ws| - 1], round, i);
      StoreAddsATick(Play(rows, ws[..|ws| - 1], round), ws[|ws| - 1], round, i);
    }
  }

  function WritesOf(ws: seq<Write>, i: Interval): nat {
    if ws == [] then 0 else WritesOf(ws[..|ws| - 1], i) + if ws[|ws| - 1].key.interval == i then 1 else 0
  }

  lemma {:induction false} WritesOfConcat(a: seq<Write>, b: seq<Write>, i: Interval)
    ensures WritesOf(a + b, i) == WritesOf(a, i) + WritesOf(b, i)
  {
    if b == [] {
      assert a + b == a;
    } else {
      assert (a + b)[..|a + b| - 1] == a + b[..|b| - 1];
      WritesOfConcat(a, b[..|b| - 1], i);
    }
  }

  lemma {:induction false} WritesOfPasses(ps: seq<Pass>, i: Interval)
    ensures WritesOf(PassWrites(ps), i) == |Level(ps, Rank(i))|
  {
    if ps != [] {
      var init, p := ps[..|ps| - 1], ps[|ps| - 1];
      WritesOfPasses(init, i);
      WritesOfConcat(PassWrites(init), Writes(p.event)[..p.done], i);
      WritesOfThree(Writes(p.event), p.done, i);
    }
  }

  lemma WritesOfThree(ws: seq<Write>, done: Progress, i: Interval)
    requires |ws| == 3 && ws[0].key.interval == M1 && ws[1].key.interval == M5 && ws[2].key.interval == H1
    ensures WritesOf(ws[..done], i) == if done > Rank(i) then 1 else 0
  {
    assert ws[..1] == [ws[0]] && ws[..2] == ws[..1] + [ws[1]] && ws[..3] == ws[..2] + [ws[2]];
    assert forall j | 0 <= j < 3 :: WritesOf([ws[j]], i) == if ws[j].key.interval == i then 1 else 0;
    WritesOfConcat(ws[..1], [ws[1]], i);
    WritesOfConcat(ws[..2], [ws[2]], i);
  }

  /** No tick is lost or invented: the bars of an interval count, together, the events committed at that interval. */
  lemma TicksConserved(ps: seq<Pass>, round: real -> real, i: Interval)
    ensures TotalTicks(Built(ps, round), i) == |Level(ps, Rank(i))|
  {
    PlayAddsTicks(map[], PassWrites(ps), round, i);
    WritesOfPasses(ps, i);
  }
}
