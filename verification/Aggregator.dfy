/** The cross-venue price engine: the staleness gate and the consolidation of one round of quotes. */
module Aggregator {
  import opened Numbers

  /** One venue's quote; the timestamp is in microseconds. */
  datatype Quote = Quote(source: string, bid: real, ask: real, timestamp: int) {
    function Mid(): real {
      (bid + ask) / 2.0
    }
  }

  datatype Consolidated = Consolidated(mid: real, bid: real, ask: real, sources: seq<string>) {
    /** The quoted spread relative to the mid, in basis points. */
    function SpreadBps(): real
      requires mid != 0.0
    {
      (ask - bid) / mid * 10000.0
    }
  }

  // ----- The staleness gate -----

  predicate Positive(q: Quote) {
    q.bid > 0.0 && q.ask > 0.0
  }

  predicate IsFresh(q: Quote, now: int, maxAge: int) {
    now - q.timestamp <= maxAge
  }

  /** The quotes let through when the clock reads clock[j] as quote j is examined. */
  function Candidates(qs: seq<Quote>, clock: seq<int>, maxAge: int): seq<Quote>
    requires |clock| == |qs|
  {
    if qs == [] then [] else
    var n := |qs| - 1;
    Candidates(qs[..n], clock[..n], maxAge)
    + if Positive(qs[n]) && IsFresh(qs[n], clock[n], maxAge) then [qs[n]] else []
  }

  /**
   * The quotes at these positions are let through, in order: those with positive prices that are not older than the
   * limit when the clock is read for them.
   */
  ghost predicate GateAt(at: seq<nat>, qs: seq<Quote>, clock: seq<int>, maxAge: int, cs: seq<Quote>)
    requires |clock| == |qs|
  {
    && Ascends(at) && |at| == |cs|
    && (forall k | 0 <= k < |at| :: at[k] < |qs| && cs[k] == qs[at[k]])
    && (forall j | 0 <= j < |qs| ::
          j in at <==> qs[j].bid > 0.0 && qs[j].ask > 0.0 && clock[j] - qs[j].timestamp <= maxAge)
  }

  lemma {:induction false} CandidatesByPosition(qs: seq<Quote>, clock: seq<int>, maxAge: int) returns (at: seq<nat>)
    requires |clock| == |qs|
    ensures GateAt(at, qs, clock, maxAge, Candidates(qs, clock, maxAge))
  {
    if qs == [] {
      at := [];
    } else {
      var n := |qs| - 1;
      var before := CandidatesByPosition(qs[..n], clock[..n], maxAge);
      at := before + if Positive(qs[n]) && IsFresh(qs[n], clock[n], maxAge) then [n] else [];
      OneMoreAtGate(before, qs, clock, maxAge, Candidates(qs[..n], clock[..n], maxAge));
    }
  }

  lemma OneMoreAtGate(at: seq<nat>, qs: seq<Quote>, clock: seq<int>, maxAge: int, cs: seq<Quote>)
    requires |clock| == |qs| > 0
    requires GateAt(at, qs[..|qs| - 1], clock[..|qs| - 1], maxAge, cs)
    ensures var n := |qs| - 1;
            var through := Positive(qs[n]) && IsFresh(qs[n], clock[n], maxAge);
            GateAt(at + (if through then [n] else []), qs, clock, maxAge, cs + if through then [qs[n]] else [])
  {
    var n := |qs| - 1;
    assert forall j | 0 <= j < n :: qs[..n][j] == qs[j] && clock[..n][j] == clock[j];
    forall a | a in at ensures a < n {
      var k :| 0 <= k < |at| && at[k] == a;
    }
    AscendsOn(at, n);
    assert at + [] == at && cs + [] == cs;
  }

  /** The quotes let through at a clock that stands still. */
  function FreshAt(qs: seq<Quote>, now: int, maxAge: int): seq<Quote> {
    Candidates(qs, seq(|qs|, _ => now), maxAge)
  }

  /** a is b with some elements left out. */
  predicate Subsequence<T(==)>(a: seq<T>, b: seq<T>) {
    if a == [] then true
    else if b == [] then false
    else if a[|a| - 1] == b[|b| - 1] then Subsequence(a[..|a| - 1], b[..|b| - 1])
    else Subsequence(a, b[..|b| - 1])
  }

  lemma {:induction false} SubsequenceOfLonger<T>(a: seq<T>, b: seq<T>, x: T)
    requires Subsequence(a, b)
    ensures Subsequence(a, b + [x])
    decreases |b|, 1
  {
    assert (b + [x])[..|b + [x]| - 1] == b;
    if a != [] && a[|a| - 1] == x {
      SubsequenceDropLast(a, b);
    }
  }

  lemma {:induction false} SubsequenceDropLast<T>(a: seq<T>, b: seq<T>)
    requires Subsequence(a, b) && a != []
    ensures Subsequence(a[..|a| - 1], b)
    decreases |b|, 0
  {
    var init := b[..|b| - 1];
    assert b == init + [b[|b| - 1]];
    if a[|a| - 1] == b[|b| - 1] {
      SubsequenceOfLonger(a[..|a| - 1], init, b[|b| - 1]);
    } else {
      SubsequenceDropLast(a, init);
      SubsequenceOfLonger(a[..|a| - 1], init, b[|b| - 1]);
    }
  }

  lemma SubsequenceOfBoth<T>(a: seq<T>, b: seq<T>, x: T)
    requires Subsequence(a, b)
    ensures Subsequence(a + [x], b + [x])
  {
  }

  /** Clocks that read no more than others let through everything the others do. */
  lemma {:induction false} EarlierClocksAcceptMore(qs: seq<Quote>, early: seq<int>, late: seq<int>, maxAge: int)
    requires |early| == |late| == |qs|
    requires forall j | 0 <= j < |qs| :: early[j] <= late[j]
    ensures Subsequence(Candidates(qs, late, maxAge), Candidates(qs, early, maxAge))
  {
    if qs != [] {
      var n := |qs| - 1;
      EarlierClocksAcceptMore(qs[..n], early[..n], late[..n], maxAge);
      var kept, kept' := Candidates(qs[..n], late[..n], maxAge), Candidates(qs[..n], early[..n], maxAge);
      assert kept + [] == kept && kept' + [] == kept';
      if Positive(qs[n]) && IsFresh(qs[n], late[n], maxAge) {
        SubsequenceOfBoth(kept, kept', qs[n]);
      } else if Positive(qs[n]) && IsFresh(qs[n], early[n], maxAge) {
        SubsequenceOfLonger(kept, kept', qs[n]);
      }
    }
  }

  /**
   * The gate under a running clock: what it lets through lies, in order, between the positive quotes still fresh when
   * it finishes and those fresh when it starts.
   */
  lemma GateUnderMovingClock(qs: seq<Quote>, clock: seq<int>, maxAge: int, entry: int, exit: int)
    requires |clock| == |qs|
    requires forall j | 0 <= j < |clock| :: entry <= clock[j] <= exit
    ensures Subsequence(FreshAt(qs, exit, maxAge), Candidates(qs, clock, maxAge))
    ensures Subsequence(Candidates(qs, clock, maxAge), FreshAt(qs, entry, maxAge))
  {
    EarlierClocksAcceptMore(qs, clock, seq(|qs|, _ => exit), maxAge);
    EarlierClocksAcceptMore(qs, seq(|qs|, _ => entry), clock, maxAge);
  }

  lemma {:induction false} CandidatesArePositive(qs: seq<Quote>, clock: seq<int>, maxAge: int)
    requires |clock| == |qs|
    ensures forall q | q in Candidates(qs, clock, maxAge) :: Positive(q) && q in qs
  {
    if qs != [] {
      var n := |qs| - 1;
      assert qs == qs[..n] + [qs[n]];
      CandidatesArePositive(qs[..n], clock[..n], maxAge);
    }
  }

  // ----- Columns of a list of quotes -----

  function Bids(qs: seq<Quote>): seq<real> {
    seq(|qs|, j requires 0 <= j < |qs| => qs[j].bid)
  }

  function Asks(qs: seq<Quote>): seq<real> {
    seq(|qs|, j requires 0 <= j < |qs| => qs[j].ask)
  }

  function Mids(qs: seq<Quote>): seq<real> {
    seq(|qs|, j requires 0 <= j < |qs| => qs[j].Mid())
  }

  function BestBid(qs: seq<Quote>): (b: real)
    requires qs != []
    ensures exists q | q in qs :: q.bid == b
    ensures forall q | q in qs :: q.bid <= b
  {
    var bids := Bids(qs);
    var b := MaxOf(bids);
    assert exists j :: 0 <= j < |qs| && bids[j] == b;
    assert forall q | q in qs :: q.bid <= b by {
      forall q | q in qs ensures q.bid <= b {
        var j :| 0 <= j < |qs| && qs[j] == q;
        assert bids[j] in bids;
      }
    }
    b
  }

  function BestAsk(qs: seq<Quote>): (a: real)
    requires qs != []
    ensures exists q | q in qs :: q.ask == a
    ensures forall q | q in qs :: a <= q.ask
  {
    var asks := Asks(qs);
    var a := MinOf(asks);
    assert exists j :: 0 <= j < |qs| && asks[j] == a;
    assert forall q | q in qs :: a <= q.ask by {
      forall q | q in qs ensures a <= q.ask {
        var j :| 0 <= j < |qs| && qs[j] == q;
        assert asks[j] in asks;
      }
    }
    a
  }

  // ----- Venue names -----

  /** Python's order of strings: by code points, a prefix before what extends it. */
  predicate Before(s: string, t: string) {
    if t == [] then false
    else if s == [] then true
    else s[0] < t[0] || (s[0] == t[0] && Before(s[1..], t[1..]))
  }

  /** The names agree up to k, and there the first one ends or has the smaller character. */
  predicate DiffersAt(s: string, t: string, k: int) {
    0 <= k <= |s| && k < |t| && s[..k] == t[..k] && (k == |s| || s[k] < t[k])
  }

  ghost predicate Precedes(s: string, t: string) {
    exists k :: DiffersAt(s, t, k)
  }

  lemma {:induction false} BeforeInWords(s: string, t: string)
    ensures Before(s, t) <==> Precedes(s, t)
  {
    if s != [] && t != [] && s[0] == t[0] {
      BeforeInWords(s[1..], t[1..]);
      forall k | DiffersAt(s[1..], t[1..], k) ensures DiffersAt(s, t, k + 1) {
        assert s[..k + 1] == [s[0]] + s[1..][..k] && t[..k + 1] == [t[0]] + t[1..][..k];
      }
      forall k | DiffersAt(s, t, k) ensures DiffersAt(s[1..], t[1..], k - 1) {
        assert k != 0;
        assert s[1..][..k - 1] == s[..k][1..] && t[1..][..k - 1] == t[..k][1..];
      }
    } else {
      assert Before(s, t) ==> DiffersAt(s, t, 0);
      forall k | DiffersAt(s, t, k) ensures DiffersAt(s, t, 0) {
        HeadsAgree(s, t, k);
      }
    }
  }

  lemma HeadsAgree(s: string, t: string, k: int)
    requires DiffersAt(s, t, k)
    ensures k > 0 ==> s[0] == t[0]
  {
    if k > 0 {
      assert s[..k][0] == t[..k][0];
    }
  }

  lemma {:induction false} BeforeIsTotal(s: string, t: string)
    ensures Before(s, t) || Before(t, s) || s == t
    ensures !(Before(s, t) && Before(t, s)) && !Before(s, s)
  {
    if s != [] && t != [] {
      BeforeIsTotal(s[1..], t[1..]);
      assert s == [s[0]] + s[1..] && t == [t[0]] + t[1..];
    }
    if s != [] {
      BeforeIsTotal(s[1..], s[1..]);
    }
  }

  lemma {:induction false} BeforeIsTransitive(s: string, t: string, u: string)
    requires Before(s, t) && Before(t, u)
    ensures Before(s, u)
  {
    if s != [] && s[0] == t[0] == u[0] {
      BeforeIsTransitive(s[1..], t[1..], u[1..]);
    }
  }

  predicate Ascending(names: seq<string>) {
    forall i, j | 0 <= i < j < |names| :: Before(names[i], names[j])
  }

  /** Inserts a name into an ascending list, unless it is there already. */
  function Insert(names: seq<string>, name: string): (r: seq<string>)
    requires Ascending(names)
    ensures Ascending(r)
    ensures forall n :: n in r <==> n in names || n == name
  {
    if names == [] then [name] else
    var head, rest := names[0], names[1..];
    assert names == [head] + rest;
    BeforeIsTotal(name, head);
    if name == head then names
    else if Before(name, head) then
      assert forall n | n in names :: Before(name, n) by {
        forall n | n in rest ensures Before(name, n) { BeforeIsTransitive(name, head, n); }
      }
      [name] + names
    else
      var tail := Insert(rest, name);
      assert forall n | n in tail :: Before(head, n);
      [head] + tail
  }

  /** The distinct venues of the quotes in ascending order. */
  function Sources(qs: seq<Quote>): (r: seq<string>)
    ensures Ascending(r)
    ensures forall n :: n in r <==> exists q | q in qs :: q.source == n
  {
    if qs == [] then [] else
    var init, last := qs[..|qs| - 1], qs[|qs| - 1];
    assert qs == init + [last];
    Insert(Sources(init), last.source)
  }

  /** Ascending lists of the same names are the same list. */
  lemma {:induction false} AscendingIsUnique(a: seq<string>, b: seq<string>)
    requires Ascending(a) && Ascending(b) && forall n :: n in a <==> n in b
    ensures a == b
  {
    if a != [] && b != [] {
      assert a[0] in b && b[0] in a;
      BeforeIsTotal(a[0], b[0]);
      assert a[0] == b[0];
      assert a == [a[0]] + a[1..] && b == [b[0]] + b[1..];
      BeforeIsTotal(a[0], a[0]);
      TailNames(a, b);
      TailNames(b, a);
      AscendingIsUnique(a[1..], b[1..]);
    } else {
      NamelessTogether(a, b);
    }
  }

  lemma NamelessTogether(a: seq<string>, b: seq<string>)
    requires forall n :: n in a <==> n in b
    ensures a == [] <==> b == []
  {
    if a != [] {
      assert a[0] in a;
    }
    if b != [] {
      assert b[0] in b;
    }
  }

  lemma TailNames(a: seq<string>, b: seq<string>)
    requires Ascending(a) && a != [] && b != [] && a[0] == b[0] && forall n | n in a :: n in b
    ensures forall n | n in a[1..] :: n in b[1..]
  {
    forall n | n in a[1..] ensures n in b[1..] {
      var j :| 0 < j < |a| && a[j] == n;
      assert Before(a[0], a[j]);
      BeforeIsTotal(n, n);
      assert n in a && b == [b[0]] + b[1..];
    }
  }

  // ----- Consolidation -----

  predicate Crossed(cs: seq<Quote>)
    requires cs != []
  {
    BestBid(cs) > BestAsk(cs)
  }

  /** Best bid and ask with their midpoint; on a crossed book the mean of mids, with bid and ask pulled to its sides. */
  function ConsolidateCandidates(cs: seq<Quote>): Consolidated
    requires cs != []
  {
    var bid, ask := BestBid(cs), BestAsk(cs);
    if Crossed(cs) then
      var mid := Mean(Mids(cs));
      Consolidated(mid, Min(bid, mid), Max(ask, mid), Sources(cs))
    else
      Consolidated((bid + ask) / 2.0, bid, ask, Sources(cs))
  }

  function Consolidate(quotes: seq<Quote>, clock: seq<int>, maxAge: int): Option<Consolidated>
    requires |clock| == |quotes|
  {
    var cs := Candidates(quotes, clock, maxAge);
    if cs == [] then None else Some(ConsolidateCandidates(cs))
  }

  /** The published venues are those of the candidates, each once and in ascending order. */
  lemma SourcesInWords(cs: seq<Quote>, i: nat, j: nat)
    requires cs != []
    ensures var names := ConsolidateCandidates(cs).sources;
            && (forall n :: n in names <==> exists q | q in cs :: q.source == n)
            && (i < j < |names| ==> Precedes(names[i], names[j]))
  {
    var names := ConsolidateCandidates(cs).sources;
    if i < j < |names| {
      BeforeInWords(names[i], names[j]);
    }
  }

  /** A sum of terms above a bound is above the bound times their number. */
  lemma {:induction false} SumAbove(xs: seq<real>, bound: real)
    requires xs != [] && forall x | x in xs :: x > bound
    ensures Sum(xs) > bound * |xs| as real
  {
    var init := xs[..|xs| - 1];
    assert xs == init + [xs[|xs| - 1]];
    assert xs[|xs| - 1] in xs;
    if init == [] {
      assert Sum(xs) == xs[0] && |xs| as real == 1.0;
    } else {
      forall x | x in init ensures x > bound {
        assert x in xs;
      }
      SumAbove(init, bound);
      assert bound * |xs| as real == bound * |init| as real + bound;
    }
  }

  lemma MeanAbove(xs: seq<real>, bound: real)
    requires xs != [] && forall x | x in xs :: x > bound
    ensures Mean(xs) > bound
  {
    SumAbove(xs, bound);
    QuotientAbove(Sum(xs), |xs| as real, bound);
  }

  /**
   * The published book is never crossed and its spread is bounded on every branch: below 20000 basis points, and below
   * 10000 in the crossed fallback.
   */
  lemma SpreadBound(quotes: seq<Quote>, clock: seq<int>, maxAge: int)
    requires |clock| == |quotes|
    ensures var cs := Candidates(quotes, clock, maxAge);
            match Consolidate(quotes, clock, maxAge)
            case None => cs == []
            case Some(c) =>
              && cs != []
              && 0.0 < c.bid <= c.mid <= c.ask
              && 0.0 <= c.SpreadBps() < 20000.0
              && (Crossed(cs) ==> c.SpreadBps() < 10000.0)
  {
    var cs := Candidates(quotes, clock, maxAge);
    CandidatesArePositive(quotes, clock, maxAge);
    if cs != [] {
      BookBound(cs);
    }
  }

  lemma BookBound(cs: seq<Quote>)
    requires cs != [] && forall q | q in cs :: Positive(q)
    ensures var c := ConsolidateCandidates(cs);
            && 0.0 < c.bid <= c.mid <= c.ask
            && 0.0 <= c.SpreadBps() < 20000.0
            && (Crossed(cs) ==> c.SpreadBps() < 10000.0)
  {
    var c := ConsolidateCandidates(cs);
    if Crossed(cs) {
      MeanOfMidsAboveHalfAsk(cs);
      BpsWithin(c.ask - c.bid, c.mid, 1.0);
    } else {
      BpsWithin(c.ask - c.bid, c.mid, 2.0);
    }
  }

  lemma BpsWithin(spread: real, mid: real, bound: real)
    requires mid > 0.0 && 0.0 <= spread < bound * mid
    ensures 0.0 <= spread / mid * 10000.0 < bound * 10000.0
  {
  }

  lemma MeanOfMidsAboveHalfAsk(cs: seq<Quote>)
    requires cs != [] && forall q | q in cs :: Positive(q)
    ensures Mean(Mids(cs)) > BestAsk(cs) / 2.0
  {
    var mids := Mids(cs);
    forall x | x in mids ensures x > BestAsk(cs) / 2.0 {
      var j :| 0 <= j < |mids| && mids[j] == x;
      assert cs[j] in cs;
    }
    MeanAbove(mids, BestAsk(cs) / 2.0);
  }

  /** On an uncrossed book the published prices are quotes that no other candidate betters, and the point halfway. */
  lemma UncrossedShape(cs: seq<Quote>)
    requires cs != [] && !Crossed(cs)
    ensures var c := ConsolidateCandidates(cs);
            && c.mid - c.bid == c.ask - c.mid
            && (exists q | q in cs :: q.bid == c.bid) && (exists q | q in cs :: q.ask == c.ask)
            && (forall q | q in cs :: q.bid <= c.bid && c.ask <= q.ask)
  {
  }

  /** A book is crossed exactly if some candidate bids more than some candidate asks. */
  lemma CrossedInWords(cs: seq<Quote>)
    requires cs != []
    ensures Crossed(cs) <==> exists p, q :: p in cs && q in cs && p.bid > q.ask
  {
    var bid, ask := BestBid(cs), BestAsk(cs);
    assert exists p | p in cs :: p.bid == bid;
    assert exists q | q in cs :: q.ask == ask;
  }

  /** The terms are the midpoints of the quotes. */
  predicate MidpointsOf(xs: seq<real>, cs: seq<Quote>) {
    |xs| == |cs| && forall j | 0 <= j < |xs| :: 2.0 * xs[j] == cs[j].bid + cs[j].ask
  }

  /** On a crossed book the published mid stands for the candidates' midpoints in their sum. */
  lemma CrossedMid(cs: seq<Quote>, xs: seq<real>)
    requires cs != [] && Crossed(cs) && MidpointsOf(xs, cs)
    ensures Averages(ConsolidateCandidates(cs).mid, xs)
  {
    MidpointsAreMids(xs, cs);
    MeanAverages(xs);
  }

  lemma MidpointsAreMids(xs: seq<real>, cs: seq<Quote>)
    requires MidpointsOf(xs, cs)
    ensures xs == Mids(cs)
  {
  }

  /**
   * On a crossed book the mid lies between the candidates' midpoints. The published bid is the best bid, unless that is
   * above the mid; then it is the mid, and so for the ask. The published book closes to a point exactly if the mid lies
   * between the crossed best quotes.
   */
  lemma CrossedShape(cs: seq<Quote>)
    requires cs != [] && Crossed(cs)
    ensures var c := ConsolidateCandidates(cs);
            && c.mid == Mean(Mids(cs)) && MinOf(Mids(cs)) <= c.mid <= MaxOf(Mids(cs))
            && c.bid == (if BestBid(cs) <= c.mid then BestBid(cs) else c.mid)
            && c.ask == (if c.mid <= BestAsk(cs) then BestAsk(cs) else c.mid)
            && (c.bid == c.mid || c.ask == c.mid)
            && (c.bid == c.ask <==> BestAsk(cs) <= c.mid <= BestBid(cs))
  {
    MeanWithinExtremes(Mids(cs));
    PulledBook(BestBid(cs), BestAsk(cs), Mean(Mids(cs)));
  }

  lemma PulledBook(bid: real, ask: real, mid: real)
    requires bid > ask
    ensures Min(bid, mid) == mid || Max(ask, mid) == mid
    ensures Min(bid, mid) == Max(ask, mid) <==> ask <= mid <= bid
  {
  }

  /** The bound of 20000 cannot be lowered: some single quote comes as close to it as one likes. */
  lemma SpreadBoundIsTight(k: real) returns (q: Quote)
    requires 0.0 <= k < 20000.0
    ensures Positive(q) && ConsolidateCandidates([q]).mid > 0.0 && ConsolidateCandidates([q]).SpreadBps() > k
  {
    var t := k / 20000.0;
    var bid := (1.0 - t) / 2.0;
    q := Quote("binance", bid, 1.0, 0);
    assert q in [q];
    assert BestBid([q]) == bid && BestAsk([q]) == 1.0;
    NearlyTwice(t, bid);
    QuotientAbove(1.0 - bid, (bid + 1.0) / 2.0, 2.0 * t);
  }

  lemma NearlyTwice(t: real, bid: real)
    requires t < 1.0 && bid > 0.0 && t + 2.0 * bid <= 1.0
    ensures 1.0 - bid > 2.0 * t * ((bid + 1.0) / 2.0)
  {
    var part := t * bid;
    ScaleLess(t, 1.0, bid);
    assert part < bid;
    calc {
      2.0 * t * ((bid + 1.0) / 2.0);
      t * (bid + 1.0);
      part + t;
    }
  }

  /**
   * Nor can the bound of 10000 on crossed books: two venues, one of them with an ask far off, come as close to it as
   * one likes.
   */
  lemma CrossedBoundIsTight(k: real) returns (cs: seq<Quote>)
    requires 0.0 <= k < 10000.0
    ensures cs != [] && (forall q | q in cs :: Positive(q)) && Crossed(cs)
    ensures var c := ConsolidateCandidates(cs);
            c.mid > 0.0 && c.SpreadBps() > k
  {
    var t := k / 10000.0;
    var far := 8.0 / (1.0 - t) + 1.0;
    var p, q := Quote("binance", 2.0, far, 0), Quote("kraken", 0.5, 1.0, 0);
    cs := [p, q];
    assert p in cs && q in cs;
    assert BestBid(cs) == 2.0 && BestAsk(cs) == 1.0;
    var mid := Mean(Mids(cs));
    MeanOfTwo(p.Mid(), q.Mid());
    assert Mids(cs) == [p.Mid(), q.Mid()];
    FarAsk(t, far, mid);
    QuotientAbove(mid - 2.0, mid, t);
  }

  lemma MeanOfTwo(x: real, y: real)
    ensures Mean([x, y]) == (x + y) / 2.0
  {
    assert [x, y][..1] == [x] && [x][..0] == [];
    assert Sum([x, y]) == Sum([x]) + y == x + y;
  }

  lemma FarAsk(t: real, far: real, mid: real)
    requires 0.0 <= t < 1.0 && far == 8.0 / (1.0 - t) + 1.0 && mid == far / 4.0 + 0.875
    ensures mid > 2.0 && mid - 2.0 > t * mid
  {
    var y := 2.0 / (1.0 - t);
    assert y * (1.0 - t) == 2.0;
    assert y - y * t == 2.0;
    ProductNonNegative(y, t);
    assert far / 4.0 == y + 0.25;
    assert mid == y + 1.125;
    assert t * mid == t * y + t * 1.125;
    assert t * y == y - 2.0;
  }

  // ----- Independence of order and noise -----

  lemma SumOfMidsWithout(qs: seq<Quote>, i: nat)
    requires i < |qs|
    ensures Sum(Mids(qs)) == Sum(Mids(qs[..i] + qs[i + 1..])) + qs[i].Mid()
  {
    SumWithout(Mids(qs), i);
    assert Mids(qs[..i] + qs[i + 1..]) == Mids(qs)[..i] + Mids(qs)[i + 1..];
  }

  lemma {:induction false} SumOfMidsUnordered(qs: seq<Quote>, rs: seq<Quote>)
    requires multiset(qs) == multiset(rs)
    ensures Sum(Mids(qs)) == Sum(Mids(rs))
    decreases |qs|
  {
    assert |qs| == |multiset(qs)| == |multiset(rs)| == |rs|;
    if qs != [] {
      var n := |qs| - 1;
      var i := WithoutLast(qs, rs);
      SumOfMidsUnordered(qs[..n], rs[..i] + rs[i + 1..]);
      SumOfMidsWithout(rs, i);
      assert Mids(qs)[..n] == Mids(qs[..n]);
    }
  }

  /** Consolidation depends on the multiset of candidates only. */
  lemma CandidateOrderIrrelevant(cs: seq<Quote>, ds: seq<Quote>)
    requires cs != [] && ds != [] && multiset(cs) == multiset(ds)
    ensures ConsolidateCandidates(cs) == ConsolidateCandidates(ds)
  {
    assert |cs| == |multiset(cs)| == |multiset(ds)| == |ds|;
    assert forall q :: q in cs <==> q in multiset(cs);
    assert forall q :: q in ds <==> q in multiset(ds);
    assert BestBid(cs) == BestBid(ds) && BestAsk(cs) == BestAsk(ds);
    SumOfMidsUnordered(cs, ds);
    AscendingIsUnique(Sources(cs), Sources(ds));
  }

  lemma {:induction false} FreshCount(qs: seq<Quote>, now: int, maxAge: int, q: Quote)
    ensures multiset(FreshAt(qs, now, maxAge))[q]
         == if Positive(q) && IsFresh(q, now, maxAge) then multiset(qs)[q] else 0
  {
    if qs != [] {
      var n := |qs| - 1;
      FreshCount(qs[..n], now, maxAge, q);
      assert seq(|qs|, _ => now)[..n] == seq(n, _ => now);
      assert qs == qs[..n] + [qs[n]];
    }
  }

  /**
   * At a fixed clock, only the positive fresh quotes matter, and not their order: rounds that agree on those, with any
   * stale or non-positive quotes mixed in, consolidate to the same price and the same list of venues.
   */
  lemma OrderAndNoiseIndependence(qs: seq<Quote>, rs: seq<Quote>, now: int, maxAge: int)
    requires forall q | Positive(q) && IsFresh(q, now, maxAge) :: multiset(qs)[q] == multiset(rs)[q]
    ensures Consolidate(qs, seq(|qs|, _ => now), maxAge) == Consolidate(rs, seq(|rs|, _ => now), maxAge)
  {
    var cs, ds := FreshAt(qs, now, maxAge), FreshAt(rs, now, maxAge);
    forall q ensures multiset(cs)[q] == multiset(ds)[q] {
      FreshCount(qs, now, maxAge, q);
      FreshCount(rs, now, maxAge, q);
    }
    assert multiset(cs) == multiset(ds);
    assert |cs| == |multiset(cs)| == |multiset(ds)| == |ds|;
    if cs != [] {
      CandidateOrderIrrelevant(cs, ds);
    }
  }
}
