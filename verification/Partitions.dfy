/** Recovery with several partitions: each instrument's events are replayed and resumed on their own. */
module Partitions {
  import opened Numbers
  import opened Bars
  import opened RollUp
  import opened Recovery

  /** The passes at one instrument's events, in order. */
  function PassesAt(ps: seq<Pass>, instrument: string): seq<Pass> {
    if ps == [] then [] else
    var p := ps[|ps| - 1];
    PassesAt(ps[..|ps| - 1], instrument) + if p.event.instrument == instrument then [p] else []
  }

  lemma {:induction false} LevelOfInstrument(ps: seq<Pass>, rank: nat, instrument: string)
    ensures ForInstrument(Level(ps, rank), instrument) == Level(PassesAt(ps, instrument), rank)
  {
    if ps != [] {
      var init, p := ps[..|ps| - 1], ps[|ps| - 1];
      LevelOfInstrument(init, rank, instrument);
      ForInstrumentMore(Level(init, rank), if p.done > rank then [p.event] else [], instrument);
      LevelMore(PassesAt(init, instrument), p, rank);
      if p.event.instrument == instrument {
        assert PassesAt(ps, instrument) == PassesAt(init, instrument) + [p];
      } else {
        assert PassesAt(ps, instrument) == PassesAt(init, instrument);
      }
    }
  }

  lemma ForInstrumentMore(es: seq<Event>, more: seq<Event>, instrument: string)
    requires |more| <= 1
    ensures ForInstrument(es + more, instrument)
         == ForInstrument(es, instrument) + if more != [] && more[0].instrument == instrument then more else []
  {
    if more == [] {
      assert es + more == es;
    } else {
      assert more == [more[0]] && (es + more)[..|es|] == es;
    }
  }

  lemma LevelMore(ps: seq<Pass>, p: Pass, rank: nat)
    ensures Level(ps + [p], rank) == Level(ps, rank) + if p.done > rank then [p.event] else []
  {
    assert (ps + [p])[..|ps|] == ps;
  }

  /** A row depends on the passes at its own instrument only. */
  lemma RowOfInstrument(ps: seq<Pass>, round: real -> real, k: Key)
    requires StorageRounding(round)
    ensures Lookup(Built(ps, round), k) == Lookup(Built(PassesAt(ps, k.instrument), round), k)
  {
    var rank := Rank(k.interval);
    TableMeaning(ps, round, k);
    TableMeaning(PassesAt(ps, k.instrument), round, k);
    LevelOfInstrument(ps, rank, k.instrument);
    PricesOfInstrument(Level(ps, rank), k);
  }

  /**
   * The passes at the instrument's events resume and catch up over that instrument's own part of the log, if it has
   * one.
   */
  ghost predicate Recovers(ps: seq<Pass>, log: seq<Event>, instrument: string, attempts: seq<Attempt>) {
    var own := ForInstrument(log, instrument);
    && Resumes(attempts, |own|) && PassesAt(ps, instrument) == PassesOf(own, attempts)
    && (own != [] ==> CaughtUp(attempts, |own|))
  }

  /**
   * However the partitions are interleaved, and however often each of them was set back and cut short on its own, once
   * each instrument has caught up over its own events every row shows the prices of the undisturbed run over the whole
   * log.
   */
  lemma PartitionsCatchUp(ps: seq<Pass>, log: seq<Event>, attempts: string -> seq<Attempt>, round: real -> real, k: Key)
    requires StorageRounding(round)
    requires forall instrument :: Recovers(ps, log, instrument, attempts(instrument))
    ensures SameOhlc(Lookup(Built(ps, round), k), Lookup(Built(Complete(log), round), k))
  {
    var own := ForInstrument(log, k.instrument);
    assert Recovers(ps, log, k.instrument, attempts(k.instrument));
    RowOfInstrument(ps, round, k);
    CompleteTable(log, round, k);
    PricesOfInstrument(log, k);
    CompleteTable(own, round, k);
    if own == [] {
      NothingToAttempt(attempts(k.instrument));
      assert PassesOf(own, attempts(k.instrument)) == [] == Complete(own);
    } else {
      CaughtUpTable(own, attempts(k.instrument), round, k);
    }
  }

  lemma NothingToAttempt(attempts: seq<Attempt>)
    requires Resumes(attempts, 0)
    ensures attempts == []
  {
  }
}
