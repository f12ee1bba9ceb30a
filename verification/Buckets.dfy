/** Bar intervals and the arithmetic that puts a timestamp into a bucket. */
module Buckets {

  datatype Interval = M1 | M5 | H1

  const MICROS := 1_000_000

  function Seconds(i: Interval): int {
    match i
    case M1 => 60
    case M5 => 300
    case H1 => 3600
  }

  /** The length of an interval in microseconds. */
  function Width(i: Interval): int {
    Seconds(i) * MICROS
  }

  predicate Finer(fine: Interval, coarse: Interval) {
    Seconds(fine) < Seconds(coarse)
  }

  /** A timezone-aware datetime: its instant in microseconds since 1970 UTC, and the UTC offset it is written in. */
  datatype Stamp = Stamp(utc: int, offset: int)

  function Utc(instant: int): Stamp {
    Stamp(instant, 0)
  }

  /** Python's int() of a number of seconds: it drops the fraction, rounding towards zero. */
  function WholeSeconds(micros: int): int {
    if micros >= 0 then micros / MICROS else -(-micros / MICROS)
  }

  /** The instant at which the stamp's bucket starts. The epoch is midnight of 1970 in the stamp's own offset. */
  function BucketStart(s: Stamp, i: Interval): int {
    var seconds := WholeSeconds(s.utc + s.offset);
    var floored := seconds / Seconds(i) * Seconds(i);
    floored * MICROS - s.offset
  }

  /** Stamps for which buckets of this interval, and of every finer one, lie on the UTC grid. */
  predicate OnGrid(s: Stamp, i: Interval) {
    s.utc + s.offset >= 0 && s.offset % Width(i) == 0
  }

  /** Flooring whole seconds to an interval floors microseconds to it. */
  lemma FloorToSeconds(local: int, i: Interval)
    requires local >= 0
    ensures WholeSeconds(local) / Seconds(i) * Seconds(i) * MICROS == local - local % Width(i)
  {
    match i
    case M1 => assert local / 1_000_000 / 60 == local / 60_000_000;
    case M5 => assert local / 1_000_000 / 300 == local / 300_000_000;
    case H1 => assert local / 1_000_000 / 3600 == local / 3_600_000_000;
  }

  lemma FinerDivides(x: int, coarse: Interval, fine: Interval)
    requires x % Width(coarse) == 0 && (fine == coarse || Finer(fine, coarse))
    ensures x % Width(fine) == 0
  {
    if coarse == H1 && fine == M1 {
      assert x == 60_000_000 * (60 * (x / 3_600_000_000));
    } else if coarse == H1 && fine == M5 {
      assert x == 300_000_000 * (12 * (x / 3_600_000_000));
    } else if coarse == M5 && fine == M1 {
      assert x == 60_000_000 * (5 * (x / 300_000_000));
    }
  }

  lemma ShiftByMultiple(x: int, shift: int, i: Interval)
    requires shift % Width(i) == 0
    ensures (x + shift) % Width(i) == x % Width(i)
  {
    var w := Width(i);
    Division(x, w);
    Division(shift, w);
    assert (x / w + shift / w) * w == (x / w) * w + (shift / w) * w;
    Remainder(x + shift, w, x / w + shift / w, x % w);
  }

  /** On the grid, the bucket is the instant rounded down to the interval, whatever the offset. */
  lemma GridBucket(s: Stamp, coarse: Interval, i: Interval)
    requires OnGrid(s, coarse)
    requires i == coarse || Finer(i, coarse)
    ensures BucketStart(s, i) == s.utc - s.utc % Width(i)
  {
    FinerDivides(s.offset, coarse, i);
    FloorToSeconds(s.utc + s.offset, i);
    ShiftByMultiple(s.utc, s.offset, i);
  }

  /**
   * A bucket contains its instant, except for a fractional instant before 1970 in the last second before a boundary:
   * rounding towards zero moves that one past the boundary, into a bucket that starts after it.
   */
  lemma BucketContains(s: Stamp, i: Interval)
    ensures var local := s.utc + s.offset;
            (BucketStart(s, i) <= s.utc < BucketStart(s, i) + Width(i))
            <==> (local >= 0 || local % MICROS == 0 || WholeSeconds(local) % Seconds(i) != 0)
  {
    var local := s.utc + s.offset;
    var seconds := WholeSeconds(local);
    var start := seconds / Seconds(i) * Seconds(i);
    FloorLinear(seconds, i);
    assert start + seconds % Seconds(i) == seconds;
    assert start * MICROS + (seconds % Seconds(i)) * MICROS == seconds * MICROS;
    if local < 0 {
      var short := -local % MICROS;
      assert local == seconds * MICROS - short;
      assert short == 0 <==> local % MICROS == 0;
      if seconds % Seconds(i) != 0 {
        assert (seconds % Seconds(i)) * MICROS >= MICROS;
      }
    }
  }

  /** Writing the whole-second floor of an interval as a linear fact. */
  lemma FloorLinear(seconds: int, i: Interval)
    ensures seconds / Seconds(i) * Seconds(i) + seconds % Seconds(i) == seconds
    ensures 0 <= seconds % Seconds(i) < Seconds(i)
  {
  }

  /** The bucket start as a multiple of the interval, less the offset. */
  lemma StartForm(s: Stamp, i: Interval)
    ensures BucketStart(s, i) == WholeSeconds(s.utc + s.offset) / Seconds(i) * Width(i) - s.offset
  {
    var q := WholeSeconds(s.utc + s.offset) / Seconds(i);
    assert q * Seconds(i) * MICROS == q * (Seconds(i) * MICROS);
  }

  /** Buckets of one interval start on the UTC grid exactly for the offsets that are multiples of the interval. */
  lemma BucketOnUtcGrid(s: Stamp, i: Interval)
    ensures BucketStart(s, i) % Width(i) == 0 <==> s.offset % Width(i) == 0
  {
    var q := WholeSeconds(s.utc + s.offset) / Seconds(i);
    StartForm(s, i);
    MultipleLess(q, s.offset, i);
  }

  lemma MultipleLess(q: int, offset: int, i: Interval)
    ensures (q * Width(i) - offset) % Width(i) == 0 <==> offset % Width(i) == 0
  {
    var w := Width(i);
    Division(offset, w);
    Division(q * w - offset, w);
    if offset % w == 0 {
      assert (q - offset / w) * w == q * w - (offset / w) * w;
      Remainder(q * w - offset, w, q - offset / w, 0);
    }
    if (q * w - offset) % w == 0 {
      var p := (q * w - offset) / w;
      assert (q - p) * w == q * w - p * w;
      Remainder(offset, w, q - p, 0);
    }
  }

  lemma MultipleOnGrid(n: int, i: Interval)
    ensures (n * Width(i)) % Width(i) == 0
  {
    Remainder(n * Width(i), Width(i), n, 0);
  }

  /** The stored start of the fine bucket, read back in UTC, falls into the stamp's coarse bucket. */
  ghost predicate Nests(s: Stamp, fine: Interval, coarse: Interval) {
    BucketStart(Utc(BucketStart(s, fine)), coarse) == BucketStart(s, coarse)
  }

  /**
   * Fine buckets sit inside the coarse ones, at every instant, exactly for offsets that are multiples of the coarse
   * interval.
   */
  lemma NestingNeedsGridOffset(offset: int, fine: Interval, coarse: Interval)
    requires Finer(fine, coarse)
    ensures (forall utc :: Nests(Stamp(utc, offset), fine, coarse)) <==> offset % Width(coarse) == 0
  {
    if offset % Width(coarse) == 0 {
      forall utc ensures Nests(Stamp(utc, offset), fine, coarse) {
        GridOffsetNests(Stamp(utc, offset), fine, coarse);
      }
    } else {
      var s := Stamp(-offset, offset);
      assert BucketStart(s, fine) == -offset && BucketStart(s, coarse) == -offset;
      BucketOnUtcGrid(Utc(-offset), coarse);
      assert !Nests(s, fine, coarse) by {
        if (-offset) % Width(coarse) == 0 {
          ShiftByMultiple(offset, -offset, coarse);
        }
      }
    }
  }

  lemma GridOffsetNests(s: Stamp, fine: Interval, coarse: Interval)
    requires Finer(fine, coarse) && s.offset % Width(coarse) == 0
    ensures Nests(s, fine, coarse)
  {
    var k := s.offset / Width(coarse);
    Division(s.offset, Width(coarse));
    StartForm(s, fine);
    StartForm(s, coarse);
    StartForm(Utc(BucketStart(s, fine)), coarse);
    NestedStart(WholeSeconds(s.utc + s.offset), k, fine, coarse);
  }

  lemma Shifted(q: int, k: int, w: int)
    ensures (q - k) * w == q * w - k * w
  {
  }

  lemma NestedStart(seconds: int, k: int, fine: Interval, coarse: Interval)
    requires Finer(fine, coarse)
    ensures WholeSeconds(seconds / Seconds(fine) * Width(fine) - k * Width(coarse)) / Seconds(coarse) * Width(coarse)
         == seconds / Seconds(coarse) * Width(coarse) - k * Width(coarse)
  {
    InSeconds(seconds / Seconds(fine), k, fine, coarse);
    WholeOfSeconds(seconds / Seconds(fine) * Seconds(fine) - k * Seconds(coarse));
    FloorOfFloor(seconds, k, fine, coarse);
    Shifted(seconds / Seconds(coarse), k, Width(coarse));
  }

  lemma InSeconds(q: int, k: int, fine: Interval, coarse: Interval)
    ensures q * Width(fine) - k * Width(coarse) == (q * Seconds(fine) - k * Seconds(coarse)) * MICROS
  {
    assert q * (Seconds(fine) * MICROS) == q * Seconds(fine) * MICROS;
    assert k * (Seconds(coarse) * MICROS) == k * Seconds(coarse) * MICROS;
  }

  lemma WholeOfSeconds(n: int)
    ensures WholeSeconds(n * MICROS) == n
  {
  }

  lemma FloorOfFloor(seconds: int, k: int, fine: Interval, coarse: Interval)
    requires Finer(fine, coarse)
    ensures (seconds / Seconds(fine) * Seconds(fine) - k * Seconds(coarse)) / Seconds(coarse)
            == seconds / Seconds(coarse) - k
  {
    FloorInSteps(seconds, k, Seconds(fine), Seconds(coarse) / Seconds(fine), Seconds(coarse));
  }

  /** Flooring to w and then, shifted by k multiples, to n times w is flooring to n times w. */
  lemma FloorInSteps(x: int, k: int, w: int, n: int, v: int)
    requires w > 0 && n > 0 && v == n * w
    ensures v > 0 && (x / w * w - k * v) / v == x / v - k
  {
    Scaled(1, n, w);
    var p, q := x / w, x / v;
    Division(x, w);
    Division(x, v);
    assert q * v == (q * n) * w;
    Ordered(q * n, p, w);
    var floored := p * w;
    assert (q - k) * v == q * v - k * v;
    Remainder(floored - k * v, v, q - k, floored - q * v);
  }

  /** Rounding to the minute, then to five minutes, then to the hour is rounding to the hour. */
  lemma RoundingInStages(s: Stamp)
    requires s.offset % Width(H1) == 0
    ensures BucketStart(Utc(BucketStart(Utc(BucketStart(s, M1)), M5)), H1) == BucketStart(s, H1)
  {
    FinerDivides(s.offset, H1, M5);
    GridOffsetNests(s, M1, M5);
    GridOffsetNests(s, M5, H1);
  }

  /**
   * On the grid the bucket is the only grid point whose interval holds the instant, bucketing again changes nothing,
   * and later instants get later buckets.
   */
  lemma GridBucketIsTheBucket(s: Stamp, later: Stamp, i: Interval, b: int)
    requires OnGrid(s, i) && OnGrid(later, i) && s.utc <= later.utc
    ensures (b % Width(i) == 0 && b <= s.utc < b + Width(i)) <==> b == BucketStart(s, i)
    ensures BucketStart(Utc(BucketStart(s, i)), i) == BucketStart(s, i)
    ensures BucketStart(s, i) <= BucketStart(later, i)
  {
    GridBucket(s, i, i);
    GridBucket(later, i, i);
    GridPoint(s.utc, later.utc, i, b);
    GridBucketAgain(s, i);
  }

  lemma GridBucketAgain(s: Stamp, i: Interval)
    requires OnGrid(s, i)
    ensures BucketStart(Utc(BucketStart(s, i)), i) == BucketStart(s, i)
  {
    var n, k := WholeSeconds(s.utc + s.offset) / Seconds(i), s.offset / Width(i);
    Division(s.offset, Width(i));
    StartForm(s, i);
    Shifted(n, k, Width(i));
    StartForm(Utc(BucketStart(s, i)), i);
    StartOfMultiple(n - k, i);
  }

  lemma StartOfMultiple(n: int, i: Interval)
    ensures WholeSeconds(n * Width(i)) / Seconds(i) * Width(i) == n * Width(i)
  {
    assert n * (Seconds(i) * MICROS) == n * Seconds(i) * MICROS;
    WholeOfSeconds(n * Seconds(i));
    Remainder(n * Seconds(i), Seconds(i), n, 0);
  }

  lemma GridPoint(x: int, y: int, i: Interval, b: int)
    requires x <= y
    ensures (b % Width(i) == 0 && b <= x < b + Width(i)) <==> b == x - x % Width(i)
    ensures x - x % Width(i) <= y - y % Width(i)
  {
    var w := Width(i);
    Division(x, w);
    Division(y, w);
    Division(b, w);
    assert (x / w) * w <= (y / w) * w by { Ordered(x / w, y / w, w); }
    if b % w == 0 && b <= x < b + w {
      Ordered(b / w, x / w, w);
      assert b / w == x / w;
    }
    MultipleOnGrid(x / w, i);
  }

  lemma Division(x: int, w: int)
    requires w > 0
    ensures x == (x / w) * w + x % w && 0 <= x % w < w
  {
  }

  /** Quotient and remainder are the only ones. */
  lemma Remainder(x: int, w: int, p: int, r: int)
    requires w > 0 && x == p * w + r && 0 <= r < w
    ensures x / w == p && x % w == r
  {
    Division(x, w);
    Ordered(p, x / w, w);
    Ordered(x / w, p, w);
  }

  /** Multiples of w closer than w apart are in the order of their quotients. */
  lemma Ordered(p: int, q: int, w: int)
    requires w > 0 && p * w < q * w + w
    ensures p <= q && p * w <= q * w
  {
    if p > q {
      Scaled(q + 1, p, w);
      assert false;
    }
    Scaled(p, q, w);
  }

  lemma Scaled(p: int, q: int, w: int)
    requires w > 0 && p <= q
    ensures p * w <= q * w
  {
    assert (q - p) * w >= 0;
  }

  /** An hour, seven minutes and half a minute past the epoch: 01:07, 01:05 and 01:00. */
  lemma SevenPastOne()
    ensures BucketStart(Utc(4_050_500_000), M1) == 4_020_000_000
    ensures BucketStart(Utc(4_050_500_000), M5) == 3_900_000_000
    ensures BucketStart(Utc(4_050_500_000), H1) == 3_600_000_000
  {
  }

  /** A microsecond before 1970 is filed under the minute that begins at 1970, and so is not in its bucket. */
  lemma JustBeforeTheEpoch()
    ensures BucketStart(Utc(-1), M1) == 0
  {
  }

  /** One and the same instant, written with the offset of India, is filed under an hour that begins at half past. */
  lemma HalfHourOffset()
    ensures BucketStart(Utc(0), H1) == 0 && BucketStart(Stamp(0, 19_800 * MICROS), H1) == -1_800 * MICROS
  {
  }
}
