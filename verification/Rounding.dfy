/** Rounding to decimal places: as PostgreSQL stores a numeric column, and as Decimal's quantize does it. */
module Rounding {
  import opened Bars

  const SCALE := 10_000_000_000.0

  /** Half away from zero, to a whole number. */
  function Nearest(x: real): int {
    if x >= 0.0 then (x + 0.5).Floor else -(0.5 - x).Floor
  }

  function TenPlaces(x: real): real {
    Nearest(x * SCALE) as real / SCALE
  }

  /** Half to the even neighbour, to a whole number. */
  function HalfEven(x: real): int {
    var below := x.Floor;
    var rest := x - below as real;
    if rest < 0.5 || (rest == 0.5 && below % 2 == 0) then below else below + 1
  }

  function FourPlaces(x: real): real {
    HalfEven(x * 10_000.0) as real / 10_000.0
  }

  /** Quantizing moves a value by at most half a unit of the last place and does not leave a range of whole numbers. */
  lemma FourPlacesStays(x: real, lo: int, hi: int)
    requires lo as real <= x <= hi as real
    ensures lo as real <= FourPlaces(x) <= hi as real
    ensures -0.00005 <= FourPlaces(x) - x <= 0.00005
  {
    var y := x * 10_000.0;
    assert y.Floor >= lo * 10_000;
    assert y.Floor == hi * 10_000 ==> y - y.Floor as real == 0.0;
    assert lo * 10_000 <= HalfEven(y) <= hi * 10_000;
  }

  /** A value just between two of the fourth place goes to the even one. */
  lemma TieToEven(n: int)
    ensures FourPlaces((n as real + 0.5) / 10_000.0) * 10_000.0 == (if n % 2 == 0 then n else n + 1) as real
  {
    assert (n as real + 0.5) / 10_000.0 * 10_000.0 == n as real + 0.5;
    assert (n as real + 0.5).Floor == n;
  }

  /** A value just between two of the tenth place goes to the one that is farther from zero. */
  lemma TieAway(n: nat)
    ensures TenPlaces((n as real + 0.5) / SCALE) * SCALE == (n + 1) as real
    ensures TenPlaces(-(n as real + 0.5) / SCALE) * SCALE == -(n + 1) as real
  {
    assert (n as real + 0.5) / SCALE * SCALE == n as real + 0.5;
    assert -(n as real + 0.5) / SCALE * SCALE == -(n as real + 0.5);
    assert Nearest(n as real + 0.5) == n + 1 && Nearest(-(n as real + 0.5)) == -(n + 1);
  }

  lemma NearestIsMonotone(x: real, y: real)
    requires x <= y
    ensures Nearest(x) <= Nearest(y)
  {
  }

  lemma NearestOfWhole(n: int)
    ensures Nearest(n as real) == n
  {
  }

  /** Rounding to ten places gives a multiple of the last place, at most half of it away. */
  lemma TenPlacesStays(x: real) returns (n: int)
    ensures TenPlaces(x) * SCALE == n as real
    ensures -0.5 <= (TenPlaces(x) - x) * SCALE <= 0.5
  {
    n := Nearest(x * SCALE);
  }

  /** Rounding to ten places is monotone and idempotent: what the bar table assumes of its columns. */
  lemma TenPlacesIsStorageRounding()
    ensures StorageRounding(TenPlaces)
  {
    forall x, y | x <= y ensures TenPlaces(x) <= TenPlaces(y) {
      NearestIsMonotone(x * SCALE, y * SCALE);
    }
    forall x ensures TenPlaces(TenPlaces(x)) == TenPlaces(x) {
      NearestOfWhole(Nearest(x * SCALE));
      assert TenPlaces(x) * SCALE == Nearest(x * SCALE) as real;
    }
  }
}
