/** The wax resource: its range, how a session depletes it, how rewaxing
    replenishes it, and the two classifications the wax gauge shows. */
module Wax {

  /** The full level, which is also the default and the rewax value. */
  const Full: int := 100

  /** Bounds of the per-session depletion: 15 plus an integer in [0, 9]. */
  const MinDepletion: int := 15
  const MaxDepletion: int := 24

  /** Tier thresholds (strict) and the warning threshold (strict). */
  const HighAbove: int := 60
  const MediumAbove: int := 30
  const WarnBelow: int := 20

  /** The range the wax level is meant to stay in. */
  predicate InRange(w: int) {
    0 <= w <= Full
  }

  /** The depletion drawn for one session from a uniform draw `u` in [0, 1):
      the floor of `u * 10`, plus 15. Here `u` is an ideal real-valued draw
      and the product is exact; the page rounds the product to a double
      first, which can move a draw just below a multiple of 0.1 up to the
      next depletion, but not outside [15, 24]. */
  function DepletionFromDraw(u: real): (d: int)
    requires 0.0 <= u < 1.0
    ensures MinDepletion <= d <= MaxDepletion
    ensures (d - MinDepletion) as real <= u * 10.0 < (d - MinDepletion + 1) as real
  {
    (u * 10.0).Floor + 15
  }

  /** Every depletion in [15, 24] is produced by some draw, so a depletion
      parameter with that range loses nothing the draw can yield. */
  lemma DrawCoversRange(d: int)
    requires MinDepletion <= d <= MaxDepletion
    ensures exists u: real :: 0.0 <= u < 1.0 && DepletionFromDraw(u) == d
  {
    var u: real := (d - MinDepletion) as real / 10.0;
    assert u * 10.0 == (d - MinDepletion) as real;
    assert DepletionFromDraw(u) == d;
  }

  /** Lowering the level by `d`, clamped at 0 (never negative). */
  function Deplete(w: int, d: int): (r: int)
    ensures r >= 0
    ensures d <= w ==> r == w - d
    ensures w < d ==> r == 0
    ensures InRange(w) && 0 <= d ==> InRange(r)
  {
    if w - d > 0 then w - d else 0
  }

  /** Depleting twice in a row is depleting once by the sum, as long as
      neither amount is negative: the clamp at 0 never needs to be undone. */
  lemma DepleteTwice(w: int, a: int, b: int)
    requires 0 <= a && 0 <= b
    ensures Deplete(Deplete(w, a), b) == Deplete(w, a + b)
  {
  }

  /** The three-level tier the gauge is coloured with. */
  datatype Tier = High | Medium | Low

  /** The tier of a wax level: strictly above 60 is high, strictly above 30
      (up to and including 60) is medium, everything else is low. */
  function TierOf(w: int): (t: Tier)
    ensures t == High <==> w > HighAbove
    ensures t == Medium <==> MediumAbove < w <= HighAbove
    ensures t == Low <==> w <= MediumAbove
  {
    if w > HighAbove then High
    else if w > MediumAbove then Medium
    else Low
  }

  /** Orders the tiers from low to high. */
  function Rank(t: Tier): nat {
    match t
    case Low => 0
    case Medium => 1
    case High => 2
  }

  /** More wax never gives a lower tier. */
  lemma TierMonotone(v: int, w: int)
    requires v <= w
    ensures Rank(TierOf(v)) <= Rank(TierOf(w))
  {
  }

  /** Whether the "wax up" warning is shown: exactly when the level is below 20. */
  function ShowsWarning(w: int): (b: bool)
    ensures b <==> w < WarnBelow
    ensures b ==> TierOf(w) == Low
  {
    w < WarnBelow
  }

  /** The boundary values: 60 is medium, 30 is low, 20 warns not and 19 does. */
  lemma TierBoundaries()
    ensures TierOf(61) == High && TierOf(60) == Medium
    ensures TierOf(31) == Medium && TierOf(30) == Low
    ensures TierOf(0) == Low && TierOf(25) == Low && TierOf(45) == Medium
    ensures TierOf(75) == High && TierOf(100) == High
    ensures ShowsWarning(0) && ShowsWarning(19) && !ShowsWarning(20)
  {
  }
}
