/**
 * The ELO rating engine (EloRatingCalculator in ai_model/utils.py and EloCalculator in
 * model_metrics/calculators.py).
 *
 * The expected score 1/(1+10^((b-a)/400)) is a real power function. The model takes it as a
 * parameter `e` and relies only on the laws in `ExpectedLaws`, which that function satisfies.
 * Python's `round` on a float rounds half to even; `RoundHalfEven` is characterised by its
 * contract: the nearest integer, ties going to the even neighbour.
 */
module Elo {
  import opened Wrappers

  const K_FACTOR: int := 32
  const INITIAL_RATING: int := 1500

  type ExpectedScore = (int, int) -> real

  /** The expected score of A against B lies strictly between 0 and 1, and the two sides' scores sum to 1. */
  ghost predicate ExpectedLaws(e: ExpectedScore)
  {
    forall a, b :: 0.0 < e(a, b) < 1.0 && e(a, b) + e(b, a) == 1.0
  }

  lemma ExpectedEven(e: ExpectedScore, r: int)
    requires ExpectedLaws(e)
    ensures e(r, r) == 0.5
  {
    assert e(r, r) + e(r, r) == 1.0;
  }

  /** x lies exactly half-way between two integers. */
  predicate IsHalfway(x: real)
  {
    x - x.Floor as real == 0.5
  }

  function RoundHalfEven(x: real): (n: int)
    ensures x - 0.5 <= n as real <= x + 0.5
    ensures IsHalfway(x) ==> n % 2 == 0
  {
    var f := x.Floor;
    var frac := x - f as real;
    if frac < 0.5 then f
    else if frac > 0.5 then f + 1
    else if f % 2 == 0 then f
    else f + 1
  }

  /** The contract of RoundHalfEven determines its result. */
  lemma RoundUnique(x: real, m: int)
    requires x - 0.5 <= m as real <= x + 0.5
    requires IsHalfway(x) ==> m % 2 == 0
    ensures m == RoundHalfEven(x)
  {
  }

  lemma FloorShift(n: int, x: real)
    ensures (n as real + x).Floor == n + x.Floor
  {
  }

  /** Half-to-even rounding is odd-symmetric. */
  lemma RoundOdd(x: real)
    ensures RoundHalfEven(-x) == -RoundHalfEven(x)
  {
    var n := RoundHalfEven(x);
    if IsHalfway(-x) {
      var f := x.Floor;
      assert (-x).Floor == -f - 1;
      assert IsHalfway(x);
    }
    RoundUnique(-x, -n);
  }

  /** Shifting by an integer shifts the rounding, unless the value is half-way and the shift odd. */
  lemma RoundShift(n: int, x: real)
    requires !IsHalfway(x) || n % 2 == 0
    ensures RoundHalfEven(n as real + x) == n + RoundHalfEven(x)
  {
    FloorShift(n, x);
    RoundUnique(n as real + x, n + RoundHalfEven(x));
  }

  datatype Ratings = Ratings(a: int, b: int)

  /** EloRatingCalculator.calculate_new_ratings; a missing score for B means 1 - score_a. */
  function NewRatings(e: ExpectedScore, ra: int, rb: int, sa: real, sb: Option<real>): (r: Ratings)
  {
    var scoreB := if sb.None? then 1.0 - sa else sb.value;
    var expectedA := e(ra, rb);
    var expectedB := e(rb, ra);
    Ratings(RoundHalfEven(ra as real + K_FACTOR as real * (sa - expectedA)),
            RoundHalfEven(rb as real + K_FACTOR as real * (scoreB - expectedB)))
  }

  /** EloCalculator.calculate_new_ratings: B's expectation and score are complements of A's. */
  function AdvancedNewRatings(e: ExpectedScore, ra: int, rb: int, sa: real): Ratings
  {
    var expectedA := e(ra, rb);
    var expectedB := 1.0 - expectedA;
    Ratings(RoundHalfEven(ra as real + K_FACTOR as real * (sa - expectedA)),
            RoundHalfEven(rb as real + K_FACTOR as real * ((1.0 - sa) - expectedB)))
  }

  /** Both calculators agree whenever the expected score obeys its laws. */
  lemma CalculatorsAgree(e: ExpectedScore, ra: int, rb: int, sa: real)
    requires ExpectedLaws(e)
    ensures AdvancedNewRatings(e, ra, rb, sa) == NewRatings(e, ra, rb, sa, None)
  {
    assert e(ra, rb) + e(rb, ra) == 1.0;
  }

  /** The scores of A and B for a comparison result: any unknown result scores as a tie. */
  function OutcomeScores(result: string): (s: (real, real))
    ensures s.0 + s.1 == 1.0
    ensures 0.0 <= s.0 <= 1.0 && 0.0 <= s.1 <= 1.0
    ensures s.0 == 1.0 <==> result == "a_wins"
    ensures s.1 == 1.0 <==> result == "b_wins"
    ensures result != "a_wins" && result != "b_wins" ==> s == (0.5, 0.5)
  {
    if result == "a_wins" then (1.0, 0.0)
    else if result == "b_wins" then (0.0, 1.0)
    else (0.5, 0.5)
  }

  /** A single update moves a rating by at most K = 32 points. */
  lemma UpdateBounded(e: ExpectedScore, ra: int, rb: int, sa: real, sb: real)
    requires ExpectedLaws(e)
    requires 0.0 <= sa <= 1.0 && 0.0 <= sb <= 1.0
    ensures -K_FACTOR <= NewRatings(e, ra, rb, sa, Some(sb)).a - ra <= K_FACTOR
    ensures -K_FACTOR <= NewRatings(e, ra, rb, sa, Some(sb)).b - rb <= K_FACTOR
  {
    var da := K_FACTOR as real * (sa - e(ra, rb));
    var db := K_FACTOR as real * (sb - e(rb, ra));
    assert -K_FACTOR as real < da < K_FACTOR as real;
    assert -K_FACTOR as real < db < K_FACTOR as real;
  }

  /** A win never lowers the winner's rating and never raises the loser's. */
  lemma WinnerNeverLoses(e: ExpectedScore, ra: int, rb: int)
    requires ExpectedLaws(e)
    ensures NewRatings(e, ra, rb, 1.0, Some(0.0)).a >= ra
    ensures NewRatings(e, ra, rb, 1.0, Some(0.0)).b <= rb
  {
    var da := K_FACTOR as real * (1.0 - e(ra, rb));
    var db := K_FACTOR as real * (0.0 - e(rb, ra));
    assert ra as real + da > ra as real;
    assert rb as real + db < rb as real;
  }

  /** Exchanging the players (their ratings and their scores) exchanges the results. */
  lemma SwapSymmetric(e: ExpectedScore, ra: int, rb: int, sa: real, sb: real)
    ensures NewRatings(e, rb, ra, sb, Some(sa)) == Ratings(NewRatings(e, ra, rb, sa, Some(sb)).b, NewRatings(e, ra, rb, sa, Some(sb)).a)
  {
  }

  /** Two fresh models: a win for A gives 1516 / 1484, a tie leaves both at 1500. */
  lemma EvenMatch(e: ExpectedScore)
    requires ExpectedLaws(e)
    ensures NewRatings(e, INITIAL_RATING, INITIAL_RATING, 1.0, Some(0.0)) == Ratings(1516, 1484)
    ensures NewRatings(e, INITIAL_RATING, INITIAL_RATING, 0.5, Some(0.5)) == Ratings(1500, 1500)
  {
    ExpectedEven(e, INITIAL_RATING);
    RoundUnique(1516.0, 1516);
    RoundUnique(1484.0, 1484);
    RoundUnique(1500.0, 1500);
  }

  /** Equal ratings and a tie leave both ratings unchanged. */
  lemma TieBetweenEqualsKeepsRatings(e: ExpectedScore, r: int)
    requires ExpectedLaws(e)
    ensures NewRatings(e, r, r, 0.5, Some(0.5)) == Ratings(r, r)
  {
    ExpectedEven(e, r);
    RoundUnique(r as real, r);
  }

  /**
   * With complementary scores the update is zero-sum: the two ratings keep their total,
   * unless the shared change lands exactly half-way and the total is odd. The real expected
   * score never produces such a half-way change for integer ratings.
   */
  lemma ZeroSum(e: ExpectedScore, ra: int, rb: int, sa: real)
    requires ExpectedLaws(e)
    requires !IsHalfway(K_FACTOR as real * (sa - e(ra, rb))) || (ra + rb) % 2 == 0
    ensures NewRatings(e, ra, rb, sa, Some(1.0 - sa)).a + NewRatings(e, ra, rb, sa, Some(1.0 - sa)).b == ra + rb
  {
    var d := K_FACTOR as real * (sa - e(ra, rb));
    assert K_FACTOR as real * ((1.0 - sa) - e(rb, ra)) == -d;
    RoundOdd(d);
    if !IsHalfway(d) {
      RoundShift(ra, d);
      assert !IsHalfway(-d);
      RoundShift(rb, -d);
    } else {
      HalfwaySum(ra, rb, d);
    }
  }

  lemma HalfwaySum(ra: int, rb: int, d: real)
    requires IsHalfway(d) && (ra + rb) % 2 == 0
    ensures RoundHalfEven(ra as real + d) + RoundHalfEven(rb as real + -d) == ra + rb
  {
    var f := d.Floor;
    assert d == f as real + 0.5;
    FloorShift(ra, d);
    FloorShift(rb, -d);
    assert (-d).Floor == -f - 1;
    assert IsHalfway(ra as real + d) && IsHalfway(rb as real + -d);
    var x := RoundHalfEven(ra as real + d);
    var y := RoundHalfEven(rb as real + -d);
    assert x == ra + f || x == ra + f + 1;
    assert y == rb - f - 1 || y == rb - f;
  }

  /** The exception: a half-way change between ratings of odd total breaks the zero sum. */
  lemma ZeroSumNeedsEvenTotalAtHalfway()
    ensures NewRatings((a: int, b: int) => if a > b then 63.0 / 64.0 else if a < b then 1.0 / 64.0 else 0.5,
                       1, 0, 0.5, Some(0.5)) == Ratings(-14, 16)
  {
    var d := K_FACTOR as real * (0.5 - 63.0 / 64.0);
    assert d == -15.5;
    RoundUnique(1.0 + d, -14);
    RoundUnique(0.0 + K_FACTOR as real * (0.5 - 1.0 / 64.0), 16);
  }
}
