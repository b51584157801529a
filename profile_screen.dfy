/**
 * Level and level progress shown on the profile screen, derived from the
 * user's point total (100 points per level). The progress bar's `Float`
 * ratio is kept as an exact fraction over the level width.
 */
module ProfileScreen {
  import opened KotlinInt

  const PointsPerLevel: int := 100

  /** `calculateLevel`: `points / 100 + 1`, with Kotlin's truncating division. */
  function CalculateLevel(points: int): (level: int)
    ensures points >= 0 ==> level >= 1
    ensures points >= 0 ==> (level - 1) * PointsPerLevel <= points < level * PointsPerLevel
    ensures -PointsPerLevel < points < 0 ==> level == 1
  {
    TruncDiv(points, PointsPerLevel) + 1
  }

  /** The progress ratio as numerator over denominator (the source divides them as `Float`s). */
  datatype Fraction = Fraction(numerator: int, denominator: int)

  /** `calculateLevelProgress`: points earned in the current level over the level's width. */
  function CalculateLevelProgress(points: int): (p: Fraction)
    ensures p.denominator == PointsPerLevel
    ensures points >= 0 ==> p.numerator == points % PointsPerLevel
    ensures points >= 0 ==> 0 <= p.numerator < p.denominator
  {
    var level := CalculateLevel(points);
    var pointsForCurrentLevel := (level - 1) * PointsPerLevel;
    var pointsForNextLevel := level * PointsPerLevel;
    Fraction(points - pointsForCurrentLevel, pointsForNextLevel - pointsForCurrentLevel)
  }

  /** For a non-negative total, the level is exactly `points div 100 + 1`. */
  lemma LevelIsQuotientPlusOne(points: int)
    requires points >= 0
    ensures CalculateLevel(points) == points / PointsPerLevel + 1
  {
  }

  lemma {:induction false} LevelMonotone(p: int, q: int)
    requires p <= q
    ensures CalculateLevel(p) <= CalculateLevel(q)
  {
    if p >= 0 {
      assert (CalculateLevel(p) - 1) * PointsPerLevel <= p <= q < CalculateLevel(q) * PointsPerLevel;
    } else if q < 0 {
      assert -q <= -p;
      assert (-q) / PointsPerLevel <= (-p) / PointsPerLevel;
    }
  }

  /**
   * The "next level" threshold the screen shows, computed without overflow:
   * always above the current points and at most one level away.
   */
  function NextLevelThreshold(points: int): (t: int)
    ensures points >= 0 ==> points < t <= points + PointsPerLevel
    ensures points >= 0 ==> t % PointsPerLevel == 0
  {
    CalculateLevel(points) * PointsPerLevel
  }

  /** The same threshold as the profile screen computes it, in 32-bit `Int` arithmetic. */
  function NextLevelThresholdAsWritten(points: int): (t: int)
    requires IsInt32(points)
    ensures IsInt32(t)
    ensures (t - CalculateLevel(points) * PointsPerLevel) % TwoTo32 == 0
  {
    Wrap32(CalculateLevel(points) * PointsPerLevel)
  }

  lemma ThresholdAsWrittenAgreesBelowOverflow(points: int)
    requires 0 <= points < 2147483600
    ensures NextLevelThresholdAsWritten(points) == NextLevelThreshold(points)
  {
  }

  /** From 2147483600 points on, `level * 100` wraps and the shown threshold is negative. */
  lemma ThresholdAsWrittenWraps(points: int)
    requires 2147483600 <= points <= MaxInt
    ensures NextLevelThresholdAsWritten(points) == -2147483596
    ensures NextLevelThresholdAsWritten(points) < points
  {
    assert CalculateLevel(points) == 21474837;
  }

  /** The progress denominator is 100 even when the 32-bit products wrap. */
  lemma ProgressDenominatorSurvivesWrap(points: int)
    requires IsInt32(points)
    ensures Wrap32(Wrap32(CalculateLevel(points) * PointsPerLevel) - (CalculateLevel(points) - 1) * PointsPerLevel) == PointsPerLevel
  {
    var level := CalculateLevel(points);
    var next := Wrap32(level * PointsPerLevel);
    assert (next - level * PointsPerLevel) % TwoTo32 == 0;
    var d := next - (level - 1) * PointsPerLevel;
    assert (d - PointsPerLevel) % TwoTo32 == 0;
    var r := Wrap32(d);
    assert (r - PointsPerLevel) % TwoTo32 == 0;
    assert -TwoTo32 < r - PointsPerLevel < TwoTo32;
  }

  lemma LevelScenarios()
    ensures CalculateLevel(99) == 1
    ensures CalculateLevel(100) == 2 && CalculateLevelProgress(100).numerator == 0
    ensures CalculateLevel(250) == 3 && CalculateLevelProgress(250) == Fraction(50, 100)
  {
  }
}
