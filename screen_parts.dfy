/**
 * The sustainability score bar: the score is clamped to 1..10, coloured
 * green, amber or red by band, and labelled "n/10". The bar's width
 * fraction is a `Float` and is not modelled.
 */
module ScreenParts {
  import opened Decimal

  /** Kotlin's `coerceIn(lo, hi)`. */
  function CoerceIn(x: int, lo: int, hi: int): (r: int)
    requires lo <= hi
    ensures lo <= r <= hi
    ensures lo <= x <= hi ==> r == x
    ensures x < lo ==> r == lo
    ensures x > hi ==> r == hi
  {
    if x < lo then lo else if x > hi then hi else x
  }

  function NormalizedScore(score: int): (n: int)
    ensures 1 <= n <= 10
    ensures 1 <= score <= 10 ==> n == score
    ensures score <= 0 ==> n == 1
    ensures score >= 11 ==> n == 10
  {
    CoerceIn(score, 1, 10)
  }

  /** The three bar colours. */
  datatype BarColour = Green | Amber | Red

  /** The ARGB value each colour is drawn with. */
  function Argb(c: BarColour): int
  {
    match c
    case Green => 0xFF4CAF50
    case Amber => 0xFFFFC107
    case Red => 0xFFF44336
  }

  /** Green from 8, amber from 5 to 7, red up to 4, after clamping. */
  function ScoreColour(score: int): (c: BarColour)
    ensures c == Green <==> score >= 8
    ensures c == Amber <==> 5 <= score <= 7
    ensures c == Red <==> score <= 4
  {
    var normalizedScore := NormalizedScore(score);
    if normalizedScore >= 8 then Green
    else if normalizedScore >= 5 then Amber
    else Red
  }

  /** The colour the bar is drawn with, by band of the raw score: 0xFF4CAF50 from 8, 0xFFFFC107 from 5 to 7, 0xFFF44336 below. */
  lemma ScoreColourArgb(score: int)
    ensures score >= 8 ==> Argb(ScoreColour(score)) == 0xFF4CAF50
    ensures 5 <= score <= 7 ==> Argb(ScoreColour(score)) == 0xFFFFC107
    ensures score <= 4 ==> Argb(ScoreColour(score)) == 0xFFF44336
  {
  }

  /** The bar's caption `"$normalizedScore/10"`. */
  function ScoreLabel(score: int): (l: string)
    ensures |l| >= 4 && l[|l| - 3..] == "/10"
  {
    NatToString(NormalizedScore(score)) + "/10"
  }

  /** The caption always ends in "/10" and the number before it reads back as the clamped score. */
  lemma ScoreLabelReadsBack(score: int)
    ensures var l := ScoreLabel(score);
      && |l| >= 4 && l[|l| - 3..] == "/10"
      && (forall i :: 0 <= i < |l| - 3 ==> IsDigit(l[i]))
      && StringToNat(l[..|l| - 3]) == NormalizedScore(score)
  {
    var l := ScoreLabel(score);
    assert l[..|l| - 3] == NatToString(NormalizedScore(score));
    NatToStringRoundTrip(NormalizedScore(score));
  }

  /** Out-of-range scores show the nearest end of the scale. */
  lemma ExtremeScores(score: int)
    ensures score <= 0 ==> ScoreLabel(score) == "1/10" && ScoreColour(score) == Red
    ensures score >= 11 ==> ScoreLabel(score) == "10/10" && ScoreColour(score) == Green
  {
    assert NatToString(1) == "1";
    assert NatToString(10) == "10" by {
      assert NatToString(1) == "1";
    }
  }
}
