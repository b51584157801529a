/** The explanation shown under a recognised object's sustainability score. */
module ObjectScanResultScreen {
  import opened ScreenParts

  const HighImpactObject: string :=
    "Questo oggetto ha un alto impatto ambientale. Prova a cercarne uno più sostenibile o limita il suo utilizzo."
  const ModerateImpactObject: string :=
    "Questo oggetto ha un impatto ambientale moderato. Cerca di riciclarlo correttamente e considerare alternative più sostenibili."
  const LowImpactObject: string :=
    "Ottimo! Questo oggetto ha un basso impatto ambientale ed è una scelta sostenibile."
  const InvalidScore: string :=
    "Punteggio di sostenibilità non valido."

  /** `getSustainabilityDescription`: 1..3 high, 4..7 moderate, 8..10 low impact, anything else invalid. */
  function GetSustainabilityDescription(score: int): (d: string)
    ensures d == HighImpactObject <==> 1 <= score <= 3
    ensures d == ModerateImpactObject <==> 4 <= score <= 7
    ensures d == LowImpactObject <==> 8 <= score <= 10
    ensures d == InvalidScore <==> score <= 0 || score >= 11
  {
    if 1 <= score <= 3 then HighImpactObject
    else if 4 <= score <= 7 then ModerateImpactObject
    else if 8 <= score <= 10 then LowImpactObject
    else InvalidScore
  }

  /**
   * On a valid score the text and the bar colour agree, except at 4: the
   * bar is already red there while the text still says "moderate".
   */
  lemma DescriptionMatchesBarColour(score: int)
    requires 1 <= score <= 10
    ensures ScoreColour(score) == Green <==> GetSustainabilityDescription(score) == LowImpactObject
    ensures score != 4 ==> (ScoreColour(score) == Red <==> GetSustainabilityDescription(score) == HighImpactObject)
    ensures score != 4 ==> (ScoreColour(score) == Amber <==> GetSustainabilityDescription(score) == ModerateImpactObject)
    ensures score == 4 ==> ScoreColour(score) == Red && GetSustainabilityDescription(score) == ModerateImpactObject
  {
  }

  /** The bar never shows an invalid score, but the text does: 0 is drawn as a red "1/10" above the invalid-score text. */
  lemma InvalidScoreStillDrawsBar()
    ensures GetSustainabilityDescription(0) == InvalidScore
    ensures ScoreColour(0) == Red && NormalizedScore(0) == 1
  {
  }
}
