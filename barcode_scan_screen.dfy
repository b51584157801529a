/**
 * The barcode scan screen: which view the scan state selects, and the
 * explanation shown under a found product's sustainability score.
 */
module BarcodeScanScreen {
  import opened Wrappers
  import opened Models
  import opened ScreenParts

  const ExcellentProduct: string :=
    "Eccellente! Questo prodotto è certificato eco-friendly e ha un impatto ambientale molto basso."
  const EcoFriendlyProduct: string :=
    "Ottimo! Questo prodotto è eco-friendly, ma ci sono ancora margini di miglioramento."
  const LowImpactProduct: string :=
    "Questo prodotto ha un basso impatto ambientale, anche se non è certificato come eco-friendly."
  const ModerateImpactProduct: string :=
    "Questo prodotto ha un impatto ambientale moderato. Considera alternative più sostenibili."
  const HighImpactProduct: string :=
    "Questo prodotto ha un alto impatto ambientale. Ti consigliamo di considerare alternative più sostenibili."

  /**
   * `getProductSustainabilityDescription`: the eco-friendly flag is looked at
   * first, so every eco-friendly product gets one of the first two texts
   * whatever its score; the others are banded at 8 and 5, with no upper bound.
   */
  function GetProductSustainabilityDescription(score: int, ecoFriendly: bool): (d: string)
    ensures d == ExcellentProduct <==> ecoFriendly && score >= 8
    ensures d == EcoFriendlyProduct <==> ecoFriendly && score < 8
    ensures d == LowImpactProduct <==> !ecoFriendly && score >= 8
    ensures d == ModerateImpactProduct <==> !ecoFriendly && 5 <= score < 8
    ensures d == HighImpactProduct <==> !ecoFriendly && score < 5
  {
    if ecoFriendly && score >= 8 then ExcellentProduct
    else if ecoFriendly then EcoFriendlyProduct
    else if score >= 8 then LowImpactProduct
    else if score >= 5 then ModerateImpactProduct
    else HighImpactProduct
  }

  /** For a product that is not eco-friendly the text follows the score bar's colour band exactly. */
  lemma NonEcoDescriptionFollowsBarColour(score: int)
    ensures ScoreColour(score) == Green <==> GetProductSustainabilityDescription(score, false) == LowImpactProduct
    ensures ScoreColour(score) == Amber <==> GetProductSustainabilityDescription(score, false) == ModerateImpactProduct
    ensures ScoreColour(score) == Red <==> GetProductSustainabilityDescription(score, false) == HighImpactProduct
  {
  }

  lemma DescriptionScenarios()
    ensures GetProductSustainabilityDescription(2, true) == EcoFriendlyProduct
    ensures GetProductSustainabilityDescription(15, false) == LowImpactProduct
  {
  }

  /** `BarcodeScanState`. */
  datatype BarcodeScanState = BarcodeScanState(
    isScanning: bool,
    barcodeValue: Option<string>,
    product: Option<Product>,
    error: Option<string>)

  /** The views the screen can show. */
  datatype BarcodeView =
    | ProductDetails(product: Product)
    | ErrorView(message: string)
    | SearchingProduct
    | ProductNotFound(barcode: string)
    | CameraPreview

  /**
   * The `when` that picks the view: a product wins over an error, an error
   * over a pending barcode, and only a state with none of them shows the camera.
   */
  function SelectView(state: BarcodeScanState): (v: BarcodeView)
    ensures state.product.Some? ==> v == ProductDetails(state.product.value)
    ensures state.product.None? && state.error.Some? ==> v == ErrorView(state.error.value)
    ensures state.product.None? && state.error.None? && state.barcodeValue.Some? ==>
      v == (if state.isScanning then SearchingProduct else ProductNotFound(state.barcodeValue.value))
    ensures v == CameraPreview <==> state.product.None? && state.error.None? && state.barcodeValue.None?
  {
    if state.product.Some? then ProductDetails(state.product.value)
    else if state.error.Some? then ErrorView(state.error.value)
    else if state.barcodeValue.Some? then
      if state.isScanning then SearchingProduct else ProductNotFound(state.barcodeValue.value)
    else CameraPreview
  }

  /** The scanning flag only matters once a barcode is read and neither a product nor an error is set. */
  lemma ScanningFlagMatters(state: BarcodeScanState)
    ensures SelectView(state) != SelectView(state.(isScanning := !state.isScanning)) <==>
      state.product.None? && state.error.None? && state.barcodeValue.Some?
  {
  }
}
