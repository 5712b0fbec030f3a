/** The style catalog: the fixed phrase bundle of every style and the closing sentence. */
module Catalog {
  import opened Text
  import opened JewelryTypes

  /** The model description every style without a model shot carries. */
  const NotApplicable: string := "Not applicable"

  // Phrases longer than a few words are written as their first word followed
  // by the rest, so that the verifier reaches their first character cheaply.

  /** The closing sentence shared by every prompt. */
  const FinalTouches: string := "Masterpiece" + " quality, 8k resolution, high detail, perfectly polished."

  /** A catalog phrase is non-empty and carries no whitespace at either end. */
  predicate IsPhrase(s: string) {
    |s| > 0 && NoOuterWhitespace(s)
  }

  /** Every phrase field of a bundle is a proper phrase. */
  predicate WellFormed(c: StyleConfig) {
    && IsPhrase(c.directives) && IsPhrase(c.focalPlane) && IsPhrase(c.lightingSetup)
    && IsPhrase(c.dofInstruction) && IsPhrase(c.cameraLens) && IsPhrase(c.backgroundStaging)
    && IsPhrase(c.colorGrading) && IsPhrase(c.modelDescription) && IsPhrase(c.tone)
  }

  /**
   * The catalog lookup. It is total over the styles; each bundle is stored
   * under its own name, and only High-Fashion describes a model.
   */
  function Config(s: Style): (c: StyleConfig)
    ensures c.name == s
    ensures c.modelDescription != NotApplicable <==> s == HighFashion
  {
    match s
    case IndianCommercial => IndianCommercialConfig
    case CatalogEcommerce => CatalogEcommerceConfig
    case HighFashion => HighFashionConfig
  }

  const IndianCommercialConfig: StyleConfig :=
    StyleConfig(
      name := IndianCommercial,
      directives := "Indian Commercial Directives",
      focalPlane := "Macro/Close-up",
      lightingSetup := "Hard" + " studio lighting to maximize gold sheen and diamond sparkle",
      dofInstruction := "Shallow DoF to isolate the product",
      cameraLens := "Hasselblad" + " H6D with a 120mm Macro lens, f/11",
      backgroundStaging := "Staged" + " on rich, textured red velvet or an intricate traditional textile",
      colorGrading := "Warm and highly saturated",
      modelDescription := NotApplicable,
      tone := "Luxurious, Traditional, and Opulent")

  const CatalogEcommerceConfig: StyleConfig :=
    StyleConfig(
      name := CatalogEcommerce,
      directives := "Catalog/E-commerce Directives",
      focalPlane := "Macro, 1:1 ratio",
      lightingSetup := "Soft," + " diffused box lighting from 4 points to eliminate harsh shadows",
      dofInstruction := "Deep DoF (everything in focus)",
      cameraLens := "Canon" + " R5 with a 100mm Macro lens, f/16",
      backgroundStaging := "Pure" + " white, seamless background (RGB 255, 255, 255)",
      colorGrading := "Neutral and True-to-life",
      modelDescription := NotApplicable,
      tone := "Clean," + " Professional, and Trustworthy")

  const HighFashionConfig: StyleConfig :=
    StyleConfig(
      name := HighFashion,
      directives := "High-Fashion Model Directives",
      focalPlane := "Close-up on the model's hand/finger",
      lightingSetup := "Dramatic," + " directional lighting (key light and rim light) to create sharp contrast",
      dofInstruction := "Very" + " Shallow DoF to blur the background",
      cameraLens := "Phase" + " One XF with a 80mm lens, f/2.8",
      backgroundStaging := "Set" + " against an abstract, minimalist architectural background or soft-focus silk fabric",
      colorGrading := "Cool" + " and Desaturated (Vogue/Editorial aesthetic)",
      modelDescription := "Slender," + " elegant hand, impeccably manicured nails, graceful, editorial pose",
      tone := "Avant-garde," + " Sophisticated, and Moody")

  /** Every phrase of every bundle is non-empty and has no outer whitespace. */
  lemma CatalogWellFormed(s: Style)
    ensures WellFormed(Config(s))
  {
    match s
    case IndianCommercial => IndianCommercialWellFormed();
    case CatalogEcommerce => CatalogEcommerceWellFormed();
    case HighFashion => HighFashionWellFormed();
  }

  lemma IndianCommercialWellFormed()
    ensures WellFormed(Config(IndianCommercial))
  {
    var c := IndianCommercialConfig;
    assert IsPhrase(c.directives);
    assert IsPhrase(c.focalPlane);
    assert IsPhrase(c.lightingSetup);
    assert IsPhrase(c.dofInstruction);
    assert IsPhrase(c.cameraLens);
    assert IsPhrase(c.backgroundStaging);
    assert IsPhrase(c.colorGrading);
    assert IsPhrase(c.modelDescription);
    assert IsPhrase(c.tone);
  }

  lemma CatalogEcommerceWellFormed()
    ensures WellFormed(Config(CatalogEcommerce))
  {
    var c := CatalogEcommerceConfig;
    assert IsPhrase(c.directives);
    assert IsPhrase(c.focalPlane);
    assert IsPhrase(c.lightingSetup);
    assert IsPhrase(c.dofInstruction);
    assert IsPhrase(c.cameraLens);
    assert IsPhrase(c.backgroundStaging);
    assert IsPhrase(c.colorGrading);
    assert IsPhrase(c.modelDescription);
    assert IsPhrase(c.tone);
  }

  lemma HighFashionWellFormed()
    ensures WellFormed(Config(HighFashion))
  {
    var c := HighFashionConfig;
    assert IsPhrase(c.directives);
    assert IsPhrase(c.focalPlane);
    assert IsPhrase(c.lightingSetup);
    assert IsPhrase(c.dofInstruction);
    assert IsPhrase(c.cameraLens);
    assert IsPhrase(c.backgroundStaging);
    assert IsPhrase(c.colorGrading);
    assert IsPhrase(c.modelDescription);
    assert IsPhrase(c.tone);
  }

  /** The closing sentence is a proper phrase too. */
  lemma FinalTouchesIsPhrase()
    ensures IsPhrase(FinalTouches)
  {
  }

  /** The directives labels tell the styles apart, already by their first character. */
  lemma DirectivesDistinct(s: Style, t: Style)
    ensures |Config(s).directives| > 0 && |Config(t).directives| > 0
    ensures s != t ==> Config(s).directives[0] != Config(t).directives[0]
  {
  }
}
