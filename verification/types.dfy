/**
 * The records of the jewelry prompt tool: the closed set of photographic
 * styles, the phrase bundle each style carries, and the form the user fills in.
 */
module JewelryTypes {
  import opened Wrappers

  /** The three photographic styles; `Value` gives the string each enum member stands for. */
  datatype Style = IndianCommercial | CatalogEcommerce | HighFashion

  /** The string value of each style, as the style selector submits it. */
  function Value(s: Style): string {
    match s
    case IndianCommercial => "Indian Commercial"
    case CatalogEcommerce => "Catalog/E-commerce"
    case HighFashion => "High-Fashion"
  }

  /** Every style, in declaration order (the order the selector lists them in). */
  const AllStyles: seq<Style> := [IndianCommercial, CatalogEcommerce, HighFashion]

  /** There are exactly three styles and their string values are pairwise distinct. */
  lemma StylesEnumerated()
    ensures |AllStyles| == 3
    ensures forall s: Style :: s in AllStyles
    ensures forall i, j :: 0 <= i < j < |AllStyles| ==> Value(AllStyles[i]) != Value(AllStyles[j])
  {
    forall s: Style
      ensures s in AllStyles
    {
      match s
      case IndianCommercial => assert AllStyles[0] == s;
      case CatalogEcommerce => assert AllStyles[1] == s;
      case HighFashion => assert AllStyles[2] == s;
    }
  }

  /** The style whose string value is `v`, if any: selecting by value identifies one style. */
  function StyleOfValue(v: string): (r: Option<Style>)
    ensures r.Some? ==> Value(r.value) == v
    ensures r.None? ==> forall s :: Value(s) != v
  {
    if v == Value(IndianCommercial) then Some(IndianCommercial)
    else if v == Value(CatalogEcommerce) then Some(CatalogEcommerce)
    else if v == Value(HighFashion) then Some(HighFashion)
    else None
  }

  /** Reading a style back from its value gives the same style. */
  lemma StyleValueRoundTrip(s: Style)
    ensures StyleOfValue(Value(s)) == Some(s)
  {
  }

  /** The phrase bundle of one style: its name plus nine phrase fields. */
  datatype StyleConfig = StyleConfig(
    name: Style,
    directives: string,
    focalPlane: string,
    lightingSetup: string,
    dofInstruction: string,
    cameraLens: string,
    backgroundStaging: string,
    colorGrading: string,
    modelDescription: string,
    tone: string)

  /**
   * A user-chosen image file. Its base64 encoding is taken as given: the
   * browser's file reader is not part of this model.
   */
  datatype File = File(mimeType: string, base64Data: string)

  /**
   * The form record. The three text fields are always strings and the style is
   * always one of the three styles; only the reference image and its preview
   * handle may be absent.
   */
  datatype FormData = FormData(
    category: string,
    materialDetails: string,
    dimensions: string,
    style: Style,
    referenceImage: Option<File>,
    referenceImagePreview: Option<string>)

  /** The form as a session starts: empty text, Indian Commercial style, no image. */
  const InitialForm: FormData := FormData("", "", "", IndianCommercial, None, None)
}
