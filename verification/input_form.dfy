/**
 * The input form's state and its event handlers, each a function from the
 * state before the event to the state after it.
 */
module InputForm {
  import opened Wrappers
  import opened Text
  import opened JewelryTypes
  import opened Service

  /** The editable form fields, each named by the `name` of its input control. */
  datatype FieldName = Category | MaterialDetails | Dimensions | StyleField

  /** The string a field's control holds: the text itself, or the style's value. */
  function FieldValue(f: FormData, n: FieldName): string {
    match n
    case Category => f.category
    case MaterialDetails => f.materialDetails
    case Dimensions => f.dimensions
    case StyleField => Value(f.style)
  }

  /**
   * A change event on one control. It replaces the named field with the new
   * value and leaves every other field alone. The style selector only offers
   * the three style values, so a style change always carries one of them.
   */
  function HandleInputChange(f: FormData, n: FieldName, value: string): (r: FormData)
    requires n == StyleField ==> StyleOfValue(value).Some?
    ensures FieldValue(r, n) == value
    ensures forall m :: m != n ==> FieldValue(r, m) == FieldValue(f, m)
    ensures r.referenceImage == f.referenceImage
    ensures r.referenceImagePreview == f.referenceImagePreview
  {
    match n
    case Category => f.(category := value)
    case MaterialDetails => f.(materialDetails := value)
    case Dimensions => f.(dimensions := value)
    case StyleField => f.(style := StyleOfValue(value).value)
  }

  /** The four field readings and the two image fields determine the whole record. */
  lemma FormExtensional(f: FormData, g: FormData)
    requires forall n :: FieldValue(f, n) == FieldValue(g, n)
    requires f.referenceImage == g.referenceImage
    requires f.referenceImagePreview == g.referenceImagePreview
    ensures f == g
  {
    assert FieldValue(f, Category) == FieldValue(g, Category);
    assert FieldValue(f, MaterialDetails) == FieldValue(g, MaterialDetails);
    assert FieldValue(f, Dimensions) == FieldValue(g, Dimensions);
    assert Value(f.style) == Value(g.style) by {
      assert FieldValue(f, StyleField) == FieldValue(g, StyleField);
    }
    StyleValueRoundTrip(f.style);
    StyleValueRoundTrip(g.style);
  }

  /** Writing back a field's current value changes nothing. */
  lemma InputChangeWithCurrentValue(f: FormData, n: FieldName)
    ensures n == StyleField ==> StyleOfValue(FieldValue(f, n)).Some?
    ensures HandleInputChange(f, n, FieldValue(f, n)) == f
  {
    StyleValueRoundTrip(f.style);
    FormExtensional(HandleInputChange(f, n, FieldValue(f, n)), f);
  }

  /** A second change to the same field overrides the first. */
  lemma InputChangeOverrides(f: FormData, n: FieldName, v: string, w: string)
    requires n == StyleField ==> StyleOfValue(v).Some? && StyleOfValue(w).Some?
    ensures HandleInputChange(HandleInputChange(f, n, v), n, w) == HandleInputChange(f, n, w)
  {
    FormExtensional(HandleInputChange(HandleInputChange(f, n, v), n, w), HandleInputChange(f, n, w));
  }

  /** Changes to two different fields can happen in either order. */
  lemma InputChangesCommute(f: FormData, n: FieldName, v: string, m: FieldName, w: string)
    requires n != m
    requires n == StyleField ==> StyleOfValue(v).Some?
    requires m == StyleField ==> StyleOfValue(w).Some?
    ensures HandleInputChange(HandleInputChange(f, n, v), m, w)
         == HandleInputChange(HandleInputChange(f, m, w), n, v)
  {
    FormExtensional(HandleInputChange(HandleInputChange(f, n, v), m, w),
                    HandleInputChange(HandleInputChange(f, m, w), n, v));
  }

  // ----- The form view: the record plus the analysis status -----

  /** The form record together with the analysis status the form shows. */
  datatype FormView = FormView(form: FormData, isAnalyzing: bool, analysisError: Option<string>)

  const InitialView: FormView := FormView(InitialForm, false, None)

  const AnalysisFailedMessage: string :=
    "Failed to analyze image. Please try again or enter details manually."

  /**
   * A file chosen in the file picker. Choosing nothing changes nothing; otherwise
   * the first file becomes the reference image, `previewUrl` (the handle the
   * browser made for it) becomes its preview, and any analysis error is cleared.
   */
  function HandleFileChange(v: FormView, files: seq<File>, previewUrl: string): (r: FormView)
    ensures |files| == 0 ==> r == v
    ensures |files| > 0 ==> r.form.referenceImage == Some(files[0])
    ensures |files| > 0 ==> r.form.referenceImagePreview == Some(previewUrl)
    ensures |files| > 0 ==> r.analysisError == None && r.isAnalyzing == v.isAnalyzing
    ensures forall n :: FieldValue(r.form, n) == FieldValue(v.form, n)
  {
    if |files| == 0 then v
    else
      FormView(
        v.form.(referenceImage := Some(files[0]), referenceImagePreview := Some(previewUrl)),
        v.isAnalyzing,
        None)
  }

  /** A reply field replaces the current value only when it is present and non-empty. */
  predicate Overwrites(field: Option<string>) {
    field.Some? && field.value != ""
  }

  /**
   * Merging an analysis result into the record: present, non-empty fields
   * overwrite; missing or empty ones keep the current value. The style and the
   * image are never touched.
   */
  function MergeAnalysis(f: FormData, res: AnalysisResult): (r: FormData)
    ensures Overwrites(res.category) ==> r.category == res.category.value
    ensures !Overwrites(res.category) ==> r.category == f.category
    ensures Overwrites(res.materialDetails) ==> r.materialDetails == res.materialDetails.value
    ensures !Overwrites(res.materialDetails) ==> r.materialDetails == f.materialDetails
    ensures Overwrites(res.dimensions) ==> r.dimensions == res.dimensions.value
    ensures !Overwrites(res.dimensions) ==> r.dimensions == f.dimensions
    ensures r.style == f.style
    ensures r.referenceImage == f.referenceImage && r.referenceImagePreview == f.referenceImagePreview
  {
    f.(category := Or(res.category, f.category),
       materialDetails := Or(res.materialDetails, f.materialDetails),
       dimensions := Or(res.dimensions, f.dimensions))
  }

  /** JavaScript's `result.x || prev.x` for a reply field that may be missing. */
  function Or(field: Option<string>, current: string): string {
    match field
    case None => current
    case Some(s) => OrElse(s, current)
  }

  /** Applying the same result twice gives the same record as applying it once. */
  lemma MergeIdempotent(f: FormData, res: AnalysisResult)
    ensures MergeAnalysis(MergeAnalysis(f, res), res) == MergeAnalysis(f, res)
  {
  }

  /** A result without usable fields leaves the record as it is. */
  lemma MergeNothing(f: FormData, res: AnalysisResult)
    requires !Overwrites(res.category) && !Overwrites(res.materialDetails) && !Overwrites(res.dimensions)
    ensures MergeAnalysis(f, res) == f
  {
  }

  /** A merge never empties a filled-in field. */
  lemma MergeKeepsFilledFields(f: FormData, res: AnalysisResult, n: FieldName)
    requires FieldValue(f, n) != ""
    ensures FieldValue(MergeAnalysis(f, res), n) != ""
  {
  }

  /**
   * Pressing "auto-analyze". Without a reference image nothing happens. Otherwise
   * the analysis starts (busy, error cleared) and completes with `outcome`: a
   * result is merged into the record, a failure leaves the record alone and shows
   * the failure message. Either way the form is no longer busy afterwards.
   */
  function HandleAutoAnalyze(v: FormView, outcome: Result<AnalysisResult, ServiceError>): (r: FormView)
    ensures v.form.referenceImage.None? ==> r == v
    ensures v.form.referenceImage.Some? ==> !r.isAnalyzing
    ensures v.form.referenceImage.Some? && outcome.Success? ==>
      r.form == MergeAnalysis(v.form, outcome.value) && r.analysisError == None
    ensures v.form.referenceImage.Some? && outcome.Failure? ==>
      r.form == v.form && r.analysisError == Some(AnalysisFailedMessage)
  {
    if v.form.referenceImage.None? then v
    else FinishAnalysis(StartAnalysis(v), outcome)
  }

  /** The form as the analysis starts: busy, with no error showing. */
  function StartAnalysis(v: FormView): (r: FormView)
    ensures r.form == v.form && r.isAnalyzing && r.analysisError == None
  {
    v.(isAnalyzing := true, analysisError := None)
  }

  /** The form once the analysis has completed with `outcome`. */
  function FinishAnalysis(v: FormView, outcome: Result<AnalysisResult, ServiceError>): (r: FormView)
    ensures !r.isAnalyzing
    ensures outcome.Success? ==>
      r.form == MergeAnalysis(v.form, outcome.value) && r.analysisError == v.analysisError
    ensures outcome.Failure? ==> r.form == v.form && r.analysisError == Some(AnalysisFailedMessage)
  {
    match outcome
    case Success(res) => FormView(MergeAnalysis(v.form, res), false, v.analysisError)
    case Failure(_) => FormView(v.form, false, Some(AnalysisFailedMessage))
  }

  /** Without an API key, auto-analysis sends nothing and leaves the record unchanged. */
  lemma AnalyzeWithoutKey(v: FormView, apiKey: Option<string>, reply: Result<Option<string>, string>,
                          parse: string -> Result<AnalysisResult, string>)
    requires v.form.referenceImage.Some?
    requires !HasApiKey(apiKey)
    requires parse("{}") == Success(NoFields)
    ensures var call := AnalyzeJewelryImage(apiKey, v.form.referenceImage.value, reply, parse);
      && call.request.None?
      && HandleAutoAnalyze(v, call.result) == FormView(v.form, false, Some(AnalysisFailedMessage))
  {
  }

  /** A reply without text fills in nothing: the record stays as it was. */
  lemma AnalyzeEmptyReply(v: FormView, apiKey: Option<string>, parse: string -> Result<AnalysisResult, string>)
    requires v.form.referenceImage.Some?
    requires HasApiKey(apiKey)
    requires parse("{}") == Success(NoFields)
    ensures var call := AnalyzeJewelryImage(apiKey, v.form.referenceImage.value, Success(None), parse);
      HandleAutoAnalyze(v, call.result) == FormView(v.form, false, None)
  {
    MergeNothing(v.form, NoFields);
  }
}
