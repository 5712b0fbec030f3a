/**
 * The two calls to the hosted model: image analysis, which returns suggested
 * form fields, and preview generation, which returns a displayable image.
 * The network exchange itself is an input: each call returns the request it
 * would send (or none, when it fails before sending) together with its outcome
 * given the reply.
 */
module Service {
  import opened Wrappers
  import opened JewelryTypes

  /** One unit of request or response content: text, or inline base64 data with its mime type. */
  datatype Part = TextPart(text: string) | InlineData(mimeType: string, data: string)

  /**
   * A request: its content parts in order and, when a structured JSON reply is
   * asked for, the names of the string fields the reply must carry.
   */
  datatype Request = Request(parts: seq<Part>, jsonFields: Option<seq<string>>)

  /** Why a call failed. */
  datatype ServiceError =
    | MissingApiKey(message: string)   // raised before any request is sent
    | Rejected(reason: string)         // the service or network failed; rethrown unchanged
    | Unparseable(reason: string)      // the analysis reply was not valid JSON
    | NoImageData(message: string)     // the generation reply carried no inline image

  /** What a call did: the request it sent, if it got that far, and its outcome. */
  datatype Call<T> = Call(request: Option<Request>, result: Result<T, ServiceError>)

  /** The API key counts as configured only when it is set and non-empty. */
  predicate HasApiKey(apiKey: Option<string>) {
    apiKey.Some? && apiKey.value != ""
  }

  const AnalysisKeyMessage: string := "API Key is missing in environment variables."
  const PreviewKeyMessage: string := "API Key is missing."
  const NoImageMessage: string := "No image data returned from Gemini."

  /** The instruction sent with the image to be analysed, indentation included. */
  const AnalysisInstruction: string :=
    "\n"
    + "    Analyze this jewelry image closely for a professional photography prompt generator.\n"
    + "    Extract the following details accurately:\n"
    + "    1. Category (e.g., Ring, Necklace).\n"
    + "    2. Material Details (e.g., 18K Gold, Emerald, Pave setting).\n"
    + "    3. Estimated Dimensions (e.g., 18mm diameter, 2ct stone).\n"
    + "    \n"
    + "    Return ONLY a JSON object.\n"
    + "  "

  /** The string fields the analysis reply must carry, all of them required. */
  const AnalysisFields: seq<string> := ["category", "materialDetails", "dimensions"]

  /** The instruction that follows the prompt when a reference image is attached. */
  const StructuralReferenceInstruction: string :=
    "Use the attached image as a structural reference for the jewelry item described."

  /** Every generated image is labelled PNG, whatever mime type the reply gave it. */
  const PngDataUrlPrefix: string := "data:image/png;base64,"

  /** The image part of a request: the file's mime type and its base64 content. */
  function InlineImage(file: File): Part {
    InlineData(file.mimeType, file.base64Data)
  }

  // ----- Image analysis -----

  /** The parsed analysis reply: each field may be missing. */
  datatype AnalysisResult = AnalysisResult(
    category: Option<string>,
    materialDetails: Option<string>,
    dimensions: Option<string>)

  /** What parsing the empty JSON object `{}` gives: no field at all. */
  const NoFields: AnalysisResult := AnalysisResult(None, None, None)

  /** The reply text handed to the JSON parser: a missing or empty text becomes `{}`. */
  function JsonText(replyText: Option<string>): (t: string)
    ensures replyText.Some? && replyText.value != "" ==> t == replyText.value
    ensures replyText.None? || replyText.value == "" ==> t == "{}"
  {
    match replyText
    case None => "{}"
    case Some(s) => if s == "" then "{}" else s
  }

  /**
   * Analysis of a reference image. Without an API key it fails before sending
   * anything; otherwise it sends the image followed by the instruction, asking
   * for a JSON object with the three string fields, and parses the reply's text.
   * `reply` is the service's answer (its text, possibly missing) or the reason it
   * failed; `parse` is the JSON parser, which reads `{}` as an object with no fields.
   */
  function AnalyzeJewelryImage(
    apiKey: Option<string>,
    file: File,
    reply: Result<Option<string>, string>,
    parse: string -> Result<AnalysisResult, string>
  ): (c: Call<AnalysisResult>)
    requires parse("{}") == Success(NoFields)
    ensures !HasApiKey(apiKey) ==> c == Call(None, Failure(MissingApiKey(AnalysisKeyMessage)))
    ensures HasApiKey(apiKey) ==>
      c.request == Some(Request([InlineImage(file), TextPart(AnalysisInstruction)], Some(AnalysisFields)))
    ensures HasApiKey(apiKey) && reply.Failure? ==> c.result == Failure(Rejected(reply.error))
    ensures HasApiKey(apiKey) && reply.Success? && (reply.value.None? || reply.value.value == "") ==>
      c.result == Success(NoFields)
    ensures HasApiKey(apiKey) && reply.Success? && reply.value.Some? && reply.value.value != "" ==>
      match parse(reply.value.value)
      case Success(fields) => c.result == Success(fields)
      case Failure(reason) => c.result == Failure(Unparseable(reason))
  {
    if !HasApiKey(apiKey) then
      Call(None, Failure(MissingApiKey(AnalysisKeyMessage)))
    else
      var request := Request([InlineImage(file), TextPart(AnalysisInstruction)], Some(AnalysisFields));
      match reply
      case Failure(reason) => Call(Some(request), Failure(Rejected(reason)))
      case Success(text) =>
        match parse(JsonText(text))
        case Success(fields) => Call(Some(request), Success(fields))
        case Failure(reason) => Call(Some(request), Failure(Unparseable(reason)))
  }

  // ----- Preview generation -----

  /** One candidate of a generation reply; `parts` is missing when its content or parts are. */
  datatype Candidate = Candidate(parts: Option<seq<Part>>)

  /** A generation reply; `candidates` may be missing. */
  datatype Response = Response(candidates: Option<seq<Candidate>>)

  /** The parts of the first candidate, or none when anything on the way is missing. */
  function ResponseParts(r: Response): (ps: seq<Part>)
    ensures (r.candidates.Some? && |r.candidates.value| > 0 && r.candidates.value[0].parts.Some?) ==>
      ps == r.candidates.value[0].parts.value
    ensures !(r.candidates.Some? && |r.candidates.value| > 0 && r.candidates.value[0].parts.Some?) ==>
      ps == []
  {
    match r.candidates
    case None => []
    case Some(cs) =>
      if |cs| == 0 then [] else
      match cs[0].parts
      case None => []
      case Some(ps) => ps
  }

  /** Part `i` is the first part carrying inline data. */
  predicate FirstInlineAt(parts: seq<Part>, i: int) {
    && 0 <= i < |parts|
    && parts[i].InlineData?
    && forall j :: 0 <= j < i ==> !parts[j].InlineData?
  }

  /** The index of the first part carrying inline data, scanning in order. */
  function FirstInline(parts: seq<Part>): (r: Option<nat>)
    ensures r.Some? ==> FirstInlineAt(parts, r.value)
    ensures r.None? ==> forall j :: 0 <= j < |parts| ==> !parts[j].InlineData?
    decreases |parts|
  {
    if |parts| == 0 then None
    else if parts[0].InlineData? then Some(0)
    else
      match FirstInline(parts[1..])
      case None => None
      case Some(k) => Some(k + 1)
  }

  /**
   * The image carried by a generation reply: the data of its first inline part
   * behind the PNG data-URL prefix, or a failure when no part carries inline data.
   */
  function ExtractImage(parts: seq<Part>): (r: Result<string, ServiceError>)
    ensures r.Success? <==> exists i :: 0 <= i < |parts| && parts[i].InlineData?
    ensures r.Success? ==> exists i :: FirstInlineAt(parts, i) && r.value == PngDataUrlPrefix + parts[i].data
    ensures r.Failure? ==> r.error == NoImageData(NoImageMessage)
  {
    match FirstInline(parts)
    case Some(i) => Success(PngDataUrlPrefix + parts[i].data)
    case None => Failure(NoImageData(NoImageMessage))
  }

  /**
   * The parts of a generation request: the prompt alone, or, with a reference
   * image, the image first, then the prompt, then the structural-reference instruction.
   */
  function PreviewParts(prompt: string, referenceImage: Option<File>): (ps: seq<Part>)
    ensures referenceImage.None? ==> ps == [TextPart(prompt)]
    ensures referenceImage.Some? ==>
      ps == [InlineImage(referenceImage.value), TextPart(prompt), TextPart(StructuralReferenceInstruction)]
  {
    var parts := [TextPart(prompt)];
    match referenceImage
    case None => parts
    case Some(file) => [InlineImage(file)] + parts + [TextPart(StructuralReferenceInstruction)]
  }

  /**
   * Preview generation. Without an API key it fails before sending anything;
   * otherwise it sends the preview parts and takes the first inline image of
   * the first candidate. `reply` is the service's answer or the reason it failed.
   */
  function GeneratePreviewImage(
    apiKey: Option<string>,
    prompt: string,
    referenceImage: Option<File>,
    reply: Result<Response, string>
  ): (c: Call<string>)
    ensures !HasApiKey(apiKey) ==> c == Call(None, Failure(MissingApiKey(PreviewKeyMessage)))
    ensures HasApiKey(apiKey) ==> c.request == Some(Request(PreviewParts(prompt, referenceImage), None))
    ensures HasApiKey(apiKey) && reply.Failure? ==> c.result == Failure(Rejected(reply.error))
    ensures HasApiKey(apiKey) && reply.Success? ==> c.result == ExtractImage(ResponseParts(reply.value))
  {
    if !HasApiKey(apiKey) then
      Call(None, Failure(MissingApiKey(PreviewKeyMessage)))
    else
      var request := Request(PreviewParts(prompt, referenceImage), None);
      match reply
      case Failure(reason) => Call(Some(request), Failure(Rejected(reason)))
      case Success(response) => Call(Some(request), ExtractImage(ResponseParts(response)))
  }

  /** The data URL says PNG whatever mime type the inline part declared. */
  lemma ImageLabelIgnoresMimeType(before: seq<Part>, mime1: string, mime2: string, data: string, after: seq<Part>)
    requires forall j :: 0 <= j < |before| ==> !before[j].InlineData?
    ensures ExtractImage(before + [InlineData(mime1, data)] + after)
         == ExtractImage(before + [InlineData(mime2, data)] + after)
         == Success(PngDataUrlPrefix + data)
  {
    var p1 := before + [InlineData(mime1, data)] + after;
    var p2 := before + [InlineData(mime2, data)] + after;
    assert FirstInlineAt(p1, |before|);
    assert FirstInlineAt(p2, |before|);
    FirstInlineUnique(p1, |before|);
    FirstInlineUnique(p2, |before|);
  }

  /** At most one index is the first inline part. */
  lemma FirstInlineUnique(parts: seq<Part>, i: int)
    requires FirstInlineAt(parts, i)
    ensures forall k :: FirstInlineAt(parts, k) ==> k == i
  {
  }
}
