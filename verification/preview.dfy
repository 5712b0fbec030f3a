/**
 * The preview panel beside the prompt: generating a preview image from the
 * compiled prompt and clearing it again.
 */
module Preview {
  import opened Wrappers
  import opened JewelryTypes
  import opened Prompt
  import opened Service

  /** Whether a generation is running, and the image last generated, if any. */
  datatype PreviewState = PreviewState(generatingImage: bool, generatedImageUrl: Option<string>)

  const InitialPreview: PreviewState := PreviewState(false, None)

  /** A handler's effect: the panel's new state and the request it sent, if any. */
  datatype PreviewStep = PreviewStep(state: PreviewState, request: Option<Request>)

  /** The panel as generation starts: busy, with the previous image cleared. */
  function BeginGeneration(ps: PreviewState): (r: PreviewState)
    ensures r.generatingImage && r.generatedImageUrl.None?
  {
    PreviewState(true, None)
  }

  /**
   * The panel once generation has completed: a success shows the new image, a
   * failure leaves the image as it was (none, once generation has begun).
   */
  function FinishGeneration(ps: PreviewState, outcome: Result<string, ServiceError>): (r: PreviewState)
    ensures !r.generatingImage
    ensures outcome.Success? ==> r.generatedImageUrl == Some(outcome.value)
    ensures outcome.Failure? ==> r.generatedImageUrl == ps.generatedImageUrl
  {
    match outcome
    case Success(url) => PreviewState(false, Some(url))
    case Failure(_) => ps.(generatingImage := false)
  }

  /**
   * Pressing "Generate Preview". Without an API key nothing is sent and the panel
   * is unchanged. Otherwise the current image is cleared, the compiled prompt
   * and the form's reference image are sent, and the panel ends idle, showing the
   * new image on success and no image on failure.
   */
  function HandleGeneratePreview(
    ps: PreviewState,
    form: FormData,
    apiKey: Option<string>,
    reply: Result<Response, string>
  ): (r: PreviewStep)
    ensures !HasApiKey(apiKey) ==> r == PreviewStep(ps, None)
    ensures HasApiKey(apiKey) ==> !r.state.generatingImage
    ensures HasApiKey(apiKey) ==>
      r.request == Some(Request(PreviewParts(ConstructPrompt(form), form.referenceImage), None))
    ensures HasApiKey(apiKey) ==>
      (r.state.generatedImageUrl.Some? <==>
         reply.Success? && exists i :: 0 <= i < |ResponseParts(reply.value)| && ResponseParts(reply.value)[i].InlineData?)
    ensures HasApiKey(apiKey) && reply.Success? && r.state.generatedImageUrl.Some? ==>
      exists i :: FirstInlineAt(ResponseParts(reply.value), i)
        && r.state.generatedImageUrl.value == PngDataUrlPrefix + ResponseParts(reply.value)[i].data
  {
    if !HasApiKey(apiKey) then PreviewStep(ps, None)
    else
      var call := GeneratePreviewImage(apiKey, ConstructPrompt(form), form.referenceImage, reply);
      PreviewStep(FinishGeneration(BeginGeneration(ps), call.result), call.request)
  }

  /** The clear button: the image goes, nothing else changes. */
  function ClearPreview(ps: PreviewState): (r: PreviewState)
    ensures r.generatedImageUrl.None?
    ensures r.generatingImage == ps.generatingImage
  {
    ps.(generatedImageUrl := None)
  }

  /**
   * A failed generation leaves no image behind, even when one was showing
   * before, whether the request was rejected or the reply carried no image.
   */
  lemma FailedGenerationClearsImage(ps: PreviewState, form: FormData, apiKey: Option<string>, reply: Result<Response, string>)
    requires HasApiKey(apiKey)
    requires GeneratePreviewImage(apiKey, ConstructPrompt(form), form.referenceImage, reply).result.Failure?
    ensures HandleGeneratePreview(ps, form, apiKey, reply).state == PreviewState(false, None)
  {
  }

  /**
   * A generation whose reply carries image parts shows the first one as a PNG
   * data URL, whether or not a reference image was sent; the request sent is the
   * compiled prompt alone when the form has no reference image.
   */
  lemma GeneratedImageIsFirstInline(ps: PreviewState, form: FormData, apiKey: Option<string>, response: Response)
    requires HasApiKey(apiKey)
    ensures var step := HandleGeneratePreview(ps, form, apiKey, Success(response));
      && (form.referenceImage.None? ==> step.request == Some(Request([TextPart(ConstructPrompt(form))], None)))
      && (step.state.generatedImageUrl.Some? ==>
            exists i :: FirstInlineAt(ResponseParts(response), i)
              && step.state.generatedImageUrl.value == PngDataUrlPrefix + ResponseParts(response)[i].data)
  {
  }
}
