# Jewelry prompt canvas — a Dafny model of its core

The application lets a user describe a piece of jewelry (category, material
details, dimensions), pick one of three photographic styles and read off a
professional photography prompt assembled from fixed templates. Two optional
calls to a hosted multimodal model either fill in the form from a reference
image or render a preview image from the prompt.

This project models the parts of that application that are logic rather than
layout:

- `JewelryTypes` (types.ts, plus the initial form of App.tsx): the closed
  style enumeration with its string values, the ten-field style bundle and the
  form record. The datatypes themselves carry two promises of the source: the
  three text fields are always strings and the style is always one of the
  three styles; only the reference image and its preview handle can be absent.
- `Catalog` (constants.ts): the style table and the closing sentence.
- `Text`: the JavaScript string behaviour the compiler depends on —
  `String.prototype.trim` over ECMAScript's whitespace and line-terminator
  code points, and the `||` fallback on strings.
- `Prompt` (`constructPrompt` in components/PromptDisplay.tsx): placeholders
  for empty fields, the six-block template, and the trim.
- `Service` (services/geminiService.ts): the API-key guards, the exact parts
  of both requests, the `{}` fallback for an empty analysis reply and the
  extraction of the first inline image from a generation reply.
- `InputForm` (components/InputForm.tsx): field changes, file choice and the
  merge of an analysis result, as functions from state to state.
- `Preview` (components/PromptDisplay.tsx): the generate-preview handler and
  the clear button.

Everything the browser or the network would supply is an explicit parameter:
the API key is an `Option<string>`, the service's reply (or the reason it
failed) is an input `Result`, the JSON parser is a function parameter that
reads `{}` as an object with no fields, a file is its mime type and its
base64 content, and the preview handle of a chosen file is a string. Each
service call returns the request it sends, or `None` when it fails before
sending anything.

Behaviour worth noting:

- An API key that is set but empty counts as missing, because the guard is
  JavaScript's `!process.env.API_KEY`.
- Choosing a new file does not release the previous preview handle; the code
  never revokes it.
- The prompt has six blocks: the directives line, then SUBJECT,
  PHOTOGRAPHY & LIGHTING, ENVIRONMENT & STYLING, MODEL and FINAL TOUCHES.
- An analysis reply that cannot be parsed is not treated as an empty result.
  The parse error propagates, the handler shows its failure message, and the
  form is left as it was.

## Model

| member | source | states |
|---|---|---|
| JewelryTypes.StylesEnumerated | types.ts:1-5 | There are exactly three styles. Every style is in the list, and the three string values are pairwise distinct. |
| JewelryTypes.StyleOfValue | types.ts:2-4 | Selecting by string value identifies at most one style: a found style has that value, and when nothing is found no style has it. |
| JewelryTypes.StyleValueRoundTrip | types.ts:2-4 | Reading a style back from its own string value gives the same style. |
| Catalog.Config | constants.ts:3-40 | The catalog is total. Each bundle's name is the style it is stored under, and only High-Fashion has a model description other than "Not applicable". |
| Catalog.CatalogWellFormed | constants.ts:4-39 | Every phrase of every bundle is non-empty and has no whitespace at either end. |
| Catalog.IndianCommercialWellFormed | constants.ts:4-15 | Every phrase of the Indian Commercial bundle is non-empty and has no outer whitespace. |
| Catalog.CatalogEcommerceWellFormed | constants.ts:16-27 | Every phrase of the Catalog/E-commerce bundle is non-empty and has no outer whitespace. |
| Catalog.HighFashionWellFormed | constants.ts:28-39 | Every phrase of the High-Fashion bundle is non-empty and has no outer whitespace. |
| Catalog.FinalTouchesIsPhrase | constants.ts:42-44 | The closing sentence is non-empty and has no outer whitespace. |
| Catalog.DirectivesDistinct | constants.ts:6-30 | Two different styles have directives labels that already differ in their first character. |
| Text.TrimStart | components/PromptDisplay.tsx:34 | The result is a suffix of the input, only whitespace was dropped, and it does not start with whitespace. |
| Text.TrimEnd | components/PromptDisplay.tsx:34 | The result is a prefix of the input, only whitespace was dropped, and it does not end with whitespace. |
| Text.Trim | components/PromptDisplay.tsx:34 | The result is a slice of the input with only whitespace outside it, and it has no whitespace at either end. |
| Text.TrimPadded | components/PromptDisplay.tsx:22-34 | Trimming a body that has no outer whitespace, padded by whitespace on both sides, returns exactly the body. |
| Text.TrimIdempotent | components/PromptDisplay.tsx:34 | Trimming twice gives the same string as trimming once. |
| Text.OrElse | components/PromptDisplay.tsx:18-20 | A non-empty string is kept verbatim. The empty string, the only falsy string, is replaced by the fallback. |
| Text.TrimJoinPadded | components/PromptDisplay.tsx:22-34 | Trimming whitespace padding off joined blocks leaves the joined blocks, when the first block starts and the last block ends with a visible character. |
| Prompt.ShownCategory | components/PromptDisplay.tsx:18 | An empty category is shown as `[CATEGORY]`. Any other category is shown verbatim, untrimmed and unescaped. |
| Prompt.ShownMaterialDetails | components/PromptDisplay.tsx:19 | Empty material details are shown as `[MATERIAL_DETAILS]`. Any other value is shown verbatim. |
| Prompt.ShownDimensions | components/PromptDisplay.tsx:20 | Empty dimensions are shown as `[DIMENSIONS]`. Any other value is shown verbatim. |
| Prompt.TrimmedTemplate | components/PromptDisplay.tsx:22-34 | For a well-formed bundle, trimming the template literal removes exactly its leading line break and its trailing line break and indentation. |
| Prompt.JoinedBlocksEnds | components/PromptDisplay.tsx:22-33 | The joined blocks begin with the directives and end with the closing sentence. |
| Prompt.ConstructPrompt | components/PromptDisplay.tsx:16-35 | The trimmed prompt is exactly the six blocks in order, separated by blank lines: directives, SUBJECT, PHOTOGRAPHY & LIGHTING, ENVIRONMENT & STYLING, MODEL, FINAL TOUCHES. |
| Prompt.PromptFrame | components/PromptDisplay.tsx:22-34 | After trimming, the prompt begins with the style's directives and ends with the closing sentence. |
| Prompt.FieldsAppearInBlocks | components/PromptDisplay.tsx:25-27 | The shown category appears in both the SUBJECT and the PHOTOGRAPHY blocks. The shown material details and dimensions appear in the SUBJECT block. |
| Prompt.SubjectShowsFields | components/PromptDisplay.tsx:25 | The SUBJECT sentence contains each of the three values interpolated into it. |
| Prompt.PhotographyShowsCategory | components/PromptDisplay.tsx:27 | The PHOTOGRAPHY sentence contains the category interpolated into it. |
| Prompt.PromptIgnoresImage | components/PromptDisplay.tsx:16-35 | Two forms that agree on the style and the three text fields give the same prompt. The reference image and its preview never matter. |
| Prompt.PromptIdentifiesStyle | components/PromptDisplay.tsx:17-23 | Equal prompts come from the same style. |
| Prompt.EmptyFieldsShowPlaceholders | components/PromptDisplay.tsx:18-27 | With all three text fields empty, the SUBJECT and PHOTOGRAPHY sentences carry the three placeholders. |
| Prompt.CatalogRingSubject | components/PromptDisplay.tsx:25 | A Catalog/E-commerce "Ring" in "18K Yellow Gold, 1ct diamond" measuring "18mm" gets those words verbatim in its SUBJECT sentence. |
| Prompt.InitialPrompt | App.tsx:7-14 | A new session's prompt opens with the Indian Commercial directives and shows the three placeholders. |
| Service.JsonText | services/geminiService.ts:60 | A missing or empty reply text is parsed as `{}`. Any other text is parsed as given. |
| Service.AnalyzeJewelryImage | services/geminiService.ts:19-65 | Without an API key the call fails with the key message and sends nothing. Otherwise it sends exactly the inline image, then the instruction, and asks for the three JSON string fields. A transport failure propagates. An empty reply gives a result with no fields. A parse failure is reported. |
| Service.ResponseParts | services/geminiService.ts:102 | The scanned parts are the first candidate's parts, or none when the candidates, the first candidate or its parts are missing. |
| Service.FirstInline | services/geminiService.ts:102-105 | The index found is the first part carrying inline data. No index is found only when no part carries inline data. |
| Service.ExtractImage | services/geminiService.ts:101-107 | The result succeeds exactly when some part carries inline data. It is the PNG data-URL prefix followed by the first such part's data. Otherwise it fails with "No image data returned". |
| Service.PreviewParts | services/geminiService.ts:78-90 | Without a reference image the parts are just the prompt. With one they are the image, the prompt and the structural-reference instruction, in that order. |
| Service.GeneratePreviewImage | services/geminiService.ts:67-112 | Without an API key the call fails before sending anything. Otherwise it sends the preview parts with no JSON schema. A transport failure propagates, and a reply yields the first inline image of the first candidate. |
| Service.ImageLabelIgnoresMimeType | services/geminiService.ts:103-104 | The returned data URL says PNG whatever mime type the first inline part declared. |
| InputForm.HandleInputChange | components/InputForm.tsx:15-18 | The named field takes the new value. Every other field and both image fields keep their values. |
| InputForm.FormExtensional | types.ts:20-27 | A form record is determined by its four field readings and its two image fields. |
| InputForm.InputChangeWithCurrentValue | components/InputForm.tsx:15-18 | Writing back a field's current value leaves the record unchanged. |
| InputForm.InputChangeOverrides | components/InputForm.tsx:15-18 | A second change to the same field overrides the first. |
| InputForm.InputChangesCommute | components/InputForm.tsx:15-18 | Changes to two different fields give the same record in either order. |
| InputForm.HandleFileChange | components/InputForm.tsx:20-32 | Choosing no file changes nothing. Choosing files sets the first as the reference image with its preview handle and clears the analysis error. The text fields and the style stay as they were. |
| InputForm.MergeAnalysis | components/InputForm.tsx:42-47 | A present, non-empty result field overwrites the current value, and a missing or empty one keeps it. The style and the image fields are never touched. |
| InputForm.MergeIdempotent | components/InputForm.tsx:42-47 | Applying the same result twice gives the same record as applying it once. |
| InputForm.MergeNothing | components/InputForm.tsx:44-46 | A result with no usable field leaves the record unchanged. |
| InputForm.MergeKeepsFilledFields | components/InputForm.tsx:44-46 | A merge never empties a filled-in field. |
| InputForm.StartAnalysis | components/InputForm.tsx:37-38 | When analysis starts the form is busy and no error shows. The record is untouched. |
| InputForm.FinishAnalysis | components/InputForm.tsx:40-52 | When analysis ends the form is no longer busy. A result is merged into the record. A failure leaves the record alone and shows the failure message. |
| InputForm.HandleAutoAnalyze | components/InputForm.tsx:34-53 | Without a reference image nothing happens. Otherwise the form ends idle, merged on success with no error, or unchanged with the failure message. |
| InputForm.AnalyzeWithoutKey | services/geminiService.ts:20-22 | Auto-analysis without an API key sends no request. It leaves the record unchanged and shows the failure message. |
| InputForm.AnalyzeEmptyReply | services/geminiService.ts:60 | A reply without text fills in nothing, so the record is unchanged and no error shows. |
| Preview.BeginGeneration | components/PromptDisplay.tsx:50-51 | When generation starts the panel is busy and the previous image is cleared. |
| Preview.FinishGeneration | components/PromptDisplay.tsx:52-59 | When generation ends the panel is idle. A success shows the new image. A failure leaves the image as it was, which is none once BeginGeneration has cleared it. |
| Preview.HandleGeneratePreview | components/PromptDisplay.tsx:45-60 | Without an API key nothing is sent and the panel is unchanged. Otherwise it sends the compiled prompt and the form's reference image, and ends idle. An image shows exactly when the reply carried an inline part, and the image shown is the PNG data URL of the first inline part. |
| Preview.ClearPreview | components/PromptDisplay.tsx:107 | The clear button removes the image and changes nothing else. |
| Preview.FailedGenerationClearsImage | components/PromptDisplay.tsx:50-59 | A failed generation leaves no image, even when one was showing before. This holds both when the request is rejected and when the reply carries no inline image. |
| Preview.GeneratedImageIsFirstInline | services/geminiService.ts:78-106 | Without a reference image the request is the compiled prompt alone. With or without one, a shown image is the PNG data URL of the reply's first inline part. |

## Left out

- Layout, styling and all JSX, including App.tsx apart from the initial form: they are presentation, not behaviour.
- The SDK client, the model names and the request's response-mime-type option: they belong to the foreign service. A request is modelled as its ordered parts plus the JSON fields it asks for.
- Reading a file as base64 and stripping its data-URL prefix (services/geminiService.ts:5-17), and creating object URLs: these are browser APIs. The encoded data and the preview handle are taken as given.
- The `process.env.API_KEY` lookup: the key is a parameter of every operation that reads it.
- `JSON.parse` on arbitrary text: it is the `parse` parameter. Its result is three optional strings, so values of other JSON types are not modelled.
- Service.ResponseParts: a missing `content` and a missing `parts` are folded into one missing case, because the code treats them alike.
- InputForm.HandleInputChange: it requires a style change to carry one of the three style values, because the style selector offers only those.
- The copy button, the "Copied" flag and its timer, `alert` and `console.error`: these are side effects with no bearing on state.
- Overlapping requests and a stale reply landing after a newer one: the code has no guard against this. Each handler here runs to completion atomically.
- The unused `PromptParts` interface (types.ts:29-35).
- JavaScript strings are sequences of UTF-16 code units, but a Dafny `string` is a sequence of Unicode scalar values, so lone surrogates cannot be represented. This does not affect `trim` or `||` here, because only catalog text reaches the ends of the prompt.
- An inline part's `data` is optional in the SDK. When it is missing, services/geminiService.ts:104 returns `data:image/png;base64,undefined`. The model's `Service.Part` always carries its data, so that case is not modelled.
