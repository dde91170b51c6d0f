/**
 * The generation endpoint (app.py, generate_image, POST /api/generate-image):
 * reject a missing or empty prompt, otherwise enhance it, generate an image from
 * the enhanced prompt, and turn the outcome into the JSON response.
 */
module Api {
  import opened Common
  import opened Enhancer
  import opened ImageGen

  /** The HTTP answer: 200 with an image URL, 400 with an error, or 500 for an uncaught exception. */
  datatype GenerateResponse =
    | ImageUrl(imageUrl: string)
    | BadRequest(error: string)
    | InternalError

  function Status(resp: GenerateResponse): int {
    match resp
    case ImageUrl(_) => 200
    case BadRequest(_) => 400
    case InternalError => 500
  }

  const StaticPrefix: string := "/static/"
  const PromptRequired: string := "Prompt is required"

  /**
   * The response for what generate_image_with_openai gave: an image outcome
   * becomes the URL of its file under /static/, a text outcome a 400 carrying
   * its message, and an exception Flask's 500.
   */
  function Respond(result: Result<Outcome, Failure>): (resp: GenerateResponse)
    ensures resp.ImageUrl? <==> result.Ok? && result.value.ImageOutcome?
    ensures resp.ImageUrl? ==>
      |resp.imageUrl| == |StaticPrefix| + |result.value.fileName|
      && resp.imageUrl[..|StaticPrefix|] == StaticPrefix
      && resp.imageUrl[|StaticPrefix|..] == result.value.fileName
    ensures resp.BadRequest? <==> result.Ok? && result.value.TextOutcome?
    ensures resp.BadRequest? ==> resp.error == result.value.message
    ensures resp.InternalError? <==> result.Err?
    ensures Status(resp) == (if result.Err? then 500 else if result.value.ImageOutcome? then 200 else 400)
  {
    match result
    case Err(_) => InternalError
    case Ok(ImageOutcome(name)) => ImageUrl(StaticPrefix + name)
    case Ok(TextOutcome(message)) => BadRequest(message)
  }

  /** `if not prompt`: absent, null and "" are all rejected. */
  predicate PromptGiven(prompt: Option<string>) {
    prompt.Some? && prompt.value != ""
  }

  datatype Handled = Handled(
    response: GenerateResponse,
    calls: seq<ExternalCall>,
    saved: Option<SavedFile>)

  /** generate_image as a function of the request's prompt field and the foreign services' answers. */
  function HandleGenerate(
    prompt: Option<string>,
    gemini: string -> ModelReply,
    images: (ImageModel, string) -> ProviderReply,
    fetch: string -> FetchReply,
    uuid: string): (h: Handled)
    // no prompt: 400 before any external call, nothing written
    ensures !PromptGiven(prompt) <==> h.response == BadRequest(PromptRequired) && h.calls == []
    ensures !PromptGiven(prompt) ==> h.saved == None
    // otherwise the text model is asked first, then the image API with the enhanced prompt
    ensures PromptGiven(prompt) ==>
      var enhanced := Enhance(prompt.value, gemini);
      var g := Generate(enhanced, images, fetch, uuid);
      && h.calls == [GenerateContent(FullPrompt(prompt.value))] + g.calls
      && h.response == Respond(g.result)
      && h.saved == g.saved
    // a 200 always names the file that was written
    ensures h.response.ImageUrl? ==>
      h.saved.Some? && h.saved.value.name == FileNameFor(uuid)
      && h.response.imageUrl == StaticPrefix + h.saved.value.name
  {
    if !PromptGiven(prompt) then
      Handled(BadRequest(PromptRequired), [], None)
    else
      var enhanced := Enhance(prompt.value, gemini);
      var g := Generate(enhanced, images, fetch, uuid);
      Handled(Respond(g.result), [GenerateContent(FullPrompt(prompt.value))] + g.calls, g.saved)
  }

  /** The route body: validation, enhancement, generation, response mapping. */
  method GenerateImageEndpoint(
    store: AssetStore,
    prompt: Option<string>,
    gemini: string -> ModelReply,
    images: (ImageModel, string) -> ProviderReply,
    fetch: string -> FetchReply,
    uuid: string)
    returns (response: GenerateResponse, calls: seq<ExternalCall>)
    modifies store
    ensures response == HandleGenerate(prompt, gemini, images, fetch, uuid).response
    ensures calls == HandleGenerate(prompt, gemini, images, fetch, uuid).calls
    ensures store.files == WithSaved(old(store.files), HandleGenerate(prompt, gemini, images, fetch, uuid).saved)
  {
    if prompt.None? || prompt.value == "" {
      return BadRequest(PromptRequired), [];
    }
    var enhanced := Enhance(prompt.value, gemini);
    var generated, result := GenerateWithOpenAI(store, enhanced, images, fetch, uuid);
    calls := [GenerateContent(FullPrompt(prompt.value))] + generated;
    response := Respond(result);
  }

  /**
   * The scenario of a working pipeline: the model's enhanced text is what the image
   * API is asked for, and the response points at the downloaded bytes' new file.
   */
  lemma HappyPath(
    prompt: string,
    gemini: string -> ModelReply,
    images: (ImageModel, string) -> ProviderReply,
    fetch: string -> FetchReply,
    uuid: string)
    requires prompt != ""
    requires images(DallE3, Enhance(prompt, gemini)).Images?
    requires images(DallE3, Enhance(prompt, gemini)).urls != []
    requires fetch(images(DallE3, Enhance(prompt, gemini)).urls[0]).Fetched?
    ensures var h := HandleGenerate(Some(prompt), gemini, images, fetch, uuid);
      && h.response == ImageUrl(StaticPrefix + uuid + PngSuffix)
      && h.calls[1] == GenerateImages(DallE3, Enhance(prompt, gemini))
      && h.saved == Some(SavedFile(uuid + PngSuffix,
                                    fetch(images(DallE3, Enhance(prompt, gemini)).urls[0]).content))
  {
  }

  /**
   * The prompt check runs before enhancement only: a whitespace-only answer of the
   * text model sends the empty string to the image API.
   */
  lemma BlankAnswerReachesImageApi(
    prompt: string,
    gemini: string -> ModelReply,
    images: (ImageModel, string) -> ProviderReply,
    fetch: string -> FetchReply,
    uuid: string)
    requires prompt != ""
    requires gemini(FullPrompt(prompt)).Text?
    requires AllSpace(gemini(FullPrompt(prompt)).text)
    ensures var h := HandleGenerate(Some(prompt), gemini, images, fetch, uuid);
      |h.calls| >= 2 && h.calls[1] == GenerateImages(DallE3, "")
  {
    BlankAnswerGivesEmptyPrompt(prompt, gemini);
  }
}
