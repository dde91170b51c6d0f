/**
 * Image generation (app.py, generate_image_with_openai): ask dall-e-3 for one
 * image; if that request raises, ask dall-e-2 once, and let a second failure
 * propagate. A reply with no data becomes a "text" outcome naming the model
 * that answered; otherwise the first result's URL is downloaded and its bytes
 * are saved under a fresh "<uuid>.png" name in the static directory.
 */
module ImageGen {
  import opened Common

  /** The image API's answer to one request: the URLs of its results, or an exception. */
  datatype ProviderReply = Images(urls: seq<string>) | ProviderRaised

  /** The download of a result URL: its bytes, or an exception. */
  datatype FetchReply = Fetched(content: seq<byte>) | FetchRaised

  /** The dictionary generate_image_with_openai returns. */
  datatype Outcome = TextOutcome(message: string) | ImageOutcome(fileName: string)

  /** The exception that leaves generate_image_with_openai uncaught. */
  datatype Failure = BothModelsRaised | DownloadRaised(url: string)

  datatype SavedFile = SavedFile(name: string, content: seq<byte>)

  /** Everything one generation does: calls made, result or exception, file written. */
  datatype Generation = Generation(
    calls: seq<ExternalCall>,
    result: Result<Outcome, Failure>,
    saved: Option<SavedFile>)

  const PngSuffix: string := ".png"

  function FileNameFor(uuid: string): (name: string)
    ensures |name| == |uuid| + 4 && name[|uuid|..] == PngSuffix && name[..|uuid|] == uuid
  {
    uuid + PngSuffix
  }

  function NoImageMessage(m: ImageModel): string {
    "No image returned from OpenAI (" + ModelName(m) + ")."
  }

  /** The model whose reply is used: dall-e-2 exactly when dall-e-3 raised. */
  function AnsweringModel(prompt: string, images: (ImageModel, string) -> ProviderReply): ImageModel {
    if images(DallE3, prompt).ProviderRaised? then DallE2 else DallE3
  }

  /**
   * generate_image_with_openai as a function of the foreign services' answers:
   * images(m, p) is what the image API answers model m for prompt p, fetch(u) what
   * downloading u gives, and uuid the random name uuid.uuid4() would produce.
   */
  function Generate(
    prompt: string,
    images: (ImageModel, string) -> ProviderReply,
    fetch: string -> FetchReply,
    uuid: string): (g: Generation)
    // dall-e-3 first, dall-e-2 only after dall-e-3 raised, neither twice
    ensures ImageAttempts(g.calls) ==
      if images(DallE3, prompt).ProviderRaised? then [DallE3, DallE2] else [DallE3]
    ensures forall c :: c in g.calls && c.GenerateImages? ==> c.prompt == prompt
    // a second failure propagates, and nothing is written
    ensures images(DallE3, prompt).ProviderRaised? && images(DallE2, prompt).ProviderRaised?
      <==> g.result == Err(BothModelsRaised)
    // an empty reply names the model that answered, downloads and writes nothing
    ensures g.result.Ok? && g.result.value.TextOutcome? <==>
      images(AnsweringModel(prompt, images), prompt) == Images([])
    ensures images(AnsweringModel(prompt, images), prompt) == Images([]) ==>
      g.result.value.message == NoImageMessage(AnsweringModel(prompt, images))
      && g.saved == None && (forall c :: c in g.calls ==> !c.FetchUrl?)
    // an image outcome is exactly a written file: the bytes of the first result, under uuid.png
    ensures g.saved.Some? <==> g.result.Ok? && g.result.value.ImageOutcome?
    ensures g.saved.Some? ==>
      var reply := images(AnsweringModel(prompt, images), prompt);
      && reply.Images? && reply.urls != []
      && FetchUrl(reply.urls[0]) in g.calls
      && fetch(reply.urls[0]) == Fetched(g.saved.value.content)
      && g.saved.value.name == FileNameFor(uuid)
      && g.result.value.fileName == g.saved.value.name
    ensures
      var reply := images(AnsweringModel(prompt, images), prompt);
      reply.Images? && reply.urls != [] && fetch(reply.urls[0]).Fetched? ==>
        g.result == Ok(ImageOutcome(FileNameFor(uuid)))
    // the calls made, and no others: the image requests, then one download of the
    // first result when there is one
    ensures g.calls ==
      (if images(DallE3, prompt).ProviderRaised?
       then [GenerateImages(DallE3, prompt), GenerateImages(DallE2, prompt)]
       else [GenerateImages(DallE3, prompt)])
      + (var reply := images(AnsweringModel(prompt, images), prompt);
         if reply.Images? && reply.urls != [] then [FetchUrl(reply.urls[0])] else [])
  {
    var model := AnsweringModel(prompt, images);
    var attempts :=
      if model == DallE2 then [GenerateImages(DallE3, prompt), GenerateImages(DallE2, prompt)]
      else [GenerateImages(DallE3, prompt)];
    match images(model, prompt)
    case ProviderRaised => Generation(attempts, Err(BothModelsRaised), None)
    case Images(urls) =>
      if urls == [] then
        Generation(attempts, Ok(TextOutcome(NoImageMessage(model))), None)
      else
        var calls := attempts + [FetchUrl(urls[0])];
        ImageAttemptsAppend(attempts, [FetchUrl(urls[0])]);
        match fetch(urls[0])
        case FetchRaised => Generation(calls, Err(DownloadRaised(urls[0])), None)
        case Fetched(content) =>
          var name := FileNameFor(uuid);
          Generation(calls, Ok(ImageOutcome(name)), Some(SavedFile(name, content)))
  }

  /** The files in the static directory, by name; a write replaces what was there. */
  class AssetStore {
    var files: map<string, seq<byte>>

    constructor (initial: map<string, seq<byte>>)
      ensures files == initial
    {
      files := initial;
    }

    /** save_binary_file: write the bytes under the name. */
    method Save(name: string, content: seq<byte>)
      modifies this
      ensures files == old(files)[name := content]
    {
      files := files[name := content];
    }
  }

  /** The static directory after a generation: the saved file, if any, added. */
  function WithSaved(files: map<string, seq<byte>>, saved: Option<SavedFile>): map<string, seq<byte>> {
    match saved
    case None => files
    case Some(f) => files[f.name := f.content]
  }

  /**
   * generate_image_with_openai step by step: primary request, fallback request,
   * empty-data check, download, write.
   */
  method GenerateWithOpenAI(
    store: AssetStore,
    prompt: string,
    images: (ImageModel, string) -> ProviderReply,
    fetch: string -> FetchReply,
    uuid: string)
    returns (calls: seq<ExternalCall>, result: Result<Outcome, Failure>)
    modifies store
    ensures calls == Generate(prompt, images, fetch, uuid).calls
    ensures result == Generate(prompt, images, fetch, uuid).result
    ensures store.files == WithSaved(old(store.files), Generate(prompt, images, fetch, uuid).saved)
  {
    var model := DallE3;
    calls := [GenerateImages(DallE3, prompt)];
    var reply := images(DallE3, prompt);
    if reply.ProviderRaised? {
      model := DallE2;
      calls := calls + [GenerateImages(DallE2, prompt)];
      reply := images(DallE2, prompt);
      if reply.ProviderRaised? {
        result := Err(BothModelsRaised);
        return;
      }
    }
    if reply.urls == [] {
      result := Ok(TextOutcome(NoImageMessage(model)));
      return;
    }
    var url := reply.urls[0];
    calls := calls + [FetchUrl(url)];
    var download := fetch(url);
    if download.FetchRaised? {
      result := Err(DownloadRaised(url));
      return;
    }
    var name := FileNameFor(uuid);
    store.Save(name, download.content);
    result := Ok(ImageOutcome(name));
  }

  /**
   * The scenario of a failing primary model: dall-e-2's first result is what is
   * stored, and dall-e-3 is not asked again.
   */
  lemma FallbackResultIsStored(
    prompt: string,
    images: (ImageModel, string) -> ProviderReply,
    fetch: string -> FetchReply,
    uuid: string)
    requires images(DallE3, prompt).ProviderRaised?
    requires images(DallE2, prompt).Images? && images(DallE2, prompt).urls != []
    requires fetch(images(DallE2, prompt).urls[0]).Fetched?
    ensures var g := Generate(prompt, images, fetch, uuid);
      && g.result == Ok(ImageOutcome(FileNameFor(uuid)))
      && g.saved == Some(SavedFile(FileNameFor(uuid), fetch(images(DallE2, prompt).urls[0]).content))
      && ImageAttempts(g.calls) == [DallE3, DallE2]
  {
  }

  /** A fresh name only adds a file: every asset stored before is still there, unchanged. */
  lemma FreshNameKeepsAssets(files: map<string, seq<byte>>, saved: Option<SavedFile>)
    requires saved.Some? ==> saved.value.name !in files
    ensures forall n :: n in files ==> n in WithSaved(files, saved) && WithSaved(files, saved)[n] == files[n]
    ensures |WithSaved(files, saved)| == |files| + (if saved.Some? then 1 else 0)
  {
  }
}
