/** The body of one image-generation task as run on the worker thread: seed
    selection, size derivation, the inference call, and the choice between
    uploading the PNG to a pre-signed URL and returning it inline as base64.
    Every library call is a field of `Collaborators`. */
module Task {
  import opened Wrappers
  import opened PyStr
  import opened Seeds
  import opened Sizing

  newtype Byte = b: int | 0 <= b < 256

  /** Encoded PNG bytes, opaque to the model. */
  type Png = seq<Byte>

  /** The body of a `/generate` request. `uploadUrl` is `None` when the field
      is absent. */
  datatype GenerateRequest = GenerateRequest(
    prompt: string,
    ratio: string,
    megapixels: real,
    steps: int,
    guidance: real,
    seed: int,
    uploadUrl: Option<string>)

  /** A request with every optional field at its default: ratio `"1:1"`, one
      megapixel, 4 steps, guidance 0, a random seed and no upload URL. */
  function DefaultRequest(prompt: string): GenerateRequest
  {
    GenerateRequest(prompt, SQUARE_RATIO, 1.0, 4, 0.0, RANDOM_SEED, None)
  }

  /** The arguments the inference pipeline is called with. */
  datatype InferenceCall = InferenceCall(
    prompt: string,
    height: int,
    width: int,
    steps: int,
    guidance: real,
    seed: int)

  /** The library calls a task makes, each as its possible outcomes. */
  datatype Collaborators = Collaborators(
    rawSeed: int,                             // the library's random seed
    parse: FloatParser,                       // float()
    sizer: Sizer,                             // sqrt, division and round
    render: InferenceCall -> Outcome<Png>,    // the pipeline and PNG encoding
    encode: Png -> string,                    // base64 encoding
    upload: (string, Png) -> Outcome<()>)     // HTTP PUT and its status check

  /** What a task that does not raise returns. */
  datatype TaskResult =
    | ImageUrl(url: string, seed: int)
    | StorageError(error: string)
    | Base64Image(dataUri: string, seed: int)

  const STORAGE_ERROR_MESSAGE := "Storage problem: Failed to upload image to S3"
  const DATA_URI_PREFIX := "data:image/png;base64,"

  /** The `status_code` field of a task result. */
  function StatusCode(r: TaskResult): (code: int)
    ensures code == 500 <==> r.StorageError?
    ensures code == 200 <==> !r.StorageError?
  {
    match r
    case StorageError(_) => 500
    case _ => 200
  }

  /** The `message` field of a task result, present only on a storage error. */
  function Message(r: TaskResult): (message: Option<string>)
    ensures message.Some? <==> StatusCode(r) == 500
  {
    if r.StorageError? then Some(STORAGE_ERROR_MESSAGE) else None
  }

  /** Python truthiness of `upload_url`: absent and empty both count as no URL. */
  predicate HasUploadUrl(uploadUrl: Option<string>)
  {
    uploadUrl.Some? && uploadUrl.value != ""
  }

  /** Delivery of the PNG: with an upload URL, upload it and report the URL
      without its query string, or a storage error when the upload raises
      (no fallback); without one, return the PNG inline as a data URI. */
  function Deliver(uploadUrl: Option<string>, png: Png, seed: int, env: Collaborators): (r: TaskResult)
    ensures r.Base64Image? <==> !HasUploadUrl(uploadUrl)
    ensures r.ImageUrl? <==> HasUploadUrl(uploadUrl) && env.upload(uploadUrl.value, png).Done?
    ensures r.StorageError? <==> HasUploadUrl(uploadUrl) && env.upload(uploadUrl.value, png).Raised?
    ensures r.StorageError? ==> r.error == env.upload(uploadUrl.value, png).error
    ensures r.ImageUrl? ==> r.url == StripQuery(uploadUrl.value) && r.seed == seed
    ensures r.ImageUrl? ==> r.url <= uploadUrl.value && '?' !in r.url
    ensures r.ImageUrl? && '?' !in uploadUrl.value ==> r.url == uploadUrl.value
    ensures r.Base64Image? ==> r.dataUri == DATA_URI_PREFIX + env.encode(png) && r.seed == seed
  {
    if HasUploadUrl(uploadUrl) then
      match env.upload(uploadUrl.value, png)
      case Done(_) =>
        StripQueryNoQuery(uploadUrl.value);
        ImageUrl(StripQuery(uploadUrl.value), seed)
      case Raised(e) => StorageError(e)
    else
      Base64Image(DATA_URI_PREFIX + env.encode(png), seed)
  }

  /** The seed and size a task derives before calling the pipeline: the
      pipeline is only ever called with aligned sides and the reported seed. */
  function PlannedCall(req: GenerateRequest, env: Collaborators): (call: Outcome<InferenceCall>)
    ensures call.Done? <==> Dimensions(req.ratio, req.megapixels, env.parse, env.sizer).Done?
    ensures call.Raised? ==> call.error == Dimensions(req.ratio, req.megapixels, env.parse, env.sizer).error
    ensures call.Done? ==> call.value.height % ALIGNMENT == 0 && call.value.height >= ALIGNMENT
    ensures call.Done? ==> call.value.width % ALIGNMENT == 0 && call.value.width >= ALIGNMENT
    ensures call.Done? ==>
      (call.value.height, call.value.width) == Dimensions(req.ratio, req.megapixels, env.parse, env.sizer).value
    ensures call.Done? ==> call.value.seed == SelectSeed(req.seed, env.rawSeed)
    ensures call.Done? ==>
      call.value.prompt == req.prompt && call.value.steps == req.steps && call.value.guidance == req.guidance
  {
    var seed := SelectSeed(req.seed, env.rawSeed);
    match Dimensions(req.ratio, req.megapixels, env.parse, env.sizer)
    case Raised(e) => Raised(e)
    case Done((height, width)) => Done(InferenceCall(req.prompt, height, width, req.steps, req.guidance, seed))
  }

  /** `_generate_task`: the generation task's result, or the exception it raises. */
  function GenerateTask(req: GenerateRequest, env: Collaborators): (outcome: Outcome<TaskResult>)
    ensures outcome.Done? <==> PlannedCall(req, env).Done? && env.render(PlannedCall(req, env).value).Done?
    ensures outcome.Done? ==>
      outcome.value == Deliver(req.uploadUrl, env.render(PlannedCall(req, env).value).value,
                               PlannedCall(req, env).value.seed, env)
    ensures outcome.Done? && outcome.value.ImageUrl? ==> outcome.value.url == StripQuery(req.uploadUrl.value)
    ensures outcome.Raised? ==>
      outcome.error == (if PlannedCall(req, env).Raised?
                        then Dimensions(req.ratio, req.megapixels, env.parse, env.sizer).error
                        else env.render(PlannedCall(req, env).value).error)
  {
    match PlannedCall(req, env)
    case Raised(e) => Raised(e)
    case Done(call) =>
      match env.render(call)
      case Raised(e) => Raised(e)
      case Done(png) => Done(Deliver(req.uploadUrl, png, call.seed, env))
  }

  /** Every successful result reports the seed the pipeline ran with: the
      request's seed when it is not -1, otherwise one in [0, 2^32). */
  lemma ReportedSeed(req: GenerateRequest, env: Collaborators)
    requires GenerateTask(req, env).Done? && !GenerateTask(req, env).value.StorageError?
    ensures GenerateTask(req, env).value.seed == PlannedCall(req, env).value.seed
    ensures req.seed != RANDOM_SEED ==> GenerateTask(req, env).value.seed == req.seed
    ensures req.seed == RANDOM_SEED ==> 0 <= GenerateTask(req, env).value.seed < SEED_MODULUS
  {
  }

  /** Resubmitting a request with the seed a task reported makes the same
      inference call, whatever the random source then yields. */
  lemma ResubmittedSeedSameCall(req: GenerateRequest, env: Collaborators, rawLater: int)
    requires PlannedCall(req, env).Done?
    ensures PlannedCall(req.(seed := PlannedCall(req, env).value.seed), env.(rawSeed := rawLater))
      == PlannedCall(req, env)
  {
    SeedReplay(req.seed, env.rawSeed, rawLater);
  }

  /** A ratio string that cannot be used plans the same call as `"1:1"`. */
  lemma MalformedRatioSameCall(req: GenerateRequest, env: Collaborators)
    requires !WellFormedRatio(req.ratio, env.parse)
    requires env.parse("1") == Some(1.0)
    ensures PlannedCall(req, env) == PlannedCall(req.(ratio := SQUARE_RATIO), env)
  {
    MalformedRatioSameSize(req.ratio, req.megapixels, env.parse, env.sizer);
  }

  /** A failed upload yields the storage error, never the base64 form. */
  lemma FailedUploadIsStorageError(req: GenerateRequest, env: Collaborators, png: Png)
    requires HasUploadUrl(req.uploadUrl)
    requires PlannedCall(req, env).Done? && env.render(PlannedCall(req, env).value) == Done(png)
    requires env.upload(req.uploadUrl.value, png).Raised?
    ensures GenerateTask(req, env) == Done(StorageError(env.upload(req.uploadUrl.value, png).error))
    ensures StatusCode(GenerateTask(req, env).value) == 500
    ensures Message(GenerateTask(req, env).value) == Some(STORAGE_ERROR_MESSAGE)
  {
  }

  /** The base64 form is returned only when no upload URL was given. */
  lemma Base64OnlyWithoutUrl(req: GenerateRequest, env: Collaborators)
    requires GenerateTask(req, env).Done?
    ensures GenerateTask(req, env).value.Base64Image? <==> !HasUploadUrl(req.uploadUrl)
  {
  }

  /** A request that sets only its prompt uses a generated seed in
      [0, 2^32), the 1:1 aspect, and gets the image back inline as base64. */
  lemma DefaultRequestShape(prompt: string, env: Collaborators)
    requires env.parse("1") == Some(1.0)
    ensures AspectRatio(DefaultRequest(prompt).ratio, env.parse) == DEFAULT_ASPECT
    ensures PlannedCall(DefaultRequest(prompt), env).Done? ==>
      0 <= PlannedCall(DefaultRequest(prompt), env).value.seed < SEED_MODULUS
    ensures GenerateTask(DefaultRequest(prompt), env).Done? ==>
      GenerateTask(DefaultRequest(prompt), env).value.Base64Image?
  {
    SquareRatioFields();
  }
}
