/**
 * The image-generation endpoint: authenticate, validate, resolve the cost, find the user,
 * deduct credits, dispatch to the provider, build the storage key, normalise the image,
 * upload it and persist the generation record. Every external step is an input of the
 * request; the credit ledger, the record store and the bucket are the world it changes.
 */
module Generate {
  import opened Wrappers
  import opened Text
  import Base64
  import Config
  import Models
  import Types
  import Storage
  import Users
  import Generations

  const UNAUTHORIZED: string := "Unauthorized"
  const USER_NOT_FOUND: string := "User not found"
  const INSUFFICIENT_CREDITS: string := "Insufficient credits"
  const SD35_UNAVAILABLE: string := "Stable Diffusion 3.5 Large is not currently available"
  const NO_SILICONFLOW_URL: string := "No image URL returned from SiliconFlow"

  // ─── Image size ─────────────────────────────────────────────────

  /** `getImageSize`: the configured size of the ratio, falling back to "1:1". */
  function GetImageSize(aspectRatio: string): (size: Config.ImageSize)
    ensures aspectRatio in Types.ASPECT_RATIOS ==> size == Config.IMAGE_SIZES[aspectRatio]
    ensures aspectRatio !in Types.ASPECT_RATIOS ==> size.width == 1024 && size.height == 1024
    ensures 0 < size.width <= 1792 && 0 < size.height <= 1792
  {
    Types.ImageSizesCoverRatios();
    Config.ImageSizesBounded();
    if aspectRatio in Config.IMAGE_SIZES then Config.IMAGE_SIZES[aspectRatio] else Config.IMAGE_SIZES["1:1"]
  }

  // ─── Providers ──────────────────────────────────────────────────

  /** The request a provider adapter sends. */
  datatype ProviderCall =
    | HuggingFaceCall(endpoint: string, inputs: string, width: nat, height: nat)
    | SiliconFlowCall(endpoint: string, model: string, prompt: string, imageSize: string,
                      numInferenceSteps: nat, n: nat)

  /** The Hugging Face request for a model: its repository's endpoint, the prompt and the pixel size. */
  function HuggingFaceCallFor(prompt: string, modelId: string, aspectRatio: string): (r: Result<ProviderCall, string>)
    ensures r.Ok? <==> modelId in Models.HF_MODEL_IDS
    ensures r.Err? ==> r.error == "No HuggingFace model mapping for: " + modelId
    ensures r.Ok? ==>
      && r.value.HuggingFaceCall? && r.value.inputs == prompt
      && r.value.endpoint == Config.HUGGINGFACE_ENDPOINT + "/" + Models.HF_MODEL_IDS[modelId]
      && r.value.width == GetImageSize(aspectRatio).width && r.value.height == GetImageSize(aspectRatio).height
  {
    if modelId !in Models.HF_MODEL_IDS then Err("No HuggingFace model mapping for: " + modelId)
    else
      var size := GetImageSize(aspectRatio);
      var endpoint := Config.HUGGINGFACE_ENDPOINT + "/" + Models.HF_MODEL_IDS[modelId];
      Ok(HuggingFaceCall(endpoint, prompt, size.width, size.height))
  }

  /** The data URL the Hugging Face adapter builds from the raw image bytes. */
  function DataUrl(contentType: string, bytes: seq<Base64.byte>): string {
    "data:" + contentType + ";base64," + Base64.Encode(bytes)
  }

  /** The Hugging Face adapter's result for the given HTTP outcome. */
  function HuggingFaceImage(response: Storage.HttpOutcome): Result<string, string>
  {
    match response
    case NetworkError(message) => Err(message)
    case Response(status, body, text, contentType) =>
      if !Storage.IsOk(status) then
        Err("HuggingFace API error (" + NatToString(status) + "): " + text.GetOr("Unknown error"))
      else Ok(DataUrl(contentType.GetOr("image/png"), body))
  }

  /** The Hugging Face adapter yields a data URL whenever it succeeds. */
  lemma HuggingFaceYieldsDataUrl(response: Storage.HttpOutcome)
    requires HuggingFaceImage(response).Ok?
    ensures StartsWith(HuggingFaceImage(response).value, "data:")
  {
    var url := HuggingFaceImage(response).value;
    assert url[..5] == "data:";
  }

  /** The Hugging Face data URL always normalises, whatever a network fetch would answer. */
  lemma HuggingFaceImageAlwaysNormalises(response: Storage.HttpOutcome, fetch: Storage.HttpOutcome)
    requires HuggingFaceImage(response).Ok?
    ensures Storage.FetchAsBuffer(HuggingFaceImage(response).value, fetch).Ok?
  {
    var url := HuggingFaceImage(response).value;
    var contentType := response.contentType.GetOr("image/png");
    var head := "data:" + (contentType + ";base64");
    DataUrlLayout(contentType, response.body);
    assert url[|head|] == ',';
    HuggingFaceYieldsDataUrl(response);
    Storage.DataUrlWithCommaDecodes(url);
  }

  /** The data URL splits as the media type `contentType;base64`, a ',' and the encoded payload. */
  lemma DataUrlLayout(contentType: string, bytes: seq<Base64.byte>)
    ensures DataUrl(contentType, bytes) == "data:" + (contentType + ";base64") + "," + Base64.Encode(bytes)
    ensures ',' !in Base64.Encode(bytes)
  {
  }

  /** Appending `;base64` neither adds a ',' or ':' nor changes the part before the first ';'. */
  lemma Base64MediaType(contentType: string)
    requires ',' !in contentType && ':' !in contentType
    ensures ',' !in contentType + ";base64" && ':' !in contentType + ";base64"
    ensures Before(contentType + ";base64", ';') == Before(contentType, ';')
  {
    assert ',' !in ";base64" && ':' !in ";base64";
    BeforeAppend(contentType, ";base64", ';');
    assert Before(";base64", ';') == "";
  }

  /**
   * Normalising the data URL built from a content type and bytes gives back exactly those
   * bytes and the content type cut at its first ';'.
   */
  lemma DataUrlRoundTrip(contentType: string, bytes: seq<Base64.byte>, response: Storage.HttpOutcome)
    requires ',' !in contentType && ':' !in contentType
    ensures Storage.FetchAsBuffer(DataUrl(contentType, bytes), response)
      == Ok(Storage.Fetched(bytes, Before(contentType, ';')))
  {
    DataUrlLayout(contentType, bytes);
    Base64MediaType(contentType);
    Storage.DataUrlParts(contentType + ";base64", Base64.Encode(bytes), response);
    Base64.RoundTrip(bytes);
  }

  /** The SiliconFlow request: model, prompt, `WIDTHxHEIGHT`, 20 inference steps, one image. */
  function SiliconFlowCallFor(prompt: string, modelId: string, aspectRatio: string): (call: ProviderCall)
    ensures call.SiliconFlowCall? && call.endpoint == Config.SILICONFLOW_ENDPOINT
    ensures call.model == modelId && call.prompt == prompt && call.numInferenceSteps == 20 && call.n == 1
  {
    var size := GetImageSize(aspectRatio);
    SiliconFlowCall(Config.SILICONFLOW_ENDPOINT, modelId, prompt,
      NatToString(size.width) + "x" + NatToString(size.height), 20, 1)
  }

  /** The SiliconFlow `image_size` reads back as the ratio's width, an 'x', and its height. */
  lemma SiliconFlowImageSize(prompt: string, modelId: string, aspectRatio: string)
    ensures var size := GetImageSize(aspectRatio);
      var imageSize := SiliconFlowCallFor(prompt, modelId, aspectRatio).imageSize;
      && Before(imageSize, 'x') == NatToString(size.width)
      && After(imageSize, 'x') == Some(NatToString(size.height))
      && DigitsValue(NatToString(size.width)) == size.width
      && DigitsValue(NatToString(size.height)) == size.height
  {
    var size := GetImageSize(aspectRatio);
    var w, h := NatToString(size.width), NatToString(size.height);
    assert 'x' !in w by {
      forall i | 0 <= i < |w| ensures w[i] != 'x' {
        assert IsDigit(w[i]);
      }
    }
    assert w + "x" + h == w + ['x'] + h;
    SplitAtFirst(w, 'x', h);
    NatToStringRoundTrip(size.width);
    NatToStringRoundTrip(size.height);
  }

  /** The SiliconFlow JSON reply: the `url` of each element of `images` and of `data`, where present. */
  datatype SiliconFlowJson = SiliconFlowJson(images: Option<seq<Option<string>>>, data: Option<seq<Option<string>>>)

  /** `list?.[0]?.url`. */
  function FirstUrl(list: Option<seq<Option<string>>>): Option<string> {
    if list.Some? && |list.value| > 0 then list.value[0] else None
  }

  /** `images[0].url ?? data[0].url`, failing when that is absent or empty. */
  function SiliconFlowImageUrl(json: SiliconFlowJson): (r: Result<string, string>)
    ensures r.Err? ==> r.error == NO_SILICONFLOW_URL
    ensures r.Ok? ==> r.value != ""
  {
    var url := if FirstUrl(json.images).Some? then FirstUrl(json.images) else FirstUrl(json.data);
    if url.None? || url.value == "" then Err(NO_SILICONFLOW_URL) else Ok(url.value)
  }

  /** `images[0].url` wins when present; `data[0].url` is used only when it is absent; an empty or missing URL fails. */
  lemma SiliconFlowUrlChoice(json: SiliconFlowJson)
    ensures FirstUrl(json.images).Some? && FirstUrl(json.images).value != "" ==>
      SiliconFlowImageUrl(json) == Ok(FirstUrl(json.images).value)
    ensures FirstUrl(json.images).Some? && FirstUrl(json.images).value == "" ==>
      SiliconFlowImageUrl(json) == Err(NO_SILICONFLOW_URL)
    ensures FirstUrl(json.images).None? && FirstUrl(json.data).Some? && FirstUrl(json.data).value != "" ==>
      SiliconFlowImageUrl(json) == Ok(FirstUrl(json.data).value)
    ensures FirstUrl(json.images).None? && FirstUrl(json.data) == Some("") ==>
      SiliconFlowImageUrl(json) == Err(NO_SILICONFLOW_URL)
    ensures FirstUrl(json.images).None? && FirstUrl(json.data).None? ==>
      SiliconFlowImageUrl(json) == Err(NO_SILICONFLOW_URL)
  {
  }

  /** The SiliconFlow adapter's result for the given HTTP outcome and parsed reply. */
  function SiliconFlowImage(response: Storage.HttpOutcome, json: SiliconFlowJson): (r: Result<string, string>)
    ensures r.Ok? <==> response.Response? && Storage.IsOk(response.status) && SiliconFlowImageUrl(json).Ok?
    ensures r.Ok? ==> r == SiliconFlowImageUrl(json) && r.value != ""
    ensures response.NetworkError? ==> r == Err(response.message)
    ensures response.Response? && !Storage.IsOk(response.status) ==>
      r == Err("SiliconFlow API error (" + NatToString(response.status) + "): " + response.text.GetOr("Unknown error"))
  {
    match response
    case NetworkError(message) => Err(message)
    case Response(status, _, text, _) =>
      if !Storage.IsOk(status) then
        Err("SiliconFlow API error (" + NatToString(status) + "): " + text.GetOr("Unknown error"))
      else SiliconFlowImageUrl(json)
  }

  // ─── The endpoint ───────────────────────────────────────────────

  /** A network request the endpoint makes, in order. */
  datatype ExternalCall = Provider(call: ProviderCall) | Fetch(url: string) | Put(key: string)

  /** The part of the world one request may change. */
  datatype World = World(
    users: map<string, Users.User>,
    records: seq<Generations.GenerationRecord>,
    objects: map<string, Storage.StoredObject>)

  /** One request with the outcome of every external step it may take. */
  datatype Request = Request(
    clerkId: Option<string>,                 // the authenticated subject, if any (possibly empty)
    body: Result<Types.Body, string>,        // the parsed JSON body, or the parser's error
    huggingFace: Storage.HttpOutcome,        // what the Hugging Face endpoint answers
    imageFetch: Storage.HttpOutcome,         // what fetching a non-data image URL answers
    uploadFailure: Option<string>,           // the upload's transport error, if any
    isoTimestamp: string,                    // the clock, as an ISO-8601 string
    random36: string,                        // Math.random() printed in base 36
    generationId: string,                    // the id the database assigns to the new record
    createdAt: int)                          // the timestamp the database assigns to it

  datatype ResponseBody = Failure(error: string) | Success(generation: Generations.GenerationRecord)

  datatype Response = Response(status: nat, body: ResponseBody)

  /** What a request returns, the world it leaves and the network calls it made. */
  datatype Handled = Handled(response: Response, world: World, calls: seq<ExternalCall>)

  /** `getModelById(modelId)?.cost ?? 1`. */
  function ModelCost(modelId: string): int {
    match Models.GetModelById(modelId)
    case Some(option) => option.cost
    case None => 1
  }

  /** `getModelById(modelId)?.provider ?? "Unknown"`. */
  function ModelProvider(modelId: string): string {
    match Models.GetModelById(modelId)
    case Some(option) => option.provider
    case None => "Unknown"
  }

  /** The outcome of the provider `switch`. */
  datatype Dispatched =
    | Rejected(message: string)
    | Failed(message: string, call: ProviderCall)
    | Generated(imageUrl: string, call: ProviderCall)

  function Dispatch(req: Types.GenerateRequest, huggingFace: Storage.HttpOutcome): (r: Dispatched)
    ensures r.Rejected? <==> req.modelId != Models.SDXL && req.modelId != Models.ANIMAGINE_XL_4
    ensures req.modelId == Models.STABLE_DIFFUSION_3_5_LARGE ==> r == Rejected(SD35_UNAVAILABLE)
    ensures !r.Rejected? ==> r.call == HuggingFaceCallFor(req.prompt, req.modelId, req.aspectRatio).value
    ensures r.Failed? <==> !r.Rejected? && HuggingFaceImage(huggingFace).Err?
    ensures r.Failed? ==> r.message == HuggingFaceImage(huggingFace).error
    ensures r.Generated? ==> r.imageUrl == HuggingFaceImage(huggingFace).value && StartsWith(r.imageUrl, "data:")
  {
    if req.modelId == Models.SDXL || req.modelId == Models.ANIMAGINE_XL_4 then
      // both models have a repository mapping, so the adapter's mapping error cannot occur here
      var call := HuggingFaceCallFor(req.prompt, req.modelId, req.aspectRatio).value;
      match HuggingFaceImage(huggingFace)
      case Err(message) => Failed(message, call)
      case Ok(url) =>
        HuggingFaceYieldsDataUrl(huggingFace);
        Generated(url, call)
    else if req.modelId == Models.STABLE_DIFFUSION_3_5_LARGE then Rejected(SD35_UNAVAILABLE)
    else Rejected("Unsupported model: " + req.modelId)
  }

  /** The fetch `fetchAsBuffer` makes: none for a data URL. */
  function FetchCalls(url: string): seq<ExternalCall> {
    if StartsWith(url, "data:") then [] else [Fetch(url)]
  }

  function ErrorResponse(status: nat, error: string): Response {
    Response(status, Failure(error))
  }

  /** The subject passes the route's `!clerkId` test: it is present and not the empty string. */
  predicate SignedIn(rq: Request) {
    rq.clerkId.Some? && rq.clerkId.value != ""
  }

  /** `POST /api/generate` over a world, as a function: authentication and the schema first. */
  function Handle(w: World, baseUrl: string, rq: Request): Handled
  {
    if !SignedIn(rq) then Handled(ErrorResponse(401, UNAUTHORIZED), w, [])
    else
      match rq.body
      case Err(message) => Handled(ErrorResponse(500, message), w, [])
      case Ok(body) =>
        match Types.Validate(body)
        case Err(issues) => Handled(ErrorResponse(400, Join(issues, ", ")), w, [])
        case Ok(req) => Charge(w, baseUrl, rq, rq.clerkId.value, req)
  }

  /** The cost, the user lookup and the deduction, made before any provider is called. */
  function Charge(w: World, baseUrl: string, rq: Request, clerkId: string, req: Types.GenerateRequest): Handled
  {
    var cost := ModelCost(req.modelId);
    match Users.Lookup(w.users, clerkId)
    case None => Handled(ErrorResponse(404, USER_NOT_FOUND), w, [])
    case Some(user) =>
      match Users.Debit(w.users, clerkId, cost)
      case None => Handled(ErrorResponse(402, INSUFFICIENT_CREDITS), w, [])
      case Some(charged) => Produce(w.(users := charged), baseUrl, rq, req, user.id, cost)
  }

  /** Everything after the deduction: the provider call, then the delivery of its image. */
  function Produce(w: World, baseUrl: string, rq: Request, req: Types.GenerateRequest, userId: string, cost: int)
    : Handled
  {
    match Dispatch(req, rq.huggingFace)
    case Rejected(message) => Handled(ErrorResponse(400, message), w, [])
    case Failed(message, call) => Handled(ErrorResponse(500, message), w, [Provider(call)])
    case Generated(imageUrl, call) => Deliver(w, baseUrl, rq, req, userId, cost, imageUrl, [Provider(call)])
  }

  /** Storage key, normalisation, upload and record for the provider's image; `calls` are those made so far. */
  function Deliver(w: World, baseUrl: string, rq: Request, req: Types.GenerateRequest, userId: string, cost: int,
                   imageUrl: string, calls: seq<ExternalCall>): Handled
  {
    var key := Storage.GenerateStorageKey(Types.IMAGE, rq.isoTimestamp, rq.random36);
    var calls1 := calls + FetchCalls(imageUrl);
    match Storage.FetchAsBuffer(imageUrl, rq.imageFetch)
    case Err(message) => Handled(ErrorResponse(500, message), w, calls1)
    case Ok(fetched) =>
      var calls2 := calls1 + [Put(key)];
      if rq.uploadFailure.Some? then Handled(ErrorResponse(500, rq.uploadFailure.value), w, calls2)
      else
        var rec := NewRecord(baseUrl, key, fetched, req, userId, cost, rq.generationId, rq.createdAt);
        var objects := w.objects[key := Storage.StoredObject(fetched.buffer, fetched.mimeType)];
        Handled(Response(200, Success(rec)), World(w.users, w.records + [rec], objects), calls2)
  }

  /** The record persisted for an uploaded image. */
  function NewRecord(baseUrl: string, key: string, fetched: Storage.Fetched, req: Types.GenerateRequest,
                     userId: string, cost: int, id: string, createdAt: int): (rec: Generations.GenerationRecord)
    ensures rec.id == id && rec.createdAt == createdAt
    ensures rec.url == Storage.PublicUrl(baseUrl, key) && rec.storageKey == key && rec.mimeType == fetched.mimeType
    ensures rec.width == GetImageSize(req.aspectRatio).width && rec.height == GetImageSize(req.aspectRatio).height
    ensures rec.prompt == req.prompt && rec.model == req.modelId && rec.provider == ModelProvider(req.modelId)
    ensures rec.creditsCost == cost && rec.userId == Some(userId)
    ensures rec.outputType == Types.IMAGE && rec.isPublic && rec.duration.None? && rec.negativePrompt.None?
  {
    var size := GetImageSize(req.aspectRatio);
    Generations.MakeRecord(
      Generations.CreateGenerationInput(
        Storage.PublicUrl(baseUrl, key), key, fetched.mimeType, size.width, size.height,
        None, req.prompt, None, req.modelId, ModelProvider(req.modelId), cost,
        None, None, Some(userId)),
      id, createdAt)
  }

  /** The server: the user table, the generation store and the bucket the endpoint writes to. */
  class Server {
    const users: Users.UserTable
    const store: Generations.GenerationStore
    const bucket: Storage.Bucket

    ghost function State(): World
      reads users, store, bucket
    {
      World(users.users, store.records, bucket.objects)
    }

    ghost predicate Valid()
      reads users, store
    {
      users.Valid() && store.Valid()
    }

    constructor(users: Users.UserTable, store: Generations.GenerationStore, bucket: Storage.Bucket)
      requires users.Valid() && store.Valid()
      ensures this.users == users && this.store == store && this.bucket == bucket
      ensures Valid()
    {
      this.users := users;
      this.store := store;
      this.bucket := bucket;
    }

    /** `POST /api/generate`. */
    method Post(rq: Request) returns (response: Response, calls: seq<ExternalCall>)
      requires Valid()
      requires forall i :: 0 <= i < |store.records| ==> store.records[i].id != rq.generationId
      modifies users, store, bucket
      ensures Valid()
      ensures var h := Handle(old(State()), bucket.baseUrl, rq);
        response == h.response && State() == h.world && calls == h.calls
    {
      // 1. Authentication
      if rq.clerkId.None? || rq.clerkId.value == "" {
        return ErrorResponse(401, UNAUTHORIZED), [];
      }
      var clerkId := rq.clerkId.value;

      // 2. Parse and validate the body
      if rq.body.Err? {
        return ErrorResponse(500, rq.body.error), [];
      }
      var parsed := Types.Validate(rq.body.value);
      if parsed.Err? {
        return ErrorResponse(400, Join(parsed.error, ", ")), [];
      }
      var req := parsed.value;

      // 3. Resolve the cost, find the user and deduct before the provider call
      var cost := ModelCost(req.modelId);
      var dbUser := Users.Lookup(users.users, clerkId);
      if dbUser.None? {
        return ErrorResponse(404, USER_NOT_FOUND), [];
      }
      var deducted := users.DeductCredits(clerkId, cost);
      if deducted.Fail? {
        return ErrorResponse(402, INSUFFICIENT_CREDITS), [];
      }

      // 4. Route to the provider
      var aiImageUrl: string;
      var providerCall: ProviderCall;
      if req.modelId == Models.SDXL || req.modelId == Models.ANIMAGINE_XL_4 {
        var hfCall := HuggingFaceCallFor(req.prompt, req.modelId, req.aspectRatio);
        assert hfCall.Ok?;  // both Hugging Face models have a repository mapping
        var image := HuggingFaceImage(rq.huggingFace);
        if image.Err? {
          return ErrorResponse(500, image.error), [Provider(hfCall.value)];
        }
        aiImageUrl, providerCall := image.value, hfCall.value;
      } else if req.modelId == Models.STABLE_DIFFUSION_3_5_LARGE {
        return ErrorResponse(400, SD35_UNAVAILABLE), [];
      } else {
        return ErrorResponse(400, "Unsupported model: " + req.modelId), [];
      }
      calls := [Provider(providerCall)];

      // 5. Storage key
      var key := Storage.GenerateStorageKey(Types.IMAGE, rq.isoTimestamp, rq.random36);

      // 6. Normalise the provider output to bytes and a MIME type
      var fetched := Storage.FetchAsBuffer(aiImageUrl, rq.imageFetch);
      calls := calls + FetchCalls(aiImageUrl);
      if fetched.Err? {
        return ErrorResponse(500, fetched.error), calls;
      }

      // 7. Upload
      calls := calls + [Put(key)];
      var permanentUrl := bucket.Upload(fetched.value.buffer, key, fetched.value.mimeType, rq.uploadFailure);
      if permanentUrl.Err? {
        return ErrorResponse(500, permanentUrl.error), calls;
      }

      // 8. Persist the record
      var size := GetImageSize(req.aspectRatio);
      var input := Generations.CreateGenerationInput(
        permanentUrl.value, key, fetched.value.mimeType, size.width, size.height,
        None, req.prompt, None, req.modelId, ModelProvider(req.modelId), cost,
        None, None, Some(dbUser.value.id));
      var generation := store.Create(input, rq.generationId, rq.createdAt);
      response := Response(200, Success(generation));
    }
  }

  // ─── Properties of the endpoint ─────────────────────────────────

  /** Every model costs one credit, and so does an id the table does not know. */
  lemma EveryRequestCostsOne(modelId: string)
    ensures ModelCost(modelId) == 1
  {
    var found := Models.GetModelById(modelId);
    if found.Some? {
      Models.CostsArePositive();
      var k :| 0 <= k < |Models.MODEL_OPTIONS| && Models.MODEL_OPTIONS[k] == found.value;
    }
  }

  /** Both Hugging Face models are listed under the HuggingFace provider. */
  lemma HuggingFaceModelsProvider(modelId: string)
    requires modelId == Models.SDXL || modelId == Models.ANIMAGINE_XL_4
    ensures ModelProvider(modelId) == "HuggingFace"
  {
    Models.OptionPerModel();
    assert modelId == Models.AI_MODELS[0] || modelId == Models.AI_MODELS[1];
  }

  /** The request is authenticated as `clerkId` and its body passes the schema as `req`. */
  predicate Admitted(rq: Request, clerkId: string, req: Types.GenerateRequest) {
    rq.clerkId == Some(clerkId) && clerkId != "" && rq.body.Ok? && Types.Validate(rq.body.value) == Ok(req)
  }

  /** An admitted request goes on to the charging stage. */
  lemma HandleAdmitted(w: World, baseUrl: string, rq: Request, clerkId: string, req: Types.GenerateRequest)
    requires Admitted(rq, clerkId, req)
    ensures Handle(w, baseUrl, rq) == Charge(w, baseUrl, rq, clerkId, req)
  {
  }

  /** The charging stage: 404 for an unknown user, 402 for a short balance, otherwise the debit and production. */
  lemma ChargeOutcome(w: World, baseUrl: string, rq: Request, clerkId: string, req: Types.GenerateRequest)
    ensures var h := Charge(w, baseUrl, rq, clerkId, req);
      var cost := ModelCost(req.modelId);
      && (clerkId !in w.users ==> h == Handled(Response(404, Failure(USER_NOT_FOUND)), w, []))
      && (clerkId in w.users && w.users[clerkId].credits < cost ==>
            h == Handled(Response(402, Failure(INSUFFICIENT_CREDITS)), w, []))
      && (clerkId in w.users && w.users[clerkId].credits >= cost ==>
            h == Produce(w.(users := Users.Debit(w.users, clerkId, cost).value), baseUrl, rq, req, w.users[clerkId].id, cost))
  {
  }

  /**
   * Delivery leaves the ledger alone and either succeeds with a record or fails with 500,
   * storing no record and no object; it adds a fetch only for a URL that is not a data URL.
   */
  lemma DeliverOutcome(w: World, baseUrl: string, rq: Request, req: Types.GenerateRequest, userId: string, cost: int,
                       imageUrl: string, calls: seq<ExternalCall>)
    ensures var h := Deliver(w, baseUrl, rq, req, userId, cost, imageUrl, calls);
      && h.world.users == w.users
      && (h.response.status == 200 || h.response.status == 500)
      && (h.response.status == 200 <==> h.response.body.Success?)
      && (h.response.status != 200 ==> h.world.records == w.records && h.world.objects == w.objects)
      && h.calls[..|calls|] == calls
      && (StartsWith(imageUrl, "data:") ==>
            forall i :: |calls| <= i < |h.calls| ==> h.calls[i] == Put(Storage.GenerateStorageKey(Types.IMAGE, rq.isoTimestamp, rq.random36)))
  {
  }

  /** Delivery of a data URL ignores the outcome of a network fetch. */
  lemma DeliverIgnoresFetch(w: World, baseUrl: string, rq: Request, req: Types.GenerateRequest, userId: string,
                            cost: int, imageUrl: string, calls: seq<ExternalCall>, fetch: Storage.HttpOutcome)
    requires StartsWith(imageUrl, "data:")
    ensures Deliver(w, baseUrl, rq, req, userId, cost, imageUrl, calls)
      == Deliver(w, baseUrl, rq.(imageFetch := fetch), req, userId, cost, imageUrl, calls)
  {
    Storage.DataUrlNeverFetches(imageUrl, rq.imageFetch, fetch);
  }

  /** Delivery succeeds exactly when normalisation and upload both do. */
  lemma DeliverSucceeds(w: World, baseUrl: string, rq: Request, req: Types.GenerateRequest, userId: string,
                        cost: int, imageUrl: string, calls: seq<ExternalCall>)
    ensures Deliver(w, baseUrl, rq, req, userId, cost, imageUrl, calls).response.status == 200
      <==> Storage.FetchAsBuffer(imageUrl, rq.imageFetch).Ok? && rq.uploadFailure.None?
  {
  }

  /** A successful delivery stores one object, appends one record and makes the fetch (if any) and the upload. */
  lemma DeliverSuccess(w: World, baseUrl: string, rq: Request, req: Types.GenerateRequest, userId: string,
                       cost: int, imageUrl: string, calls: seq<ExternalCall>)
    requires Deliver(w, baseUrl, rq, req, userId, cost, imageUrl, calls).response.status == 200
    ensures Storage.FetchAsBuffer(imageUrl, rq.imageFetch).Ok? && rq.uploadFailure.None?
    ensures var h := Deliver(w, baseUrl, rq, req, userId, cost, imageUrl, calls);
      var key := Storage.GenerateStorageKey(Types.IMAGE, rq.isoTimestamp, rq.random36);
      var fetched := Storage.FetchAsBuffer(imageUrl, rq.imageFetch).value;
      var rec := NewRecord(baseUrl, key, fetched, req, userId, cost, rq.generationId, rq.createdAt);
      && h.response == Response(200, Success(rec))
      && h.world == World(w.users, w.records + [rec], w.objects[key := Storage.StoredObject(fetched.buffer, fetched.mimeType)])
      && h.calls == calls + FetchCalls(imageUrl) + [Put(key)]
  {
  }

  /**
   * The production stage leaves the ledger alone and either succeeds with a record or fails
   * with 400 or 500, storing no record and no object; it calls no provider but Hugging Face
   * and fetches nothing.
   */
  lemma ProduceOutcome(w: World, baseUrl: string, rq: Request, req: Types.GenerateRequest, userId: string, cost: int)
    ensures Produce(w, baseUrl, rq, req, userId, cost).world.users == w.users
    ensures var h := Produce(w, baseUrl, rq, req, userId, cost);
      && h.response.status in {200, 400, 500}
      && (h.response.status == 200 <==> h.response.body.Success?)
      && (h.response.status != 200 ==> h.world.records == w.records && h.world.objects == w.objects)
    ensures var calls := Produce(w, baseUrl, rq, req, userId, cost).calls;
      forall i :: 0 <= i < |calls| ==> calls[i].Put? || (calls[i].Provider? && calls[i].call.HuggingFaceCall?)
  {
    var d := Dispatch(req, rq.huggingFace);
    if d.Generated? {
      var h := Deliver(w, baseUrl, rq, req, userId, cost, d.imageUrl, [Provider(d.call)]);
      assert Produce(w, baseUrl, rq, req, userId, cost) == h;
      DeliverOutcome(w, baseUrl, rq, req, userId, cost, d.imageUrl, [Provider(d.call)]);
      forall i | 0 <= i < |h.calls| ensures h.calls[i].Put? || (h.calls[i].Provider? && h.calls[i].call.HuggingFaceCall?) {
        if i == 0 {
          assert h.calls[0] == h.calls[..1][0];
        }
      }
    }
  }

  /** A successful production is the delivery of the Hugging Face image, after one Hugging Face call. */
  lemma ProduceSuccess(w: World, baseUrl: string, rq: Request, req: Types.GenerateRequest, userId: string, cost: int)
    requires Produce(w, baseUrl, rq, req, userId, cost).response.status == 200
    ensures req.modelId == Models.SDXL || req.modelId == Models.ANIMAGINE_XL_4
    ensures HuggingFaceImage(rq.huggingFace).Ok?
    ensures FetchCalls(HuggingFaceImage(rq.huggingFace).value) == []
    ensures Produce(w, baseUrl, rq, req, userId, cost) == Deliver(w, baseUrl, rq, req, userId, cost,
      HuggingFaceImage(rq.huggingFace).value, [Provider(HuggingFaceCallFor(req.prompt, req.modelId, req.aspectRatio).value)])
  {
    HuggingFaceYieldsDataUrl(rq.huggingFace);
  }


  /** The only statuses are 200, 400, 401, 402, 404 and 500, and 200 is the one that carries a record. */
  lemma StatusCodes(w: World, baseUrl: string, rq: Request)
    ensures var h := Handle(w, baseUrl, rq);
      && h.response.status in {200, 400, 401, 402, 404, 500}
      && (h.response.status == 200 <==> h.response.body.Success?)
  {
    if SignedIn(rq) && rq.body.Ok? && Types.Validate(rq.body.value).Ok? {
      var clerkId, req := rq.clerkId.value, Types.Validate(rq.body.value).value;
      HandleAdmitted(w, baseUrl, rq, clerkId, req);
      ChargeOutcome(w, baseUrl, rq, clerkId, req);
      var cost := ModelCost(req.modelId);
      if clerkId in w.users && w.users[clerkId].credits >= cost {
        ProduceOutcome(w.(users := Users.Debit(w.users, clerkId, cost).value), baseUrl, rq, req, w.users[clerkId].id, cost);
      }
    }
  }

  /** Without a signed-in user, or with an empty subject, the answer is 401 and nothing is read, written or called. */
  lemma UnauthenticatedChangesNothing(w: World, baseUrl: string, rq: Request)
    requires rq.clerkId.None? || rq.clerkId == Some("")
    ensures Handle(w, baseUrl, rq) == Handled(Response(401, Failure(UNAUTHORIZED)), w, [])
  {
  }

  /** A body that cannot be parsed as JSON falls through to the generic 500 with the parser's message. */
  lemma UnparsableBodyFails(w: World, baseUrl: string, rq: Request)
    requires SignedIn(rq) && rq.body.Err?
    ensures Handle(w, baseUrl, rq) == Handled(Response(500, Failure(rq.body.error)), w, [])
  {
  }

  /** A body the schema refuses is answered 400 with the issues joined by ", ", before any user lookup. */
  lemma InvalidBodyRejected(w: World, baseUrl: string, rq: Request)
    requires SignedIn(rq) && rq.body.Ok? && Types.Validate(rq.body.value).Err?
    ensures Handle(w, baseUrl, rq)
      == Handled(Response(400, Failure(Join(Types.Validate(rq.body.value).error, ", "))), w, [])
  {
  }

  /** A signed-in subject without a user row gets 404 and nothing changes. */
  lemma UnknownUserRejected(w: World, baseUrl: string, rq: Request, clerkId: string, req: Types.GenerateRequest)
    requires Admitted(rq, clerkId, req) && clerkId !in w.users
    ensures Handle(w, baseUrl, rq) == Handled(Response(404, Failure(USER_NOT_FOUND)), w, [])
  {
  }

  /** A balance below the cost gets 402 and nothing changes. */
  lemma InsufficientCreditsRejected(w: World, baseUrl: string, rq: Request, clerkId: string, req: Types.GenerateRequest)
    requires Admitted(rq, clerkId, req) && clerkId in w.users
    requires w.users[clerkId].credits < ModelCost(req.modelId)
    ensures Handle(w, baseUrl, rq) == Handled(Response(402, Failure(INSUFFICIENT_CREDITS)), w, [])
  {
  }

  /**
   * Once the balance covers the cost, the cost is deducted whatever happens next: a later
   * failure refunds nothing, and leaves the records and the bucket as they were.
   */
  lemma ChargedBeforeDispatch(w: World, baseUrl: string, rq: Request, clerkId: string, req: Types.GenerateRequest)
    requires Admitted(rq, clerkId, req) && clerkId in w.users
    requires w.users[clerkId].credits >= ModelCost(req.modelId)
    ensures var h := Handle(w, baseUrl, rq);
      && h.world.users == Users.Debit(w.users, clerkId, ModelCost(req.modelId)).value
      && Users.Balance(h.world.users, clerkId) == Users.Balance(w.users, clerkId) - ModelCost(req.modelId)
      && (h.response.status != 200 ==> h.world.records == w.records && h.world.objects == w.objects)
      && (h.response.status != 200 ==> h.response.status == 400 || h.response.status == 500)
  {
    var cost := ModelCost(req.modelId);
    HandleAdmitted(w, baseUrl, rq, clerkId, req);
    ChargeOutcome(w, baseUrl, rq, clerkId, req);
    ProduceOutcome(w.(users := Users.Debit(w.users, clerkId, cost).value), baseUrl, rq, req, w.users[clerkId].id, cost);
  }

  /** Stable Diffusion 3.5 Large is refused with 400, after its credit has been taken. */
  lemma UnavailableModelStillCharged(w: World, baseUrl: string, rq: Request, clerkId: string, req: Types.GenerateRequest)
    requires Admitted(rq, clerkId, req) && req.modelId == Models.STABLE_DIFFUSION_3_5_LARGE
    requires clerkId in w.users && w.users[clerkId].credits >= 1
    ensures var h := Handle(w, baseUrl, rq);
      && h.response == Response(400, Failure(SD35_UNAVAILABLE))
      && h.calls == []
      && Users.Balance(h.world.users, clerkId) == Users.Balance(w.users, clerkId) - 1
      && h.world.records == w.records && h.world.objects == w.objects
  {
    EveryRequestCostsOne(req.modelId);
  }

  /** A Hugging Face error status becomes a 500 naming the status and the reply text; the debit stands. */
  lemma ProviderErrorReported(w: World, baseUrl: string, rq: Request, clerkId: string, req: Types.GenerateRequest)
    requires Admitted(rq, clerkId, req) && (req.modelId == Models.SDXL || req.modelId == Models.ANIMAGINE_XL_4)
    requires clerkId in w.users && w.users[clerkId].credits >= ModelCost(req.modelId)
    requires rq.huggingFace.Response? && !Storage.IsOk(rq.huggingFace.status)
    ensures var h := Handle(w, baseUrl, rq);
      && h.response == Response(500, Failure("HuggingFace API error (" + NatToString(rq.huggingFace.status) + "): "
                                            + rq.huggingFace.text.GetOr("Unknown error")))
      && h.world == w.(users := Users.Debit(w.users, clerkId, ModelCost(req.modelId)).value)
      && h.calls == [Provider(HuggingFaceCallFor(req.prompt, req.modelId, req.aspectRatio).value)]
  {
  }

  /** A Hugging Face network failure becomes a 500 carrying the thrown message; the debit stands. */
  lemma ProviderNetworkErrorReported(w: World, baseUrl: string, rq: Request, clerkId: string, req: Types.GenerateRequest)
    requires Admitted(rq, clerkId, req) && (req.modelId == Models.SDXL || req.modelId == Models.ANIMAGINE_XL_4)
    requires clerkId in w.users && w.users[clerkId].credits >= ModelCost(req.modelId)
    requires rq.huggingFace.NetworkError?
    ensures Handle(w, baseUrl, rq) == Handled(
      Response(500, Failure(rq.huggingFace.message)),
      w.(users := Users.Debit(w.users, clerkId, ModelCost(req.modelId)).value),
      [Provider(HuggingFaceCallFor(req.prompt, req.modelId, req.aspectRatio).value)])
  {
  }

  /**
   * A failed upload becomes a 500 carrying the transport's message, after the Hugging Face call
   * and the attempted put; the debit stands and no record or object is stored.
   */
  lemma UploadFailureReported(w: World, baseUrl: string, rq: Request, clerkId: string, req: Types.GenerateRequest)
    requires Admitted(rq, clerkId, req) && (req.modelId == Models.SDXL || req.modelId == Models.ANIMAGINE_XL_4)
    requires clerkId in w.users && w.users[clerkId].credits >= ModelCost(req.modelId)
    requires HuggingFaceImage(rq.huggingFace).Ok?
    requires rq.uploadFailure.Some?
    ensures Handle(w, baseUrl, rq) == Handled(
      Response(500, Failure(rq.uploadFailure.value)),
      w.(users := Users.Debit(w.users, clerkId, ModelCost(req.modelId)).value),
      [Provider(HuggingFaceCallFor(req.prompt, req.modelId, req.aspectRatio).value),
       Put(Storage.GenerateStorageKey(Types.IMAGE, rq.isoTimestamp, rq.random36))])
  {
    HandleCharged(w, baseUrl, rq, clerkId, req);
    ProduceUploadFailure(w.(users := Users.Debit(w.users, clerkId, ModelCost(req.modelId)).value),
      baseUrl, rq, req, w.users[clerkId].id, ModelCost(req.modelId));
  }

  /** An admitted request from a user who can pay is the production stage run on the charged ledger. */
  lemma HandleCharged(w: World, baseUrl: string, rq: Request, clerkId: string, req: Types.GenerateRequest)
    requires Admitted(rq, clerkId, req)
    requires clerkId in w.users && w.users[clerkId].credits >= ModelCost(req.modelId)
    ensures Handle(w, baseUrl, rq) == Produce(
      w.(users := Users.Debit(w.users, clerkId, ModelCost(req.modelId)).value),
      baseUrl, rq, req, w.users[clerkId].id, ModelCost(req.modelId))
  {
    HandleAdmitted(w, baseUrl, rq, clerkId, req);
    ChargeOutcome(w, baseUrl, rq, clerkId, req);
  }

  /** Production with a Hugging Face image whose upload fails: a 500 after the call and the put. */
  lemma ProduceUploadFailure(w: World, baseUrl: string, rq: Request, req: Types.GenerateRequest, userId: string, cost: int)
    requires req.modelId == Models.SDXL || req.modelId == Models.ANIMAGINE_XL_4
    requires HuggingFaceImage(rq.huggingFace).Ok?
    requires rq.uploadFailure.Some?
    ensures Produce(w, baseUrl, rq, req, userId, cost) == Handled(
      Response(500, Failure(rq.uploadFailure.value)), w,
      [Provider(HuggingFaceCallFor(req.prompt, req.modelId, req.aspectRatio).value),
       Put(Storage.GenerateStorageKey(Types.IMAGE, rq.isoTimestamp, rq.random36))])
  {
    ProduceHuggingFaceImage(w, baseUrl, rq, req, userId, cost);
    HuggingFaceYieldsDataUrl(rq.huggingFace);
    HuggingFaceImageAlwaysNormalises(rq.huggingFace, rq.imageFetch);
    DeliverUploadFailure(w, baseUrl, rq, req, userId, cost, HuggingFaceImage(rq.huggingFace).value,
      Provider(HuggingFaceCallFor(req.prompt, req.modelId, req.aspectRatio).value));
  }

  /** A Hugging Face model whose call yields an image goes on to delivery after that one call. */
  lemma ProduceHuggingFaceImage(w: World, baseUrl: string, rq: Request, req: Types.GenerateRequest, userId: string, cost: int)
    requires req.modelId == Models.SDXL || req.modelId == Models.ANIMAGINE_XL_4
    requires HuggingFaceImage(rq.huggingFace).Ok?
    ensures Produce(w, baseUrl, rq, req, userId, cost) == Deliver(w, baseUrl, rq, req, userId, cost,
      HuggingFaceImage(rq.huggingFace).value, [Provider(HuggingFaceCallFor(req.prompt, req.modelId, req.aspectRatio).value)])
  {
  }

  /** Delivery of a data URL after one call, when the upload fails: a 500 after the put, the world untouched. */
  lemma DeliverUploadFailure(w: World, baseUrl: string, rq: Request, req: Types.GenerateRequest, userId: string,
                             cost: int, imageUrl: string, call: ExternalCall)
    requires StartsWith(imageUrl, "data:") && Storage.FetchAsBuffer(imageUrl, rq.imageFetch).Ok?
    requires rq.uploadFailure.Some?
    ensures Deliver(w, baseUrl, rq, req, userId, cost, imageUrl, [call]) == Handled(
      Response(500, Failure(rq.uploadFailure.value)), w,
      [call, Put(Storage.GenerateStorageKey(Types.IMAGE, rq.isoTimestamp, rq.random36))])
  {
    assert FetchCalls(imageUrl) == [];
    assert [call] + FetchCalls(imageUrl) == [call];
  }


  /** A successful admitted request is the production stage run on the charged ledger. */
  lemma AdmittedSuccess(w: World, baseUrl: string, rq: Request, clerkId: string, req: Types.GenerateRequest)
    requires Admitted(rq, clerkId, req) && Handle(w, baseUrl, rq).response.status == 200
    ensures clerkId in w.users && w.users[clerkId].credits >= ModelCost(req.modelId)
    ensures Handle(w, baseUrl, rq) == Produce(
      w.(users := Users.Debit(w.users, clerkId, ModelCost(req.modelId)).value),
      baseUrl, rq, req, w.users[clerkId].id, ModelCost(req.modelId))
  {
    HandleAdmitted(w, baseUrl, rq, clerkId, req);
    ChargeOutcome(w, baseUrl, rq, clerkId, req);
  }

  /**
   * An admitted request succeeds exactly when the caller exists and can pay, the model is a
   * Hugging Face one, Hugging Face answers with an image and the upload works. The image's data URL
   * always normalises, so normalisation is not a way for the request to fail.
   */
  lemma SuccessIff(w: World, baseUrl: string, rq: Request, clerkId: string, req: Types.GenerateRequest)
    requires Admitted(rq, clerkId, req)
    ensures Handle(w, baseUrl, rq).response.status == 200 <==>
      && clerkId in w.users && w.users[clerkId].credits >= ModelCost(req.modelId)
      && (req.modelId == Models.SDXL || req.modelId == Models.ANIMAGINE_XL_4)
      && HuggingFaceImage(rq.huggingFace).Ok?
      && rq.uploadFailure.None?
  {
    HandleAdmitted(w, baseUrl, rq, clerkId, req);
    ChargeOutcome(w, baseUrl, rq, clerkId, req);
    var cost := ModelCost(req.modelId);
    if clerkId in w.users && w.users[clerkId].credits >= cost {
      var charged := w.(users := Users.Debit(w.users, clerkId, cost).value);
      var userId := w.users[clerkId].id;
      var d := Dispatch(req, rq.huggingFace);
      if d.Generated? {
        DeliverSucceeds(charged, baseUrl, rq, req, userId, cost, d.imageUrl, [Provider(d.call)]);
        HuggingFaceImageAlwaysNormalises(rq.huggingFace, rq.imageFetch);
      }
    }
  }

  /**
   * A successful request appends exactly its record, charges the record's cost to the caller,
   * stores the image under the record's key and makes one Hugging Face call and one upload.
   */
  lemma SuccessRecordsOneGeneration(w: World, baseUrl: string, rq: Request, clerkId: string, req: Types.GenerateRequest,
                                    rec: Generations.GenerationRecord)
    requires Admitted(rq, clerkId, req) && Handle(w, baseUrl, rq).response == Response(200, Success(rec))
    ensures clerkId in w.users
    ensures req.modelId == Models.SDXL || req.modelId == Models.ANIMAGINE_XL_4
    ensures Handle(w, baseUrl, rq).world.records == w.records + [rec]
    ensures rec.id == rq.generationId && rec.createdAt == rq.createdAt
    ensures rec.creditsCost == ModelCost(req.modelId) && rec.userId == Some(w.users[clerkId].id)
    ensures Users.Balance(Handle(w, baseUrl, rq).world.users, clerkId) == Users.Balance(w.users, clerkId) - rec.creditsCost
    ensures rec.storageKey == Storage.GenerateStorageKey(Types.IMAGE, rq.isoTimestamp, rq.random36)
    ensures var objects := Handle(w, baseUrl, rq).world.objects;
      && rec.storageKey in objects && objects[rec.storageKey].contentType == rec.mimeType
      && (forall k :: k in w.objects && k != rec.storageKey ==> k in objects && objects[k] == w.objects[k])
    ensures Handle(w, baseUrl, rq).calls
      == [Provider(HuggingFaceCallFor(req.prompt, req.modelId, req.aspectRatio).value), Put(rec.storageKey)]
  {
    AdmittedSuccess(w, baseUrl, rq, clerkId, req);
    var cost := ModelCost(req.modelId);
    var charged := w.(users := Users.Debit(w.users, clerkId, cost).value);
    ProduceSuccessRecord(charged, baseUrl, rq, req, w.users[clerkId].id, cost, rec);
    ProduceSuccessWorld(charged, baseUrl, rq, req, w.users[clerkId].id, cost, rec);
  }

  /** The record of a successful production: its id, time, cost, owner and key, for a Hugging Face model. */
  lemma ProduceSuccessRecord(w: World, baseUrl: string, rq: Request, req: Types.GenerateRequest, userId: string,
                             cost: int, rec: Generations.GenerationRecord)
    requires Produce(w, baseUrl, rq, req, userId, cost).response == Response(200, Success(rec))
    ensures req.modelId == Models.SDXL || req.modelId == Models.ANIMAGINE_XL_4
    ensures rec.id == rq.generationId && rec.createdAt == rq.createdAt
    ensures rec.creditsCost == cost && rec.userId == Some(userId)
    ensures rec.storageKey == Storage.GenerateStorageKey(Types.IMAGE, rq.isoTimestamp, rq.random36)
  {
    ProduceSuccess(w, baseUrl, rq, req, userId, cost);
    DeliverSuccess(w, baseUrl, rq, req, userId, cost, HuggingFaceImage(rq.huggingFace).value,
      [Provider(HuggingFaceCallFor(req.prompt, req.modelId, req.aspectRatio).value)]);
  }

  /** A successful production appends its record, stores its object and makes the call and the upload. */
  lemma ProduceSuccessWorld(w: World, baseUrl: string, rq: Request, req: Types.GenerateRequest, userId: string,
                            cost: int, rec: Generations.GenerationRecord)
    requires Produce(w, baseUrl, rq, req, userId, cost).response == Response(200, Success(rec))
    ensures var h := Produce(w, baseUrl, rq, req, userId, cost);
      && h.world.users == w.users && h.world.records == w.records + [rec]
      && rec.storageKey in h.world.objects && h.world.objects[rec.storageKey].contentType == rec.mimeType
      && (forall k :: k in w.objects && k != rec.storageKey ==> k in h.world.objects && h.world.objects[k] == w.objects[k])
      && h.calls == [Provider(HuggingFaceCallFor(req.prompt, req.modelId, req.aspectRatio).value), Put(rec.storageKey)]
  {
    ProduceSuccess(w, baseUrl, rq, req, userId, cost);
    DeliverSuccess(w, baseUrl, rq, req, userId, cost, HuggingFaceImage(rq.huggingFace).value,
      [Provider(HuggingFaceCallFor(req.prompt, req.modelId, req.aspectRatio).value)]);
  }


  /**
   * The record of a successful request carries the prompt, the model with its provider, the
   * size of the requested ratio and the public URL of its key; it is a public image.
   */
  lemma SuccessRecordFields(w: World, baseUrl: string, rq: Request, clerkId: string, req: Types.GenerateRequest,
                            rec: Generations.GenerationRecord)
    requires Admitted(rq, clerkId, req) && Handle(w, baseUrl, rq).response == Response(200, Success(rec))
    ensures rec.prompt == req.prompt && rec.model == req.modelId && rec.provider == "HuggingFace"
    ensures rec.outputType == Types.IMAGE && rec.isPublic && rec.duration.None? && rec.negativePrompt.None?
    ensures rec.width == GetImageSize(req.aspectRatio).width && rec.height == GetImageSize(req.aspectRatio).height
    ensures rec.url == Storage.PublicUrl(baseUrl, rec.storageKey)
  {
    AdmittedSuccess(w, baseUrl, rq, clerkId, req);
    var cost := ModelCost(req.modelId);
    var userId := w.users[clerkId].id;
    var charged := w.(users := Users.Debit(w.users, clerkId, cost).value);
    ProduceSuccess(charged, baseUrl, rq, req, userId, cost);
    var url := HuggingFaceImage(rq.huggingFace).value;
    DeliverSuccess(charged, baseUrl, rq, req, userId, cost, url,
      [Provider(HuggingFaceCallFor(req.prompt, req.modelId, req.aspectRatio).value)]);
    HuggingFaceModelsProvider(req.modelId);
  }


  /**
   * A request touches no balance but the caller's, adds at most one record after the existing
   * ones, and calls no provider but Hugging Face and fetches nothing.
   */
  lemma OnlyCallerAffected(w: World, baseUrl: string, rq: Request)
    ensures var h := Handle(w, baseUrl, rq);
      && h.world.users.Keys == w.users.Keys
      && (forall k :: k in w.users && Some(k) != rq.clerkId ==> h.world.users[k] == w.users[k])
      && |w.records| <= |h.world.records| <= |w.records| + 1
      && h.world.records[..|w.records|] == w.records
      && (forall i :: 0 <= i < |h.calls| ==> h.calls[i].Put? || (h.calls[i].Provider? && h.calls[i].call.HuggingFaceCall?))
  {
    if SignedIn(rq) && rq.body.Ok? && Types.Validate(rq.body.value).Ok? {
      var clerkId, req := rq.clerkId.value, Types.Validate(rq.body.value).value;
      HandleAdmitted(w, baseUrl, rq, clerkId, req);
      ChargeOutcome(w, baseUrl, rq, clerkId, req);
      var cost := ModelCost(req.modelId);
      if clerkId in w.users && w.users[clerkId].credits >= cost {
        var charged := w.(users := Users.Debit(w.users, clerkId, cost).value);
        ProduceOutcome(charged, baseUrl, rq, req, w.users[clerkId].id, cost);
        if Produce(charged, baseUrl, rq, req, w.users[clerkId].id, cost).response.status == 200 {
          ProduceSuccess(charged, baseUrl, rq, req, w.users[clerkId].id, cost);
          DeliverSuccess(charged, baseUrl, rq, req, w.users[clerkId].id, cost, HuggingFaceImage(rq.huggingFace).value,
            [Provider(HuggingFaceCallFor(req.prompt, req.modelId, req.aspectRatio).value)]);
        }
      }
    }
  }

  /** Since the provider always answers with a data URL, the outcome of a network image fetch never matters. */
  lemma ImageFetchNeverConsulted(w: World, baseUrl: string, rq: Request, fetch: Storage.HttpOutcome)
    ensures Handle(w, baseUrl, rq) == Handle(w, baseUrl, rq.(imageFetch := fetch))
  {
    var rq2 := rq.(imageFetch := fetch);
    if SignedIn(rq) && rq.body.Ok? && Types.Validate(rq.body.value).Ok? {
      var clerkId, req := rq.clerkId.value, Types.Validate(rq.body.value).value;
      HandleAdmitted(w, baseUrl, rq, clerkId, req);
      HandleAdmitted(w, baseUrl, rq2, clerkId, req);
      ChargeOutcome(w, baseUrl, rq, clerkId, req);
      ChargeOutcome(w, baseUrl, rq2, clerkId, req);
      var cost := ModelCost(req.modelId);
      if clerkId in w.users && w.users[clerkId].credits >= cost {
        var charged := w.(users := Users.Debit(w.users, clerkId, cost).value);
        var userId := w.users[clerkId].id;
        assert Handle(w, baseUrl, rq) == Produce(charged, baseUrl, rq, req, userId, cost);
        assert Handle(w, baseUrl, rq2) == Produce(charged, baseUrl, rq2, req, userId, cost);
        var d := Dispatch(req, rq.huggingFace);
        if d.Generated? {
          DeliverIgnoresFetch(charged, baseUrl, rq, req, userId, cost, d.imageUrl, [Provider(d.call)], fetch);
        }
      }
    }
  }

  /**
   * On success the bucket holds exactly the bytes Hugging Face returned, under the record's key,
   * with the reply's content type cut at its first ';'.
   */
  lemma StoredImageIsProviderImage(w: World, baseUrl: string, rq: Request, clerkId: string, req: Types.GenerateRequest,
                                   rec: Generations.GenerationRecord, contentType: string, bytes: seq<Base64.byte>)
    requires Admitted(rq, clerkId, req) && Handle(w, baseUrl, rq).response == Response(200, Success(rec))
    requires rq.huggingFace.Response? && rq.huggingFace.body == bytes
    requires rq.huggingFace.contentType.GetOr("image/png") == contentType
    requires ',' !in contentType && ':' !in contentType
    ensures rec.mimeType == Before(contentType, ';')
    ensures var objects := Handle(w, baseUrl, rq).world.objects;
      rec.storageKey in objects && objects[rec.storageKey] == Storage.StoredObject(bytes, Before(contentType, ';'))
  {
    AdmittedSuccess(w, baseUrl, rq, clerkId, req);
    var cost := ModelCost(req.modelId);
    var userId := w.users[clerkId].id;
    var charged := w.(users := Users.Debit(w.users, clerkId, cost).value);
    ProduceSuccess(charged, baseUrl, rq, req, userId, cost);
    var url := HuggingFaceImage(rq.huggingFace).value;
    DeliverSuccess(charged, baseUrl, rq, req, userId, cost, url,
      [Provider(HuggingFaceCallFor(req.prompt, req.modelId, req.aspectRatio).value)]);
    DataUrlRoundTrip(contentType, bytes, rq.imageFetch);
  }



  /** The body of the "a cat" scenario passes the schema with the default-free request. */
  lemma CatBodyValid()
    ensures Types.Validate(Types.Object(Types.Str("a cat"), Types.Str(Models.SDXL), Types.Str("1:1")))
      == Ok(Types.GenerateRequest("a cat", Models.SDXL, "1:1"))
  {
  }

  /** The request of the "a cat" scenario: "a cat" on SDXL at 1:1, answered by Hugging Face with a PNG. */
  predicate CatOnSdxl(w: World, rq: Request, clerkId: string, png: seq<Base64.byte>) {
    && rq.clerkId == Some(clerkId) && clerkId != ""
    && rq.body == Ok(Types.Object(Types.Str("a cat"), Types.Str(Models.SDXL), Types.Str("1:1")))
    && clerkId in w.users && w.users[clerkId].credits >= 1
    && rq.huggingFace == Storage.Response(200, png, None, Some("image/png"))
    && rq.uploadFailure.None?
  }

  /** The "a cat" request is admitted and succeeds. */
  lemma CatOnSdxlSucceeds(w: World, baseUrl: string, rq: Request, clerkId: string, png: seq<Base64.byte>)
    requires CatOnSdxl(w, rq, clerkId, png)
    ensures Admitted(rq, clerkId, Types.GenerateRequest("a cat", Models.SDXL, "1:1"))
    ensures Handle(w, baseUrl, rq).response.status == 200
  {
    var req := Types.GenerateRequest("a cat", Models.SDXL, "1:1");
    CatBodyValid();
    assert Admitted(rq, clerkId, req);
    EveryRequestCostsOne(req.modelId);
    assert HuggingFaceImage(rq.huggingFace) == Ok(DataUrl("image/png", png));
    PngMediaType();
    DataUrlRoundTrip("image/png", png, rq.imageFetch);
    SuccessIff(w, baseUrl, rq, clerkId, req);
  }

  /** The 1:1 ratio is rendered at 1024x1024. */
  lemma SquareSize()
    ensures GetImageSize("1:1").width == 1024 && GetImageSize("1:1").height == 1024
  {
    assert "1:1" in Types.ASPECT_RATIOS;
  }

  /** "image/png" holds no ',', ':' or ';'. */
  lemma PngMediaType()
    ensures ',' !in "image/png" && ':' !in "image/png"
    ensures Before("image/png", ';') == "image/png"
  {
    assert ';' !in "image/png";
  }

  /**
   * The record of the "a cat" request: one credit, a 1024x1024 public PNG from Hugging Face, stored
   * unchanged under the key of the request's timestamp and random suffix.
   */
  lemma CatOnSdxlRecord(w: World, baseUrl: string, rq: Request, clerkId: string, png: seq<Base64.byte>,
                        rec: Generations.GenerationRecord)
    requires CatOnSdxl(w, rq, clerkId, png)
    requires Handle(w, baseUrl, rq).response == Response(200, Success(rec))
    ensures rec.creditsCost == 1 && Users.Balance(Handle(w, baseUrl, rq).world.users, clerkId) == w.users[clerkId].credits - 1
    ensures rec.storageKey == Storage.GenerateStorageKey(Types.IMAGE, rq.isoTimestamp, rq.random36)
    ensures rec.width == 1024 && rec.height == 1024 && rec.provider == "HuggingFace" && rec.isPublic
    ensures rec.mimeType == "image/png"
    ensures var objects := Handle(w, baseUrl, rq).world.objects;
      rec.storageKey in objects && objects[rec.storageKey] == Storage.StoredObject(png, "image/png")
  {
    var req := Types.GenerateRequest("a cat", Models.SDXL, "1:1");
    CatOnSdxlSucceeds(w, baseUrl, rq, clerkId, png);
    var h := Handle(w, baseUrl, rq);
    assert rec.creditsCost == 1 && Users.Balance(h.world.users, clerkId) == w.users[clerkId].credits - 1
        && rec.storageKey == Storage.GenerateStorageKey(Types.IMAGE, rq.isoTimestamp, rq.random36) by {
      EveryRequestCostsOne(req.modelId);
      SuccessRecordsOneGeneration(w, baseUrl, rq, clerkId, req, rec);
    }
    assert rec.width == 1024 && rec.height == 1024 && rec.provider == "HuggingFace" && rec.isPublic by {
      SuccessRecordFields(w, baseUrl, rq, clerkId, req, rec);
      SquareSize();
    }
    assert rec.mimeType == "image/png" && rec.storageKey in h.world.objects
        && h.world.objects[rec.storageKey] == Storage.StoredObject(png, "image/png") by {
      PngMediaType();
      StoredImageIsProviderImage(w, baseUrl, rq, clerkId, req, rec, "image/png", png);
    }
  }

  /** Requests carry no idempotency key: the same request succeeding twice records twice and charges twice. */
  lemma RepeatedRequestChargesTwice(w: World, baseUrl: string, rq1: Request, rq2: Request,
                                    clerkId: string, req: Types.GenerateRequest)
    requires Admitted(rq1, clerkId, req) && Admitted(rq2, clerkId, req)
    requires Handle(w, baseUrl, rq1).response.status == 200
    requires Handle(Handle(w, baseUrl, rq1).world, baseUrl, rq2).response.status == 200
    ensures var w2 := Handle(Handle(w, baseUrl, rq1).world, baseUrl, rq2).world;
      && |w2.records| == |w.records| + 2
      && Users.Balance(w2.users, clerkId) == Users.Balance(w.users, clerkId) - 2 * ModelCost(req.modelId)
  {
    var w1 := Handle(w, baseUrl, rq1).world;
    StatusCodes(w, baseUrl, rq1);
    StatusCodes(w1, baseUrl, rq2);
    SuccessRecordsOneGeneration(w, baseUrl, rq1, clerkId, req, Handle(w, baseUrl, rq1).response.body.generation);
    SuccessRecordsOneGeneration(w1, baseUrl, rq2, clerkId, req, Handle(w1, baseUrl, rq2).response.body.generation);
  }
}
