# Image generation endpoint — a Dafny model

This project models the server side of an AI image studio. A signed-in user posts a prompt,
a model id and an aspect ratio to `POST /api/generate`. The endpoint then:

1. checks the request body against a schema;
2. looks up the model's credit cost, which is 1 for an id the model table does not list;
3. finds the user and deducts the credits, before any provider is called;
4. sends the prompt to Hugging Face for the two Hugging Face models and refuses
   Stable Diffusion 3.5 Large;
5. turns the provider's image into bytes and a MIME type, uploads them to an R2 bucket under a
   dated random key, and stores a generation record;
6. returns the record.

Credits taken in step 3 are never refunded when a later step fails.

Modules, one per source file:

- `Types`: the request schema.
- `Config`: image sizes, defaults and endpoints.
- `Models`: the model table.
- `Storage`: storage keys, image normalisation and upload.
- `Users`: the credit ledger.
- `Generations`: generation records and their paged listings.
- `Generate`: the route.

Three helper modules sit beside them. `Wrappers` holds Option and Result. `Text` holds the
JavaScript string operations the code relies on. `Base64` is the base64 alphabet of section 4 of
RFC 4648, with its round trip proved.

The ledger (`Users.UserTable`), the record store (`Generations.GenerationStore`) and the bucket
(`Storage.Bucket`) are classes whose methods update their state. Each method is proved against a
pure function: `Debit`, `Credit`, `Insert`, `MakeRecord`, or a map update.

The endpoint itself is `Generate.Server.Post`, an imperative method over the three stores. It is
proved equal to the pure function `Generate.Handle`, which maps a `World` and a `Request` to the
response, the new world and the list of network calls made. Every external outcome is a field of
the `Request`:

- the authenticated subject;
- the parsed JSON body;
- Hugging Face's HTTP answer;
- the answer to an image fetch;
- an upload failure;
- the clock and `Math.random()`;
- the id and timestamp the database assigns.

The properties of the endpoint are lemmas about `Handle`.

## Model

| member | source | states |
|---|---|---|
| Types.Validate | src/types/index.ts:11-21 | The body is accepted exactly when it is an object whose prompt is a string of 1 to 4000 characters, whose modelId is one of the three model ids, and whose aspectRatio is absent or one of the five ratios. The accepted request carries the prompt, the model and the ratio, with "1:1" when the ratio is absent, and that ratio has an image size. A refused body yields at least one issue. |
| Types.PromptBounds | src/types/index.ts:13-16 | A prompt string passes exactly when it has 1 to 4000 characters. An empty prompt gives "Prompt is required" and a longer one gives "Prompt must be less than 4000 characters". |
| Types.BlankPromptAccepted | src/types/index.ts:13-16 | A prompt of spaces only passes, with the default ratio, because the bound counts characters without trimming. |
| Types.ModelIdAcceptedIff | src/types/index.ts:18 | modelId raises no issue exactly when it is a string naming one of the model enum's values. |
| Types.AspectRatioAcceptedIff | src/types/index.ts:20 | aspectRatio raises no issue exactly when it is absent or one of the five ratio strings. |
| Types.ImageSizesCoverRatios | src/types/index.ts:20 | The ratios the schema admits are exactly the keys of the image-size table. |
| Config.ImageSizesAreTransposes | src/constants/config.ts:9-15 | "1:1" is 1024x1024. 16:9 and 9:16 are transposes of each other, and so are 4:3 and 3:4. |
| Config.ImageSizesBounded | src/constants/config.ts:9-15 | Every configured width and height is positive and at most 1792. |
| Config.DefaultsConsistent | src/constants/config.ts:20-48 | The default ratio has a size. The default page is 1 and the default limit is 20, so the default skip is 0. |
| Models.OnlyAvailable | src/constants/models.ts:63-64 | The filter keeps exactly the available options: each available option as often as the table holds it, and no other option. |
| Models.OnlyAvailableDistributes | src/constants/models.ts:63-64 | The filter keeps table order: filtering a concatenation is the concatenation of the filtered parts. |
| Models.FindById | src/constants/models.ts:67-68 | The result is None exactly when no option has the id. Otherwise it is the first option with that id. |
| Models.GetAvailableModels | src/constants/models.ts:63-64 | The available options, the table filtered by availability. Its behaviour is stated by `OnlyAvailable` (exactly the available entries, in order) and `AvailableModelsAreHuggingFaceOnes` (SDXL and Animagine). |
| Models.GetModelById | src/constants/models.ts:67-68 | The table entry for an id. Its behaviour is stated by `FindById` (the first entry with the id, None iff there is none) and `OptionPerModel` (each model id finds its own entry). |
| Models.AvailableModelsAreHuggingFaceOnes | src/constants/models.ts:35-64 | The available models are SDXL and Animagine XL 4.0, in table order. |
| Models.OptionPerModel | src/constants/models.ts:6-60 | The table has one option per enum value, in enum order and with distinct ids, and the lookup finds each one. |
| Models.OnlySd35Unavailable | src/constants/models.ts:52-59 | The only unavailable option is Stable Diffusion 3.5 Large, served by SiliconFlow. |
| Models.HfIdsMatchProvider | src/constants/models.ts:13-60 | An option has a Hugging Face repository mapping exactly when its provider is HuggingFace. |
| Models.CostsArePositive | src/constants/models.ts:35-60 | Every model costs 1 credit. |
| Storage.GenerateStorageKey | src/services/storage/r2.ts:22-30 | The object key for an upload. Its shape is stated by `StorageKeyLayout`, `StorageDateIsPrefix` and `RandomSuffixShape`. |
| Storage.FetchAsBuffer | src/services/storage/r2.ts:38-58 | Normalises an image URL to bytes and a MIME type. A data URL is decoded locally (`DataUrlNeverFetches`, `DataUrlParts`), and a failed fetch names the status and the URL (`FetchFailureNamesStatusAndUrl`). |
| Storage.DecodeDataUrl | src/services/storage/r2.ts:41-46 | Splits a data URL at its first ',' and ':' and decodes the payload. Its behaviour is stated by `DataUrlParts` and `DataUrlWithCommaDecodes`. |
| Storage.DataUrlWithCommaDecodes | src/services/storage/r2.ts:41-46 | A URL that starts with "data:" and holds a ',' always decodes: the header then holds the ':' of "data:", so neither split fails. |
| Storage.RandomSuffixShape | src/services/storage/r2.ts:24 | The random part is always 8 characters: the base-36 digits after "0.", padded with '0'. It is base-36 whenever the input is. |
| Storage.StorageDateIsPrefix | src/services/storage/r2.ts:23 | The date part is the first 10 characters of the ISO timestamp. |
| Storage.StorageKeyLayout | src/services/storage/r2.ts:22-30 | A key is 41 characters: "generations/image/" or "generations/video/", the date, '_', the 8-character suffix, then ".png" or ".mp4". |
| Storage.DataUrlNeverFetches | src/services/storage/r2.ts:41-46 | A data URL is decoded without consulting any network response. |
| Storage.FetchFailureNamesStatusAndUrl | src/services/storage/r2.ts:48-51 | A non-ok fetch of a plain URL fails with exactly "Failed to fetch image (<status>): " followed by the URL. |
| Storage.DataUrlParts | src/services/storage/r2.ts:41-46 | When the media type has no ',' or ':' and the payload has no ',', `data:<type>,<payload>` decodes to the payload's bytes. Its MIME type is the media type up to its first ';'. |
| Storage.PublicUrlDeterminesKey | src/services/storage/r2.ts:79 | Under one base URL, two public URLs are equal exactly when their keys are. |
| Storage.Bucket.Upload | src/services/storage/r2.ts:65-80 | On success the object is stored under the key with the given content type, the other objects are unchanged, and the result is `<base>/<key>`. On failure nothing changes and the error is returned. |
| Users.Lookup | src/services/user.service.ts:10-16 | The user is found exactly when the clerk id is present, and the result is the stored row for that clerk id. |
| Users.Balance | src/services/user.service.ts:30-37 | The user's credits, or 0 for an unknown clerk id. |
| Users.Debit | src/services/user.service.ts:39-56 | The debit succeeds exactly when the user exists and has at least the amount. It lowers that user's balance by the amount and changes no other user. |
| Users.Credit | src/services/user.service.ts:58-66 | The credit succeeds exactly when the user exists. It raises that user's balance by the amount and changes no other user. |
| Users.DebitThenCreditRestores | src/services/user.service.ts:39-66 | Crediting back what was debited restores the ledger. |
| Users.DebitKeepsBalancesNonNegative | src/services/user.service.ts:48-55 | A successful debit of a non-negative amount leaves every balance non-negative. |
| Users.Insert | src/services/user.service.ts:18-28 | Insertion succeeds exactly when the clerk id is new. The new user is then findable, every existing user is kept, no other row is added (the keys are the old ones plus the new clerk id), and each user stays keyed by its own clerk id. |
| Users.UserTable.CreateUser | src/services/user.service.ts:18-28 | A duplicate clerk id fails and changes nothing. Otherwise the user is created with the table's initial credits: the table becomes `Insert` of the old table, which adds that one row and nothing else. |
| Users.UserTable.DeductCredits | src/services/user.service.ts:39-56 | The deduction passes exactly when `Debit` does, and the table becomes the debited ledger. Otherwise it fails with INSUFFICIENT_CREDITS and changes nothing. |
| Users.UserTable.AddCredits | src/services/user.service.ts:58-66 | The addition passes exactly when the user exists, and the table becomes the credited ledger. Otherwise the update fails with record-not-found and changes nothing. |
| Generations.MakeRecord | src/services/generation.service.ts:37-57 | The row `createGeneration` stores. That it copies every input field and applies the defaults "IMAGE" and public is stated by `CreateCopiesInput`. |
| Generations.CreateCopiesInput | src/services/generation.service.ts:37-58 | The record copies every input field. outputType defaults to IMAGE and isPublic to true. |
| Generations.GenerationStore.Create | src/services/generation.service.ts:37-58 | The record built from the input is appended to the store, and the lookup by its fresh id finds it. |
| Generations.FindById | src/services/generation.service.ts:96-102 | Returns a stored record with the id, or None exactly when no record has it. |
| Generations.FindAfterAppend | src/services/generation.service.ts:96-102 | After a record with a fresh id is appended, a lookup finds that record under its id and is unchanged for every other id. |
| Generations.Where | src/services/generation.service.ts:70-71 | The filter keeps exactly the records satisfying the condition, each as often as it is stored, and no other record. |
| Generations.WhereDistributes | src/services/generation.service.ts:70-71 | The filter keeps stored order: filtering a concatenation is the concatenation of the filtered parts. |
| Generations.InsertByDate | src/services/generation.service.ts:72 | Inserting into a newest-first list keeps it newest first and adds exactly that record. |
| Generations.SortNewestFirst | src/services/generation.service.ts:72 | The result is ordered by createdAt descending and is a permutation of its input. |
| Generations.Page | src/services/generation.service.ts:73-74 | With skip `(page-1)*limit`, the page is the records from skip on: `min(limit, n - skip)` of them, or none when skip reaches the end. A negative skip is refused. Page 1 is the first `limit` records. |
| Generations.PageKeepsOrder | src/services/generation.service.ts:72-74 | A page of a newest-first list is newest first. |
| Generations.Listing | src/services/generation.service.ts:63-91 | A listing is the requested page (page 1 and limit 20 by default) of the matching records sorted newest first. It holds only matching stored records, newest first, at most the limit. Without a page it never fails. |
| Generations.GetUserGenerations | src/services/generation.service.ts:63-76 | The listing is the requested page (1 and 20 by default) of the user's records, newest first. |
| Generations.GetPublicGenerations | src/services/generation.service.ts:81-91 | The listing is the requested page (1 and 20 by default) of the public records, newest first. |
| Generations.DefaultPageIsNewestTwenty | src/services/generation.service.ts:63-76 | Without page or limit, the listing is the user's 20 newest records. |
| Generations.FirstPagesArePrefix | src/services/generation.service.ts:73-74 | Reading pages 1 to n in turn yields exactly the first `n*limit` records, with no gap and no repeat. |
| Generations.UserPagesCoverAll | src/services/generation.service.ts:60-76 | Paging through a user's listing until the pages can hold all of the user's records yields each of the user's records exactly as often as it is stored, and nothing else, newest first. |
| Generations.PublicPagesCoverAll | src/services/generation.service.ts:78-91 | Paging through the gallery until the pages can hold all public records yields each public record exactly as often as it is stored, and nothing else, newest first. |
| Base64.Encode | src/app/api/generate/route.ts:60 | The encoding's length is `4*ceil(n/3)` and it contains no ',', ':' or ';'. |
| Base64.RoundTrip | src/services/storage/r2.ts:44 | Decoding the base64 encoding of any bytes gives the bytes back. |
| Generate.GetImageSize | src/app/api/generate/route.ts:19-21 | A listed ratio gets its configured size. Any other string (one that is not a property name inherited by every JavaScript object) gets 1024x1024. Both sides are within 1..1792. |
| Generate.HuggingFaceCallFor | src/app/api/generate/route.ts:30-51 | The call is built exactly when the model has a repository mapping; otherwise it fails with "No HuggingFace model mapping for: <id>". A built call posts the prompt to the Hugging Face endpoint, then '/', then the model's repository, with the ratio's width and height. |
| Generate.HuggingFaceImage | src/app/api/generate/route.ts:53-63 | The Hugging Face adapter's result. It gives a data URL of the reply (`HuggingFaceYieldsDataUrl`, `DataUrlRoundTrip`) that always normalises (`HuggingFaceImageAlwaysNormalises`), and an error status gives the route's message (`ProviderErrorReported`). |
| Generate.HuggingFaceImageAlwaysNormalises | src/app/api/generate/route.ts:53-63 | The Hugging Face data URL always normalises, whatever a network fetch would answer. So normalisation is never how a Hugging Face request fails. |
| Generate.HuggingFaceYieldsDataUrl | src/app/api/generate/route.ts:58-63 | A successful Hugging Face answer always becomes a `data:` URL. |
| Generate.DataUrlRoundTrip | src/app/api/generate/route.ts:58-63 | When the content type has no ',' or ':', normalising the data URL built from it gives back exactly the original bytes. The MIME type is the content type up to its first ';'. |
| Generate.SiliconFlowImageUrl | src/app/api/generate/route.ts:95-102 | The SiliconFlow result is either a non-empty URL or the "No image URL returned from SiliconFlow" error. |
| Generate.SiliconFlowUrlChoice | src/app/api/generate/route.ts:96-101 | `images[0].url` wins when present. `data[0].url` is used only when it is absent. An empty or missing URL fails, including an empty `data[0].url` when `images[0].url` is absent. |
| Generate.SiliconFlowCallFor | src/app/api/generate/route.ts:75-88 | The SiliconFlow request goes to the SiliconFlow endpoint with the model id, the prompt, 20 inference steps and one image. |
| Generate.SiliconFlowImageSize | src/app/api/generate/route.ts:73-84 | The request's `image_size` reads back as the ratio's width, an 'x', and its height. |
| Generate.SiliconFlowImage | src/app/api/generate/route.ts:90-102 | The adapter succeeds exactly when the reply is ok and carries a URL, and then yields that non-empty URL. A network failure passes its message on. An error status gives exactly "SiliconFlow API error (<status>): " followed by the reply text, or by "Unknown error" when the text cannot be read. |
| Generate.Dispatch | src/app/api/generate/route.ts:164-188 | Only SDXL and Animagine go to a provider. Stable Diffusion 3.5 Large gets its "not currently available" refusal. A provider error is passed on unchanged. A provider success is a data URL. |
| Generate.NewRecord | src/app/api/generate/route.ts:199-213 | The record has the public URL of the key, the key, the fetched MIME type, the ratio's size, the prompt, the model and its provider, the cost and the user. It is a public IMAGE with no duration or negative prompt. |
| Generate.Server.Post | src/app/api/generate/route.ts:107-233 | The method's response, network calls, ledger, record store and bucket are exactly those of `Handle` applied to the state before the call. A missing or empty subject is answered 401, like the route's `!clerkId` test. |
| Generate.ModelCost | src/app/api/generate/route.ts:138-139 | The table cost of the model, or 1 for an unknown one. `EveryRequestCostsOne` states that it is 1 for every id. |
| Generate.ModelProvider | src/app/api/generate/route.ts:210 | The table provider of the model, or "Unknown". `HuggingFaceModelsProvider` states that it is "HuggingFace" for both Hugging Face models. |
| Generate.Handle | src/app/api/generate/route.ts:107-233 | The whole route as a function of the world and the request. `Server.Post` is proved equal to it. `StatusCodes`, `SuccessIff`, `UnauthenticatedChangesNothing`, `ChargedBeforeDispatch` and `OnlyCallerAffected` state its outcomes. |
| Generate.Charge | src/app/api/generate/route.ts:136-159 | The user lookup and the deduction. `ChargeOutcome` states its three outcomes (404, 402, debit then production). |
| Generate.Produce | src/app/api/generate/route.ts:161-188 | The provider dispatch after the deduction. `ProduceOutcome` and `ProduceSuccess` state its outcomes. |
| Generate.Deliver | src/app/api/generate/route.ts:190-221 | The storage key, normalisation, upload and record. `DeliverOutcome`, `DeliverSucceeds`, `DeliverSuccess` and `DeliverUploadFailure` state its outcomes. |
| Generate.EveryRequestCostsOne | src/app/api/generate/route.ts:138-139 | The resolved cost is 1 for every model id, including ids the table does not list. |
| Generate.HuggingFaceModelsProvider | src/app/api/generate/route.ts:210 | SDXL and Animagine are recorded with provider "HuggingFace". |
| Generate.ChargeOutcome | src/app/api/generate/route.ts:136-159 | An unknown user gets 404 and a balance below the cost gets 402, with nothing changed and no call made. Otherwise production runs on the debited ledger. |
| Generate.DeliverOutcome | src/app/api/generate/route.ts:190-221 | Delivery never touches the ledger and answers 200 (with a record) or 500. A 500 stores no record and no object. Delivery keeps the earlier calls and, after a data URL, adds only the upload. |
| Generate.DeliverIgnoresFetch | src/app/api/generate/route.ts:194 | Delivering a data URL does not depend on the image-fetch outcome. |
| Generate.DeliverSucceeds | src/app/api/generate/route.ts:190-221 | Delivery answers 200 exactly when normalisation and upload both succeed. |
| Generate.DeliverSuccess | src/app/api/generate/route.ts:190-221 | A successful delivery answers with the new record, appends it, stores the object under the key, and makes the fetch (if any) and the upload. |
| Generate.ProduceOutcome | src/app/api/generate/route.ts:161-221 | Production never touches the ledger. It answers 200, 400 or 500, with a record exactly on 200. Failures store nothing. Its only calls are to Hugging Face or uploads. |
| Generate.ProduceSuccess | src/app/api/generate/route.ts:161-194 | A successful production used a Hugging Face model whose answer was ok. It is the delivery of that data URL after exactly one Hugging Face call, with no image fetch. |
| Generate.StatusCodes | src/app/api/generate/route.ts:107-233 | The status is one of 200, 400, 401, 402, 404 or 500, and the body carries a record exactly on 200. |
| Generate.UnauthenticatedChangesNothing | src/app/api/generate/route.ts:109-116 | Without a signed-in user, or with an empty subject, the answer is 401 "Unauthorized", with nothing changed and no call made. |
| Generate.UnparsableBodyFails | src/app/api/generate/route.ts:222-231 | A body that is not JSON falls through to the catch-all 500 with the parser's message, and nothing changes. |
| Generate.InvalidBodyRejected | src/app/api/generate/route.ts:120-132 | A body the schema refuses gets 400 with the issue messages joined by ", ", before any lookup or charge. |
| Generate.UnknownUserRejected | src/app/api/generate/route.ts:141-147 | A subject without a user row gets 404 "User not found" and nothing changes. |
| Generate.InsufficientCreditsRejected | src/app/api/generate/route.ts:149-159 | A balance below the cost gets 402 "Insufficient credits" and nothing changes. |
| Generate.ChargedBeforeDispatch | src/app/api/generate/route.ts:136-188 | Once a user is found and can pay, the ledger is debited by the cost whatever follows. A later failure (400 or 500) keeps the debit and stores nothing. |
| Generate.UnavailableModelStillCharged | src/app/api/generate/route.ts:174-181 | A request for Stable Diffusion 3.5 Large is charged, then refused with 400, with no provider call. |
| Generate.ProviderErrorReported | src/app/api/generate/route.ts:53-56 | A Hugging Face error status becomes a 500 "HuggingFace API error (<status>): <text>". The debit is not refunded and nothing is stored. |
| Generate.ProviderNetworkErrorReported | src/app/api/generate/route.ts:222-231 | A Hugging Face network failure becomes a 500 carrying the thrown message, after the one Hugging Face call. The debit stands and nothing is stored. |
| Generate.UploadFailureReported | src/app/api/generate/route.ts:196-197 | A failed upload becomes a 500 carrying the transport's message, after the Hugging Face call and the attempted put. The debit stands and no record or object is stored. |
| Generate.ProduceUploadFailure | src/app/api/generate/route.ts:190-197 | A Hugging Face image whose upload fails gives a 500 with the transport's message, after the call and the put, and leaves the world as it was. |
| Generate.DeliverUploadFailure | src/app/api/generate/route.ts:190-197 | Delivering a data URL whose upload fails gives a 500 with the transport's message. It adds only the put to the calls and changes nothing. |
| Generate.ProduceSuccessRecord | src/app/api/generate/route.ts:161-213 | A successful production used a Hugging Face model, and its record carries the database's id and time, the charged cost, the caller as owner and the generated storage key. |
| Generate.ProduceSuccessWorld | src/app/api/generate/route.ts:161-221 | A successful production leaves the ledger alone, appends exactly its record, stores an object of the record's MIME type under the record's key with every other object kept, and makes exactly the Hugging Face call and the upload. |
| Generate.AdmittedSuccess | src/app/api/generate/route.ts:136-159 | A successful admitted request had a known user who could pay, and its outcome is production on the debited ledger. |
| Generate.SuccessIff | src/app/api/generate/route.ts:107-221 | An admitted request succeeds exactly when all of these hold: the user exists and can pay, the model is a Hugging Face one, Hugging Face answers ok, and the upload succeeds. The image always normalises, so normalisation is not a failure mode. |
| Generate.SuccessRecordsOneGeneration | src/app/api/generate/route.ts:190-221 | A success appends exactly its record (with the assigned id and time) and debits the caller by the record's cost. It stores the image under the record's key with the record's MIME type, leaves other objects alone, and calls Hugging Face once and the bucket once. |
| Generate.SuccessRecordFields | src/app/api/generate/route.ts:199-213 | The returned record carries the prompt, the model, provider "HuggingFace", the ratio's size and the public URL of its key. It is a public IMAGE. |
| Generate.OnlyCallerAffected | src/app/api/generate/route.ts:107-233 | No request adds or removes users or changes anyone but the caller. A request appends at most one record and keeps the old ones. It calls only Hugging Face and the bucket. |
| Generate.ImageFetchNeverConsulted | src/app/api/generate/route.ts:193-194 | The outcome of a network image fetch never affects the endpoint, since the provider always returns a data URL. |
| Generate.StoredImageIsProviderImage | src/app/api/generate/route.ts:193-197 | When the reply's content type holds no ',' or ':', a success stores exactly the bytes Hugging Face returned, with the reply's content type up to its first ';'. |
| Generate.CatBodyValid | src/types/index.ts:11-21 | `{prompt: "a cat", modelId: "sdxl", aspectRatio: "1:1"}` passes the schema as that request. |
| Generate.CatOnSdxlSucceeds | src/app/api/generate/route.ts:107-221 | A user with a credit who asks for "a cat" on SDXL, with Hugging Face returning a PNG and a working upload, gets 200. |
| Generate.SquareSize | src/constants/config.ts:10 | The 1:1 ratio is rendered at 1024x1024. |
| Generate.CatOnSdxlRecord | src/app/api/generate/route.ts:190-221 | That request costs one credit. It records a 1024x1024 public PNG from HuggingFace under the key built from its timestamp and random suffix, and stores the PNG unchanged. |
| Generate.RepeatedRequestChargesTwice | src/app/api/generate/route.ts:136-213 | Requests carry no idempotency key: the same request succeeding twice records two generations and charges twice. |

## Left out

- Concurrency is not modelled. Each request runs alone, so the read-then-update race in `deductCredits` between concurrent requests is not captured.
- Database failures are not modelled. The only Prisma outcomes covered are the missing record for `addCredits`, the duplicate clerk id for `createUser` and the refusal of a negative skip.
- Prisma's 32-bit integer columns are not modelled: credits, widths and costs are unbounded integers.
- The record's `status` column and the user's schema default for credits are not part of this model, because the Prisma schema is not part of it. `Users.UserTable` takes the initial credits as a constructor argument. `DEFAULT_CREDITS` (src/constants/config.ts:6) is left out because no modelled code reads it.
- Generate.StoredImageIsProviderImage: a content type holding ',' or ':' is not covered. `fetchAsBuffer` splits the data URL at the first ',' and ':', so such a type would be cut inside itself and other bytes would be stored. Hugging Face's image content types hold neither.
- HTTP transport is left out: headers, the bearer tokens, the JSON encoding of bodies and of the response envelope, and `console.error`. A response is a status plus either an error message or the record.
- The clock, `Math.random()`, the database-assigned id and createdAt, the authenticated subject, the parsed JSON body, provider answers, image fetches and upload failures are inputs of `Generate.Request`.
- The SiliconFlow adapter (`generateWithSiliconFlow`) is modelled as pure functions (`SiliconFlowCallFor`, `SiliconFlowImageUrl`, `SiliconFlowImage`) but is not wired into `Handle`. The route answers Stable Diffusion 3.5 Large with 400 before any provider call, so the adapter is unreachable from `POST /api/generate`.
- Generate.GetImageSize: a ratio string naming a property that every JavaScript object inherits (such as "toString") is not modelled. The lookup would find that inherited value, so the fallback to "1:1" would not apply. The route only passes ratios the schema has already accepted, so no request reaches this case.
- Generate.Dispatch: the adapter's "No HuggingFace model mapping" error cannot occur on the route, since both Hugging Face models have a mapping. It is stated in `HuggingFaceCallFor` and not repeated in `Dispatch`. Likewise the "Unsupported model" branch is kept but is unreachable after the schema.
- Types.Validate: the wording of the schema library's own messages ("Required", "Expected string, received …", "Invalid enum value. …") is a stand-in; only the two prompt messages are the application's. Prompt length is counted in characters, not UTF-16 code units.
- Base64.Decode approximates Node's lenient `Buffer.from(s, "base64")`: it skips characters outside the alphabet, stops at '=', and accepts the URL-safe '-' and '_'. Only the round trip of a proper encoding is proved.
- Storage.DecodeDataUrl: the messages for a data URL with no ':' or no ',' stand in for the JavaScript TypeError texts.
- Generations.Listing: a negative `limit` (Prisma's take from the end) is not modelled; the limit is a natural number. Records with equal createdAt are listed later-inserted first, an order the database does not promise.
- The pages, components, hooks, middleware, webhook and credits routes, and the API client are not part of this model.
