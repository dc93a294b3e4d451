/**
 * Object storage helpers: the storage-key format, the normalisation of a provider result
 * (a base64 data URL or a fetchable URL) to bytes and a MIME type, and the bucket upload.
 */
module Storage {
  import opened Wrappers
  import opened Text
  import Base64
  import Types

  // ─── Storage key ────────────────────────────────────────────────

  /** `new Date().toISOString().slice(0, 10)`, taking the ISO timestamp as input. */
  function StorageDate(isoTimestamp: string): string {
    Slice(isoTimestamp, 0, 10)
  }

  /** `Math.random().toString(36).slice(2, 10).padEnd(8, "0")`, taking the base-36 text as input. */
  function RandomSuffix(random36: string): string {
    PadEnd(Slice(random36, 2, 10), 8, '0')
  }

  function KeyDirectory(outputType: Types.OutputType): string {
    if outputType == Types.VIDEO then "generations/video/" else "generations/image/"
  }

  function KeyExtension(outputType: Types.OutputType): string {
    if outputType == Types.VIDEO then ".mp4" else ".png"
  }

  /** The storage key for a new object of the given output type (IMAGE or VIDEO). */
  function GenerateStorageKey(outputType: Types.OutputType, isoTimestamp: string, random36: string): string
    requires outputType != Types.AUDIO
  {
    KeyDirectory(outputType) + StorageDate(isoTimestamp) + "_" + RandomSuffix(random36) + KeyExtension(outputType)
  }

  predicate IsBase36Digit(c: char) {
    '0' <= c <= '9' || 'a' <= c <= 'z'
  }

  /** The suffix is always 8 characters: the base-36 digits after "0.", then '0' padding. */
  lemma RandomSuffixShape(random36: string)
    ensures |RandomSuffix(random36)| == 8
    ensures forall i :: 0 <= i < 8 ==>
      RandomSuffix(random36)[i] == if 2 + i < |random36| then random36[2 + i] else '0'
    ensures (forall i :: 2 <= i < |random36| ==> IsBase36Digit(random36[i])) ==>
      forall i :: 0 <= i < 8 ==> IsBase36Digit(RandomSuffix(random36)[i])
  {
  }

  /** The date part is the first ten characters (YYYY-MM-DD) of the ISO timestamp. */
  lemma StorageDateIsPrefix(isoTimestamp: string)
    requires |isoTimestamp| >= 10
    ensures StorageDate(isoTimestamp) == isoTimestamp[..10]
  {
  }

  /**
   * The key reads back as directory, date, '_', 8-character suffix and extension, at fixed
   * positions; the directory and extension depend on the output type alone.
   */
  lemma StorageKeyLayout(outputType: Types.OutputType, isoTimestamp: string, random36: string)
    requires outputType != Types.AUDIO
    requires |isoTimestamp| >= 10
    ensures var key := GenerateStorageKey(outputType, isoTimestamp, random36);
      && |key| == 41
      && key[..18] == (if outputType == Types.VIDEO then "generations/video/" else "generations/image/")
      && key[18..28] == isoTimestamp[..10]
      && key[28] == '_'
      && key[29..37] == RandomSuffix(random36)
      && key[37..] == (if outputType == Types.VIDEO then ".mp4" else ".png")
  {
    RandomSuffixShape(random36);
    var key := GenerateStorageKey(outputType, isoTimestamp, random36);
    var dir, date, suffix, ext :=
      KeyDirectory(outputType), StorageDate(isoTimestamp), RandomSuffix(random36), KeyExtension(outputType);
    assert key == dir + date + "_" + suffix + ext;
    assert |dir| == 18 && |date| == 10 && |ext| == 4;
    assert key[..18] == dir;
    assert key[18..28] == date;
    assert key[29..37] == suffix;
    assert key[37..] == ext;
  }

  // ─── Fetch as buffer ────────────────────────────────────────────

  /** What a `fetch` returned: it threw, or a response with status, body, text and content type. */
  datatype HttpOutcome =
    | NetworkError(message: string)
    | Response(status: nat, body: seq<Base64.byte>, text: Option<string>, contentType: Option<string>)

  /** `response.ok`. */
  predicate IsOk(status: nat) {
    200 <= status <= 299
  }

  /** A normalised provider result. */
  datatype Fetched = Fetched(buffer: seq<Base64.byte>, mimeType: string)

  const NO_BASE64_ARGUMENT: string :=
    "The first argument must be of type string or an instance of Buffer, ArrayBuffer, or Array or an Array-like Object. Received undefined"
  const NO_MIME_PART: string := "Cannot read properties of undefined (reading 'split')"

  /** The data-URL branch: MIME type between the first ':' and ';' of the header, bytes after the first ','. */
  function DecodeDataUrl(url: string): Result<Fetched, string>
  {
    var meta := Before(url, ',');
    match After(meta, ':')
    case None => Err(NO_MIME_PART)
    case Some(afterColon) =>
      var mimeType := Before(Before(afterColon, ':'), ';');
      match After(url, ',')
      case None => Err(NO_BASE64_ARGUMENT)
      case Some(rest) => Ok(Fetched(Base64.Decode(Before(rest, ',')), mimeType))
  }

  /** `fetchAsBuffer(url)`, with the outcome of the network fetch given as `response`. */
  function FetchAsBuffer(url: string, response: HttpOutcome): Result<Fetched, string>
  {
    if StartsWith(url, "data:") then DecodeDataUrl(url)
    else
      match response
      case NetworkError(message) => Err(message)
      case Response(status, body, _, contentType) =>
        if !IsOk(status) then Err("Failed to fetch image (" + NatToString(status) + "): " + url)
        else Ok(Fetched(body, contentType.GetOr("image/png")))
  }

  /** A data URL that holds a ',' always decodes: its header then holds the ':' of "data:". */
  lemma DataUrlWithCommaDecodes(url: string)
    requires StartsWith(url, "data:") && ',' in url
    ensures DecodeDataUrl(url).Ok?
  {
    var meta := Before(url, ',');
    assert meta[4] == url[4] == ':';
  }

  /** A data URL is decoded without looking at any network response. */
  lemma DataUrlNeverFetches(url: string, a: HttpOutcome, b: HttpOutcome)
    requires StartsWith(url, "data:")
    ensures FetchAsBuffer(url, a) == FetchAsBuffer(url, b)
  {
  }

  /** A failed fetch of a non-data URL reports the status, then the URL. */
  lemma FetchFailureNamesStatusAndUrl(url: string, response: HttpOutcome)
    requires !StartsWith(url, "data:")
    requires response.Response? && !IsOk(response.status)
    ensures FetchAsBuffer(url, response) == Err("Failed to fetch image (" + NatToString(response.status) + "): " + url)
  {
  }

  /**
   * `"data:" + mediaType + "," + payload` yields the payload's decoded bytes and the media type
   * cut at its first ';', when neither part holds a ',' and the media type holds no ':'.
   */
  lemma {:induction false} DataUrlParts(mediaType: string, payload: string, response: HttpOutcome)
    requires ',' !in mediaType && ':' !in mediaType && ',' !in payload
    ensures FetchAsBuffer("data:" + mediaType + "," + payload, response)
      == Ok(Fetched(Base64.Decode(payload), Before(mediaType, ';')))
  {
    var url := "data:" + mediaType + "," + payload;
    var meta := "data:" + mediaType;
    assert url[..5] == "data:";
    assert ',' !in meta;
    assert url == meta + [','] + payload;
    SplitAtFirst(meta, ',', payload);
    assert meta == "data" + [':'] + mediaType;
    SplitAtFirst("data", ':', mediaType);
  }

  // ─── Upload ─────────────────────────────────────────────────────

  /** An object in the bucket: its bytes and content type. */
  datatype StoredObject = StoredObject(data: seq<Base64.byte>, contentType: string)

  /** The public URL of an uploaded key. */
  function PublicUrl(baseUrl: string, key: string): string {
    baseUrl + "/" + key
  }

  /** Under a fixed base URL, the public URL determines the key. */
  lemma PublicUrlDeterminesKey(baseUrl: string, k1: string, k2: string)
    ensures PublicUrl(baseUrl, k1) == PublicUrl(baseUrl, k2) <==> k1 == k2
  {
    if PublicUrl(baseUrl, k1) == PublicUrl(baseUrl, k2) {
      assert k1 == PublicUrl(baseUrl, k1)[|baseUrl| + 1..];
      assert k2 == PublicUrl(baseUrl, k2)[|baseUrl| + 1..];
    }
  }

  /** The object store bucket with its public base URL. */
  class Bucket {
    const baseUrl: string
    var objects: map<string, StoredObject>

    constructor(baseUrl: string)
      ensures this.baseUrl == baseUrl && objects == map[]
    {
      this.baseUrl := baseUrl;
      objects := map[];
    }

    /** `uploadToR2`: a put of the object; `failure` is the error the transport raised, if any. */
    method Upload(data: seq<Base64.byte>, key: string, mimeType: string, failure: Option<string>)
      returns (r: Result<string, string>)
      modifies this
      ensures failure.Some? ==> r == Err(failure.value) && objects == old(objects)
      ensures failure.None? ==> r == Ok(PublicUrl(baseUrl, key))
      ensures failure.None? ==> objects == old(objects)[key := StoredObject(data, mimeType)]
    {
      if failure.Some? {
        return Err(failure.value);
      }
      objects := objects[key := StoredObject(data, mimeType)];
      r := Ok(PublicUrl(baseUrl, key));
    }
  }
}
