/**
 * Shared types and the request schema of the generation endpoint: the prompt's length bounds,
 * the model and aspect-ratio enums and the default ratio, written as a validation function
 * that yields the parsed request or the list of issue messages in field order.
 */
module Types {
  import opened Wrappers
  import Config
  import Models

  /** Kind of a generated artifact; only IMAGE is produced today. */
  datatype OutputType = IMAGE | VIDEO | AUDIO

  /** One property of the JSON body: absent, a string, or a value of another JSON kind. */
  datatype Field = Missing | Str(s: string) | NotStr(kind: string)

  /** The parsed JSON body: an object with the three known properties, or another JSON value. */
  datatype Body = Object(prompt: Field, modelId: Field, aspectRatio: Field) | NotObject(kind: string)

  /** A request that passed the schema. */
  datatype GenerateRequest = GenerateRequest(prompt: string, modelId: string, aspectRatio: string)

  const PROMPT_MIN: nat := 1
  const PROMPT_MAX: nat := 4000
  const PROMPT_REQUIRED: string := "Prompt is required"
  const PROMPT_TOO_LONG: string := "Prompt must be less than 4000 characters"

  /** The values of the aspect-ratio enum. */
  const ASPECT_RATIOS: seq<string> := ["1:1", "16:9", "9:16", "4:3", "3:4"]

  /** `'a' | 'b' | ...`, the way the schema library lists an enum in its messages. */
  function EnumList(values: seq<string>): string
  {
    if values == [] then ""
    else if |values| == 1 then "'" + values[0] + "'"
    else "'" + values[0] + "' | " + EnumList(values[1..])
  }

  /** Issues of a required string property bounded to PROMPT_MIN..PROMPT_MAX characters. */
  function PromptIssues(f: Field): seq<string>
  {
    match f
    case Missing => ["Required"]
    case NotStr(kind) => ["Expected string, received " + kind]
    case Str(p) =>
      (if |p| < PROMPT_MIN then [PROMPT_REQUIRED] else [])
      + (if |p| > PROMPT_MAX then [PROMPT_TOO_LONG] else [])
  }

  /** Issues of an enum property; `default` is used when the property is absent. */
  function EnumIssues(f: Field, values: seq<string>, default: Option<string>): seq<string>
  {
    match f
    case Missing => if default.Some? then [] else ["Required"]
    case NotStr(kind) => ["Expected " + EnumList(values) + ", received " + kind]
    case Str(s) =>
      if s in values then []
      else ["Invalid enum value. Expected " + EnumList(values) + ", received '" + s + "'"]
  }

  function ModelIdIssues(f: Field): seq<string> {
    EnumIssues(f, Models.AI_MODELS, None)
  }

  function AspectRatioIssues(f: Field): seq<string> {
    EnumIssues(f, ASPECT_RATIOS, Some(Config.DEFAULT_ASPECT_RATIO))
  }

  /** `GenerateRequestSchema.safeParse(body)`. */
  function Validate(body: Body): (r: Result<GenerateRequest, seq<string>>)
    ensures r.Ok? <==>
      && body.Object?
      && body.prompt.Str? && 1 <= |body.prompt.s| <= 4000
      && body.modelId.Str? && body.modelId.s in Models.AI_MODELS
      && (body.aspectRatio.Missing? || (body.aspectRatio.Str? && body.aspectRatio.s in ASPECT_RATIOS))
    ensures r.Ok? ==>
      && r.value.prompt == body.prompt.s
      && r.value.modelId == body.modelId.s
      && r.value.aspectRatio == (if body.aspectRatio.Missing? then "1:1" else body.aspectRatio.s)
    ensures r.Ok? ==> r.value.aspectRatio in Config.IMAGE_SIZES
    ensures r.Err? ==> |r.error| > 0
  {
    match body
    case NotObject(kind) => Err(["Expected object, received " + kind])
    case Object(prompt, modelId, aspectRatio) =>
      var issues := PromptIssues(prompt) + ModelIdIssues(modelId) + AspectRatioIssues(aspectRatio);
      if issues != [] then Err(issues)
      else
        Ok(GenerateRequest(prompt.s, modelId.s,
          if aspectRatio.Missing? then Config.DEFAULT_ASPECT_RATIO else aspectRatio.s))
  }

  /** A prompt is accepted exactly when it has 1 to 4000 characters, 4000 included. */
  lemma PromptBounds(p: string)
    ensures PromptIssues(Str(p)) == [] <==> 1 <= |p| <= 4000
    ensures |p| == 0 ==> PromptIssues(Str(p)) == [PROMPT_REQUIRED]
    ensures |p| > 4000 ==> PromptIssues(Str(p)) == [PROMPT_TOO_LONG]
  {
  }

  /** The prompt is not trimmed: a prompt of spaces passes the schema. */
  lemma BlankPromptAccepted(n: nat)
    requires 1 <= n <= 4000
    ensures var blank := seq(n, _ => ' ');
      Validate(Object(Str(blank), Str(Models.SDXL), Missing)) == Ok(GenerateRequest(blank, Models.SDXL, "1:1"))
  {
  }

  /** The model id is accepted exactly when it is one of the three enum values. */
  lemma ModelIdAcceptedIff(f: Field)
    ensures ModelIdIssues(f) == [] <==> f.Str? && f.s in Models.AI_MODELS
  {
  }

  /** An absent ratio parses as "1:1"; a present one must be one of the five enum values. */
  lemma AspectRatioAcceptedIff(f: Field)
    ensures AspectRatioIssues(f) == [] <==> f.Missing? || (f.Str? && f.s in ASPECT_RATIOS)
  {
  }

  /** The keys of IMAGE_SIZES are exactly the ratios the schema accepts. */
  lemma ImageSizesCoverRatios()
    ensures forall r :: r in Config.IMAGE_SIZES <==> r in ASPECT_RATIOS
  {
  }
}
