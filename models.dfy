/** The supported AI models, their Hugging Face repositories and their option table. */
module Models {
  import opened Wrappers

  /** Values of the AI_MODELS enum. */
  const SDXL: string := "sdxl"
  const ANIMAGINE_XL_4: string := "animagine-xl-4.0"
  const STABLE_DIFFUSION_3_5_LARGE: string := "stable-diffusion-3.5-large"

  const AI_MODELS: seq<string> := [SDXL, ANIMAGINE_XL_4, STABLE_DIFFUSION_3_5_LARGE]

  /** Hugging Face model repository ids. */
  const HF_MODEL_IDS: map<string, string> := map[
    SDXL := "stabilityai/stable-diffusion-xl-base-1.0",
    ANIMAGINE_XL_4 := "cagliostrolab/animagine-xl-4.0"
  ]

  datatype ModelOption = ModelOption(
    id: string,
    displayLabel: string,
    cost: int,
    provider: string,
    description: string,
    available: bool)

  const MODEL_OPTIONS: seq<ModelOption> := [
    ModelOption(SDXL, "Stable Diffusion XL", 1, "HuggingFace",
      "High-resolution image generation with excellent detail", true),
    ModelOption(ANIMAGINE_XL_4, "Animagine XL 4.0", 1, "HuggingFace",
      "High-quality anime-style image generation", true),
    ModelOption(STABLE_DIFFUSION_3_5_LARGE, "Stable Diffusion 3.5 Large", 1, "SiliconFlow",
      "Open-source model with strong artistic capabilities", false)
  ]

  /** `options.filter(m => m.available)`. */
  function OnlyAvailable(options: seq<ModelOption>): (r: seq<ModelOption>)
    ensures |r| <= |options|
    ensures forall i :: 0 <= i < |r| ==> r[i].available && r[i] in options
    ensures forall i :: 0 <= i < |options| && options[i].available ==> options[i] in r
    ensures forall x :: multiset(r)[x] == if x.available then multiset(options)[x] else 0
  {
    if options == [] then []
    else
      assert options == [options[0]] + options[1..];
      if options[0].available then [options[0]] + OnlyAvailable(options[1..])
      else OnlyAvailable(options[1..])
  }

  /** The filter keeps the table's order: it distributes over concatenation. */
  lemma {:induction false} OnlyAvailableDistributes(a: seq<ModelOption>, b: seq<ModelOption>)
    ensures OnlyAvailable(a + b) == OnlyAvailable(a) + OnlyAvailable(b)
  {
    if a == [] {
      assert a + b == b;
    } else {
      assert (a + b)[0] == a[0];
      assert (a + b)[1..] == a[1..] + b;
      OnlyAvailableDistributes(a[1..], b);
    }
  }

  /** `options.find(m => m.id === id)`: the first option with that id. */
  function FindById(options: seq<ModelOption>, id: string): (r: Option<ModelOption>)
    ensures r.None? <==> forall i :: 0 <= i < |options| ==> options[i].id != id
    ensures r.Some? ==> r.value.id == id && exists k :: (0 <= k < |options| && options[k] == r.value
      && forall j :: 0 <= j < k ==> options[j].id != id)
  {
    if options == [] then None
    else if options[0].id == id then Some(options[0])
    else
      var r := FindById(options[1..], id);
      if r.Some? then
        var k :| 0 <= k < |options| - 1 && options[1..][k] == r.value
          && forall j :: 0 <= j < k ==> options[1..][j].id != id;
        assert options[k + 1] == r.value;
        r
      else r
  }

  /** `getAvailableModels()`: the options a user may pick, in table order. */
  function GetAvailableModels(): seq<ModelOption> {
    OnlyAvailable(MODEL_OPTIONS)
  }

  /** `getModelById(id)`: the table entry for the id, if there is one. */
  function GetModelById(id: string): Option<ModelOption> {
    FindById(MODEL_OPTIONS, id)
  }

  /** The available models are SDXL and Animagine, in table order. */
  lemma AvailableModelsAreHuggingFaceOnes()
    ensures GetAvailableModels() == [MODEL_OPTIONS[0], MODEL_OPTIONS[1]]
    ensures GetAvailableModels()[0].id == SDXL && GetAvailableModels()[1].id == ANIMAGINE_XL_4
  {
    var m := MODEL_OPTIONS;
    assert OnlyAvailable(m[2..]) == [] by {
      assert m[2..][1..] == [];
    }
    assert OnlyAvailable(m[1..]) == [m[1]] + OnlyAvailable(m[2..]) by {
      assert m[1..][1..] == m[2..];
    }
  }

  /** Every enum value has exactly one option row, and lookup finds that row. */
  lemma OptionPerModel()
    ensures |MODEL_OPTIONS| == |AI_MODELS|
    ensures forall i :: 0 <= i < |AI_MODELS| ==> MODEL_OPTIONS[i].id == AI_MODELS[i]
    ensures forall i, j :: 0 <= i < j < |MODEL_OPTIONS| ==> MODEL_OPTIONS[i].id != MODEL_OPTIONS[j].id
    ensures forall i :: 0 <= i < |AI_MODELS| ==> GetModelById(AI_MODELS[i]) == Some(MODEL_OPTIONS[i])
  {
    assert GetModelById(SDXL) == Some(MODEL_OPTIONS[0]);
    assert GetModelById(ANIMAGINE_XL_4) == Some(MODEL_OPTIONS[1]);
    assert GetModelById(STABLE_DIFFUSION_3_5_LARGE) == Some(MODEL_OPTIONS[2]);
  }

  /** Stable Diffusion 3.5 Large is the only unavailable model, and it is served by SiliconFlow. */
  lemma OnlySd35Unavailable()
    ensures forall i :: 0 <= i < |MODEL_OPTIONS| && !MODEL_OPTIONS[i].available ==>
      MODEL_OPTIONS[i].id == STABLE_DIFFUSION_3_5_LARGE && MODEL_OPTIONS[i].provider == "SiliconFlow"
  {
  }

  /** HF_MODEL_IDS covers exactly the models whose provider is Hugging Face. */
  lemma HfIdsMatchProvider()
    ensures forall i :: 0 <= i < |MODEL_OPTIONS| ==>
      (MODEL_OPTIONS[i].id in HF_MODEL_IDS <==> MODEL_OPTIONS[i].provider == "HuggingFace")
  {
  }

  /** Every model costs one credit, so every cost is positive. */
  lemma CostsArePositive()
    ensures forall i :: 0 <= i < |MODEL_OPTIONS| ==> MODEL_OPTIONS[i].cost == 1 > 0
  {
  }
}
