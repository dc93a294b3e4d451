/** Application-wide constants: image sizes per aspect ratio, defaults, provider endpoints. */
module Config {

  /** Pixel size of a generated image and its display label. */
  datatype ImageSize = ImageSize(width: nat, height: nat, displayLabel: string)

  /** Supported image sizes, keyed by aspect ratio. */
  const IMAGE_SIZES: map<string, ImageSize> := map[
    "1:1" := ImageSize(1024, 1024, "1:1 (Square)"),
    "16:9" := ImageSize(1792, 1024, "16:9 (Landscape)"),
    "9:16" := ImageSize(1024, 1792, "9:16 (Portrait)"),
    "4:3" := ImageSize(1024, 768, "4:3 (Standard)"),
    "3:4" := ImageSize(768, 1024, "3:4 (Tall)")
  ]

  const DEFAULT_ASPECT_RATIO: string := "1:1"

  const HUGGINGFACE_ENDPOINT: string := "https://router.huggingface.co/hf-inference/models"
  const SILICONFLOW_ENDPOINT: string := "https://api.siliconflow.cn/v1/images/generations"

  /** Pagination defaults. */
  const DEFAULT_PAGE: int := 1
  const DEFAULT_LIMIT: nat := 20

  /** "1:1" is square, and the other ratios come in transposed pairs. */
  lemma ImageSizesAreTransposes()
    ensures "1:1" in IMAGE_SIZES && IMAGE_SIZES["1:1"].width == IMAGE_SIZES["1:1"].height == 1024
    ensures "16:9" in IMAGE_SIZES && "9:16" in IMAGE_SIZES
    ensures IMAGE_SIZES["16:9"].width == IMAGE_SIZES["9:16"].height
    ensures IMAGE_SIZES["16:9"].height == IMAGE_SIZES["9:16"].width
    ensures "4:3" in IMAGE_SIZES && "3:4" in IMAGE_SIZES
    ensures IMAGE_SIZES["4:3"].width == IMAGE_SIZES["3:4"].height
    ensures IMAGE_SIZES["4:3"].height == IMAGE_SIZES["3:4"].width
  {
  }

  /** Every configured width and height is positive and at most 1792 pixels. */
  lemma ImageSizesBounded()
    ensures forall r :: r in IMAGE_SIZES ==>
      0 < IMAGE_SIZES[r].width <= 1792 && 0 < IMAGE_SIZES[r].height <= 1792
  {
  }

  /** The default ratio has a configured size, and the default page skips nothing. */
  lemma DefaultsConsistent()
    ensures DEFAULT_ASPECT_RATIO in IMAGE_SIZES
    ensures DEFAULT_PAGE == 1 && DEFAULT_LIMIT == 20
    ensures (DEFAULT_PAGE - 1) * DEFAULT_LIMIT == 0
  {
  }
}
