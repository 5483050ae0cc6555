/**
 * The image settings of lib/image-optimization.ts: the `sizes` hint for a
 * context or a width, the per-context configuration, the loading strategy, the
 * source pass-through, and the quality calculation (a local reassigned by a
 * switch and two adjustments). The blur placeholder (`btoa` of an SVG) and the
 * `<link rel=preload>` injection are not modelled.
 */
module ImageOptimization {
  import opened Js
  import opened Strings

  datatype ImageContext = Thumbnail | Card | Detail | Gallery | Hero

  /** `getOptimizedImageSrc`: local and external sources are both left to the framework, unchanged. */
  function GetOptimizedImageSrc(src: string, width: int, quality: int): (r: string)
    ensures r == src
  {
    if StartsWith(src, "/") then src else src
  }

  /** The `sizes` hint of each context. */
  function ContextSizes(context: ImageContext): string
  {
    match context
    case Thumbnail => "(max-width: 640px) 25vw, (max-width: 1024px) 20vw, 150px"
    case Card => "(max-width: 640px) 50vw, (max-width: 1024px) 33vw, 300px"
    case Detail => "(max-width: 640px) 100vw, (max-width: 1024px) 60vw, 600px"
    case Gallery => "(max-width: 640px) 100vw, (max-width: 1024px) 80vw, 800px"
    case Hero => "(max-width: 640px) 100vw, (max-width: 1024px) 100vw, 1200px"
  }

  /** `getResponsiveSizes(width, context)`: the context decides when given, else the width's band. */
  function GetResponsiveSizes(width: Option<int>, context: Option<ImageContext>): (r: string)
    ensures context.Some? ==> r == ContextSizes(context.value)
    ensures context.None? && !TruthyNumber(width) ==> r == "100vw"
    ensures context.None? && TruthyNumber(width) && width.value <= 150 ==> r == "(max-width: 640px) 25vw, 150px"
    ensures context.None? && TruthyNumber(width) && 150 < width.value <= 300 ==> r == "(max-width: 640px) 50vw, 300px"
    ensures context.None? && TruthyNumber(width) && 300 < width.value <= 600 ==> r == "(max-width: 640px) 100vw, 600px"
    ensures context.None? && TruthyNumber(width) && width.value > 600 ==>
      r == "(max-width: 640px) 100vw, (max-width: 1024px) 80vw, 1200px"
  {
    if context.Some? then ContextSizes(context.value)
    else if !TruthyNumber(width) then "100vw"
    else if width.value <= 150 then "(max-width: 640px) 25vw, 150px"
    else if width.value <= 300 then "(max-width: 640px) 50vw, 300px"
    else if width.value <= 600 then "(max-width: 640px) 100vw, 600px"
    else "(max-width: 640px) 100vw, (max-width: 1024px) 80vw, 1200px"
  }

  /** Once a context is given the width plays no part, and the five contexts give five different hints. */
  lemma SizesByContextOnly(w1: Option<int>, w2: Option<int>, c: ImageContext, d: ImageContext)
    ensures GetResponsiveSizes(w1, Some(c)) == GetResponsiveSizes(w2, Some(c))
    ensures c != d ==> GetResponsiveSizes(w1, Some(c)) != GetResponsiveSizes(w2, Some(d))
  {
  }

  datatype ImageConfig = ImageConfig(width: int, height: int, quality: int, sizes: string, priority: bool)

  /** `getOptimalImageConfig(context)`: the configuration table entry of the context. */
  function GetOptimalImageConfig(context: ImageContext): (r: ImageConfig)
    ensures r.priority <==> context == Hero
    ensures r.sizes == GetResponsiveSizes(Some(r.width), Some(context))
    ensures 75 <= r.quality <= 90 && 0 < r.height < r.width
  {
    match context
    case Thumbnail => ImageConfig(150, 100, 75, GetResponsiveSizes(Some(150), Some(Thumbnail)), false)
    case Card => ImageConfig(300, 200, 80, GetResponsiveSizes(Some(300), Some(Card)), false)
    case Detail => ImageConfig(600, 400, 85, GetResponsiveSizes(Some(600), Some(Detail)), false)
    case Gallery => ImageConfig(800, 600, 90, GetResponsiveSizes(Some(800), Some(Gallery)), false)
    case Hero => ImageConfig(1200, 800, 90, GetResponsiveSizes(Some(1200), Some(Hero)), true)
  }

  /** Larger contexts get wider images: thumbnail, card, detail, gallery, hero. */
  lemma ConfigWidthsGrow()
    ensures GetOptimalImageConfig(Thumbnail).width < GetOptimalImageConfig(Card).width
    ensures GetOptimalImageConfig(Card).width < GetOptimalImageConfig(Detail).width
    ensures GetOptimalImageConfig(Detail).width < GetOptimalImageConfig(Gallery).width
    ensures GetOptimalImageConfig(Gallery).width < GetOptimalImageConfig(Hero).width
  {
  }

  datatype LoadingStrategy = LoadingStrategy(loading: string, priority: bool)

  /** `getLoadingStrategy(isAboveFold)`. */
  function GetLoadingStrategy(isAboveFold: bool): (r: LoadingStrategy)
    ensures r.loading == "eager" <==> isAboveFold
    ensures r.loading == "lazy" <==> !isAboveFold
    ensures r.priority <==> isAboveFold
  {
    LoadingStrategy(if isAboveFold then "eager" else "lazy", isAboveFold)
  }

  /** The quality a context starts from. */
  function BaseQuality(context: ImageContext): int
  {
    match context
    case Thumbnail => 70
    case Card => 80
    case Detail => 85
    case Gallery => 90
    case Hero => 90
  }

  function Max(a: int, b: int): int { if a >= b then a else b }
  function Min(a: int, b: int): int { if a <= b then a else b }

  /** The quality after both adjustments: ten less (not below 70) above 1000 pixels, five more (not above 95) on retina. */
  function OptimalQuality(width: int, context: ImageContext, isRetina: bool): int
  {
    var afterSize := if width > 1000 then Max(BaseQuality(context) - 10, 70) else BaseQuality(context);
    if isRetina then Min(afterSize + 5, 95) else afterSize
  }

  /** `calculateOptimalQuality`, one reassignment of `baseQuality` at a time. */
  method CalculateOptimalQuality(width: int, context: ImageContext, isRetina: bool) returns (baseQuality: int)
    ensures baseQuality == OptimalQuality(width, context, isRetina)
    ensures 70 <= baseQuality <= 95
  {
    match context {
      case Thumbnail => baseQuality := 70;
      case Card => baseQuality := 80;
      case Detail => baseQuality := 85;
      case Gallery => baseQuality := 90;
      case Hero => baseQuality := 90;
    }
    if width > 1000 {
      baseQuality := Max(baseQuality - 10, 70);
    }
    if isRetina {
      baseQuality := Min(baseQuality + 5, 95);
    }
  }

  /** Every quality lies in `[70, 95]`. */
  lemma QualityRange(width: int, context: ImageContext, isRetina: bool)
    ensures 70 <= OptimalQuality(width, context, isRetina) <= 95
  {
  }

  /** A very large image never gets a higher quality than a smaller one in the same context. */
  lemma LargeNeverHigher(small: int, large: int, context: ImageContext, isRetina: bool)
    requires small <= 1000 < large
    ensures OptimalQuality(large, context, isRetina) <= OptimalQuality(small, context, isRetina)
  {
  }

  /** Quality is monotone non-increasing in width. */
  lemma QualityMonotoneInWidth(w1: int, w2: int, context: ImageContext, isRetina: bool)
    requires w1 <= w2
    ensures OptimalQuality(w2, context, isRetina) <= OptimalQuality(w1, context, isRetina)
  {
  }

  /** Retina never lowers the quality and raises it by at most five. */
  lemma RetinaBoost(width: int, context: ImageContext)
    ensures OptimalQuality(width, context, false) <= OptimalQuality(width, context, true)
    ensures OptimalQuality(width, context, true) <= OptimalQuality(width, context, false) + 5
  {
  }
}
