/**
 * The image wrapper of components/common/OptimizedImage.tsx: the shown source
 * switches once to the fallback on an error, the loading veil goes away on load
 * or error, and the `sizes` hint is chosen from the props. The optional `onLoad`
 * and `onError` callbacks are counted; the blur placeholder is not modelled.
 */
module OptimizedImage {
  import opened Js
  import opened ImageOptimization

  const DefaultFallbackSrc := "/cars/placeholder.jpg"

  /** `fill ? sizes || '100vw' : sizes || getResponsiveSizes(width)`. */
  function OptimizedSizes(fill: bool, sizes: Option<string>, width: Option<int>): (r: string)
    ensures TruthyString(sizes) ==> r == sizes.value
    ensures !TruthyString(sizes) && fill ==> r == "100vw"
    ensures !TruthyString(sizes) && !fill ==> r == GetResponsiveSizes(width, None)
  {
    if fill then (if TruthyString(sizes) then sizes.value else "100vw")
    else (if TruthyString(sizes) then sizes.value else GetResponsiveSizes(width, None))
  }

  /** Without a `sizes` prop a filled image spans the viewport, and so does an image without a width. */
  lemma SizesWithoutHint(fill: bool, width: Option<int>)
    ensures OptimizedSizes(fill, None, width) == "100vw" <==> fill || !TruthyNumber(width)
  {
  }

  class Image {
    const src: string
    const fallbackSrc: string
    const hasOnLoad: bool
    const hasOnError: bool
    var imgSrc: string
    var hasError: bool
    var isLoading: bool
    var onLoadCalls: nat
    var onErrorCalls: nat

    /** The shown source is the prop or, after an error, the fallback. */
    predicate Valid()
      reads this
    {
      imgSrc == src || imgSrc == fallbackSrc
    }

    /** The error overlay: the fallback itself failed. */
    predicate ShowsErrorOverlay()
      reads this
    {
      hasError && imgSrc == fallbackSrc
    }

    /** `fallbackSrc` is `None` when the prop is omitted. */
    constructor(src: string, fallbackSrc: Option<string>, hasOnLoad: bool, hasOnError: bool)
      ensures this.src == src && this.fallbackSrc == (if fallbackSrc.Some? then fallbackSrc.value else DefaultFallbackSrc)
      ensures this.hasOnLoad == hasOnLoad && this.hasOnError == hasOnError
      ensures imgSrc == src && !hasError && isLoading && onLoadCalls == 0 && onErrorCalls == 0
      ensures Valid()
    {
      this.src := src;
      this.fallbackSrc := if fallbackSrc.Some? then fallbackSrc.value else DefaultFallbackSrc;
      this.hasOnLoad := hasOnLoad;
      this.hasOnError := hasOnError;
      imgSrc := src;
      hasError := false;
      isLoading := true;
      onLoadCalls := 0;
      onErrorCalls := 0;
    }

    /** `handleLoad`. */
    method HandleLoad()
      modifies this
      ensures !isLoading
      ensures imgSrc == old(imgSrc) && hasError == old(hasError)
      ensures onLoadCalls == old(onLoadCalls) + (if hasOnLoad then 1 else 0)
      ensures onErrorCalls == old(onErrorCalls)
    {
      isLoading := false;
      if hasOnLoad {
        onLoadCalls := onLoadCalls + 1;
      }
    }

    /**
     * `handleError`: the error flag is raised, the veil dropped, and — unless the
     * fallback is what failed — the fallback is shown with the flag lowered again.
     */
    method HandleError()
      requires Valid()
      modifies this
      ensures Valid() && !isLoading
      ensures old(imgSrc) != fallbackSrc ==> imgSrc == fallbackSrc && !hasError
      ensures old(imgSrc) == fallbackSrc ==> imgSrc == old(imgSrc) && hasError
      ensures onErrorCalls == old(onErrorCalls) + (if hasOnError then 1 else 0)
      ensures onLoadCalls == old(onLoadCalls)
    {
      hasError := true;
      isLoading := false;
      if imgSrc != fallbackSrc {
        imgSrc := fallbackSrc;
        hasError := false;
      }
      if hasOnError {
        onErrorCalls := onErrorCalls + 1;
      }
    }
  }

  /**
   * The fallback is tried at most once: after two errors the fallback is shown
   * with the error overlay, and a third error changes nothing of that.
   */
  method FallbackTriedOnce(src: string, fallbackSrc: Option<string>) returns (img: Image)
    ensures img.ShowsErrorOverlay() && !img.isLoading
  {
    img := new Image(src, fallbackSrc, false, false);
    img.HandleError();
    img.HandleError();
    img.HandleError();
  }
}
