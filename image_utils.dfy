/**
 * The image helpers of lib/image-utils.ts: the fallback images, the `sizes`
 * string for a width, loading with fallbacks (whether an image loads is an
 * oracle `loads`), the safe-source pass-through, the URL plausibility test with
 * its extension regular expression, and the cache-busting query parameter
 * (the clock reading is a parameter).
 */
module ImageUtils {
  import opened Js
  import opened Strings

  const DefaultFallbackImage := "/cars/placeholder.svg"

  const FallbackImages: seq<string> := [
    "/cars/12.webp",
    "/cars/search.webp",
    "/cars/placeholder.svg",
    "data:image/svg+xml;base64,PHN2ZyB3aWR0aD0iNDAwIiBoZWlnaHQ9IjMwMCIgeG1sbnM9Imh0dHA6Ly93d3cudzMub3JnLzIwMDAvc3ZnIj48cmVjdCB3aWR0aD0iMTAwJSIgaGVpZ2h0PSIxMDAlIiBmaWxsPSIjZjNmNGY2Ii8+PGNpcmNsZSBjeD0iMjAwIiBjeT0iMTIwIiByPSI0MCIgZmlsbD0iI2Q1ZDlkZiIvPjxwYXRoIGQ9Im0xODAgMTEwIDEwIDEwIDIwLTIwIDEwIDEwdjI1SDE4MHoiIGZpbGw9IiNhN2I2YzIiLz48dGV4dCB4PSI1MCUiIHk9IjcwJSIgZm9udC1mYW1pbHk9IkFyaWFsIiBmb250LXNpemU9IjE2IiBmaWxsPSIjNjc3NDg5IiB0ZXh0LWFuY2hvcj0ibWlkZGxlIj5DYXIgSW1hZ2U8L3RleHQ+PC9zdmc+"
  ]

  const WideSizes := "(max-width: 640px) 100vw, (max-width: 1024px) 50vw, 33vw"
  const SmallSizes := "(max-width: 640px) 100vw, 400px"
  const MediumSizes := "(max-width: 640px) 100vw, (max-width: 1024px) 50vw, 800px"

  /** `generateImageSizes(width)`; a missing width and `0` are both falsy. */
  function GenerateImageSizes(width: Option<int>): (r: string)
    ensures !TruthyNumber(width) ==> r == WideSizes
    ensures TruthyNumber(width) && width.value <= 400 ==> r == SmallSizes
    ensures TruthyNumber(width) && 400 < width.value <= 800 ==> r == MediumSizes
    ensures TruthyNumber(width) && width.value > 800 ==> r == WideSizes
  {
    if !TruthyNumber(width) then WideSizes
    else if width.value <= 400 then SmallSizes
    else if width.value <= 800 then MediumSizes
    else WideSizes
  }

  /** Only a truthy width of at most 800 pixels gives a fixed-width hint; everything else gets the default. */
  lemma SizesDefaultIffNoFixedWidth(width: Option<int>)
    ensures GenerateImageSizes(width) == WideSizes <==> !(TruthyNumber(width) && width.value <= 800)
  {
  }

  /**
   * `loadImageWithFallback(src)`: the source itself when it loads, else the first
   * fallback image that loads, else the default placeholder.
   */
  method LoadImageWithFallback(src: string, loads: string -> bool) returns (r: string)
    ensures loads(src) ==> r == src
    ensures !loads(src) ==>
      (exists i :: 0 <= i < |FallbackImages| && r == FallbackImages[i] && loads(r) &&
         forall j :: 0 <= j < i ==> !loads(FallbackImages[j])) ||
      ((forall j :: 0 <= j < |FallbackImages| ==> !loads(FallbackImages[j])) && r == DefaultFallbackImage)
  {
    if loads(src) {
      return src;
    }
    var i := 0;
    while i < |FallbackImages|
      invariant 0 <= i <= |FallbackImages|
      invariant forall j :: 0 <= j < i ==> !loads(FallbackImages[j])
    {
      var fallback := FallbackImages[i];
      if loads(fallback) {
        return fallback;
      }
      i := i + 1;
    }
    return DefaultFallbackImage;
  }

  /** `getSafeImageSrc`: local, data and external sources all pass through unchanged. */
  function GetSafeImageSrc(src: string): (r: string)
    ensures r == src
  {
    if StartsWith(src, "/") || StartsWith(src, "data:") then src else src
  }

  const ImageExtensions: set<string> := {"jpg", "jpeg", "png", "gif", "webp", "svg"}

  /** The characters `.` in a regular expression does not match. */
  predicate LineTerminator(c: char)
  {
    c == '\n' || c == '\r' || c == '\U{2028}' || c == '\U{2029}'
  }

  /**
   * `/\.(jpg|jpeg|png|gif|webp|svg)(\?.*)?$/i` matches with the dot at `k` and
   * the extension ending at `e`: the extension, in either case, runs to the end of
   * the URL or to a `?` after which no line ends.
   */
  predicate ExtensionMatchAt(url: string, k: int, e: int)
  {
    0 <= k < e <= |url| && url[k] == '.' && ToLower(url[k + 1..e]) in ImageExtensions &&
    (e == |url| || (url[e] == '?' && forall j :: e < j < |url| ==> !LineTerminator(url[j])))
  }

  /** `imageExtensions.test(url)`. */
  predicate HasImageExtension(url: string)
  {
    exists k, e :: 0 <= k < e <= |url| && ExtensionMatchAt(url, k, e)
  }

  lemma FirstCharOfPrefix(s: string, p: string)
    requires p != []
    ensures StartsWith(s, p) ==> s[0] == p[0]
  {
    if StartsWith(s, p) {
      assert s[..|p|][0] == p[0];
    }
  }

  /** `isValidImageUrl`: a data image, a local path, or an http(s) URL with an image extension. */
  function IsValidImageUrl(url: string): (r: bool)
    ensures url == "" ==> !r
    ensures StartsWith(url, "data:image/") || StartsWith(url, "/") ==> r
    ensures r ==> StartsWith(url, "data:image/") || StartsWith(url, "/") ||
                  ((StartsWith(url, "http://") || StartsWith(url, "https://")) && HasImageExtension(url))
    ensures (StartsWith(url, "http://") || StartsWith(url, "https://")) ==> (r <==> HasImageExtension(url))
  {
    if url == "" then false
    else
      FirstCharOfPrefix(url, "data:image/");
      FirstCharOfPrefix(url, "/");
      FirstCharOfPrefix(url, "http://");
      FirstCharOfPrefix(url, "https://");
      var isDataUrl := StartsWith(url, "data:image/");
      var isLocalPath := StartsWith(url, "/");
      var isValidHttpUrl := (StartsWith(url, "http://") || StartsWith(url, "https://")) && HasImageExtension(url);
      isDataUrl || isLocalPath || isValidHttpUrl
  }

  /** An http URL ending in an upper-case `.WEBP`, with a query, is accepted. */
  lemma QueryAfterExtensionAccepted()
    ensures IsValidImageUrl("https://cdn.az/car.WEBP?v=2")
  {
    var url := "https://cdn.az/car.WEBP?v=2";
    assert url[19..23] == "WEBP";
    assert ToLower(url[19..23]) == "webp";
    assert ExtensionMatchAt(url, 18, 23);
  }

  /** A URL scheme other than http(s) is rejected even with an image extension. */
  lemma FtpImageRejected()
    ensures !IsValidImageUrl("ftp://a/b.png")
  {
    var url := "ftp://a/b.png";
    assert url[0] == 'f';
    assert !StartsWith(url, "data:image/") && !StartsWith(url, "/") by {
      FirstCharOfPrefix(url, "data:image/");
      FirstCharOfPrefix(url, "/");
    }
    assert !StartsWith(url, "http://") && !StartsWith(url, "https://") by {
      FirstCharOfPrefix(url, "http://");
      FirstCharOfPrefix(url, "https://");
    }
  }

  /** `url.includes('?') ? '&' : '?'`. */
  function Separator(url: string): char
  {
    if Includes(url, "?") then '&' else '?'
  }

  /** `` `${url}${separator}t=${Date.now()}` `` with the clock reading `now`. */
  function AddCacheBuster(url: string, now: int): (r: string)
    ensures |r| == |url| + 3 + |IntToString(now)|
    ensures r[..|url|] == url
    ensures r[|url|] == '&' <==> Includes(url, "?")
    ensures r[|url|] == '?' <==> !Includes(url, "?")
    ensures r[|url| + 1..|url| + 3] == "t="
    ensures r[|url| + 3..] == IntToString(now)
  {
    url + [Separator(url)] + "t=" + IntToString(now)
  }

  /** The stamp after `t=` reads back as the clock value. */
  lemma CacheBusterStampReadsBack(url: string, now: nat)
    ensures ParseNat(AddCacheBuster(url, now)[|url| + 3..]) == Some(now)
  {
    ParseNatToString(now);
  }

  /** A busted URL always carries a query, so busting it again appends with `&`. */
  lemma CacheBusterAgainUsesAmpersand(url: string, a: int, b: int)
    ensures var once := AddCacheBuster(url, a);
      AddCacheBuster(once, b)[|once|] == '&'
  {
    var once := AddCacheBuster(url, a);
    if Includes(url, "?") {
      IncludesAt(url, "?");
      var i :| OccursAt(url, "?", i);
      assert once[i..i + 1] == url[i..i + 1];
      assert OccursAt(once, "?", i);
    } else {
      assert once[|url|..|url| + 1] == "?";
      assert OccursAt(once, "?", |url|);
    }
    IncludesAt(once, "?");
  }
}
