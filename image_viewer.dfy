/**
 * The main image of the gallery, components/gallery/MainImageViewer.tsx:
 * previous/next with wrap-around, the keyboard shortcuts, zoom, and the
 * fallback-then-retry handling of an image that fails to load.
 *
 * The parent owns `currentIndex` and is taken to adopt every index passed to
 * `onIndexChange` at once; the reset effect then runs when the index changed.
 * The source of a failed image (`event.target.src`, which the browser resolves
 * to an absolute URL) and the clock reading for the cache buster are
 * parameters. A retry scheduled with `setTimeout` is kept as a pending timer
 * holding the index its closure captured; its delay is not modelled.
 */
module ImageViewer {
  import opened Js
  import opened Strings
  import opened ImageUtils

  /** The text after the last `/` (all of `s` when there is none): `s.split('/').pop()`. */
  function LastSegment(s: string): (r: string)
    ensures '/' !in r
    ensures EndsWith(s, r)
    ensures r == s || (|r| < |s| && s[|s| - |r| - 1] == '/')
  {
    if s == [] then []
    else if s[|s| - 1] == '/' then []
    else
      var rest := LastSegment(s[..|s| - 1]);
      assert s[..|s| - 1][|s| - 1 - |rest|..] == rest;
      rest + [s[|s| - 1]]
  }

  /** The text before the first `?` (all of `s` when there is none): `s.split('?')[0]`. */
  function BeforeQuery(s: string): (r: string)
    ensures '?' !in r
    ensures StartsWith(s, r)
    ensures r == s || (|r| < |s| && s[|r|] == '?')
  {
    if s == [] then []
    else if s[0] == '?' then []
    else [s[0]] + BeforeQuery(s[1..])
  }

  /** The file name a fallback image is recognised by. */
  function FallbackKey(img: string): string
  {
    BeforeQuery(LastSegment(img))
  }

  /** `fallbacks.findIndex(img => src.includes(key(img)))` from position `i` on. */
  function FindFallbackFrom(fallbacks: seq<string>, src: string, i: nat): (r: int)
    requires i <= |fallbacks|
    ensures r == -1 || i <= r < |fallbacks|
    ensures r >= 0 ==> Includes(src, FallbackKey(fallbacks[r])) &&
                       forall j :: i <= j < r ==> !Includes(src, FallbackKey(fallbacks[j]))
    ensures r == -1 ==> forall j :: i <= j < |fallbacks| ==> !Includes(src, FallbackKey(fallbacks[j]))
    decreases |fallbacks| - i
  {
    if i == |fallbacks| then -1
    else if Includes(src, FallbackKey(fallbacks[i])) then i
    else FindFallbackFrom(fallbacks, src, i + 1)
  }

  /** Which fallback image, if any (`-1`), a failed source is. */
  function FallbackIndex(fallbacks: seq<string>, src: string): (r: int)
    ensures -1 <= r < |fallbacks|
    ensures r >= 0 ==> Includes(src, FallbackKey(fallbacks[r])) &&
                       forall j :: 0 <= j < r ==> !Includes(src, FallbackKey(fallbacks[j]))
    ensures r == -1 ==> forall j :: 0 <= j < |fallbacks| ==> !Includes(src, FallbackKey(fallbacks[j]))
  {
    FindFallbackFrom(fallbacks, src, 0)
  }

  /** `currentIndex === images.length - 1 ? 0 : currentIndex + 1`. */
  function NextIndex(i: int, n: int): (r: int)
    ensures 0 <= i < n ==> 0 <= r < n
    ensures i == n - 1 ==> r == 0
  {
    if i == n - 1 then 0 else i + 1
  }

  /** `currentIndex === 0 ? images.length - 1 : currentIndex - 1`. */
  function PrevIndex(i: int, n: int): (r: int)
    ensures 0 <= i < n ==> 0 <= r < n
    ensures i == 0 ==> r == n - 1
  {
    if i == 0 then n - 1 else i - 1
  }

  /** Previous undoes next and next undoes previous on every index of a non-empty gallery. */
  lemma PrevNextInverse(i: int, n: int)
    requires 0 <= i < n
    ensures PrevIndex(NextIndex(i, n), n) == i
    ensures NextIndex(PrevIndex(i, n), n) == i
  {
  }

  /** The screen-reader message after moving to `newIndex`. */
  function PositionAnnouncement(newIndex: int, count: int): string
  {
    "Image " + IntToString(newIndex + 1) + " of " + IntToString(count)
  }

  /** What a key press does. */
  datatype KeyAction = GoPrevious | GoNext | Fullscreen | Zoom | NoAction

  function KeyActionOf(key: string): (a: KeyAction)
    ensures a == GoPrevious <==> key == "ArrowLeft"
    ensures a == GoNext <==> key == "ArrowRight"
    ensures a == Fullscreen <==> key == "Enter" || key == " "
    ensures a == Zoom <==> key == "z" || key == "Z"
  {
    if key == "ArrowLeft" then GoPrevious
    else if key == "ArrowRight" then GoNext
    else if key == "Enter" || key == " " then Fullscreen
    else if key == "z" || key == "Z" then Zoom
    else NoAction
  }

  /** Every other key is ignored. */
  lemma OtherKeysIgnored(key: string)
    requires key !in {"ArrowLeft", "ArrowRight", "Enter", " ", "z", "Z"}
    ensures KeyActionOf(key) == NoAction
  {
  }

  /** The viewer's state. */
  class Viewer {
    const images: seq<string>
    /** `FALLBACK_IMAGES`. */
    const fallbacks: seq<string>
    var currentIndex: int
    var hasError: bool
    var retryCount: nat
    var currentImageSrc: string
    var isZoomed: bool
    /** The retry timers not yet fired, each with the index its closure captured. */
    var pendingRetries: seq<int>
    var fullscreenRequests: nat
    var announcements: seq<string>

    /** `images[i] || ''`: an index outside the list reads as the empty source. */
    function ImageAt(i: int): (r: string)
      ensures 0 <= i < |images| ==> r == images[i]
      ensures !(0 <= i < |images|) ==> r == ""
    {
      if 0 <= i < |images| then images[i] else ""
    }

    /** The parent keeps the index on an image whenever there is one. */
    predicate Valid()
      reads this
    {
      |images| > 0 ==> 0 <= currentIndex < |images|
    }

    constructor(images: seq<string>, currentIndex: int)
      requires |images| > 0 ==> 0 <= currentIndex < |images|
      ensures this.images == images && fallbacks == FallbackImages
      ensures this.currentIndex == currentIndex && Valid()
      ensures !hasError && retryCount == 0 && !isZoomed
      ensures currentImageSrc == GetSafeImageSrc(if 0 <= currentIndex < |images| then images[currentIndex] else "")
      ensures pendingRetries == [] && fullscreenRequests == 0 && announcements == []
    {
      this.images := images;
      fallbacks := FallbackImages;
      this.currentIndex := currentIndex;
      hasError := false;
      retryCount := 0;
      currentImageSrc := GetSafeImageSrc(if 0 <= currentIndex < |images| then images[currentIndex] else "");
      isZoomed := false;
      pendingRetries := [];
      fullscreenRequests := 0;
      announcements := [];
    }

    /** `onIndexChange(newIndex)` followed by the reset effect, which runs only when the index changed. */
    method ChangeIndex(newIndex: int)
      modifies this
      ensures currentIndex == newIndex && !hasError && retryCount == 0
      ensures newIndex != old(currentIndex) ==> currentImageSrc == GetSafeImageSrc(ImageAt(newIndex))
      ensures newIndex == old(currentIndex) ==> currentImageSrc == old(currentImageSrc)
      ensures isZoomed == old(isZoomed) && pendingRetries == old(pendingRetries)
      ensures fullscreenRequests == old(fullscreenRequests)
      ensures announcements == old(announcements) + [PositionAnnouncement(newIndex, |images|)]
    {
      hasError := false;
      retryCount := 0;
      var changed := newIndex != currentIndex;
      currentIndex := newIndex;
      announcements := announcements + [PositionAnnouncement(newIndex, |images|)];
      if changed {
        currentImageSrc := GetSafeImageSrc(ImageAt(newIndex));
      }
    }

    /** `handlePrevious`. */
    method HandlePrevious()
      requires Valid()
      modifies this
      ensures Valid()
      ensures currentIndex == PrevIndex(old(currentIndex), |images|)
      ensures |images| > 0 && old(currentIndex) == 0 ==> currentIndex == |images| - 1
      ensures |images| > 0 && old(currentIndex) > 0 ==> currentIndex == old(currentIndex) - 1
      ensures !hasError && retryCount == 0
      ensures currentIndex != old(currentIndex) && |images| > 0 ==> currentImageSrc == images[currentIndex]
      ensures isZoomed == old(isZoomed) && pendingRetries == old(pendingRetries)
      ensures fullscreenRequests == old(fullscreenRequests)
      ensures announcements == old(announcements) + [PositionAnnouncement(currentIndex, |images|)]
    {
      var newIndex := if currentIndex == 0 then |images| - 1 else currentIndex - 1;
      ChangeIndex(newIndex);
    }

    /** `handleNext`. */
    method HandleNext()
      requires Valid()
      modifies this
      ensures Valid()
      ensures currentIndex == NextIndex(old(currentIndex), |images|)
      ensures |images| > 0 && old(currentIndex) == |images| - 1 ==> currentIndex == 0
      ensures |images| > 0 && old(currentIndex) < |images| - 1 ==> currentIndex == old(currentIndex) + 1
      ensures !hasError && retryCount == 0
      ensures currentIndex != old(currentIndex) && |images| > 0 ==> currentImageSrc == images[currentIndex]
      ensures isZoomed == old(isZoomed) && pendingRetries == old(pendingRetries)
      ensures fullscreenRequests == old(fullscreenRequests)
      ensures announcements == old(announcements) + [PositionAnnouncement(currentIndex, |images|)]
    {
      var newIndex := if currentIndex == |images| - 1 then 0 else currentIndex + 1;
      ChangeIndex(newIndex);
    }

    /** `toggleZoom`, announcing the state it leaves. */
    method ToggleZoom()
      modifies this
      ensures isZoomed == !old(isZoomed)
      ensures announcements == old(announcements) + [if old(isZoomed) then "Zoom disabled" else "Zoom enabled"]
      ensures currentIndex == old(currentIndex) && hasError == old(hasError) && retryCount == old(retryCount)
      ensures currentImageSrc == old(currentImageSrc) && pendingRetries == old(pendingRetries)
      ensures fullscreenRequests == old(fullscreenRequests)
    {
      announcements := announcements + [if isZoomed then "Zoom disabled" else "Zoom enabled"];
      isZoomed := !isZoomed;
    }

    /** The document `keydown` listener. */
    method KeyDown(key: string)
      requires Valid()
      modifies this
      ensures Valid()
      ensures key == "ArrowLeft" ==> currentIndex == PrevIndex(old(currentIndex), |images|) && !hasError && retryCount == 0
      ensures key == "ArrowRight" ==> currentIndex == NextIndex(old(currentIndex), |images|) && !hasError && retryCount == 0
      ensures key == "Enter" || key == " " ==>
        fullscreenRequests == old(fullscreenRequests) + 1 && currentIndex == old(currentIndex) && isZoomed == old(isZoomed)
      ensures key == "z" || key == "Z" ==> isZoomed == !old(isZoomed) && currentIndex == old(currentIndex)
      ensures KeyActionOf(key) != Fullscreen ==> fullscreenRequests == old(fullscreenRequests)
      ensures KeyActionOf(key) == NoAction ==>
        currentIndex == old(currentIndex) && hasError == old(hasError) && retryCount == old(retryCount) &&
        currentImageSrc == old(currentImageSrc) && isZoomed == old(isZoomed) && announcements == old(announcements)
      ensures pendingRetries == old(pendingRetries)
    {
      if key == "ArrowLeft" {
        HandlePrevious();
      } else if key == "ArrowRight" {
        HandleNext();
      } else if key == "Enter" || key == " " {
        fullscreenRequests := fullscreenRequests + 1;
      } else if key == "z" || key == "Z" {
        ToggleZoom();
      }
    }

    /** `handleImageLoad`. */
    method HandleImageLoad()
      modifies this
      ensures !hasError && retryCount == 0
      ensures currentIndex == old(currentIndex) && currentImageSrc == old(currentImageSrc) && isZoomed == old(isZoomed)
      ensures pendingRetries == old(pendingRetries) && fullscreenRequests == old(fullscreenRequests)
      ensures announcements == old(announcements)
    {
      hasError := false;
      retryCount := 0;
    }

    /** A retry is allowed while fewer than two were made and the failed image is no placeholder or inline image. */
    predicate MayRetry(failedSrc: string)
      reads this
    {
      retryCount < 2 && !Includes(failedSrc, "placeholder") && !Includes(failedSrc, "data:image")
    }

    /**
     * `handleImageError`: move on to the next fallback image (the first one when
     * the failed image is none of them, whose index is -1); once the last
     * fallback failed, schedule a retry of the original image while retries are
     * allowed; otherwise show the error.
     */
    method HandleImageError(failedSrc: string)
      modifies this
      ensures var k := FallbackIndex(fallbacks, failedSrc);
        if k < |fallbacks| - 1 then
          currentImageSrc == fallbacks[k + 1] &&
          hasError == old(hasError) && pendingRetries == old(pendingRetries)
        else if old(MayRetry(failedSrc)) then
          pendingRetries == old(pendingRetries) + [old(currentIndex)] &&
          currentImageSrc == old(currentImageSrc) && hasError == old(hasError)
        else
          hasError && currentImageSrc == old(currentImageSrc) && pendingRetries == old(pendingRetries)
      ensures currentIndex == old(currentIndex) && retryCount == old(retryCount) && isZoomed == old(isZoomed)
      ensures fullscreenRequests == old(fullscreenRequests) && announcements == old(announcements)
    {
      var currentFallbackIndex := FallbackIndex(fallbacks, failedSrc);
      if currentFallbackIndex < |fallbacks| - 1 {
        currentImageSrc := fallbacks[currentFallbackIndex + 1];
      } else if MayRetry(failedSrc) {
        pendingRetries := pendingRetries + [currentIndex];
      } else {
        hasError := true;
      }
    }

    /**
     * Pending timer `t` fires: one more retry, the error cleared, and the image at
     * the captured index reloaded under a fresh cache-busting stamp.
     */
    method RetryTimerFires(t: nat, now: int)
      requires t < |pendingRetries| && 0 <= pendingRetries[t] < |images|
      modifies this
      ensures retryCount == old(retryCount) + 1 && !hasError
      ensures currentImageSrc == AddCacheBuster(images[old(pendingRetries[t])], now)
      ensures pendingRetries == old(pendingRetries[..t] + pendingRetries[t + 1..])
      ensures currentIndex == old(currentIndex) && isZoomed == old(isZoomed)
      ensures fullscreenRequests == old(fullscreenRequests) && announcements == old(announcements)
    {
      var captured := pendingRetries[t];
      pendingRetries := pendingRetries[..t] + pendingRetries[t + 1..];
      retryCount := retryCount + 1;
      hasError := false;
      currentImageSrc := AddCacheBuster(images[captured], now);
    }

    /** The "Retry" button of the error view: start over with the current image, cache-busted. */
    method RetryButton(now: int)
      requires Valid() && |images| > 0
      modifies this
      ensures currentIndex == old(currentIndex) && isZoomed == old(isZoomed) && pendingRetries == old(pendingRetries)
      ensures !hasError && retryCount == 0
      ensures currentImageSrc == AddCacheBuster(images[currentIndex], now)
      ensures fullscreenRequests == old(fullscreenRequests) && announcements == old(announcements)
    {
      hasError := false;
      retryCount := 0;
      currentImageSrc := AddCacheBuster(images[currentIndex], now);
    }
  }
}
