/**
 * The review carousel of components/GoogleReviews.tsx: the fetch effect keeps
 * the first `maxReviews` reviews, `goTo` normalises any integer index into the
 * list, `next`/`prev` move by one with wrap-around, and the auto-scroll
 * interval advances the index while there is more than one review. The average
 * rating (a floating-point division), the one-second delay and the interval
 * timing are not modelled.
 */
module GoogleReviews {
  import opened Js

  /** The fields of a review that the carousel logic reads. */
  datatype Review = Review(id: string, author: string, source: string, rating: int)

  /** `((idx % len) + len) % len` with JavaScript's truncating `%`. */
  function Normalize(idx: int, len: int): (r: int)
    requires len > 0
    ensures 0 <= r < len
    ensures 0 <= idx < len ==> r == idx
  {
    var inner := Rem(idx, len);
    Rem(inner + len, len)
  }

  /** The normalised index is the mathematical residue of `idx` modulo the length. */
  lemma NormalizeIsMod(idx: int, len: int)
    requires len > 0
    ensures Normalize(idx, len) == idx % len
  {
    RemIsMod(idx, len);
    if idx >= 0 {
      var m := idx % len;
      RemIsMod(m + len, len);
      ModUnique(m + len, len, 1, m);
    } else {
      var m := (-idx) % len;
      var q := (-idx) / len;
      assert -idx == q * len + m;
      RemIsMod(len - m, len);
      if m == 0 {
        ModUnique(len, len, 1, 0);
        ModUnique(idx, len, -q, 0);
      } else {
        ModUnique(len - m, len, 0, len - m);
        ModUnique(idx, len, -q - 1, len - m);
      }
    }
  }

  /** Indices that differ by a whole number of laps land on the same review. */
  lemma NormalizePeriodic(idx: int, k: int, len: int)
    requires len > 0
    ensures Normalize(idx + k * len, len) == Normalize(idx, len)
  {
    NormalizeIsMod(idx, len);
    NormalizeIsMod(idx + k * len, len);
    ModPeriodic(idx, k, len);
  }

  lemma ModPeriodic(x: int, k: int, n: int)
    requires n > 0
    ensures (x + k * n) % n == x % n
  {
    var q, m := x / n, x % n;
    var t := k * n;
    assert (q + k) * n == q * n + t by { MulAddRight(q, k, n); }
    ModUnique(x + t, n, q + k, m);
  }

  lemma MulAddRight(a: int, b: int, c: int)
    ensures (a + b) * c == a * c + b * c
  {
  }

  /** `getSourceDisplayName`: the badge text of a review's source in the current language. */
  function SourceDisplayName(source: string, currentLang: string): (r: string)
    ensures source !in {"google", "facebook", "internal"} ==> r == source
    ensures source == "google" ==> r == "Google"
    ensures source == "facebook" ==> r == "Facebook"
    ensures source == "internal" ==> r in {"Daxili", "Internal", "Внутренний", "داخلي"}
  {
    match source
    case "google" => "Google"
    case "facebook" => "Facebook"
    case "internal" =>
      if currentLang == "az" then "Daxili"
      else if currentLang == "en" then "Internal"
      else if currentLang == "ru" then "Внутренний"
      else "داخلي"
    case _ => source
  }

  /** A known source is always renamed, so the name is unchanged exactly for the unknown ones. */
  lemma SourceUnchangedIffUnknown(source: string, currentLang: string)
    ensures SourceDisplayName(source, currentLang) == source <==> source !in {"google", "facebook", "internal"}
  {
  }

  /** An internal review is labelled in Azerbaijani, English or Russian when that is the page language, in Arabic otherwise. */
  lemma InternalLabelByLanguage(currentLang: string)
    ensures currentLang == "az" ==> SourceDisplayName("internal", currentLang) == "Daxili"
    ensures currentLang == "en" ==> SourceDisplayName("internal", currentLang) == "Internal"
    ensures currentLang == "ru" ==> SourceDisplayName("internal", currentLang) == "Внутренний"
    ensures currentLang !in {"az", "en", "ru"} ==> SourceDisplayName("internal", currentLang) == "داخلي"
  {
  }

  const DefaultMaxReviews := 6

  /** The component's state. */
  class Carousel {
    const maxReviews: int
    const autoScroll: bool
    var reviews: seq<Review>
    var loading: bool
    var currentIndex: int

    /** The index points into the list whenever there is one. */
    predicate Valid()
      reads this
    {
      0 <= currentIndex && (|reviews| > 0 ==> currentIndex < |reviews|)
    }

    constructor(maxReviews: int, autoScroll: bool)
      ensures this.maxReviews == maxReviews && this.autoScroll == autoScroll
      ensures reviews == [] && loading && currentIndex == 0 && Valid()
    {
      this.maxReviews := maxReviews;
      this.autoScroll := autoScroll;
      reviews := [];
      loading := true;
      currentIndex := 0;
    }

    /** The fetch effect: keep `allReviews.slice(0, maxReviews)` and stop loading. */
    method FetchReviews(allReviews: seq<Review>)
      modifies this
      ensures reviews == Slice(allReviews, 0, maxReviews)
      ensures maxReviews >= 0 ==>
        reviews == allReviews[..if maxReviews < |allReviews| then maxReviews else |allReviews|]
      ensures !loading && currentIndex == old(currentIndex)
      ensures old(currentIndex) == 0 ==> Valid()
    {
      reviews := Slice(allReviews, 0, maxReviews);
      if maxReviews >= 0 {
        SlicePrefix(allReviews, maxReviews);
      }
      loading := false;
    }

    /** `goTo(idx)`: ignored on an empty list, otherwise the normalised index. */
    method GoTo(idx: int)
      modifies this
      ensures reviews == old(reviews) && loading == old(loading)
      ensures |reviews| == 0 ==> currentIndex == old(currentIndex)
      ensures |reviews| > 0 ==> currentIndex == Normalize(idx, |reviews|)
      ensures old(Valid()) ==> Valid()
      ensures |reviews| > 0 ==> Valid()
    {
      if |reviews| == 0 {
        return;
      }
      var normalized := Rem(Rem(idx, |reviews|) + |reviews|, |reviews|);
      currentIndex := normalized;
    }

    /** `next`: one review on, from the last back to the first. */
    method Next()
      requires Valid()
      modifies this
      ensures reviews == old(reviews) && Valid()
      ensures |reviews| > 0 && old(currentIndex) == |reviews| - 1 ==> currentIndex == 0
      ensures |reviews| > 0 && old(currentIndex) < |reviews| - 1 ==> currentIndex == old(currentIndex) + 1
      ensures |reviews| == 0 ==> currentIndex == old(currentIndex)
    {
      if |reviews| > 0 {
        NormalizeIsMod(currentIndex + 1, |reviews|);
        if currentIndex == |reviews| - 1 {
          ModUnique(currentIndex + 1, |reviews|, 1, 0);
        }
      }
      GoTo(currentIndex + 1);
    }

    /** `prev`: one review back, from the first to the last. */
    method Prev()
      requires Valid()
      modifies this
      ensures reviews == old(reviews) && Valid()
      ensures |reviews| > 0 && old(currentIndex) == 0 ==> currentIndex == |reviews| - 1
      ensures |reviews| > 0 && old(currentIndex) > 0 ==> currentIndex == old(currentIndex) - 1
      ensures |reviews| == 0 ==> currentIndex == old(currentIndex)
    {
      if |reviews| > 0 {
        NormalizeIsMod(currentIndex - 1, |reviews|);
        if currentIndex == 0 {
          ModUnique(-1, |reviews|, -1, |reviews| - 1);
        }
      }
      GoTo(currentIndex - 1);
    }

    /** The auto-scroll interval exists only when it is enabled and there is more than one review. */
    predicate AutoScrollRuns()
      reads this
    {
      autoScroll && |reviews| > 1
    }

    /** One tick of the interval: `(prev + 1) % reviews.length`; without an interval nothing happens. */
    method AutoTick()
      requires Valid()
      modifies this
      ensures reviews == old(reviews) && Valid()
      ensures !AutoScrollRuns() ==> currentIndex == old(currentIndex)
      ensures AutoScrollRuns() ==> currentIndex == Rem(old(currentIndex) + 1, |reviews|)
      ensures AutoScrollRuns() ==> currentIndex == (if old(currentIndex) == |reviews| - 1 then 0 else old(currentIndex) + 1)
    {
      if !AutoScrollRuns() {
        return;
      }
      RemSelf(|reviews|);
      currentIndex := Rem(currentIndex + 1, |reviews|);
    }
  }

  /** Going back after going forward returns to the same review. */
  lemma PrevAfterNext(i: int, len: int)
    requires 0 <= i < len
    ensures Normalize(Normalize(i + 1, len) - 1, len) == i
  {
    NormalizeIsMod(i + 1, len);
    if i == len - 1 {
      ModUnique(i + 1, len, 1, 0);
      NormalizeIsMod(-1, len);
      ModUnique(-1, len, -1, len - 1);
    }
  }

  /** The auto-scroll step and `next` agree: both advance by one modulo the length. */
  lemma AutoStepIsNext(i: int, len: int)
    requires 0 <= i < len
    ensures Rem(i + 1, len) == Normalize(i + 1, len)
  {
    RemIsMod(i + 1, len);
    NormalizeIsMod(i + 1, len);
  }
}
