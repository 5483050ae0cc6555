/**
 * The device tiers of hooks/use-performance.ts: classifying the device from
 * what the browser reports (passed in as parameters), deciding which component
 * priorities load on a tier, the image quality of a tier, and the
 * `withPerformanceOptimization` wrapper that renders nothing for a component
 * its tier does not load. The hook's intersection observer, preloading,
 * prefetching, debounce and timing are not modelled.
 */
module Performance {
  import opened Js
  import opened Strings

  datatype Tier = Low | Medium | High

  /** Low, medium, high as 0, 1, 2. */
  function Rank(t: Tier): nat
  {
    match t
    case Low => 0
    case Medium => 1
    case High => 2
  }

  /** What the browser reports; `hardwareConcurrency` and `deviceMemory` may be missing. */
  datatype Navigator = Navigator(
    userAgent: string,
    prefersReducedMotion: bool,
    hardwareConcurrency: Option<int>,
    deviceMemory: Option<int>)

  /** The tokens of `/Android|webOS|iPhone|iPad|iPod|BlackBerry|IEMobile|Opera Mini/i`, in lower case. */
  const MobileTokens: seq<string> := ["android", "webos", "iphone", "ipad", "ipod", "blackberry", "iemobile", "opera mini"]

  /** The regular expression matches the user agent: some token occurs in it, ignoring case. */
  predicate IsMobile(userAgent: string)
  {
    exists i :: 0 <= i < |MobileTokens| && Includes(ToLower(userAgent), MobileTokens[i])
  }

  /** `navigator.hardwareConcurrency || 2`. */
  function Cores(nav: Navigator): int
  {
    if TruthyNumber(nav.hardwareConcurrency) then nav.hardwareConcurrency.value else 2
  }

  /** `navigator.deviceMemory || 2`. */
  function Memory(nav: Navigator): int
  {
    if TruthyNumber(nav.deviceMemory) then nav.deviceMemory.value else 2
  }

  /**
   * `detectDevicePerformance`: medium without a window; otherwise low for reduced
   * motion or a mobile agent, then high for 8 cores and 8 GB, medium for 4 and 4,
   * and low for everything else.
   */
  function DetectDevicePerformance(hasWindow: bool, nav: Navigator): (t: Tier)
    ensures !hasWindow ==> t == Medium
    ensures hasWindow && (nav.prefersReducedMotion || IsMobile(nav.userAgent)) ==> t == Low
    ensures t == High <==> hasWindow && !nav.prefersReducedMotion && !IsMobile(nav.userAgent) &&
                           Cores(nav) >= 8 && Memory(nav) >= 8
    ensures hasWindow && t == Medium ==> Cores(nav) >= 4 && Memory(nav) >= 4
    ensures (hasWindow && !nav.prefersReducedMotion && !IsMobile(nav.userAgent) &&
             !(Cores(nav) >= 8 && Memory(nav) >= 8) && Cores(nav) >= 4 && Memory(nav) >= 4) ==> t == Medium
  {
    if !hasWindow then Medium
    else if nav.prefersReducedMotion || IsMobile(nav.userAgent) then Low
    else if Cores(nav) >= 8 && Memory(nav) >= 8 then High
    else if Cores(nav) >= 4 && Memory(nav) >= 4 then Medium
    else Low
  }

  /** A desktop browser that reports neither cores nor memory counts as two of each, which is the low tier. */
  lemma UnreportedHardwareIsLow(userAgent: string)
    requires !IsMobile(userAgent)
    ensures DetectDevicePerformance(true, Navigator(userAgent, false, None, None)) == Low
    ensures DetectDevicePerformance(true, Navigator(userAgent, false, Some(0), Some(0))) == Low
  {
  }

  /** Any agent naming an iPhone, in any capitalisation, is the low tier, however strong its hardware. */
  lemma IPhoneIsLow(nav: Navigator, at: int)
    requires OccursAt(ToLower(nav.userAgent), "iphone", at)
    ensures DetectDevicePerformance(true, nav) == Low
  {
    IncludesAt(ToLower(nav.userAgent), "iphone");
    assert MobileTokens[2] == "iphone";
  }

  /** Given the device reports, more hardware never gives a lower tier. */
  lemma TierMonotoneInHardware(a: Navigator, b: Navigator)
    requires a.userAgent == b.userAgent && a.prefersReducedMotion == b.prefersReducedMotion
    requires Cores(a) <= Cores(b) && Memory(a) <= Memory(b)
    ensures Rank(DetectDevicePerformance(true, a)) <= Rank(DetectDevicePerformance(true, b))
  {
  }

  /** `shouldLoadComponent(priority)` on a device tier. */
  function ShouldLoadComponent(device: Tier, priority: Tier): (r: bool)
    ensures device == High ==> r
    ensures device == Medium ==> (r <==> priority != Low)
    ensures device == Low ==> (r <==> priority == High)
  {
    if device == High then true
    else if device == Medium && priority != Low then true
    else if device == Low && priority == High then true
    else false
  }

  /** A component loads exactly when its priority and the device tier rank two or more together. */
  lemma LoadsByCombinedRank(device: Tier, priority: Tier)
    ensures ShouldLoadComponent(device, priority) <==> Rank(device) + Rank(priority) >= 2
  {
  }

  /** High-priority components load everywhere, and loading is monotone in priority and in the tier. */
  lemma LoadingMonotone(d1: Tier, d2: Tier, p1: Tier, p2: Tier)
    ensures ShouldLoadComponent(d1, High)
    ensures Rank(d1) <= Rank(d2) && Rank(p1) <= Rank(p2) && ShouldLoadComponent(d1, p1) ==> ShouldLoadComponent(d2, p2)
  {
    LoadsByCombinedRank(d1, p1);
    LoadsByCombinedRank(d2, p2);
  }

  /** The hook's tier: medium until the mount effect has classified the device. */
  function HookTier(mounted: bool, hasWindow: bool, nav: Navigator): Tier
  {
    if mounted then DetectDevicePerformance(hasWindow, nav) else Medium
  }

  /** The image quality of `getOptimizedImageProps`. */
  function ImageQuality(device: Tier): (q: int)
    ensures device == High ==> q == 85
    ensures device == Medium ==> q == 75
    ensures device == Low ==> q == 65
  {
    if device == High then 85 else if device == Medium then 75 else 65
  }

  /** A higher tier gets a strictly higher quality: 65 + 10 per rank. */
  lemma QualityByRank(device: Tier)
    ensures ImageQuality(device) == 65 + 10 * Rank(device)
  {
  }

  datatype ImageProps = ImageProps(src: string, quality: int, loading: string, placeholder: string, sizes: string)

  /** `getOptimizedImageProps(src, width)`; the blur data URL is left out. */
  function GetOptimizedImageProps(device: Tier, src: string, width: Option<int>): (r: ImageProps)
    ensures r.src == src && r.quality == ImageQuality(device)
    ensures r.loading == "lazy" && r.placeholder == "blur"
    ensures TruthyNumber(width) ==> r.sizes == IntToString(width.value) + "px"
    ensures !TruthyNumber(width) ==> r.sizes == "(max-width: 768px) 100vw, (max-width: 1200px) 50vw, 33vw"
  {
    ImageProps(src, ImageQuality(device), "lazy", "blur",
      if TruthyNumber(width) then IntToString(width.value) + "px"
      else "(max-width: 768px) 100vw, (max-width: 1200px) 50vw, 33vw")
  }

  /**
   * A component wrapped by `withPerformanceOptimization` with the given
   * priority (medium by default): nothing, or the component with its props.
   */
  function WithPerformanceOptimization<P>(device: Tier, priority: Option<Tier>, props: P): (r: Option<P>)
    ensures var p := if priority.Some? then priority.value else Medium;
      (r.None? <==> !ShouldLoadComponent(device, p)) && (r.Some? ==> r.value == props)
  {
    var p := if priority.Some? then priority.value else Medium;
    if !ShouldLoadComponent(device, p) then None else Some(props)
  }

  /** Before the mount effect every wrapped component renders unless it asked for low priority. */
  lemma FirstRenderIsMedium<P>(hasWindow: bool, nav: Navigator, priority: Option<Tier>, props: P)
    ensures WithPerformanceOptimization(HookTier(false, hasWindow, nav), priority, props).Some? <==>
      (priority.None? || priority.value != Low)
  {
  }
}
