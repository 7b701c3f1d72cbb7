/**
 * The performance provider (src/context/PerformanceContext.jsx): viewport
 * classification with a debounced resize handler, the validated manual
 * override, the effective tier and settings, and the value it broadcasts.
 */
module PerformanceContext {
  import opened Options
  import opened Tiers

  /** The three viewport flags, derived from one width reading. */
  datatype Viewport = Viewport(isMobile: bool, isTablet: bool, isDesktop: bool)

  const MobileMaxWidth := 768
  const TabletMaxWidth := 1024
  const DebounceMs := 150

  /** The viewport before the first measurement. */
  const InitialViewport := Viewport(false, false, true)

  predicate ExactlyOne(a: bool, b: bool, c: bool) {
    (a && !b && !c) || (!a && b && !c) || (!a && !b && c)
  }

  /** `updateViewport`: mobile up to 768, tablet up to 1024, desktop above. */
  function Classify(width: int): (v: Viewport)
    ensures ExactlyOne(v.isMobile, v.isTablet, v.isDesktop)
    ensures v.isMobile <==> width <= MobileMaxWidth
    ensures v.isTablet <==> MobileMaxWidth < width <= TabletMaxWidth
    ensures v.isDesktop <==> TabletMaxWidth < width
  {
    Viewport(width <= 768, width > 768 && width <= 1024, width > 1024)
  }

  /** Position of a viewport in the mobile < tablet < desktop order. */
  function Size(v: Viewport): nat {
    if v.isMobile then 0 else if v.isTablet then 1 else 2
  }

  /** A wider window never lands in a smaller bucket. */
  lemma ClassifyMonotone(w1: int, w2: int)
    requires w1 <= w2
    ensures Size(Classify(w1)) <= Size(Classify(w2))
  {
  }

  /** The JavaScript values `setPerformanceOverride` may be handed. */
  datatype JsValue = JsNull | JsString(s: string) | JsOther

  /** `Object.values(PERFORMANCE_TIERS).includes(s)`, answering with the tier it names. */
  function TierNamed(s: string): (r: Option<Tier>)
    ensures r.Some? ==> TierName(r.value) == s
    ensures r.None? ==> forall t: Tier :: TierName(t) != s
  {
    if s == "low" then Some(Low)
    else if s == "medium" then Some(Medium)
    else if s == "high" then Some(High)
    else None
  }

  /** Every tier's own string is accepted as that tier. */
  lemma TierNamedRoundTrip(t: Tier)
    ensures TierNamed(TierName(t)) == Some(t)
  {
  }

  /** The override after `setPerformanceOverride(v)`: null clears it, a tier string sets it, anything else is ignored. */
  function NextOverride(current: Option<Tier>, v: JsValue): (r: Option<Tier>)
    ensures v == JsNull ==> r == None
    ensures v.JsString? && TierNamed(v.s).Some? ==> r.Some? && TierName(r.value) == v.s
    ensures v.JsOther? || (v.JsString? && TierNamed(v.s).None?) ==> r == current
  {
    match v
    case JsNull => None
    case JsString(s) => if TierNamed(s).Some? then TierNamed(s) else current
    case JsOther => current
  }

  /** `effectiveTier`: the override if any, else LOW on a mobile viewport, else the detected tier. */
  function EffectiveTier(manualOverride: Option<Tier>, viewport: Viewport, detected: Tier): (t: Tier)
    ensures manualOverride.Some? ==> t == manualOverride.value
    ensures manualOverride.None? && viewport.isMobile ==> t == Low
    ensures manualOverride.None? && !viewport.isMobile ==> t == detected
  {
    if manualOverride.Some? then manualOverride.value
    else if viewport.isMobile then Low
    else detected
  }

  /** Fields other than bloom and the particle budget are the same in both records. */
  predicate SameExceptBloomAndBudget(a: TierSettings, b: TierSettings) {
    a.(enableBloom := b.enableBloom, particleCount := b.particleCount) == b
  }

  /**
   * `effectiveSettings`: the table entry, except on a tablet at HIGH, where a copy has
   * bloom off and `Math.floor(particleCount * 0.7)` particles. The table itself is a
   * constant and so is never changed.
   */
  function EffectiveSettings(t: Tier, isTablet: bool): (s: TierSettings)
    ensures SameExceptBloomAndBudget(s, Lookup(t))
    ensures !(isTablet && t == High) ==> s == Lookup(t)
    ensures isTablet && t == High ==> !s.enableBloom && s.particleCount == 70
    ensures 0 < s.particleCount <= Lookup(t).particleCount
    ensures s.enableBloom ==> Lookup(t).enableBloom
  {
    var base := Lookup(t);
    if isTablet && t == High then
      base.(enableBloom := false, particleCount := (base.particleCount * 7) / 10)
    else base
  }

  /** The context value (the setter function itself is left out). */
  datatype PerformanceValue = PerformanceValue(
    tier: Tier,
    settings: TierSettings,
    isLoading: bool,
    gpuInfo: Option<GpuProbe>,
    viewport: Viewport,
    hasOverride: bool,
    isLowTier: bool,
    isMediumTier: bool,
    isHighTier: bool,
    shouldUseSimpleMaterials: bool,
    shouldEnableEffects: bool)

  /** The value the provider derives from its three inputs. */
  function ProviderValue(d: Detection, manualOverride: Option<Tier>, viewport: Viewport): (v: PerformanceValue)
    ensures v.tier == EffectiveTier(manualOverride, viewport, UsePerformanceTier(d).tier)
    ensures v.settings == EffectiveSettings(v.tier, viewport.isTablet)
    ensures v.isLoading == d.isLoading && v.gpuInfo == d.gpuTier && v.viewport == viewport
    ensures v.hasOverride <==> manualOverride.Some?
    ensures ExactlyOne(v.isLowTier, v.isMediumTier, v.isHighTier)
    ensures v.isLowTier <==> v.tier == Low
    ensures v.isHighTier <==> v.tier == High
    ensures v.shouldUseSimpleMaterials <==> v.tier == Low
    ensures v.shouldEnableEffects <==> v.settings.enableBloom || v.settings.enableEnvironment
    ensures v.shouldEnableEffects <==> v.tier != Low
  {
    var tier := EffectiveTier(manualOverride, viewport, TierOfProbe(d.gpuTier));
    var settings := EffectiveSettings(tier, viewport.isTablet);
    PerformanceValue(
      tier, settings, d.isLoading, d.gpuTier, viewport,
      manualOverride != None,
      tier == Low, tier == Medium, tier == High,
      settings.useLowPolyMaterials,
      settings.enableBloom || settings.enableEnvironment)
  }

  /** What `usePerformance` returns outside a provider, for a window of the given width. */
  function DefaultValue(width: int): (v: PerformanceValue)
    ensures v.tier == Medium && v.settings == Lookup(Medium) && v.viewport == Classify(width)
  {
    PerformanceValue(
      Medium, Lookup(Medium), false, None, Classify(width),
      false, false, true, false, false, true)
  }

  /**
   * Outside a mobile width, the default bundle is what a freshly mounted provider
   * derives (no override, probe still pending), except that the default reports
   * loading as finished; on a mobile width that provider forces LOW while the
   * default stays MEDIUM.
   */
  lemma DefaultMatchesMediumProvider(width: int)
    ensures width > MobileMaxWidth ==>
      DefaultValue(width) == ProviderValue(InitialDetection, None, Classify(width)).(isLoading := false)
    ensures ProviderValue(InitialDetection, None, Classify(width)).isLoading && !DefaultValue(width).isLoading
    ensures width <= MobileMaxWidth ==>
      ProviderValue(InitialDetection, None, Classify(width)).tier == Low && DefaultValue(width).tier == Medium
  {
  }

  /** The test vectors of the resolver: override beats mobile, mobile forces LOW, tablet+HIGH is trimmed. */
  lemma ResolverExamples()
    ensures ProviderValue(Detection(Some(GpuProbe(3, false, "")), false), Some(High), Classify(400)).tier == High
    ensures ProviderValue(Detection(Some(GpuProbe(3, false, "")), false), None, Classify(400)).tier == Low
    ensures var v := ProviderValue(Detection(Some(GpuProbe(3, false, "")), false), None, Classify(900));
      v.tier == High && !v.settings.enableBloom && v.settings.particleCount == 70
  {
  }

  /**
   * The stateful part of the provider: the detection state of the tier hook, the
   * override state cell, the viewport state cell, and the resize debounce timer.
   */
  class PerformanceProvider {
    var detection: Detection
    var manualOverride: Option<Tier>
    var viewportSize: Viewport
    /** Due time of the pending `updateViewport` timer (`timeoutId`), if one is scheduled. */
    var timer: Option<int>
    /** Whether the resize listener is attached. */
    var listening: bool
    /** Whether the provider is still mounted (the `isMounted` flag of the detection effect). */
    var mounted: bool

    constructor ()
      ensures detection == InitialDetection && manualOverride == None
      ensures viewportSize == InitialViewport && timer == None && !listening && mounted
    {
      detection := InitialDetection;
      manualOverride := None;
      viewportSize := InitialViewport;
      timer := None;
      listening := false;
      mounted := true;
    }

    /** What the provider currently broadcasts. */
    function Value(): (v: PerformanceValue)
      reads this
      ensures v.viewport == viewportSize && (v.hasOverride <==> manualOverride.Some?)
    {
      ProviderValue(detection, manualOverride, viewportSize)
    }

    /** The viewport effect at mount: one synchronous classification, then the listener is attached. */
    method MountViewport(width: int)
      modifies this
      ensures viewportSize == Classify(width) && listening && timer == None
      ensures detection == old(detection) && manualOverride == old(manualOverride) && mounted == old(mounted)
    {
      viewportSize := Classify(width);
      listening := true;
      timer := None;
    }

    /** `debouncedUpdate`: a resize cancels any pending timer and schedules exactly one new one. */
    method Resize(now: int)
      modifies this
      ensures listening ==> timer == Some(now + DebounceMs)
      ensures !listening ==> timer == old(timer)
      ensures viewportSize == old(viewportSize) && listening == old(listening)
      ensures detection == old(detection) && manualOverride == old(manualOverride) && mounted == old(mounted)
    {
      if listening {
        timer := Some(now + DebounceMs);
      }
    }

    /** Time reaches `now`; a due timer runs `updateViewport`, which reads the width at that moment. */
    method Tick(now: int, width: int)
      modifies this
      ensures old(timer).Some? && old(timer).value <= now ==> viewportSize == Classify(width) && timer == None
      ensures !(old(timer).Some? && old(timer).value <= now) ==> viewportSize == old(viewportSize) && timer == old(timer)
      ensures listening == old(listening) && detection == old(detection)
      ensures manualOverride == old(manualOverride) && mounted == old(mounted)
    {
      if timer.Some? && timer.value <= now {
        viewportSize := Classify(width);
        timer := None;
      }
    }

    /** `setPerformanceOverride`. */
    method SetPerformanceOverride(v: JsValue)
      modifies this
      ensures manualOverride == NextOverride(old(manualOverride), v)
      ensures detection == old(detection) && viewportSize == old(viewportSize)
      ensures timer == old(timer) && listening == old(listening) && mounted == old(mounted)
    {
      manualOverride := NextOverride(manualOverride, v);
    }

    /** The awaited GPU probe finishes. */
    method ProbeSettled(outcome: ProbeOutcome)
      modifies this
      ensures detection == Settle(old(detection), outcome, mounted)
      ensures manualOverride == old(manualOverride) && viewportSize == old(viewportSize)
      ensures timer == old(timer) && listening == old(listening) && mounted == old(mounted)
    {
      detection := Settle(detection, outcome, mounted);
    }

    /** Teardown: the listener is removed, the pending timer cleared, and late probe results are dropped. */
    method Unmount()
      modifies this
      ensures !listening && timer == None && !mounted
      ensures detection == old(detection) && manualOverride == old(manualOverride) && viewportSize == old(viewportSize)
    {
      listening := false;
      timer := None;
      mounted := false;
    }
  }
}
