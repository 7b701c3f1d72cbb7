/**
 * The GPU-tier hook (src/hooks/usePerformanceTier.js): the three performance
 * tiers, the static settings table keyed by tier name, the mapping from a GPU
 * probe result to a tier, and the state the asynchronous detection leaves.
 */
module Tiers {
  import opened Options

  /** PERFORMANCE_TIERS. */
  datatype Tier = Low | Medium | High

  /** The string each tier stands for in PERFORMANCE_TIERS. */
  function TierName(t: Tier): string {
    match t
    case Low => "low"
    case Medium => "medium"
    case High => "high"
  }

  /** Display order of the tiers, used only to state monotonicity. */
  function Rank(t: Tier): nat {
    match t
    case Low => 0
    case Medium => 1
    case High => 2
  }

  /** Shader precision strings "lowp", "mediump", "highp". */
  datatype Precision = LowP | MediumP | HighP

  /** Rendering-loop policy: render every frame, or only on invalidation. */
  datatype FrameLoop = Always | Demand

  /**
   * One record of TIER_SETTINGS. The decimal fields (dpr range, intensities,
   * performanceMin) are carried as exact decimals; nothing in the core computes with them.
   */
  datatype TierSettings = TierSettings(
    dpr: (real, real),
    antialias: bool,
    precision: Precision,
    shadows: bool,
    enableBloom: bool,
    enableEnvironment: bool,
    enableAreaLights: bool,
    particleCount: int,
    particleUpdateFrequency: int,
    floatIntensity: real,
    rotationIntensity: real,
    enableFloat: bool,
    useLowPolyMaterials: bool,
    frameloop: FrameLoop,
    performanceMin: real)

  const LowSettings := TierSettings(
    (0.75, 1.0), false, LowP, false,
    false, false, false,
    20, 4,
    0.2, 0.1, false,
    true, Demand, 0.3)

  const MediumSettings := TierSettings(
    (1.0, 1.5), true, MediumP, true,
    false, true, false,
    50, 2,
    0.5, 0.3, true,
    false, Always, 0.5)

  const HighSettings := TierSettings(
    (1.0, 2.0), true, HighP, true,
    true, true, true,
    100, 1,
    0.9, 0.5, true,
    false, Always, 0.5)

  /** TIER_SETTINGS: an object keyed by the tier strings. */
  const TierSettingsTable: map<string, TierSettings> :=
    map["low" := LowSettings, "medium" := MediumSettings, "high" := HighSettings]

  /** `TIER_SETTINGS[tier]`: total over the three tiers, with a usable particle budget and cadence. */
  function Lookup(t: Tier): (s: TierSettings)
    ensures s.particleCount > 0 && s.particleUpdateFrequency >= 1
  {
    TierSettingsTable[TierName(t)]
  }

  /** The table holds exactly one record per tier value, and distinct tiers have distinct records. */
  lemma TableHasOneRecordPerTier()
    ensures TierSettingsTable.Keys == set t: Tier :: TierName(t)
    ensures |TierSettingsTable| == 3
    ensures forall t1: Tier, t2: Tier :: t1 != t2 ==> Lookup(t1) != Lookup(t2)
  {
    var names := set t: Tier :: TierName(t);
    assert names == {"low", "medium", "high"} by {
      assert TierName(Low) in names && TierName(Medium) in names && TierName(High) in names;
    }
    assert TierSettingsTable.Keys == {"low", "medium", "high"};
  }

  /** Particle budgets grow with the tier (20/50/100) and update cadences shrink (4/2/1). */
  lemma BudgetsFollowTierOrder(t1: Tier, t2: Tier)
    requires Rank(t1) <= Rank(t2)
    ensures Lookup(t1).particleCount <= Lookup(t2).particleCount
    ensures Lookup(t1).particleUpdateFrequency >= Lookup(t2).particleUpdateFrequency >= 1
  {
  }

  /**
   * Only LOW renders on demand, drops antialiasing and shadows and uses simplified
   * materials; only HIGH enables bloom and area lights.
   */
  lemma TierDistinguishingFlags(t: Tier)
    ensures Lookup(t).frameloop == Demand <==> t == Low
    ensures !Lookup(t).antialias <==> t == Low
    ensures !Lookup(t).shadows <==> t == Low
    ensures Lookup(t).useLowPolyMaterials <==> t == Low
    ensures Lookup(t).enableBloom <==> t == High
    ensures Lookup(t).enableAreaLights <==> t == High
  {
  }

  /** What the GPU probe resolves with: a coarse score (0-3), a mobile flag and a diagnostic kind. */
  datatype GpuProbe = GpuProbe(tier: int, isMobile: bool, kind: string)

  /** `{ tier: 2, type: "FALLBACK" }`; the absent `isMobile` reads as false. */
  const FallbackProbe := GpuProbe(2, false, "FALLBACK")

  /** The score-to-tier thresholds: at most 1 is LOW, exactly 2 is MEDIUM, anything else HIGH. */
  function TierOfScore(score: int): (t: Tier)
    ensures t == Low <==> score <= 1
    ensures t == Medium <==> score == 2
    ensures t == High <==> score >= 3
  {
    if score <= 1 then Low
    else if score == 2 then Medium
    else High
  }

  /** The score mapping never gives a weaker tier for a stronger GPU. */
  lemma TierOfScoreMonotone(a: int, b: int)
    requires a <= b
    ensures Rank(TierOfScore(a)) <= Rank(TierOfScore(b))
  {
  }

  /** The `performanceTier` memo: MEDIUM while no result is stored, LOW on mobile, else by score. */
  function TierOfProbe(gpuTier: Option<GpuProbe>): (t: Tier)
    ensures gpuTier.None? ==> t == Medium
    ensures gpuTier.Some? && gpuTier.value.isMobile ==> t == Low
    ensures gpuTier.Some? && !gpuTier.value.isMobile ==> t == TierOfScore(gpuTier.value.tier)
  {
    match gpuTier
    case None => Medium
    case Some(probe) =>
      if probe.isMobile then Low else TierOfScore(probe.tier)
  }

  /** A mobile probe maps to LOW whatever its score; a non-mobile one is monotone in its score. */
  lemma MobileProbeIsLow(score: int, kind: string)
    ensures TierOfProbe(Some(GpuProbe(score, true, kind))) == Low
    ensures forall s1: int, s2: int :: s1 <= s2 ==>
      Rank(TierOfProbe(Some(GpuProbe(s1, false, kind)))) <= Rank(TierOfProbe(Some(GpuProbe(s2, false, kind))))
  {
  }

  /** How the awaited probe ended: with a result, or by throwing. */
  datatype ProbeOutcome = Resolved(result: GpuProbe) | Rejected

  /** The hook's two state cells: the stored probe result (`gpuTier`) and `isLoading`. */
  datatype Detection = Detection(gpuTier: Option<GpuProbe>, isLoading: bool)

  const InitialDetection := Detection(None, true)

  /**
   * The end of `detectGPU`: a result is stored (the fallback on failure) and loading
   * ends, unless the component has unmounted in the meantime.
   */
  function Settle(d: Detection, outcome: ProbeOutcome, isMounted: bool): (d': Detection)
    ensures !isMounted ==> d' == d
    ensures isMounted ==> !d'.isLoading && d'.gpuTier.Some?
    ensures isMounted && outcome.Resolved? ==> d'.gpuTier == Some(outcome.result)
    ensures isMounted && outcome.Rejected? ==> d'.gpuTier.value.kind == "FALLBACK" && TierOfProbe(d'.gpuTier) == Medium
  {
    if !isMounted then d
    else
      match outcome
      case Resolved(result) => Detection(Some(result), false)
      case Rejected => Detection(Some(FallbackProbe), false)
  }

  /** The value returned by `usePerformanceTier`. */
  datatype TierInfo = TierInfo(tier: Tier, settings: TierSettings, isLoading: bool, gpuInfo: Option<GpuProbe>)

  function UsePerformanceTier(d: Detection): (info: TierInfo)
    ensures info.settings == Lookup(info.tier)
    ensures info.isLoading == d.isLoading && info.gpuInfo == d.gpuTier
    ensures d.gpuTier.None? ==> info.tier == Medium
  {
    var tier := TierOfProbe(d.gpuTier);
    TierInfo(tier, Lookup(tier), d.isLoading, d.gpuTier)
  }

  /** `useShouldReduceQuality`: true exactly when the detected (not the effective) tier is LOW. */
  function ShouldReduceQuality(d: Detection): (r: bool)
    ensures r <==> UsePerformanceTier(d).tier == Low
    ensures r ==> Lookup(UsePerformanceTier(d).tier).frameloop == Demand
  {
    TierOfProbe(d.gpuTier) == Low
  }

  /** Before the probe settles the tier is MEDIUM; a failed probe keeps it MEDIUM. */
  lemma DetectionLifecycle(outcome: ProbeOutcome)
    ensures UsePerformanceTier(InitialDetection).tier == Medium
    ensures UsePerformanceTier(InitialDetection).isLoading
    ensures !UsePerformanceTier(Settle(InitialDetection, outcome, true)).isLoading
    ensures UsePerformanceTier(Settle(InitialDetection, Rejected, true)).tier == Medium
    ensures UsePerformanceTier(Settle(InitialDetection, outcome, false)) == UsePerformanceTier(InitialDetection)
  {
  }
}
