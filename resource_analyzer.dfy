/**
 * The resource analyzer: a tier derived from the primary GPU's VRAM, the
 * recommendation table for each tier, FLUX readiness, Apple Silicon hints
 * and timeouts, and the largest resolution a workflow asks for. Sizes are
 * reals; gigabytes are rounded to two decimals as `bytesToGb` does.
 */
module Resources {
  import opened Wrappers
  import opened Objects
  import opened JsonValues
  import opened Text
  import DB = DynamicBuilder

  const BYTES_PER_GB: real := 1073741824.0

  /** `Math.round`: the nearest integer, a half rounding up. */
  function RoundHalfUp(y: real): (k: int)
    ensures y - 0.5 < k as real <= y + 0.5
  {
    (y + 0.5).Floor
  }

  /** `bytesToGb`: the size in gigabytes, rounded to two decimals. */
  function BytesToGb(bytes: real): (r: real)
    ensures (r * 100.0).Floor as real == r * 100.0
    ensures bytes / BYTES_PER_GB - 0.005 < r <= bytes / BYTES_PER_GB + 0.005
  {
    RoundHalfUp(bytes / BYTES_PER_GB * 100.0) as real / 100.0
  }

  datatype Tier = Low | Medium | High | VeryHigh | Unknown

  /** The tiers in increasing order of VRAM; `Unknown` sits with the lowest. */
  function Rank(t: Tier): nat
  {
    match t
    case Unknown => 0
    case Low => 0
    case Medium => 1
    case High => 2
    case VeryHigh => 3
  }

  /** `tierFromVramGb`. */
  function TierFromVramGb(vramGb: real): Tier
  {
    if vramGb <= 0.0 then Unknown
    else if vramGb < 4.0 then Low
    else if vramGb < 8.0 then Medium
    else if vramGb < 12.0 then High
    else VeryHigh
  }

  /** The thresholds, read back: each tier covers one half-open band of VRAM. */
  lemma TierBands(vramGb: real)
    ensures TierFromVramGb(vramGb) == Unknown <==> vramGb <= 0.0
    ensures TierFromVramGb(vramGb) == Low <==> 0.0 < vramGb < 4.0
    ensures TierFromVramGb(vramGb) == Medium <==> 4.0 <= vramGb < 8.0
    ensures TierFromVramGb(vramGb) == High <==> 8.0 <= vramGb < 12.0
    ensures TierFromVramGb(vramGb) == VeryHigh <==> 12.0 <= vramGb
  {
  }

  /** More VRAM never gives a lower tier. */
  lemma TierMonotone(a: real, b: real)
    requires a <= b
    ensures Rank(TierFromVramGb(a)) <= Rank(TierFromVramGb(b))
  {
  }

  datatype ModelSize = Light | MediumModel | Heavy

  function SizeRank(m: ModelSize): nat
  {
    match m
    case Light => 0
    case MediumModel => 1
    case Heavy => 2
  }

  /** The fixed limits of one tier. */
  datatype TierLimits = TierLimits(maxWidth: nat, maxHeight: nat, modelSize: ModelSize, maxBatchSize: nat)

  function LimitsOf(tier: Tier): TierLimits
  {
    match tier
    case Low => TierLimits(512, 512, Light, 1)
    case Medium => TierLimits(768, 768, MediumModel, 2)
    case High => TierLimits(1024, 1024, Heavy, 4)
    case VeryHigh => TierLimits(1024, 1024, Heavy, 8)
    case Unknown => TierLimits(512, 512, Light, 1)
  }

  datatype TierAdvice = TierAdvice(limits: TierLimits, summary: string, warnings: seq<string>)

  const LOW_SUMMARY: string := "Low VRAM: use SD 1.5 or small checkpoints, 512×512, batch 1."
  const LOW_WARNING: string := "VRAM almost full; consider closing other GPU apps."
  const MEDIUM_SUMMARY: string := "Medium VRAM: 768×768, medium models or SD 1.5, batch 1–2."
  const MEDIUM_WARNING: string := "Low free VRAM; prefer batch_size 1."
  const HIGH_SUMMARY: string := "High VRAM: 1024×1024, SD XL possible; batch 2–4."
  const HIGH_WARNING: string := "Free VRAM low; reduce resolution or batch."
  const VERY_HIGH_SUMMARY: string := "Very high VRAM: SD XL and FLUX; batch 4–8."
  const UNKNOWN_SUMMARY: string := "Unknown GPU/VRAM: use conservative defaults (512×512, light model, batch 1)."
  const UNKNOWN_WARNING: string := "Could not read VRAM; use low settings to avoid OOM."

  /** `recommendationsFromTier`. */
  function RecommendationsFromTier(tier: Tier, vramFreeGb: real, vramTotalGb: real): (r: TierAdvice)
    ensures r.limits == LimitsOf(tier)
  {
    var freeRatio := if vramTotalGb > 0.0 then vramFreeGb / vramTotalGb else 1.0;
    match tier
    case Low => TierAdvice(LimitsOf(Low), LOW_SUMMARY, if freeRatio < 0.2 then [LOW_WARNING] else [])
    case Medium => TierAdvice(LimitsOf(Medium), MEDIUM_SUMMARY, if freeRatio < 0.25 then [MEDIUM_WARNING] else [])
    case High => TierAdvice(LimitsOf(High), HIGH_SUMMARY, if freeRatio < 0.2 then [HIGH_WARNING] else [])
    case VeryHigh => TierAdvice(LimitsOf(VeryHigh), VERY_HIGH_SUMMARY, [])
    case Unknown => TierAdvice(LimitsOf(Unknown), UNKNOWN_SUMMARY, [UNKNOWN_WARNING])
  }

  /** A higher tier never recommends a smaller resolution, model or batch. */
  lemma LimitsMonotone(s: Tier, t: Tier)
    requires Rank(s) <= Rank(t)
    ensures var a, b := LimitsOf(s), LimitsOf(t);
      a.maxWidth <= b.maxWidth && a.maxHeight <= b.maxHeight &&
      SizeRank(a.modelSize) <= SizeRank(b.modelSize) && a.maxBatchSize <= b.maxBatchSize
  {
  }

  /** Only an unknown tier always warns; with a quarter of the VRAM free, no known tier does. */
  lemma RecommendationWarnings(tier: Tier, vramFreeGb: real, vramTotalGb: real)
    ensures tier == Unknown ==> RecommendationsFromTier(tier, vramFreeGb, vramTotalGb).warnings != []
    ensures tier == VeryHigh ==> RecommendationsFromTier(tier, vramFreeGb, vramTotalGb).warnings == []
    ensures tier != Unknown && vramTotalGb > 0.0 && vramFreeGb >= vramTotalGb / 4.0 ==>
      RecommendationsFromTier(tier, vramFreeGb, vramTotalGb).warnings == []
  {
    if tier != Unknown && vramTotalGb > 0.0 && vramFreeGb >= vramTotalGb / 4.0 {
      assert vramFreeGb / vramTotalGb >= 0.25;
    }
  }

  /** The alternatives of the pattern that recognises Apple Silicon, tested on the lower-cased GPU name. */
  const APPLE_GPU_PATTERNS: seq<string> := ["apple", "m1", "m2", "m3", "mps", "metal"]

  predicate IsMpsOrApple(gpuName: string)
  {
    ContainsAny(Lower(gpuName), APPLE_GPU_PATTERNS)
  }

  const APPLE_HINT: string :=
    "Apple Silicon (M1/M2/M3): M-Flux (Mflux-ComfyUI), ComfyUI-MLX and other MPS/MLX-optimized models may run " +
    "with lower memory than desktop FLUX; use txt2img for SD 1.5/SDXL, or install M-Flux/MLX nodes for " +
    "FLUX-style generation."

  /** `baseTimeoutByTier`. */
  function BaseTimeout(tier: Tier): (ms: nat)
    ensures ms % 2 == 0
  {
    match tier
    case Low => 120000
    case Medium => 240000
    case High => 480000
    case VeryHigh => 600000
    case Unknown => 300000
  }

  /** `Math.round(base * 2.5)`: every base is even, so the product is whole. */
  function AppleTimeout(base: nat): (ms: nat)
    requires base % 2 == 0
    ensures 2 * ms == 5 * base
  {
    var half := base / 2;
    assert base == 2 * half;
    5 * half
  }

  datatype RawStats = RawStats(vramTotalBytes: real, vramFreeBytes: real, ramTotalBytes: real, ramFreeBytes: real)

  datatype ResourceRecommendations = ResourceRecommendations(
    tier: Tier, gpuName: string,
    vramTotalGb: real, vramFreeGb: real, ramTotalGb: real, ramFreeGb: real,
    limits: TierLimits,
    summary: string, warnings: seq<string>,
    fluxReady: bool, fluxMaxWidth: nat, fluxMaxHeight: nat,
    platformHints: Option<seq<string>>,
    recommendedTimeoutMs: nat,
    raw: RawStats)

  /** `Number(x) || 0` for a parsed field: numbers as they are, booleans as 1 or 0, anything else 0. */
  function NumberOr0(x: Option<Json>): real
  {
    match x
    case Some(JNum(n)) => n
    case Some(JBool(b)) => if b then 1.0 else 0.0
    case _ => 0.0
  }

  /** `stats.devices?.[0]` when it is truthy. */
  function PrimaryDevice(stats: Json): Option<Json>
  {
    match Prop(stats, "devices")
    case Some(JArr(items)) => if |items| > 0 && Truthy(items[0]) then Some(items[0]) else None
    case _ => None
  }

  /** The byte counts the analysis reads: RAM from `system`, VRAM from the primary device (none without one). */
  function Readings(stats: Json): (r: RawStats)
    ensures PrimaryDevice(stats).None? ==> r.vramTotalBytes == 0.0 && r.vramFreeBytes == 0.0
  {
    var sys := Prop(stats, "system");
    var primary := PrimaryDevice(stats);
    RawStats(
      if primary.Some? then NumberOr0(Prop(primary.value, "vram_total")) else 0.0,
      if primary.Some? then NumberOr0(Prop(primary.value, "vram_free")) else 0.0,
      NumberOr0(if sys.Some? then Prop(sys.value, "ram_total") else None),
      NumberOr0(if sys.Some? then Prop(sys.value, "ram_free") else None))
  }

  /** `primary?.name ?? 'unknown'`. */
  function GpuName(stats: Json): (r: string)
    ensures PrimaryDevice(stats).None? ==> r == "unknown"
  {
    var primary := PrimaryDevice(stats);
    if primary.Some? && StrProp(primary.value, "name").Some? then StrProp(primary.value, "name").value
    else "unknown"
  }

  /** `analyzeSystemResources(stats)` on the parsed `/system_stats` answer. */
  function AnalyzeSystemResources(stats: Json): (r: ResourceRecommendations)
    ensures r.tier == TierFromVramGb(r.vramTotalGb)
    ensures r.vramTotalGb == BytesToGb(r.raw.vramTotalBytes) && r.vramFreeGb == BytesToGb(r.raw.vramFreeBytes)
    ensures r.ramTotalGb == BytesToGb(r.raw.ramTotalBytes) && r.ramFreeGb == BytesToGb(r.raw.ramFreeBytes)
    ensures r.raw == Readings(stats)
    ensures r.limits == LimitsOf(r.tier)
    ensures r.warnings == RecommendationsFromTier(r.tier, r.vramFreeGb, r.vramTotalGb).warnings
    ensures r.fluxReady <==> r.tier == High || r.tier == VeryHigh
    ensures r.fluxMaxWidth == r.fluxMaxHeight == (if r.fluxReady then 1024 else 0)
    ensures PrimaryDevice(stats).None? ==> r.gpuName == "unknown" && r.tier == Unknown && r.raw.vramTotalBytes == 0.0
  {
    var raw := Readings(stats);
    var vramTotalGb := BytesToGb(raw.vramTotalBytes);
    var vramFreeGb := BytesToGb(raw.vramFreeBytes);
    var tier := TierFromVramGb(vramTotalGb);
    var gpuName := GpuName(stats);
    var advice := RecommendationsFromTier(tier, vramFreeGb, vramTotalGb);
    var fluxReady := tier == High || tier == VeryHigh;
    var fluxMax := if fluxReady then 1024 else 0;
    var apple := IsMpsOrApple(gpuName);
    var base := BaseTimeout(tier);
    ResourceRecommendations(
      tier, gpuName, vramTotalGb, vramFreeGb, BytesToGb(raw.ramTotalBytes), BytesToGb(raw.ramFreeBytes),
      advice.limits, advice.summary, advice.warnings,
      fluxReady, fluxMax, fluxMax,
      if apple then Some([APPLE_HINT]) else None,
      if apple then AppleTimeout(base) else base,
      raw)
  }

  /**
   * A card reporting 2^19 bytes short of 8 GiB reads as 8.00 GB, so it is in
   * the high tier and ready for FLUX, though its exact size is below 8 GiB.
   */
  lemma JustUnderEightGiBIsHigh(stats: Json)
    requires Readings(stats).vramTotalBytes == 8589410304.0
    ensures var r := AnalyzeSystemResources(stats);
      r.vramTotalGb == 8.0 && r.tier == High && r.fluxReady
    ensures 8589410304.0 / BYTES_PER_GB < 8.0
  {
    assert BytesToGb(8589410304.0) == 8.0 by {
      assert 8589410304.0 / BYTES_PER_GB * 100.0 + 0.5 == 800.451171875;
    }
  }

  /** Likewise a card just under 12 GiB reads as 12.00 GB and is very high. */
  lemma JustUnderTwelveGiBIsVeryHigh(stats: Json)
    requires Readings(stats).vramTotalBytes == 12884377600.0
    ensures var r := AnalyzeSystemResources(stats);
      r.vramTotalGb == 12.0 && r.tier == VeryHigh && r.fluxReady
    ensures 12884377600.0 / BYTES_PER_GB < 12.0
  {
    assert BytesToGb(12884377600.0) == 12.0 by {
      assert 12884377600.0 / BYTES_PER_GB * 100.0 + 0.5 == 1200.451171875;
    }
  }

  /** Hints appear exactly for an Apple Silicon or MPS device name, whose timeout is two and a half times the tier's. */
  lemma AppleAdjustments(stats: Json)
    ensures var r := AnalyzeSystemResources(stats);
      (r.platformHints.Some? <==> IsMpsOrApple(r.gpuName)) &&
      (r.platformHints.Some? ==> r.platformHints.value == [APPLE_HINT]) &&
      r.recommendedTimeoutMs ==
        if IsMpsOrApple(r.gpuName) then AppleTimeout(BaseTimeout(r.tier)) else BaseTimeout(r.tier)
  {
  }

  /** Without a device the analysis falls back to the unknown tier, names no GPU and warns. */
  lemma NoDevicesUnknown(stats: Json)
    requires PrimaryDevice(stats).None?
    ensures var r := AnalyzeSystemResources(stats);
      r.tier == Unknown && r.gpuName == "unknown" && r.warnings != [] && !r.fluxReady &&
      r.limits.maxWidth == 512 && r.recommendedTimeoutMs == 300000
  {
    var r := AnalyzeSystemResources(stats);
    RecommendationWarnings(Unknown, r.vramFreeGb, r.vramTotalGb);
    assert !IsMpsOrApple("unknown") by {
      forall i | 0 <= i < |APPLE_GPU_PATTERNS| ensures !Contains(Lower("unknown"), APPLE_GPU_PATTERNS[i]) {
        UnknownLacks(i);
      }
    }
  }

  lemma UnknownLacks(i: nat)
    requires i < |APPLE_GPU_PATTERNS|
    ensures !Contains(Lower("unknown"), APPLE_GPU_PATTERNS[i])
  {
    var s := Lower("unknown");
    assert s == "unknown" by {
      forall k | 0 <= k < 7 ensures s[k] == "unknown"[k] {
        assert s[k] == LowerChar("unknown"[k]);
      }
    }
    var p := APPLE_GPU_PATTERNS[i];
    assert p[0] == 'a' || p[0] == 'm';
    LacksFirstChar(s, p);
  }

  // ------------------------------------------------------- workflow resolution

  /** `typeof inputs[k] === 'number' ? inputs[k] : 0`. */
  function NumberInput(inputs: Obj<Json>, k: string): real
  {
    var v := Get(inputs, k);
    if v.Some? && v.value.JNum? then v.value.n else 0.0
  }

  /** A node that asks for a size: a positive width and a positive height. */
  predicate Sized(n: DB.NodeDef)
  {
    NumberInput(n.inputs, "width") > 0.0 && NumberInput(n.inputs, "height") > 0.0
  }

  function Width(n: DB.NodeDef): real
  {
    NumberInput(n.inputs, "width")
  }

  function Height(n: DB.NodeDef): real
  {
    NumberInput(n.inputs, "height")
  }

  /**
   * `getWorkflowResolution`: the largest width and the largest height over
   * the nodes that give both (possibly from different nodes), or `None` when
   * no node does.
   */
  method GetWorkflowResolution(workflow: DB.Workflow) returns (r: Option<(real, real)>)
    ensures r.None? <==> forall i | 0 <= i < |workflow| :: !Sized(workflow[i].1)
    ensures r.Some? ==>
      (forall i | 0 <= i < |workflow| && Sized(workflow[i].1) ::
         Width(workflow[i].1) <= r.value.0 && Height(workflow[i].1) <= r.value.1) &&
      (exists i | 0 <= i < |workflow| :: Sized(workflow[i].1) && Width(workflow[i].1) == r.value.0) &&
      (exists i | 0 <= i < |workflow| :: Sized(workflow[i].1) && Height(workflow[i].1) == r.value.1)
  {
    var maxW := 0.0;
    var maxH := 0.0;
    var i := 0;
    while i < |workflow|
      invariant 0 <= i <= |workflow|
      invariant forall k | 0 <= k < i && Sized(workflow[k].1) ::
        Width(workflow[k].1) <= maxW && Height(workflow[k].1) <= maxH
      invariant maxW == 0.0 <==> maxH == 0.0
      invariant maxW == 0.0 <==> forall k | 0 <= k < i :: !Sized(workflow[k].1)
      invariant maxW > 0.0 ==> exists k | 0 <= k < i :: Sized(workflow[k].1) && Width(workflow[k].1) == maxW
      invariant maxH > 0.0 ==> exists k | 0 <= k < i :: Sized(workflow[k].1) && Height(workflow[k].1) == maxH
      invariant maxW >= 0.0 && maxH >= 0.0
    {
      var node := workflow[i].1;
      var w := NumberInput(node.inputs, "width");
      var h := NumberInput(node.inputs, "height");
      if w > 0.0 && h > 0.0 {
        if w > maxW {
          maxW := w;
        }
        if h > maxH {
          maxH := h;
        }
      }
      i := i + 1;
    }
    if maxW > 0.0 && maxH > 0.0 {
      r := Some((maxW, maxH));
    } else {
      r := None;
    }
  }
}
