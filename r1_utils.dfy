/**
 * r1_1776_utils.py: choosing how to load the R1-1776 model from the
 * hardware facts that `get_system_info` gathers, the loader keyword
 * arguments, the missing-directory error, and the prompt strip of
 * `generate_text`.
 */
module R1Utils {
  import opened Common
  import opened ModelConfig

  datatype GpuInfo = GpuInfo(index: nat, name: string, memoryGb: real)

  /** The record `get_system_info` returns; the probes that fill it are not modelled. */
  datatype SystemInfo = SystemInfo(
    hasCuda: bool,
    hasMps: bool,
    gpuCount: nat,
    gpuInfo: seq<GpuInfo>,
    gpuMemoryGb: real,
    ramTotalGb: real,
    ramAvailableGb: real)

  /** The multi-GPU loop reads `gpu_info[i]` for every `i < gpu_count`. */
  predicate BudgetReadable(info: SystemInfo) {
    info.hasCuda && info.gpuCount > 1 ==> info.gpuCount <= |info.gpuInfo|
  }

  /** The branches of the first-match ladder, in order. */
  datatype Tier = HighEndGpu | MidRangeGpu | LowEndGpu | VeryLowEndGpu | AppleSilicon | CpuWithRam | LowResource

  function SelectTier(info: SystemInfo): Tier {
    if info.hasCuda && info.gpuMemoryGb >= 24.0 then HighEndGpu
    else if info.hasCuda && info.gpuMemoryGb >= 12.0 then MidRangeGpu
    else if info.hasCuda && info.gpuMemoryGb >= 8.0 then LowEndGpu
    else if info.hasCuda && info.gpuMemoryGb >= 4.0 then VeryLowEndGpu
    else if info.hasMps then AppleSilicon
    else if info.ramTotalGb >= 16.0 then CpuWithRam
    else LowResource
  }

  /** The dictionary every branch starts from. */
  function Defaults(): Config {
    map[DeviceMap := Text("auto"), TorchDtype := Float16, LoadIn8bit := Flag(false),
        LoadIn4bit := Flag(false), UseCpu := Flag(false), OffloadFolder := NoneValue,
        MaxMemory := NoneValue, LowCpuMemUsage := Flag(true)]
  }

  /** `os.path.join(home, ".cache", "r1-1776-offload")` on POSIX. */
  function OffloadPath(home: string): string {
    (if home != [] && home[|home| - 1] == '/' then home else home + "/") + ".cache/r1-1776-offload"
  }

  function TierConfig(tier: Tier, home: string): Config {
    match tier
    case HighEndGpu => Defaults()
    case MidRangeGpu => Defaults()
    case LowEndGpu => Defaults()[LoadIn8bit := Flag(true)]
    case VeryLowEndGpu => WithFourBit(Defaults())
    case AppleSilicon => WithFourBit(Defaults()[DeviceMap := Text("mps")])
    case CpuWithRam => WithFourBit(Defaults()[DeviceMap := Text("cpu")])[UseCpu := Flag(true)]
    case LowResource =>
      WithFourBit(Defaults()[DeviceMap := Text("cpu")])[UseCpu := Flag(true)][OffloadFolder := Text(OffloadPath(home))]
  }

  /** `f"{int(gpu_info[i]['memory_gb'] * 0.9)}GiB"`: 90% of card `i`, truncated. */
  function GpuLimit(info: SystemInfo, i: nat): string
    requires i < |info.gpuInfo|
  {
    GiB(Trunc(info.gpuInfo[i].memoryGb * 0.9))
  }

  /** `f"{int(ram_available_gb * 0.5)}GiB"`: half the available RAM, truncated. */
  function CpuLimit(info: SystemInfo): string {
    GiB(Trunc(info.ramAvailableGb * 0.5))
  }

  /** The per-GPU part of `max_memory` after `n` turns of the loop. */
  function GpuBudget(info: SystemInfo, n: nat): map<MemKey, string>
    requires n <= |info.gpuInfo|
  {
    if n == 0 then map[] else GpuBudget(info, n - 1)[Gpu(n - 1) := GpuLimit(info, n - 1)]
  }

  /** The full `max_memory` dictionary: every GPU plus half the available RAM under "cpu". */
  function MemoryBudget(info: SystemInfo): map<MemKey, string>
    requires info.gpuCount <= |info.gpuInfo|
  {
    GpuBudget(info, info.gpuCount)[CpuMem := CpuLimit(info)]
  }

  /** What `determine_optimal_config` returns. */
  function OptimalConfig(info: SystemInfo, home: string): Config
    requires BudgetReadable(info)
  {
    var c := TierConfig(SelectTier(info), home);
    if info.hasCuda && info.gpuCount > 1 then c[MaxMemory := Budget(MemoryBudget(info))] else c
  }

  /**
   * `determine_optimal_config`: start from the defaults, patch them in the
   * first branch whose condition holds, then fill `max_memory` GPU by GPU
   * on a multi-GPU CUDA machine.  The offload directory is created as a
   * side effect in the source; that is not modelled.
   */
  method DetermineOptimalConfig(info: SystemInfo, home: string) returns (config: Config)
    requires BudgetReadable(info)
    ensures config == OptimalConfig(info, home)
  {
    config := Defaults();
    if info.hasCuda && info.gpuMemoryGb >= 24.0 {
      assert SelectTier(info) == HighEndGpu;
    } else if info.hasCuda && info.gpuMemoryGb >= 12.0 {
      assert SelectTier(info) == MidRangeGpu;
    } else if info.hasCuda && info.gpuMemoryGb >= 8.0 {
      config := config[LoadIn8bit := Flag(true)];
      assert SelectTier(info) == LowEndGpu;
    } else if info.hasCuda && info.gpuMemoryGb >= 4.0 {
      config := config[LoadIn4bit := Flag(true)];
      config := config[ComputeDtype := Float16];
      config := config[QuantType := Text("nf4")];
      assert SelectTier(info) == VeryLowEndGpu && config == TierConfig(VeryLowEndGpu, home);
    } else if info.hasMps {
      config := config[DeviceMap := Text("mps")];
      config := config[LoadIn4bit := Flag(true)];
      config := config[ComputeDtype := Float16];
      config := config[QuantType := Text("nf4")];
      assert SelectTier(info) == AppleSilicon && config == TierConfig(AppleSilicon, home);
    } else if info.ramTotalGb >= 16.0 {
      config := config[DeviceMap := Text("cpu")];
      config := config[LoadIn4bit := Flag(true)];
      config := config[ComputeDtype := Float16];
      config := config[QuantType := Text("nf4")];
      config := config[UseCpu := Flag(true)];
      assert SelectTier(info) == CpuWithRam && config == TierConfig(CpuWithRam, home);
    } else {
      config := config[DeviceMap := Text("cpu")];
      config := config[LoadIn4bit := Flag(true)];
      config := config[ComputeDtype := Float16];
      config := config[QuantType := Text("nf4")];
      config := config[UseCpu := Flag(true)];
      config := config[OffloadFolder := Text(OffloadPath(home))];
      assert SelectTier(info) == LowResource && config == TierConfig(LowResource, home);
    }
    assert config == TierConfig(SelectTier(info), home);
    if info.hasCuda && info.gpuCount > 1 {
      var maxMemory: map<MemKey, string> := map[];
      var i := 0;
      while i < info.gpuCount
        invariant 0 <= i <= info.gpuCount
        invariant maxMemory == GpuBudget(info, i)
      {
        maxMemory := maxMemory[Gpu(i) := GpuLimit(info, i)];
        i := i + 1;
      }
      maxMemory := maxMemory[CpuMem := CpuLimit(info)];
      config := config[MaxMemory := Budget(maxMemory)];
    }
  }

  // ----- properties of the resolver -----

  /** Every entry but max_memory is the one the matched branch set. */
  lemma OptimalFromTier(info: SystemInfo, home: string)
    requires BudgetReadable(info)
    ensures var c := OptimalConfig(info, home); var t := TierConfig(SelectTier(info), home);
      forall k :: k != MaxMemory ==> (k in c <==> k in t) && (k in t ==> c[k] == t[k])
  {
  }

  /** At most one quantization is switched on, and 4-bit always comes with float16 and "nf4". */
  lemma QuantizationExclusive(info: SystemInfo, home: string)
    requires BudgetReadable(info)
    ensures var c := OptimalConfig(info, home);
      !(IsSet(c, LoadIn8bit) && IsSet(c, LoadIn4bit)) && FourBitComplete(c)
  {
  }

  /**
   * The CUDA tiers are first-match with closed lower bounds: 12 GB and up
   * keep the defaults, [8, 12) quantizes to 8 bits, [4, 8) to 4 bits, and
   * all of them keep device_map "auto".
   */
  lemma CudaTiers(info: SystemInfo, home: string)
    requires BudgetReadable(info) && info.hasCuda && info.gpuMemoryGb >= 4.0
    ensures var c := OptimalConfig(info, home);
      Device(c) == Some("auto") && !IsSet(c, UseCpu) && c[OffloadFolder] == NoneValue &&
      IsSet(c, LoadIn8bit) == (8.0 <= info.gpuMemoryGb < 12.0) &&
      IsSet(c, LoadIn4bit) == (info.gpuMemoryGb < 8.0)
  {
    OptimalFromTier(info, home);
    var tier := SelectTier(info);
    assert tier.LowEndGpu? <==> 8.0 <= info.gpuMemoryGb < 12.0;
    assert tier.VeryLowEndGpu? <==> info.gpuMemoryGb < 8.0;
    GpuTierEntries(tier, home);
    var c := OptimalConfig(info, home);
    var t := TierConfig(tier, home);
    assert DeviceMap in t && UseCpu in t && OffloadFolder in t && LoadIn8bit in t && LoadIn4bit in t;
    assert c[DeviceMap] == t[DeviceMap] && c[UseCpu] == t[UseCpu] && c[OffloadFolder] == t[OffloadFolder];
    assert c[LoadIn8bit] == t[LoadIn8bit] && c[LoadIn4bit] == t[LoadIn4bit];
  }

  /** The entries the four GPU branches set. */
  lemma GpuTierEntries(tier: Tier, home: string)
    requires tier.HighEndGpu? || tier.MidRangeGpu? || tier.LowEndGpu? || tier.VeryLowEndGpu?
    ensures var t := TierConfig(tier, home);
      Device(t) == Some("auto") && !IsSet(t, UseCpu) && t[OffloadFolder] == NoneValue &&
      IsSet(t, LoadIn8bit) == tier.LowEndGpu? && IsSet(t, LoadIn4bit) == tier.VeryLowEndGpu?
  {
  }

  /** A CUDA machine with less than 4 GB matches no GPU tier and lands on "mps" or "cpu". */
  lemma SmallCudaFallsThrough(info: SystemInfo, home: string)
    requires BudgetReadable(info) && info.hasCuda && info.gpuMemoryGb < 4.0
    ensures var c := OptimalConfig(info, home);
      Device(c) == (if info.hasMps then Some("mps") else Some("cpu")) && IsSet(c, LoadIn4bit)
  {
  }

  /** True when no GPU tier and no Apple GPU applies. */
  predicate NoAccelerator(info: SystemInfo) {
    !(info.hasCuda && info.gpuMemoryGb >= 4.0) && !info.hasMps
  }

  /**
   * The offload folder is set only in the last branch (no accelerator and
   * less than 16 GB of RAM), and use_cpu exactly in the two CPU branches,
   * which are the ones whose device_map is "cpu".
   */
  lemma CpuBranches(info: SystemInfo, home: string)
    requires BudgetReadable(info)
    ensures var c := OptimalConfig(info, home);
      (c[OffloadFolder] != NoneValue <==> NoAccelerator(info) && info.ramTotalGb < 16.0) &&
      (IsSet(c, UseCpu) <==> NoAccelerator(info)) &&
      (Device(c) == Some("cpu") <==> NoAccelerator(info))
  {
    OptimalFromTier(info, home);
    CpuTierEntries(SelectTier(info), home);
    assert NoAccelerator(info) <==> SelectTier(info).CpuWithRam? || SelectTier(info).LowResource?;
  }

  /** The entries the two CPU branches, and only they, change. */
  lemma CpuTierEntries(tier: Tier, home: string)
    ensures var t := TierConfig(tier, home);
      (t[OffloadFolder] != NoneValue <==> tier.LowResource?) &&
      (IsSet(t, UseCpu) <==> tier.CpuWithRam? || tier.LowResource?) &&
      (Device(t) == Some("cpu") <==> tier.CpuWithRam? || tier.LowResource?)
  {
  }

  /** Reading an entry of the GPU budget: 90% of that card, truncated, with suffix "GiB". */
  lemma {:induction false} GpuBudgetEntries(info: SystemInfo, n: nat)
    requires n <= |info.gpuInfo|
    ensures forall k :: k in GpuBudget(info, n) <==> k.Gpu? && k.index < n
    ensures forall i :: 0 <= i < n ==> GpuBudget(info, n)[Gpu(i)] == GpuLimit(info, i)
  {
    if n > 0 {
      GpuBudgetEntries(info, n - 1);
    }
  }

  /**
   * max_memory is set exactly on a CUDA machine with more than one GPU,
   * whichever tier matched; it then holds one entry per GPU and one for "cpu".
   */
  lemma MaxMemoryOnlyMultiGpu(info: SystemInfo, home: string)
    requires BudgetReadable(info)
    ensures var c := OptimalConfig(info, home);
      (c[MaxMemory] != NoneValue <==> info.hasCuda && info.gpuCount > 1) &&
      (c[MaxMemory] != NoneValue ==>
        c[MaxMemory] == Budget(MemoryBudget(info)) &&
        (forall k :: k in MemoryBudget(info) <==> k == CpuMem || (k.Gpu? && k.index < info.gpuCount)) &&
        (forall i :: 0 <= i < info.gpuCount ==> MemoryBudget(info)[Gpu(i)] == GpuLimit(info, i)) &&
        MemoryBudget(info)[CpuMem] == CpuLimit(info))
    ensures Device(OptimalConfig(info, home)) == Device(TierConfig(SelectTier(info), home))
  {
    if info.hasCuda && info.gpuCount > 1 {
      GpuBudgetEntries(info, info.gpuCount);
    }
  }

  /** A budget entry never exceeds the memory it was computed from. */
  lemma BudgetWithinCard(info: SystemInfo, i: nat)
    requires info.hasCuda && 1 < info.gpuCount <= |info.gpuInfo| && i < info.gpuCount
    requires info.gpuInfo[i].memoryGb >= 0.0
    ensures Gpu(i) in MemoryBudget(info) && MemoryBudget(info)[Gpu(i)] == GpuLimit(info, i)
    ensures 0.0 <= Trunc(info.gpuInfo[i].memoryGb * 0.9) as real <= info.gpuInfo[i].memoryGb
  {
    GpuBudgetEntries(info, info.gpuCount);
  }

  // ----- load_model and generate_text -----

  datatype LoadError = ModelDirNotFound(dir: string)

  /** `force_config if force_config else determine_optimal_config(...)`. */
  function ChosenConfig(force: Option<Config>, info: SystemInfo, home: string): Config
    requires BudgetReadable(info)
  {
    if force.Some? && |force.value| > 0 then force.value else OptimalConfig(info, home)
  }

  /**
   * The keyword arguments `load_model` passes to the loader, or
   * FileNotFoundError when the model directory is missing, which is raised
   * before the hardware is inspected.
   */
  function LoadModel(dir: string, dirExists: bool, force: Option<Config>, info: SystemInfo, home: string): (r: Result<Config, LoadError>)
    requires BudgetReadable(info)
    ensures r.Err? <==> !dirExists
    ensures r.Err? ==> r.error == ModelDirNotFound(dir)
    ensures r.Ok? ==> UseCpu !in r.value && OffloadFolder !in r.value
  {
    if !dirExists then Err(ModelDirNotFound(dir))
    else Ok(LoaderKwargs(ChosenConfig(force, info, home)))
  }

  /**
   * A non-empty force_config replaces detection wholesale: the loader sees
   * exactly its keys (less the two filtered ones), so detected entries such
   * as max_memory do not survive; None or {} means detection is used.
   */
  lemma ForceReplacesDetection(dir: string, force: Option<Config>, info: SystemInfo, home: string)
    requires BudgetReadable(info)
    ensures force.Some? && |force.value| > 0 ==>
      LoadModel(dir, true, force, info, home) == Ok(LoaderKwargs(force.value)) &&
      (MaxMemory !in force.value ==> MaxMemory !in LoadModel(dir, true, force, info, home).value)
    ensures force.None? || force.value == map[] ==>
      LoadModel(dir, true, force, info, home) == Ok(LoaderKwargs(OptimalConfig(info, home)))
  {
  }

  /** The detected offload folder never reaches the loader, even on the low-resource branch. */
  lemma OffloadNeverLoaded(info: SystemInfo, home: string)
    requires BudgetReadable(info) && SelectTier(info) == LowResource
    ensures OptimalConfig(info, home)[OffloadFolder] == Text(OffloadPath(home))
    ensures OffloadFolder !in LoadModel("", true, None, info, home).value
  {
  }

  /** `full_text[len(prompt):].strip()`. */
  function GeneratedText(fullText: string, prompt: string): (r: string)
    ensures |r| <= |fullText|
  {
    Strip(Drop(fullText, |prompt|))
  }

  /** When the decoded text begins with the prompt, the result is the continuation, stripped. */
  lemma GeneratedTextAfterPrompt(prompt: string, continuation: string)
    ensures GeneratedText(prompt + continuation, prompt) == Strip(continuation)
  {
    assert Drop(prompt + continuation, |prompt|) == continuation;
  }
}
