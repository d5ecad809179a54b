/**
 * DeepSeek_Models/start.py: the `ModelSession` of the DeepSeek-R1 launcher
 * (its loaded flag, conversation history, hardware-based configuration,
 * prompt template and response extraction) and the force_config that
 * `main` builds from the command-line flags.
 */
module DeepSeekSession {
  import opened Common
  import opened ModelConfig
  import R1Utils

  /** What `_determine_optimal_config` asks torch: CUDA devices and their memory, and MPS. */
  datatype Hardware = Hardware(hasCuda: bool, deviceMemoryGb: seq<real>, hasMps: bool)

  /** The memory of every CUDA device, added up in device order. */
  method TotalGpuMemory(devices: seq<real>) returns (total: real)
    ensures total == Sum(devices)
  {
    total := 0.0;
    var i := 0;
    while i < |devices|
      invariant 0 <= i <= |devices|
      invariant total == Sum(devices[..i])
    {
      assert devices[..i + 1][..i] == devices[..i];
      total := total + devices[i];
      i := i + 1;
    }
    assert devices[..i] == devices;
  }

  /** With no negative sizes, the total is at least the memory of any one device. */
  lemma {:induction false} SumCoversEachDevice(s: seq<real>, i: nat)
    requires i < |s| && forall k :: 0 <= k < |s| ==> s[k] >= 0.0
    ensures 0.0 <= s[i] <= Sum(s)
  {
    if i < |s| - 1 {
      SumCoversEachDevice(s[..|s| - 1], i);
      SumNonNegative(s[..|s| - 1]);
    } else {
      SumNonNegative(s[..|s| - 1]);
    }
  }

  lemma {:induction false} SumNonNegative(s: seq<real>)
    requires forall k :: 0 <= k < |s| ==> s[k] >= 0.0
    ensures Sum(s) >= 0.0
  {
    if s != [] {
      SumNonNegative(s[..|s| - 1]);
    }
  }

  /** The three entries present whatever the hardware. */
  function BaseConfig(): Config {
    map[DeviceMap := Text("auto"), TorchDtype := Float16, LowCpuMemUsage := Flag(true)]
  }

  /** What `_determine_optimal_config` returns. */
  function DetectedConfig(hw: Hardware): Config {
    if hw.hasCuda then
      var m := Sum(hw.deviceMemoryGb);
      if m >= 48.0 then BaseConfig()
      else if m >= 24.0 then BaseConfig()
      else if m >= 12.0 then BaseConfig()[LoadIn8bit := Flag(true)]
      else WithFourBit(BaseConfig())
    else if hw.hasMps then WithFourBit(BaseConfig()[DeviceMap := Text("mps")])
    else WithFourBit(BaseConfig()[DeviceMap := Text("cpu")])
  }

  /** `_determine_optimal_config`: sum the CUDA memory, then patch the defaults per tier. */
  method DetermineOptimalConfig(hw: Hardware) returns (config: Config)
    ensures config == DetectedConfig(hw)
  {
    config := BaseConfig();
    if hw.hasCuda {
      var gpuMemory := TotalGpuMemory(hw.deviceMemoryGb);
      if gpuMemory >= 48.0 {
      } else if gpuMemory >= 24.0 {
      } else if gpuMemory >= 12.0 {
        config := config[LoadIn8bit := Flag(true)];
      } else {
        config := config[LoadIn4bit := Flag(true)];
        config := config[ComputeDtype := Float16];
        config := config[QuantType := Text("nf4")];
      }
    } else if hw.hasMps {
      config := config[DeviceMap := Text("mps")];
      config := config[LoadIn4bit := Flag(true)];
      config := config[ComputeDtype := Float16];
      config := config[QuantType := Text("nf4")];
    } else {
      config := config[DeviceMap := Text("cpu")];
      config := config[LoadIn4bit := Flag(true)];
      config := config[ComputeDtype := Float16];
      config := config[QuantType := Text("nf4")];
    }
  }

  /**
   * With CUDA present the device stays "auto" whatever the memory: 24 GB and
   * up is unquantized, [12, 24) is 8-bit, below 12 is 4-bit "nf4".
   */
  lemma CudaNeverFallsToCpu(hw: Hardware)
    requires hw.hasCuda
    ensures var c := DetectedConfig(hw);
      var m := Sum(hw.deviceMemoryGb);
      Device(c) == Some("auto") && FourBitComplete(c) &&
      IsSet(c, LoadIn8bit) == (12.0 <= m < 24.0) && IsSet(c, LoadIn4bit) == (m < 12.0)
  {
  }

  /** Without CUDA: "mps" with 4-bit on Apple GPUs, otherwise "cpu" with 4-bit; dtype and low-memory loading always present. */
  lemma WithoutCuda(hw: Hardware)
    requires !hw.hasCuda
    ensures var c := DetectedConfig(hw);
      Device(c) == (if hw.hasMps then Some("mps") else Some("cpu")) &&
      IsSet(c, LoadIn4bit) && FourBitComplete(c) && !IsSet(c, LoadIn8bit)
  {
  }

  lemma AlwaysHalfPrecisionLowMemory(hw: Hardware)
    ensures var c := DetectedConfig(hw);
      c[TorchDtype] == Float16 && c[LowCpuMemUsage] == Flag(true) && UseCpu !in c && OffloadFolder !in c
  {
  }

  /**
   * The same machine seen by both launchers.  r1_1776_utils.py rounds its
   * total to two decimals; equating it with the exact `Sum` start.py
   * computes assumes a total that needs no rounding, so `ResolversDisagree`
   * speaks only of such machines.
   */
  predicate SameMachine(info: R1Utils.SystemInfo, hw: Hardware) {
    info.hasCuda == hw.hasCuda && info.hasMps == hw.hasMps && info.gpuMemoryGb == Sum(hw.deviceMemoryGb)
  }

  /**
   * The two resolvers disagree on CUDA machines: from 12 to 24 GB r1_1776_utils
   * loads unquantized where start.py uses 8-bit; from 8 to 12 GB 8-bit against
   * 4-bit; and below 4 GB r1_1776_utils leaves the GPU for "mps" or "cpu" while
   * start.py keeps "auto".
   */
  lemma ResolversDisagree(info: R1Utils.SystemInfo, hw: Hardware, home: string)
    requires SameMachine(info, hw) && R1Utils.BudgetReadable(info) && hw.hasCuda
    ensures var m := Sum(hw.deviceMemoryGb);
      var r1 := R1Utils.OptimalConfig(info, home);
      var ds := DetectedConfig(hw);
      (12.0 <= m < 24.0 ==> !IsSet(r1, LoadIn8bit) && IsSet(ds, LoadIn8bit)) &&
      (8.0 <= m < 12.0 ==> IsSet(r1, LoadIn8bit) && !IsSet(r1, LoadIn4bit) && IsSet(ds, LoadIn4bit)) &&
      (4.0 <= m < 8.0 ==> IsSet(r1, LoadIn4bit) && IsSet(ds, LoadIn4bit)) &&
      (m < 4.0 ==> Device(r1) != Some("auto") && Device(ds) == Some("auto"))
  {
    CudaNeverFallsToCpu(hw);
    if info.gpuMemoryGb >= 4.0 {
      R1Utils.CudaTiers(info, home);
    } else {
      R1Utils.SmallCudaFallsThrough(info, home);
    }
  }

  /** `config.update(force_config)` when force_config is truthy. */
  function SessionConfig(hw: Hardware, force: Option<Config>): Config {
    if force.Some? && |force.value| > 0 then Merge(DetectedConfig(hw), force.value) else DetectedConfig(hw)
  }

  /** Forced keys win and every detected key the force does not name is kept. */
  lemma ForceMergesKeyByKey(hw: Hardware, force: Config)
    ensures var c := SessionConfig(hw, Some(force));
      c.Keys == DetectedConfig(hw).Keys + force.Keys &&
      (forall k :: k in force ==> c[k] == force[k]) &&
      (forall k :: k in DetectedConfig(hw) && k !in force ==> c[k] == DetectedConfig(hw)[k])
  {
  }

  /**
   * Because the merge keeps detected keys, forcing 8-bit on a machine that
   * detection puts on 4-bit leaves both quantizations switched on.
   */
  lemma ForcedEightBitKeepsFourBit(hw: Hardware)
    requires !hw.hasCuda
    ensures var c := SessionConfig(hw, ForceConfigFromFlags(true, false, false));
      IsSet(c, LoadIn8bit) && IsSet(c, LoadIn4bit)
  {
  }

  /** `main`: the force_config built from --use-8bit, --use-4bit and --force-cpu. */
  function ForceConfigFromFlags(use8bit: bool, use4bit: bool, forceCpu: bool): (r: Option<Config>)
    ensures r.None? <==> !use8bit && !use4bit && !forceCpu
    ensures r.Some? ==> |r.value| > 0
    ensures r.Some? ==> (IsSet(r.value, LoadIn8bit) <==> use8bit) && (IsSet(r.value, LoadIn4bit) <==> use4bit && !use8bit)
    ensures r.Some? ==> FourBitComplete(r.value) && (Device(r.value) == Some("cpu") <==> forceCpu) && (DeviceMap in r.value <==> forceCpu)
  {
    if !use8bit && !use4bit && !forceCpu then None
    else
      var q: Config := if use8bit then map[LoadIn8bit := Flag(true)]
        else if use4bit then WithFourBit(map[]) else map[];
      Some(if forceCpu then q[DeviceMap := Text("cpu")] else q)
  }

  // ----- prompt template -----

  const ImStart := "<|im_start|>"
  const ImEnd := "<|im_end|>"
  const DefaultSystemPrompt := "You are DeepSeek, an AI assistant. You are helpful, harmless, and honest."

  /** `_format_prompt`: system block, user block, then the opened assistant turn. */
  function FormatPrompt(prompt: string, systemPrompt: Option<string>): (r: string)
    ensures StartsWith(r, ImStart + "system\n") && EndsWith(r, ImStart + "assistant\n")
  {
    var sp := if systemPrompt.Some? then systemPrompt.value else DefaultSystemPrompt;
    var head := ImStart + "system\n";
    var body := sp + ImEnd + "\n" + ImStart + "user\n" + prompt + ImEnd + "\n";
    var tail := ImStart + "assistant\n";
    assert (head + body + tail)[..|head|] == head;
    assert (head + body + tail)[|head + body|..] == tail;
    head + body + tail
  }

  lemma DefaultSystemPromptUsed(prompt: string)
    ensures FormatPrompt(prompt, None) == FormatPrompt(prompt, Some(DefaultSystemPrompt))
  {
  }

  /**
   * `_extract_response`: drop the formatted prompt when it is a prefix, keep
   * what comes before the first "<|im_end|>", and strip.
   */
  function ExtractResponse(fullText: string, formatted: string): (r: string)
    ensures !Contains(r, ImEnd)
  {
    var response := if StartsWith(fullText, formatted) then fullText[|formatted|..] else fullText;
    var cut := BeforeFirst(response, ImEnd);
    StripKeepsAbsence(cut, ImEnd);
    Strip(cut)
  }

  /** Formatting then extracting a reply with no end marker gives the reply, stripped. */
  lemma ExtractAfterFormat(prompt: string, systemPrompt: Option<string>, reply: string)
    requires !Contains(reply, ImEnd)
    ensures ExtractResponse(FormatPrompt(prompt, systemPrompt) + reply, FormatPrompt(prompt, systemPrompt)) == Strip(reply)
  {
    var f := FormatPrompt(prompt, systemPrompt);
    assert (f + reply)[..|f|] == f;
    assert (f + reply)[|f|..] == reply;
  }

  /** A reply that goes on past an end marker is cut at the first one. */
  lemma ExtractCutsAtFirstEnd(prompt: string, systemPrompt: Option<string>, reply: string, i: nat)
    requires OccursAt(reply, ImEnd, i) && forall j :: 0 <= j < i ==> !OccursAt(reply, ImEnd, j)
    ensures ExtractResponse(FormatPrompt(prompt, systemPrompt) + reply, FormatPrompt(prompt, systemPrompt)) == Strip(reply[..i])
  {
    var f := FormatPrompt(prompt, systemPrompt);
    assert (f + reply)[..|f|] == f;
    assert (f + reply)[|f|..] == reply;
    assert Find(reply, ImEnd) == Some(i);
  }

  // ----- the session object -----

  datatype HistoryEntry = HistoryEntry(role: string, content: string, timestamp: real)

  /** The session's history file as `_load_history` finds it. */
  datatype StoredHistory = NoFile | Unreadable | Stored(entries: seq<HistoryEntry>)

  datatype SessionError = NotLoaded | LoaderRaised | GenerationRaised

  class ModelSession {
    var loaded: bool
    var history: seq<HistoryEntry>
    /** The configuration the model was loaded with; stands for the model and tokenizer objects. */
    var model: Option<Config>

    ghost predicate Valid()
      reads this
    {
      loaded <==> model.Some?
    }

    /** `__init__`: nothing loaded; history from the session file, or empty when it is missing or unreadable. */
    constructor (stored: StoredHistory)
      ensures Valid() && !loaded
      ensures history == if stored.Stored? then stored.entries else []
    {
      loaded := false;
      model := None;
      history := if stored.Stored? then stored.entries else [];
    }

    /**
     * `load_model`: a no-op when already loaded; otherwise the detected
     * configuration merged with force_config is handed to the loader, and
     * the session is loaded exactly when the loader does not raise.
     */
    method LoadModel(hw: Hardware, force: Option<Config>, loaderSucceeds: bool) returns (r: Result<(), SessionError>)
      requires Valid()
      modifies this
      ensures Valid() && history == old(history)
      ensures old(loaded) ==> r.Ok? && loaded && model == old(model)
      ensures !old(loaded) ==> (r.Ok? <==> loaderSucceeds) && loaded == loaderSucceeds
      ensures !old(loaded) && loaderSucceeds ==> model == Some(SessionConfig(hw, force))
    {
      if loaded {
        return Ok(());
      }
      var config := DetermineOptimalConfig(hw);
      if force.Some? && |force.value| > 0 {
        config := Merge(config, force.value);
      }
      if !loaderSucceeds {
        return Err(LoaderRaised);
      }
      model := Some(config);
      loaded := true;
      r := Ok(());
    }

    /** `unload_model`: a no-op when not loaded, otherwise drops the model and ends unloaded. */
    method UnloadModel()
      requires Valid()
      modifies this
      ensures Valid() && !loaded && history == old(history)
    {
      if !loaded {
        return;
      }
      model := None;
      loaded := false;
    }

    /** `add_to_history`: append one entry (the copy written to disk is not modelled). */
    method AddToHistory(role: string, content: string, timestamp: real)
      modifies this`history
      ensures history == old(history) + [HistoryEntry(role, content, timestamp)]
    {
      history := history + [HistoryEntry(role, content, timestamp)];
    }

    /**
     * `generate_response`: RuntimeError without touching the history when
     * nothing is loaded; otherwise the prompt is recorded as a "user" entry
     * before generating and the extracted reply as an "assistant" entry
     * after.  `decoded` is the text the model produced, or None when
     * generation raised.
     */
    method GenerateResponse(prompt: string, systemPrompt: Option<string>, decoded: Option<string>, askedAt: real, answeredAt: real)
      returns (r: Result<string, SessionError>)
      requires Valid()
      modifies this`history
      ensures !loaded ==> r == Err(NotLoaded) && history == old(history)
      ensures loaded && decoded.None? ==>
        r == Err(GenerationRaised) && history == old(history) + [HistoryEntry("user", prompt, askedAt)]
      ensures loaded && decoded.Some? ==>
        r == Ok(ExtractResponse(decoded.value, FormatPrompt(prompt, systemPrompt))) &&
        history == old(history) + [HistoryEntry("user", prompt, askedAt), HistoryEntry("assistant", r.value, answeredAt)]
    {
      if !loaded {
        return Err(NotLoaded);
      }
      AddToHistory("user", prompt, askedAt);
      if decoded.None? {
        return Err(GenerationRaised);
      }
      var formatted := FormatPrompt(prompt, systemPrompt);
      var response := ExtractResponse(decoded.value, formatted);
      AddToHistory("assistant", response, answeredAt);
      r := Ok(response);
    }
  }
}
