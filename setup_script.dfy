/**
 * The setup script for the r1-1776 model: the dependency check, which reads
 * each requirement's package name, and the choice of loader arguments in
 * `download_model`. When the hardware helpers can be imported, the
 * detected configuration is patched by the command-line flags. Otherwise a
 * basic configuration is built from the flags alone. Which packages import,
 * whether pip succeeds and what the hardware probe reports are parameters.
 */
module R1Setup {
  import opened Common
  import opened ModelConfig
  import R1Utils

  // ----- check_dependencies -----

  const RequiredPackages: seq<string> := [
    "transformers>=4.30.0", "torch>=2.0.0", "accelerate>=0.20.0", "sentencepiece>=0.1.99",
    "protobuf>=3.20.0", "bitsandbytes>=0.41.0", "safetensors>=0.3.1", "psutil>=5.9.0"]

  /** `requirement.split('>=')[0]`. */
  function PackageName(requirement: string): (r: string)
    ensures r <= requirement && !Contains(r, ">=")
    ensures Contains(requirement, ">=") ==> OccursAt(requirement, ">=", |r|)
    ensures !Contains(requirement, ">=") ==> r == requirement
  {
    BeforeFirst(requirement, ">=")
  }

  /** A requirement written as a name, ">=" and a version gives back the name. */
  lemma PackageNameOfRequirement(name: string, version: string)
    requires !Contains(name, ">=")
    ensures PackageName(name + ">=" + version) == name
  {
    var req := name + ">=" + version;
    assert OccursAt(req, ">=", |name|) by {
      assert req[|name|..|name| + 2] == ">=";
    }
    forall j | 0 <= j < |name|
      ensures !OccursAt(req, ">=", j)
    {
      if j + 2 <= |name| {
        assert req[j..j + 2] == name[j..j + 2];
        assert !OccursAt(name, ">=", j);
      } else {
        assert req[j..j + 2][1] == '>';
      }
    }
    assert Find(req, ">=") == Some(|name|);
    assert req[..|name|] == name;
  }

  /** The requirements whose package does not import, in order. */
  function Missing(requirements: seq<string>, importable: set<string>): (r: seq<string>)
    ensures forall x :: x in r <==> x in requirements && PackageName(x) !in importable
  {
    if requirements == [] then []
    else
      var last := requirements[|requirements| - 1];
      Missing(requirements[..|requirements| - 1], importable)
        + (if PackageName(last) in importable then [] else [last])
  }

  datatype DependencyOutcome = AllPresent | Installed(packages: seq<string>) | Exit(code: int)

  /** The outcome of `check_dependencies`: nothing to do, pip installed what was missing, or `sys.exit(1)`. */
  function DependencyCheck(importable: set<string>, pipSucceeds: bool): DependencyOutcome {
    var missing := Missing(RequiredPackages, importable);
    if missing == [] then AllPresent else if pipSucceeds then Installed(missing) else Exit(1)
  }

  /** `check_dependencies`: try to import each package, then install the missing ones in one pip call. */
  method CheckDependencies(importable: set<string>, pipSucceeds: bool) returns (outcome: DependencyOutcome)
    ensures outcome == DependencyCheck(importable, pipSucceeds)
  {
    var missing: seq<string> := [];
    var i := 0;
    while i < |RequiredPackages|
      invariant 0 <= i <= |RequiredPackages|
      invariant missing == Missing(RequiredPackages[..i], importable)
    {
      assert RequiredPackages[..i + 1][..i] == RequiredPackages[..i];
      var name := PackageName(RequiredPackages[i]);
      if name !in importable {
        missing := missing + [RequiredPackages[i]];
      }
      i := i + 1;
    }
    assert RequiredPackages[..i] == RequiredPackages;
    if missing == [] {
      return AllPresent;
    }
    outcome := if pipSucceeds then Installed(missing) else Exit(1);
  }

  /** Pip is run exactly for the requirements whose package does not import. */
  lemma InstallsOnlyMissing(importable: set<string>, requirement: string)
    requires DependencyCheck(importable, true).Installed?
    ensures requirement in DependencyCheck(importable, true).packages
      <==> requirement in RequiredPackages && PackageName(requirement) !in importable
  {
  }

  // ----- download_model's loader arguments -----

  /** The command-line flags `download_model` receives. */
  datatype Flags = Flags(use8bit: bool, use4bit: bool, forceCpu: bool)

  /** Whether the hardware helpers could be imported and what the probe reported. */
  datatype Helpers = HelpersMissing | HelpersFailToImport | HelpersLoaded(info: R1Utils.SystemInfo)

  /** The detected configuration patched by the flags: 8-bit before 4-bit, then the CPU override. */
  function Overridden(detected: Config, flags: Flags): (r: Config)
    ensures flags.forceCpu ==> DeviceMap in r && r[DeviceMap] == Text("cpu") && UseCpu in r && r[UseCpu] == Flag(true)
  {
    var quantized :=
      if flags.use8bit then detected[LoadIn8bit := Flag(true)][LoadIn4bit := Flag(false)]
      else if flags.use4bit then WithFourBit(detected[LoadIn8bit := Flag(false)])
      else detected;
    if flags.forceCpu then quantized[DeviceMap := Text("cpu")][UseCpu := Flag(true)] else quantized
  }

  /** The basic configuration used without the helpers: when both widths are asked for, 4-bit wins. */
  function Fallback(flags: Flags): (r: Config)
    ensures TorchDtype in r && r[TorchDtype] == Float16
  {
    var base := map[TorchDtype := Float16, DeviceMap := Text(if flags.forceCpu then "cpu" else "auto")];
    var use8bit := flags.use8bit && !flags.use4bit;
    if use8bit then base[LoadIn8bit := Flag(true)]
    else if flags.use4bit then WithFourBit(base)
    else base
  }

  /** The keyword arguments `from_pretrained` receives. */
  function DownloadKwargs(helpers: Helpers, home: string, flags: Flags): Config
    requires helpers.HelpersLoaded? ==> R1Utils.BudgetReadable(helpers.info)
  {
    match helpers
    case HelpersLoaded(info) => LoaderKwargs(Overridden(R1Utils.OptimalConfig(info, home), flags))
    case _ => Fallback(flags)
  }

  /** `download_model` up to the download: detect, override field by field, drop the local-only keys. */
  method SelectLoadKwargs(helpers: Helpers, home: string, flags: Flags) returns (loadKwargs: Config)
    requires helpers.HelpersLoaded? ==> R1Utils.BudgetReadable(helpers.info)
    ensures loadKwargs == DownloadKwargs(helpers, home, flags)
  {
    if helpers.HelpersLoaded? {
      var config := R1Utils.DetermineOptimalConfig(helpers.info, home);
      if flags.use8bit {
        config := config[LoadIn8bit := Flag(true)];
        config := config[LoadIn4bit := Flag(false)];
      } else if flags.use4bit {
        config := config[LoadIn8bit := Flag(false)];
        config := config[LoadIn4bit := Flag(true)];
        config := config[ComputeDtype := Float16];
        config := config[QuantType := Text("nf4")];
      }
      if flags.forceCpu {
        config := config[DeviceMap := Text("cpu")];
        config := config[UseCpu := Flag(true)];
      }
      loadKwargs := map k | k in config && k != UseCpu && k != OffloadFolder :: config[k];
    } else {
      var use8bit := flags.use8bit;
      if use8bit && flags.use4bit {
        use8bit := false;
      }
      loadKwargs := map[TorchDtype := Float16, DeviceMap := Text(if flags.forceCpu then "cpu" else "auto")];
      if use8bit {
        loadKwargs := loadKwargs[LoadIn8bit := Flag(true)];
      } else if flags.use4bit {
        loadKwargs := loadKwargs[LoadIn4bit := Flag(true)];
        loadKwargs := loadKwargs[ComputeDtype := Float16];
        loadKwargs := loadKwargs[QuantType := Text("nf4")];
      }
    }
  }

  // ----- properties of the overrides -----

  /** `--use-8bit` wins over `--use-4bit`; `--use-4bit` alone gives the complete 4-bit entries. */
  lemma OverrideQuantization(detected: Config, flags: Flags)
    ensures var r := Overridden(detected, flags);
      (flags.use8bit ==> r[LoadIn8bit] == Flag(true) && r[LoadIn4bit] == Flag(false))
      && (!flags.use8bit && flags.use4bit ==>
        r[LoadIn8bit] == Flag(false) && r[LoadIn4bit] == Flag(true) && FourBitComplete(r))
  {
  }

  /** `--force-cpu` touches only device_map and use_cpu, whatever the quantization flags. */
  lemma ForceCpuIndependent(detected: Config, flags: Flags)
    ensures Overridden(detected, flags.(forceCpu := true))
      == Overridden(detected, flags.(forceCpu := false))[DeviceMap := Text("cpu")][UseCpu := Flag(true)]
  {
  }

  /** An entry no flag names, such as max_memory, keeps its detected value. */
  lemma OverrideKeepsUnnamed(detected: Config, flags: Flags, k: Key)
    requires k !in {LoadIn8bit, LoadIn4bit, ComputeDtype, QuantType, DeviceMap, UseCpu}
    ensures k in Overridden(detected, flags) <==> k in detected
    ensures k in detected ==> Overridden(detected, flags)[k] == detected[k]
  {
  }

  /** Whatever the helpers report and the flags ask, the loader never gets both widths, nor the local-only keys. */
  lemma DownloadKwargsConsistent(helpers: Helpers, home: string, flags: Flags)
    requires helpers.HelpersLoaded? ==> R1Utils.BudgetReadable(helpers.info)
    ensures var r := DownloadKwargs(helpers, home, flags);
      !(IsSet(r, LoadIn8bit) && IsSet(r, LoadIn4bit)) && FourBitComplete(r)
      && UseCpu !in r && OffloadFolder !in r
  {
    if helpers.HelpersLoaded? {
      R1Utils.QuantizationExclusive(helpers.info, home);
    }
  }

  /** Without the helpers: device_map is "cpu" exactly when forced, and both widths give 4-bit. */
  lemma FallbackChoices(flags: Flags)
    ensures Fallback(flags)[DeviceMap] == Text("cpu") <==> flags.forceCpu
    ensures flags.use8bit && flags.use4bit ==>
      IsSet(Fallback(flags), LoadIn4bit) && LoadIn8bit !in Fallback(flags)
  {
  }

  /** Asked for both widths, the two paths disagree: the detected path loads 8-bit, the basic one 4-bit. */
  lemma BothWidthsDisagree(info: R1Utils.SystemInfo, home: string, forceCpu: bool)
    requires R1Utils.BudgetReadable(info)
    ensures var both := Flags(true, true, forceCpu);
      IsSet(DownloadKwargs(HelpersLoaded(info), home, both), LoadIn8bit)
      && !IsSet(DownloadKwargs(HelpersLoaded(info), home, both), LoadIn4bit)
      && IsSet(DownloadKwargs(HelpersMissing, home, both), LoadIn4bit)
      && !IsSet(DownloadKwargs(HelpersMissing, home, both), LoadIn8bit)
  {
  }
}
