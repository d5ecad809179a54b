/**
 * selenium_qt_browser/resource_monitor.py: `ResourceData`, the sliding
 * windows of CPU, RAM, GPU and model-memory samples behind the resource
 * monitor page; `ResourceMonitor.start/stop`; and the force_config and
 * labels of the page's "Load model" button.  The probes (psutil, GPUtil,
 * torch) and the clock become a `Reading` passed to `Update`.
 */
module ResourceMonitor {
  import opened Common
  import opened ModelConfig

  /** HISTORY_LENGTH: sixty samples, one a second. */
  const HistoryLength := 60

  /** UPDATE_INTERVAL_MS. */
  const UpdateIntervalMs := 1000

  /** 1024 ** 3: bytes per GB. */
  const BytesPerGb: real := 1073741824.0

  // ----- sliding windows -----

  /** `series.append(x)` followed by one `pop(0)` when the list is longer than `limit`. */
  function Pushed<T>(series: seq<T>, x: T, limit: int): (r: seq<T>)
    ensures |series| < limit ==> r == series + [x]
    ensures |series| <= Cap(limit) ==> |r| <= Cap(limit)
    ensures |r| > 0 ==> r[|r| - 1] == x
  {
    var a := series + [x];
    if |a| > limit then a[1..] else a
  }

  /** A window of the last `limit` samples stays one after a push: update keeps the invariant. */
  lemma PushedKeepsWindow<T>(all: seq<T>, x: T, limit: int)
    ensures Pushed(LastN(all, limit), x, limit) == LastN(all + [x], limit)
  {
    var w := LastN(all, limit);
    if limit > 0 && |all| >= limit {
      assert w + [x] == all[|all| - limit..] + [x];
      assert (w + [x])[1..] == (all + [x])[|all| + 1 - limit..];
    } else if limit <= 0 {
      assert |[x]| > limit;
    }
  }

  /** `series[-1] if series else 0`. */
  function LastOrZero(series: seq<real>): (r: real)
    ensures series != [] ==> r == series[|series| - 1]
    ensures series == [] ==> r == 0.0
  {
    if series == [] then 0.0 else series[|series| - 1]
  }

  /** Every series of a per-GPU list is within the bound. */
  predicate AllBounded(series: seq<seq<real>>, limit: int) {
    forall i :: 0 <= i < |series| ==> |series[i]| <= Cap(limit)
  }

  /** The per-GPU series after one update: series `i` takes sample `i` where there is both. */
  function PushedEach(series: seq<seq<real>>, xs: seq<real>, limit: int): (r: seq<seq<real>>)
    ensures |r| == |series|
    ensures AllBounded(series, limit) ==> AllBounded(r, limit)
  {
    seq(|series|, i requires 0 <= i < |series| => if i < |xs| then Pushed(series[i], xs[i], limit) else series[i])
  }

  /** The full per-GPU records after one update, as `PushedEach` with no window. */
  function AppendedEach(all: seq<seq<real>>, xs: seq<real>): (r: seq<seq<real>>)
    ensures |r| == |all|
    ensures forall i :: 0 <= i < |all| ==> r[i] == if i < |xs| then all[i] + [xs[i]] else all[i]
  {
    seq(|all|, i requires 0 <= i < |all| => if i < |xs| then all[i] + [xs[i]] else all[i])
  }

  /** `n` empty lists, `[[] for _ in gpus]`. */
  function EmptySeries(n: nat): (r: seq<seq<real>>)
    ensures |r| == n && forall i :: 0 <= i < n ==> r[i] == []
  {
    seq(n, _ => [])
  }

  /** Each per-GPU series is the window of that GPU's samples. */
  ghost predicate Windows(series: seq<seq<real>>, all: seq<seq<real>>, limit: int) {
    |series| == |all| && forall i :: 0 <= i < |series| ==> series[i] == LastN(all[i], limit)
  }

  /** The GPU loop keeps every GPU's series the window of that GPU's samples. */
  lemma PushedEachKeepsWindows(series: seq<seq<real>>, all: seq<seq<real>>, xs: seq<real>, limit: int)
    requires Windows(series, all, limit)
    ensures Windows(PushedEach(series, xs, limit), AppendedEach(all, xs), limit)
  {
    forall i | 0 <= i < |series| && i < |xs|
      ensures Pushed(series[i], xs[i], limit) == LastN(all[i] + [xs[i]], limit)
    {
      PushedKeepsWindow(all[i], xs[i], limit);
    }
  }

  /** GPU `i`'s series after one sample, the others unchanged. */
  function PushedAt(series: seq<seq<real>>, i: nat, x: real, limit: int): (r: seq<seq<real>>)
    requires i < |series|
    ensures r == series[i := Pushed(series[i], x, limit)]
    ensures AllBounded(series, limit) ==> AllBounded(r, limit)
  {
    series[i := Pushed(series[i], x, limit)]
  }

  /** The loop's progress: pushing GPU `i`'s sample extends `PushedEach` by one GPU. */
  lemma StepEach(series: seq<seq<real>>, xs: seq<real>, i: nat, limit: int)
    requires i < |xs| && i < |series|
    ensures PushedAt(PushedEach(series, xs[..i], limit), i, xs[i], limit) == PushedEach(series, xs[..i + 1], limit)
  {
  }

  /** A loop stopped at the first GPU without a series has pushed everything it would. */
  lemma BeyondSeries(series: seq<seq<real>>, xs: seq<real>, i: nat, limit: int)
    requires i == |series| && i <= |xs|
    ensures PushedEach(series, xs[..i], limit) == PushedEach(series, xs, limit)
  {
  }

  // ----- readings -----

  /** What GPUtil reports for one GPU; memory in MB, load as a fraction. */
  datatype GpuReading = GpuReading(name: string, memoryTotalMb: real, load: real, memoryUsedMb: real, temperature: real)

  /**
   * The probes one `update` makes: the clock, psutil's CPU percentage and
   * memory (bytes), GPUtil's GPUs (`None` when GPUtil is missing or
   * `getGPUs` raises) and torch's allocated memory per CUDA device
   * (`None` when torch is missing or CUDA is unavailable).
   */
  datatype Reading = Reading(
    now: real,
    cpuPercent: real,
    memoryTotalBytes: real,
    memoryUsedBytes: real,
    gpus: Option<seq<GpuReading>>,
    cudaAllocatedBytes: Option<seq<real>>)

  function GpuNames(gpus: seq<GpuReading>): (r: seq<string>)
    ensures |r| == |gpus| && forall i :: 0 <= i < |gpus| ==> r[i] == gpus[i].name
  {
    seq(|gpus|, i requires 0 <= i < |gpus| => gpus[i].name)
  }

  function GpuTotals(gpus: seq<GpuReading>): (r: seq<real>)
    ensures |r| == |gpus| && forall i :: 0 <= i < |gpus| ==> r[i] == gpus[i].memoryTotalMb / 1024.0
  {
    seq(|gpus|, i requires 0 <= i < |gpus| => gpus[i].memoryTotalMb / 1024.0)
  }

  /** Load as a percentage, per GPU. */
  function GpuLoads(gpus: seq<GpuReading>): (r: seq<real>)
    ensures |r| == |gpus| && forall i :: 0 <= i < |gpus| ==> r[i] == gpus[i].load * 100.0
  {
    seq(|gpus|, i requires 0 <= i < |gpus| => gpus[i].load * 100.0)
  }

  /** Memory used in GB, per GPU. */
  function GpuUsedGb(gpus: seq<GpuReading>): (r: seq<real>)
    ensures |r| == |gpus| && forall i :: 0 <= i < |gpus| ==> r[i] == gpus[i].memoryUsedMb / 1024.0
  {
    seq(|gpus|, i requires 0 <= i < |gpus| => gpus[i].memoryUsedMb / 1024.0)
  }

  function GpuTemperatures(gpus: seq<GpuReading>): (r: seq<real>)
    ensures |r| == |gpus| && forall i :: 0 <= i < |gpus| ==> r[i] == gpus[i].temperature
  {
    seq(|gpus|, i requires 0 <= i < |gpus| => gpus[i].temperature)
  }

  /** The model's memory in GB: the allocated bytes of every CUDA device, each divided by 1024 ** 3, added up. */
  function ModelMemoryGb(perDevice: seq<real>): real {
    if perDevice == [] then 0.0
    else ModelMemoryGb(perDevice[..|perDevice| - 1]) + perDevice[|perDevice| - 1] / BytesPerGb
  }

  /** Dividing each term or the sum gives the same total. */
  lemma {:induction false} ModelMemoryIsTotalOverGb(perDevice: seq<real>)
    ensures ModelMemoryGb(perDevice) == Sum(perDevice) / BytesPerGb
  {
    if perDevice != [] {
      ModelMemoryIsTotalOverGb(perDevice[..|perDevice| - 1]);
    }
  }

  /** The loop summing torch's per-device allocations. */
  method SumModelMemory(perDevice: seq<real>) returns (total: real)
    ensures total == ModelMemoryGb(perDevice)
  {
    total := 0.0;
    var i := 0;
    while i < |perDevice|
      invariant 0 <= i <= |perDevice|
      invariant total == ModelMemoryGb(perDevice[..i])
    {
      assert perDevice[..i + 1][..i] == perDevice[..i];
      total := total + perDevice[i] / BytesPerGb;
      i := i + 1;
    }
    assert perDevice[..i] == perDevice;
  }

  /** What `get_latest` returns; the timestamp is the clock's when no sample was taken yet. */
  datatype Latest = Latest(
    timestamp: real,
    cpuUsage: real,
    ramUsage: real,
    ramTotal: real,
    gpuCount: nat,
    gpuNames: seq<string>,
    gpuUsage: seq<real>,
    gpuMemory: seq<real>,
    gpuTotalMemory: seq<real>,
    gpuTemperatures: seq<real>,
    modelMemory: real,
    modelLoaded: bool,
    modelDevice: string,
    modelPrecision: string,
    modelName: string)

  function LastOfEach(series: seq<seq<real>>): (r: seq<real>)
    ensures |r| == |series| && forall i :: 0 <= i < |series| ==> r[i] == LastOrZero(series[i])
  {
    seq(|series|, i requires 0 <= i < |series| => LastOrZero(series[i]))
  }

  class ResourceData {
    const historyLength: int
    var timestamps: seq<real>
    var cpuUsage: seq<real>
    var ramUsage: seq<real>
    var ramTotal: real
    var gpuUsage: seq<seq<real>>
    var gpuMemory: seq<seq<real>>
    var gpuTotalMemory: seq<real>
    var gpuNames: seq<string>
    var gpuTemperatures: seq<seq<real>>
    var modelMemory: seq<real>
    var modelLoaded: bool
    var modelDevice: string
    var modelPrecision: string
    var modelName: string

    /** The clock, CPU and RAM series grow together; none of them, nor the model's, exceeds the history length. */
    predicate SeriesValid()
      reads this`timestamps, this`cpuUsage, this`ramUsage, this`modelMemory
    {
      |cpuUsage| == |timestamps| && |ramUsage| == |timestamps| &&
      |timestamps| <= Cap(historyLength) && |modelMemory| <= Cap(historyLength)
    }

    /** One name, total, and usage, memory and temperature series per known GPU; no series exceeds the history length. */
    predicate GpusValid()
      reads this`gpuUsage, this`gpuMemory, this`gpuTotalMemory, this`gpuNames, this`gpuTemperatures
    {
      |gpuTotalMemory| == |gpuNames| && |gpuUsage| == |gpuNames| &&
      |gpuMemory| == |gpuNames| && |gpuTemperatures| == |gpuNames| &&
      AllBounded(gpuUsage, historyLength) && AllBounded(gpuMemory, historyLength) &&
      AllBounded(gpuTemperatures, historyLength)
    }

    predicate Valid()
      reads this
    {
      SeriesValid() && GpusValid()
    }

    /** No samples and no model. */
    predicate IsReset()
      reads this
    {
      timestamps == [] && cpuUsage == [] && ramUsage == [] && ramTotal == 0.0 &&
      gpuUsage == [] && gpuMemory == [] && gpuTotalMemory == [] && gpuNames == [] &&
      gpuTemperatures == [] && modelMemory == [] && !modelLoaded &&
      modelDevice == "N/A" && modelPrecision == "N/A" && modelName == "N/A"
    }

    constructor (historyLength0: int)
      ensures Valid() && IsReset() && historyLength == historyLength0
    {
      historyLength := historyLength0;
      timestamps, cpuUsage, ramUsage, ramTotal := [], [], [], 0.0;
      gpuUsage, gpuMemory, gpuTotalMemory, gpuNames, gpuTemperatures := [], [], [], [], [];
      modelMemory, modelLoaded := [], false;
      modelDevice, modelPrecision, modelName := "N/A", "N/A", "N/A";
    }

    /** `reset`: every series emptied, no model, the labels back to "N/A". */
    method Reset()
      modifies this
      ensures Valid() && IsReset()
    {
      ClearSamples();
      ClearGpus();
      SetModelInfo(false, "N/A", "N/A", "N/A");
    }

    /** The CPU, RAM, clock and model part of `reset`. */
    method ClearSamples()
      modifies this`timestamps, this`cpuUsage, this`ramUsage, this`ramTotal, this`modelMemory
      ensures timestamps == [] && cpuUsage == [] && ramUsage == [] && ramTotal == 0.0 && modelMemory == []
    {
      timestamps, cpuUsage, ramUsage, ramTotal, modelMemory := [], [], [], 0.0, [];
    }

    /** The GPU part of `reset`. */
    method ClearGpus()
      modifies this`gpuUsage, this`gpuMemory, this`gpuTotalMemory, this`gpuNames, this`gpuTemperatures
      ensures gpuUsage == [] && gpuMemory == [] && gpuTotalMemory == [] && gpuNames == [] && gpuTemperatures == []
    {
      gpuUsage, gpuMemory, gpuTotalMemory, gpuNames, gpuTemperatures := [], [], [], [], [];
    }

    /** `set_model_info`. */
    method SetModelInfo(loaded: bool, device: string, precision: string, name: string)
      modifies this`modelLoaded, this`modelDevice, this`modelPrecision, this`modelName
      ensures modelLoaded == loaded && modelDevice == device && modelPrecision == precision && modelName == name
    {
      modelLoaded, modelDevice, modelPrecision, modelName := loaded, device, precision, name;
    }

    /**
     * `update`: one sample pushed onto the clock, CPU and RAM series; the
     * GPU lists set up from this reading when none are known yet, then one
     * sample per GPU; the model's memory sampled only while a model is
     * loaded and CUDA is there.
     */
    method Update(r: Reading)
      requires Valid()
      modifies this
      ensures Valid()
      ensures timestamps == Pushed(old(timestamps), r.now, historyLength)
      ensures cpuUsage == Pushed(old(cpuUsage), r.cpuPercent, historyLength)
      ensures ramUsage == Pushed(old(ramUsage), r.memoryUsedBytes / BytesPerGb, historyLength)
      ensures ramTotal == r.memoryTotalBytes / BytesPerGb
      ensures gpuNames == if old(gpuNames) == [] && r.gpus.Some? then GpuNames(r.gpus.value) else old(gpuNames)
      ensures gpuTotalMemory == if old(gpuNames) == [] && r.gpus.Some? then GpuTotals(r.gpus.value) else old(gpuTotalMemory)
      ensures r.gpus.Some? ==>
        var first := old(gpuNames) == [];
        var n := |r.gpus.value|;
        gpuUsage == PushedEach(if first then EmptySeries(n) else old(gpuUsage), GpuLoads(r.gpus.value), historyLength) &&
        gpuMemory == PushedEach(if first then EmptySeries(n) else old(gpuMemory), GpuUsedGb(r.gpus.value), historyLength) &&
        gpuTemperatures == PushedEach(if first then EmptySeries(n) else old(gpuTemperatures), GpuTemperatures(r.gpus.value), historyLength)
      ensures r.gpus.None? ==> gpuUsage == old(gpuUsage) && gpuMemory == old(gpuMemory) && gpuTemperatures == old(gpuTemperatures)
      ensures modelMemory == if modelLoaded && r.cudaAllocatedBytes.Some?
        then Pushed(old(modelMemory), ModelMemoryGb(r.cudaAllocatedBytes.value), historyLength)
        else old(modelMemory)
      ensures modelLoaded == old(modelLoaded) && modelDevice == old(modelDevice)
      ensures modelPrecision == old(modelPrecision) && modelName == old(modelName)
    {
      PushSamples(r.now, r.cpuPercent, r.memoryTotalBytes, r.memoryUsedBytes);
      SampleDevices(r);
    }

    /** The GPUtil and torch part of `update`, after the clock, CPU and RAM samples. */
    method SampleDevices(r: Reading)
      requires Valid()
      modifies this`gpuUsage, this`gpuMemory, this`gpuTotalMemory, this`gpuNames, this`gpuTemperatures, this`modelMemory
      ensures Valid()
      ensures gpuNames == if old(gpuNames) == [] && r.gpus.Some? then GpuNames(r.gpus.value) else old(gpuNames)
      ensures gpuTotalMemory == if old(gpuNames) == [] && r.gpus.Some? then GpuTotals(r.gpus.value) else old(gpuTotalMemory)
      ensures r.gpus.Some? ==>
        var first := old(gpuNames) == [];
        var n := |r.gpus.value|;
        gpuUsage == PushedEach(if first then EmptySeries(n) else old(gpuUsage), GpuLoads(r.gpus.value), historyLength) &&
        gpuMemory == PushedEach(if first then EmptySeries(n) else old(gpuMemory), GpuUsedGb(r.gpus.value), historyLength) &&
        gpuTemperatures == PushedEach(if first then EmptySeries(n) else old(gpuTemperatures), GpuTemperatures(r.gpus.value), historyLength)
      ensures r.gpus.None? ==> gpuUsage == old(gpuUsage) && gpuMemory == old(gpuMemory) && gpuTemperatures == old(gpuTemperatures)
      ensures modelMemory == if modelLoaded && r.cudaAllocatedBytes.Some?
        then Pushed(old(modelMemory), ModelMemoryGb(r.cudaAllocatedBytes.value), historyLength)
        else old(modelMemory)
    {
      SampleGpus(r.gpus);
      SampleModel(r.cudaAllocatedBytes);
    }

    /** The torch part of `update`; `None` when torch is missing or CUDA is unavailable. */
    method SampleModel(perDevice: Option<seq<real>>)
      requires SeriesValid()
      modifies this`modelMemory
      ensures SeriesValid()
      ensures modelMemory == if modelLoaded && perDevice.Some?
        then Pushed(old(modelMemory), ModelMemoryGb(perDevice.value), historyLength)
        else old(modelMemory)
    {
      match perDevice {
        case None =>
        case Some(perDevice) =>
          if modelLoaded {
            PushModelMemory(perDevice);
          }
      }
    }

    /** The GPU part of `update`; `None` when GPUtil is missing or `getGPUs` raised. */
    method SampleGpus(reported: Option<seq<GpuReading>>)
      requires GpusValid()
      modifies this`gpuUsage, this`gpuMemory, this`gpuTotalMemory, this`gpuNames, this`gpuTemperatures
      ensures GpusValid()
      ensures gpuNames == if old(gpuNames) == [] && reported.Some? then GpuNames(reported.value) else old(gpuNames)
      ensures gpuTotalMemory == if old(gpuNames) == [] && reported.Some? then GpuTotals(reported.value) else old(gpuTotalMemory)
      ensures reported.Some? ==>
        var first := old(gpuNames) == [];
        var n := |reported.value|;
        gpuUsage == PushedEach(if first then EmptySeries(n) else old(gpuUsage), GpuLoads(reported.value), historyLength) &&
        gpuMemory == PushedEach(if first then EmptySeries(n) else old(gpuMemory), GpuUsedGb(reported.value), historyLength) &&
        gpuTemperatures == PushedEach(if first then EmptySeries(n) else old(gpuTemperatures), GpuTemperatures(reported.value), historyLength)
      ensures reported.None? ==> gpuUsage == old(gpuUsage) && gpuMemory == old(gpuMemory) && gpuTemperatures == old(gpuTemperatures)
    {
      match reported {
        case None =>
        case Some(gpus) =>
          if gpuNames == [] {
            InitGpus(gpus);
          }
          UpdateGpus(gpus);
      }
    }

    /** The clock, CPU and RAM part of `update`. */
    method PushSamples(now: real, cpuPercent: real, memoryTotalBytes: real, memoryUsedBytes: real)
      requires SeriesValid()
      modifies this`timestamps, this`cpuUsage, this`ramUsage, this`ramTotal
      ensures SeriesValid()
      ensures timestamps == Pushed(old(timestamps), now, historyLength)
      ensures cpuUsage == Pushed(old(cpuUsage), cpuPercent, historyLength)
      ensures ramUsage == Pushed(old(ramUsage), memoryUsedBytes / BytesPerGb, historyLength)
      ensures ramTotal == memoryTotalBytes / BytesPerGb
    {
      timestamps := Pushed(timestamps, now, historyLength);
      cpuUsage := Pushed(cpuUsage, cpuPercent, historyLength);
      ramTotal := memoryTotalBytes / BytesPerGb;
      ramUsage := Pushed(ramUsage, memoryUsedBytes / BytesPerGb, historyLength);
    }

    /** The first update that finds GPUs: names, total memory and one empty list per GPU and series. */
    method InitGpus(gpus: seq<GpuReading>)
      modifies this`gpuUsage, this`gpuMemory, this`gpuTotalMemory, this`gpuNames, this`gpuTemperatures
      ensures GpusValid()
      ensures gpuNames == GpuNames(gpus) && gpuTotalMemory == GpuTotals(gpus)
      ensures gpuUsage == EmptySeries(|gpus|) && gpuMemory == EmptySeries(|gpus|) && gpuTemperatures == EmptySeries(|gpus|)
    {
      gpuNames := GpuNames(gpus);
      gpuTotalMemory := GpuTotals(gpus);
      gpuUsage, gpuMemory, gpuTemperatures := EmptySeries(|gpus|), EmptySeries(|gpus|), EmptySeries(|gpus|);
    }

    /** The model part of `update`, run while a model is loaded and CUDA is there. */
    method PushModelMemory(perDevice: seq<real>)
      requires SeriesValid()
      modifies this`modelMemory
      ensures SeriesValid()
      ensures modelMemory == Pushed(old(modelMemory), ModelMemoryGb(perDevice), historyLength)
    {
      var total := SumModelMemory(perDevice);
      modelMemory := Pushed(modelMemory, total, historyLength);
    }

    /**
     * The loop over GPUtil's GPUs: GPU `i` gets one sample in each of its
     * three series.  A GPU beyond the known ones makes `gpu_usage[i]` raise,
     * which ends the loop; the exception is logged.
     */
    method UpdateGpus(gpus: seq<GpuReading>)
      requires GpusValid()
      modifies this`gpuUsage, this`gpuMemory, this`gpuTemperatures
      ensures GpusValid()
      ensures gpuUsage == PushedEach(old(gpuUsage), GpuLoads(gpus), historyLength)
      ensures gpuMemory == PushedEach(old(gpuMemory), GpuUsedGb(gpus), historyLength)
      ensures gpuTemperatures == PushedEach(old(gpuTemperatures), GpuTemperatures(gpus), historyLength)
    {
      var usage, memory, temperatures := gpuUsage, gpuMemory, gpuTemperatures;
      var i := 0;
      while i < |gpus| && i < |usage|
        invariant 0 <= i <= |gpus| && i <= |usage|
        invariant |usage| == |gpuUsage| == |gpuMemory| == |gpuTemperatures|
        invariant unchanged(this)
        invariant usage == PushedEach(gpuUsage, GpuLoads(gpus)[..i], historyLength)
        invariant memory == PushedEach(gpuMemory, GpuUsedGb(gpus)[..i], historyLength)
        invariant temperatures == PushedEach(gpuTemperatures, GpuTemperatures(gpus)[..i], historyLength)
      {
        StepEach(gpuUsage, GpuLoads(gpus), i, historyLength);
        StepEach(gpuMemory, GpuUsedGb(gpus), i, historyLength);
        StepEach(gpuTemperatures, GpuTemperatures(gpus), i, historyLength);
        usage := PushedAt(usage, i, GpuLoads(gpus)[i], historyLength);
        memory := PushedAt(memory, i, GpuUsedGb(gpus)[i], historyLength);
        temperatures := PushedAt(temperatures, i, GpuTemperatures(gpus)[i], historyLength);
        i := i + 1;
      }
      if i < |gpus| {
        BeyondSeries(gpuUsage, GpuLoads(gpus), i, historyLength);
        BeyondSeries(gpuMemory, GpuUsedGb(gpus), i, historyLength);
        BeyondSeries(gpuTemperatures, GpuTemperatures(gpus), i, historyLength);
      } else {
        assert GpuLoads(gpus)[..i] == GpuLoads(gpus) && GpuUsedGb(gpus)[..i] == GpuUsedGb(gpus);
        assert GpuTemperatures(gpus)[..i] == GpuTemperatures(gpus);
      }
      gpuUsage, gpuMemory, gpuTemperatures := usage, memory, temperatures;
    }

    /** `get_latest`, with `now` standing for `datetime.now()`. */
    function GetLatest(now: real): (r: Latest)
      reads this
      ensures r.gpuCount == |gpuNames| && r.gpuNames == gpuNames && r.gpuTotalMemory == gpuTotalMemory
      ensures r.timestamp == if timestamps == [] then now else timestamps[|timestamps| - 1]
      ensures r.cpuUsage == LastOrZero(cpuUsage) && r.ramUsage == LastOrZero(ramUsage) && r.ramTotal == ramTotal
      ensures r.gpuUsage == LastOfEach(gpuUsage) && r.gpuMemory == LastOfEach(gpuMemory)
      ensures r.gpuTemperatures == LastOfEach(gpuTemperatures) && r.modelMemory == LastOrZero(modelMemory)
      ensures r.modelLoaded == modelLoaded && r.modelDevice == modelDevice
      ensures r.modelPrecision == modelPrecision && r.modelName == modelName
    {
      Latest(
        if timestamps == [] then now else timestamps[|timestamps| - 1],
        LastOrZero(cpuUsage), LastOrZero(ramUsage), ramTotal,
        |gpuNames|, gpuNames,
        LastOfEach(gpuUsage), LastOfEach(gpuMemory), gpuTotalMemory, LastOfEach(gpuTemperatures),
        LastOrZero(modelMemory), modelLoaded, modelDevice, modelPrecision, modelName)
    }
  }

  /** After an update with a positive history length, `get_latest` reports that update's samples. */
  lemma LatestIsNewest(series: seq<real>, x: real, limit: int)
    requires limit > 0
    ensures LastOrZero(Pushed(series, x, limit)) == x
  {
    var a := series + [x];
    assert a[|a| - 1] == x;
  }

  /** `ResourceMonitor`: the timer-driven sampler around one `ResourceData`. */
  class Monitor {
    const data: ResourceData
    var running: bool
    /** The interval the timer was last started with, if it was. */
    var interval: Option<int>

    constructor (data0: ResourceData)
      ensures data == data0 && !running && interval == None
    {
      data := data0;
      running := false;
      interval := None;
    }

    /** `start`: starts the timer only when it is not running already. */
    method Start(intervalMs: int)
      modifies this`running, this`interval
      ensures running
      ensures old(running) ==> interval == old(interval)
      ensures !old(running) ==> interval == Some(intervalMs)
    {
      if !running {
        interval := Some(intervalMs);
        running := true;
      }
    }

    /** `stop`: stops the timer only when it is running. */
    method Stop()
      modifies this`running
      ensures !running
    {
      if running {
        running := false;
      }
    }

    /** `update_data`: one update of the data, then the latest values for the `data_updated` signal. */
    method UpdateData(r: Reading) returns (latest: Latest)
      requires data.Valid()
      modifies data
      ensures data.Valid() && latest == data.GetLatest(r.now)
      ensures data.historyLength > 0 ==> latest.timestamp == r.now && latest.cpuUsage == r.cpuPercent
    {
      data.Update(r);
      if data.historyLength > 0 {
        LatestIsNewest(old(data.timestamps), r.now, data.historyLength);
        LatestIsNewest(old(data.cpuUsage), r.cpuPercent, data.historyLength);
      }
      latest := data.GetLatest(r.now);
    }
  }

  // ----- the page's "Load model" button -----

  /** The force_config `load_model` builds from the precision and device boxes. */
  function LoadForceConfig(precision: string, device: string): (r: Config)
    ensures precision == "8-bit" ==> IsSet(r, LoadIn8bit) && !IsSet(r, LoadIn4bit)
    ensures precision == "4-bit" ==> IsSet(r, LoadIn4bit) && FourBitComplete(r) && !IsSet(r, LoadIn8bit)
    ensures precision != "8-bit" && precision != "4-bit" ==> LoadIn8bit !in r && LoadIn4bit !in r
    ensures Device(r) == (if device == "CPU" then Some("cpu") else None)
  {
    var quant: Config :=
      if precision == "8-bit" then map[LoadIn8bit := Flag(true)]
      else if precision == "4-bit" then WithFourBit(map[])
      else map[];
    if device == "CPU" then quant[DeviceMap := Text("cpu")] else quant
  }

  /** The device shown after loading: "CPU" exactly when the forced device_map is "cpu". */
  function DeviceLabel(force: Config): (r: string)
    ensures r == "CPU" <==> DeviceMap in force && force[DeviceMap] == Text("cpu")
    ensures r != "CPU" ==> r == "GPU"
  {
    if DeviceMap in force && force[DeviceMap] == Text("cpu") then "CPU" else "GPU"
  }

  /** The precision shown after loading: 4-bit wins over 8-bit, and neither is FP16. */
  function PrecisionLabel(force: Config): (r: string)
    ensures IsSet(force, LoadIn4bit) ==> r == "4-bit"
    ensures !IsSet(force, LoadIn4bit) && IsSet(force, LoadIn8bit) ==> r == "8-bit"
    ensures !IsSet(force, LoadIn4bit) && !IsSet(force, LoadIn8bit) ==> r == "FP16"
  {
    if IsSet(force, LoadIn4bit) then "4-bit" else if IsSet(force, LoadIn8bit) then "8-bit" else "FP16"
  }

  /** The labels read back the boxes' choices ("FP16", "8-bit", "4-bit"; "Auto", "CPU"). */
  lemma LabelsMatchChoices(precision: string, device: string)
    requires precision in ["FP16", "8-bit", "4-bit"] && device in ["Auto", "CPU"]
    ensures PrecisionLabel(LoadForceConfig(precision, device)) == precision
    ensures DeviceLabel(LoadForceConfig(precision, device)) == if device == "CPU" then "CPU" else "GPU"
  {
    var r := LoadForceConfig(precision, device);
    assert Device(r) == (if device == "CPU" then Some("cpu") else None);
  }

  /** `_load_model_thread` after the loader returned: the data records the model and its labels. */
  method RecordLoadedModel(data: ResourceData, force: Config)
    modifies data`modelLoaded, data`modelDevice, data`modelPrecision, data`modelName
    ensures data.modelLoaded && data.modelDevice == DeviceLabel(force)
    ensures data.modelPrecision == PrecisionLabel(force) && data.modelName == "R1-1776"
  {
    data.SetModelInfo(true, DeviceLabel(force), PrecisionLabel(force), "R1-1776");
  }

  /** `unload_model`: no model, labels back to "N/A"; the model series stops growing. */
  method RecordUnloadedModel(data: ResourceData)
    modifies data`modelLoaded, data`modelDevice, data`modelPrecision, data`modelName
    ensures !data.modelLoaded && data.modelDevice == "N/A" && data.modelPrecision == "N/A" && data.modelName == "N/A"
  {
    data.SetModelInfo(false, "N/A", "N/A", "N/A");
  }
}
