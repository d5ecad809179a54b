/**
 * The keyword-argument dictionaries handed to the model loader, shared by
 * r1_1776_utils.py, DeepSeek_Models/start.py, run_r1_1776.py,
 * resource_monitor.py and ai_browser_middleware.py.  A configuration is a
 * map from option names to values; `torch.float16` is the value `Float16`
 * and Python's `None` is `NoneValue`.
 */
module ModelConfig {
  import opened Common

  /** Keys of a `max_memory` budget: a GPU index or the string "cpu". */
  datatype MemKey = Gpu(index: nat) | CpuMem

  datatype Value =
    | Text(s: string)
    | Flag(b: bool)
    | Float16
    | NoneValue
    | Budget(limits: map<MemKey, string>)

  /** The option names the resolvers and the command-line overrides use. */
  datatype Key =
    | DeviceMap | TorchDtype | LoadIn8bit | LoadIn4bit | UseCpu | OffloadFolder
    | MaxMemory | LowCpuMemUsage | ComputeDtype | QuantType

  type Config = map<Key, Value>

  /** The dictionary key each option is stored under. */
  function KeyName(k: Key): string {
    match k
    case DeviceMap => "device_map"
    case TorchDtype => "torch_dtype"
    case LoadIn8bit => "load_in_8bit"
    case LoadIn4bit => "load_in_4bit"
    case UseCpu => "use_cpu"
    case OffloadFolder => "offload_folder"
    case MaxMemory => "max_memory"
    case LowCpuMemUsage => "low_cpu_mem_usage"
    case ComputeDtype => "bnb_4bit_compute_dtype"
    case QuantType => "bnb_4bit_quant_type"
  }

  /** Python truthiness of a configuration value. */
  predicate Truthy(v: Value) {
    match v
    case Text(s) => s != ""
    case Flag(b) => b
    case Float16 => true
    case NoneValue => false
    case Budget(m) => |m| > 0
  }

  /** `bool(config.get(key))`. */
  predicate IsSet(c: Config, key: Key) {
    key in c && Truthy(c[key])
  }

  /** The `device_map` entry, if it is a string. */
  function Device(c: Config): Option<string> {
    if DeviceMap in c && c[DeviceMap].Text? then Some(c[DeviceMap].s) else None
  }

  /** Every 4-bit configuration also names the float16 compute dtype and the "nf4" quant type. */
  predicate FourBitComplete(c: Config) {
    IsSet(c, LoadIn4bit) ==>
      ComputeDtype in c && c[ComputeDtype] == Float16 && QuantType in c && c[QuantType] == Text("nf4")
  }

  /** The three 4-bit entries every resolver sets together. */
  function WithFourBit(c: Config): (r: Config)
    ensures IsSet(r, LoadIn4bit) && FourBitComplete(r)
    ensures forall k :: k in c && k != LoadIn4bit && k != ComputeDtype && k != QuantType ==> k in r && r[k] == c[k]
  {
    c[LoadIn4bit := Flag(true)][ComputeDtype := Float16][QuantType := Text("nf4")]
  }

  /**
   * `base.update(over)` on a fresh dictionary: every key of `over` takes its
   * value from `over`, every other key of `base` keeps its value.
   */
  function Merge(base: Config, over: Config): (r: Config)
    ensures r.Keys == base.Keys + over.Keys
    ensures forall k :: k in over ==> r[k] == over[k]
    ensures forall k :: k in base && k !in over ==> r[k] == base[k]
  {
    base + over
  }

  /** `{k: v for k, v in config.items() if k not in ["use_cpu", "offload_folder"]}`. */
  function LoaderKwargs(c: Config): (r: Config)
    ensures UseCpu !in r && OffloadFolder !in r
    ensures forall k :: k in c && k != UseCpu && k != OffloadFolder ==> k in r && r[k] == c[k]
    ensures r.Keys <= c.Keys
  {
    map k | k in c && k != UseCpu && k != OffloadFolder :: c[k]
  }

  /** Python's `int(x)` on a float: truncation toward zero. */
  function Trunc(x: real): (r: int)
    ensures x >= 0.0 ==> 0 <= r && r as real <= x < r as real + 1.0
    ensures x < 0.0 ==> r <= 0 && r as real - 1.0 < x <= r as real
  {
    if x >= 0.0 then x.Floor else -((-x).Floor)
  }

  /** `f"{n}GiB"`. */
  function GiB(n: int): string {
    IntToString(n) + "GiB"
  }

  /** A budget entry carries its integer back: strip the suffix and `int()` gives `n`. */
  lemma GiBParses(n: int)
    ensures EndsWith(GiB(n), "GiB")
    ensures ParseInt(GiB(n)[..|GiB(n)| - 3]) == Some(n)
  {
    assert GiB(n)[..|GiB(n)| - 3] == IntToString(n);
    ParseIntToString(n);
  }
}
