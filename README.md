# A verified model of the DeepseekP2.2 browser and model launchers

This project models, in Dafny, the logic inside a PyQt web browser that an
LLM can drive (`selenium_qt_browser/`) and inside the scripts that choose how
to load the DeepSeek-R1 and r1-1776 models. Each core source file becomes one
module:

- `R1Utils` (r1_1776_utils.py): the hardware-tier ladder of
  `determine_optimal_config`, including the multi-GPU `max_memory` budget. It
  also covers `load_model`'s choice between a forced and a detected
  configuration, the loader-argument filter, and `generate_text`'s prompt strip.
- `DeepSeekSession` (DeepSeek_Models/start.py): the `ModelSession` class, with
  its loaded flag, history and second configuration ladder. It also covers the
  chat-template prompt and the reply extraction.
- `R1Setup` (run_r1_1776.py): the dependency check and `download_model`'s flag
  overrides, on both the helper path and the basic path.
- `ModelConfig`: the loader keyword-argument dictionaries these three share.
- `Spreadsheet` (notepage_exc.py): the sparse cell map of the spreadsheet tab,
  with row and column insertion and removal and the Excel-like headers.
- `Session` (session_manager.py):
  - saving tabs, chat logs, history and metadata into an abstract file store;
  - restoring them, including the lenient "(r,c)" key decoder;
  - the tab dispatch.
- `ResourceMonitor` (resource_monitor.py): the 60-sample sliding windows of
  `ResourceData`, the monitor's running flag, and the load-model labels.
- `Middleware` (ai_browser_middleware.py): the event queue and ten-event
  history, the prompt built from the context, the JSON cut of the model's
  reply, and the mapping from an action object to a controller call.
- `Controller` (controller.py) and `Api` (api.py): the callback registry,
  the tab index checks, command routing, element classification and the
  terminal-output diff.
- `Browser` (browser.py): the window's tab list, with `close_tab`,
  `add_new_tab`, the default tabs, URL normalisation and title truncation.
- `NotePage` (notepage.py): the word count, the Markdown line classifier and
  the `*`-toggle bold parser.
- `Utils` (utils.py): `deep_update`, `load_config` and the profile guards.
- `JsonText`: the text `json.dump` writes for a value with its default
  separators. A sheet file has this text when a note record names it.
- `TabTypes`, `Json` and `Common`: shared vocabulary.
  - `TabTypes` is the `TabType` enum.
  - `Json` holds decoded JSON values.
  - `Common` holds Python's `str` operations on ASCII text, with `int()` and `str()`.

Code that mutates state is modelled as a Dafny class with those fields, and
its methods carry `modifies` clauses. This covers `SpreadsheetModel`,
`ResourceData`, `ModelSession`, the middleware, the controllers, the browser
window, the session manager, the note editor and the settings and profile
stores. Each loop becomes a method proved against a specification function.
The properties the source promises are lemmas about those functions.
Hardware probes, clocks, files, user choices and the outcome of foreign
calls are parameters.

## Model

| member | source | states |
|---|---|---|
| Common.Strip | selenium_qt_browser/notepage.py:113 | `str.strip()`: the result is no longer than the text, neither starts nor ends with whitespace, and is the text with leading and trailing whitespace removed |
| Common.StripAllSpace | selenium_qt_browser/notepage.py:113 | stripping leaves nothing exactly when the text is all whitespace |
| Common.Lower | selenium_qt_browser/ai_browser_middleware.py:415 | `str.lower()` keeps the length and lower-cases each character |
| Common.Find | selenium_qt_browser/ai_browser_middleware.py:396 | `str.find` gives the first occurrence of the pattern, and nothing exactly when there is none |
| Common.BeforeFirst | run_r1_1776.py:52 | `split('>=')[0]` is a prefix free of the separator that ends where the first separator starts, and the whole text when there is no separator |
| Common.Split | selenium_qt_browser/session_manager.py:248 | `str.split(sep)` gives at least one part and no part holds the separator |
| Common.SplitJoin | selenium_qt_browser/session_manager.py:248 | joining the parts back with the separator gives the text, and there is one part more than separators |
| Common.NatToString | selenium_qt_browser/notepage.py:78 | `str()` of a count is a non-empty string of digits |
| Common.DigitsOfNat | selenium_qt_browser/notepage.py:78 | the digits `str()` writes read back as the same number |
| Common.ParseIntToString | selenium_qt_browser/session_manager.py:251 | `int()` reads back every integer `str()` writes |
| Common.ParseIntNeedsDigit | selenium_qt_browser/session_manager.py:250-254 | `int()` of a text without digits raises `ValueError` |
| Common.LastN | selenium_qt_browser/ai_browser_middleware.py:242-243 | keeping the last n entries gives min(n, length) entries |
| Common.LastNAppend | selenium_qt_browser/ai_browser_middleware.py:242-243 | trimming before an append and after it keeps the same last entries as trimming once |
| DeepSeekSession.TotalGpuMemory | DeepSeek_Models/start.py:149-151 | the loop gives the memory of all CUDA devices added up in device order |
| DeepSeekSession.SumCoversEachDevice | DeepSeek_Models/start.py:149-151 | with no negative sizes, the total is at least the memory of any one device |
| DeepSeekSession.SumNonNegative | DeepSeek_Models/start.py:149-151 | with no negative sizes, the total is not negative |
| DeepSeekSession.DetermineOptimalConfig | DeepSeek_Models/start.py:136-195 | the summing loop and the branches give the configuration `DeepSeekSession.DetectedConfig` describes |
| DeepSeekSession.CudaNeverFallsToCpu | DeepSeek_Models/start.py:148-177 | with CUDA the device stays "auto" whatever the memory: 24 GB and up is unquantized, [12, 24) is 8-bit, below 12 is complete 4-bit |
| DeepSeekSession.WithoutCuda | DeepSeek_Models/start.py:180-193 | without CUDA the device is "mps" on Apple GPUs and "cpu" otherwise, always with complete 4-bit and never 8-bit |
| DeepSeekSession.AlwaysHalfPrecisionLowMemory | DeepSeek_Models/start.py:143-147 | every detected configuration has float16 and low_cpu_mem_usage, and never use_cpu or offload_folder |
| DeepSeekSession.ResolversDisagree | DeepSeek_Models/start.py:158-177 | on the same CUDA machine, with a total memory that needs no rounding, this resolver and r1_1776_utils.py:94-143 disagree: [12, 24) GB is 8-bit here and unquantized there, [8, 12) is 4-bit here and 8-bit there, and below 4 GB this one keeps "auto" where the other leaves the GPU |
| DeepSeekSession.ForceMergesKeyByKey | DeepSeek_Models/start.py:106-108 | forced keys win and every detected key the force does not name is kept |
| DeepSeekSession.ForcedEightBitKeepsFourBit | DeepSeek_Models/start.py:106-108 | forcing 8-bit on a machine detected as 4-bit leaves both quantizations switched on |
| DeepSeekSession.ForceConfigFromFlags | DeepSeek_Models/start.py:393-403 | no force config exactly when no flag is given; 8-bit exactly for --use-8bit, 4-bit only without it, device "cpu" exactly for --force-cpu |
| DeepSeekSession.FormatPrompt | DeepSeek_Models/start.py:299-319 | the prompt opens with the system block and ends with the opened assistant turn |
| DeepSeekSession.DefaultSystemPromptUsed | DeepSeek_Models/start.py:311-312 | no system prompt means the default DeepSeek system prompt |
| DeepSeekSession.ExtractResponse | DeepSeek_Models/start.py:321-343 | the extracted reply never contains the end marker |
| DeepSeekSession.ExtractAfterFormat | DeepSeek_Models/start.py:321-343 | formatting a prompt and extracting a reply without an end marker gives the reply, stripped |
| DeepSeekSession.ExtractCutsAtFirstEnd | DeepSeek_Models/start.py:340-343 | a reply that goes on past an end marker is cut at the first one |
| DeepSeekSession.ModelSession.constructor | DeepSeek_Models/start.py:43-77 | nothing is loaded, and the history is the stored one or empty when it is missing or unreadable |
| DeepSeekSession.ModelSession.LoadModel | DeepSeek_Models/start.py:88-134 | a no-op when loaded; otherwise the session is loaded exactly when the loader does not raise, with the detected configuration merged with the force config |
| DeepSeekSession.ModelSession.UnloadModel | DeepSeek_Models/start.py:197-221 | the session ends unloaded and the history is kept |
| DeepSeekSession.ModelSession.AddToHistory | DeepSeek_Models/start.py:223-236 | the history grows by exactly one entry with the role, content and time |
| DeepSeekSession.ModelSession.GenerateResponse | DeepSeek_Models/start.py:238-297 | without a model, the error and an unchanged history; otherwise the prompt is recorded before generating and the extracted reply after, and a failed generation leaves only the prompt recorded |
| ModelConfig.WithFourBit | r1_1776_utils.py:110-113 | 4-bit comes with float16 and "nf4", and every other entry is kept |
| ModelConfig.Merge | DeepSeek_Models/start.py:107-108 | `dict.update`: the keys of both, the second's values winning |
| ModelConfig.LoaderKwargs | r1_1776_utils.py:218 | use_cpu and offload_folder are dropped and every other entry is kept |
| ModelConfig.Trunc | r1_1776_utils.py:150-152 | Python's `int()` on a float truncates toward zero |
| ModelConfig.GiBParses | r1_1776_utils.py:150 | a budget entry ends in "GiB" and the number before it reads back as the integer written |
| TabTypes.FromName | selenium_qt_browser/tab_types.py:10-18 | `TabType[name]` gives back only the member whose name is the text |
| TabTypes.NameRoundTrip | selenium_qt_browser/tab_types.py:10-18 | the seven names are distinct, so a stored name finds its type again |
| ResourceMonitor.Pushed | selenium_qt_browser/resource_monitor.py:92-94 | a series shorter than the limit just grows by the sample; a series within the window stays within it; the newest sample is last |
| ResourceMonitor.PushedKeepsWindow | selenium_qt_browser/resource_monitor.py:92-108 | pushing onto the window of the last samples gives the window of the samples with the new one: an update keeps each series the last `history_length` samples |
| ResourceMonitor.LastOrZero | selenium_qt_browser/resource_monitor.py:163-165 | the newest sample, or 0 for an empty series |
| ResourceMonitor.PushedEach | selenium_qt_browser/resource_monitor.py:121-135 | one series per GPU is kept, and each stays within the window |
| ResourceMonitor.AppendedEach | selenium_qt_browser/resource_monitor.py:121-124 | GPU i's full record grows by sample i, where there is one |
| ResourceMonitor.EmptySeries | selenium_qt_browser/resource_monitor.py:117-119 | one empty list per GPU |
| ResourceMonitor.PushedEachKeepsWindows | selenium_qt_browser/resource_monitor.py:121-135 | the GPU loop keeps every GPU's series the window of that GPU's samples |
| ResourceMonitor.PushedAt | selenium_qt_browser/resource_monitor.py:122-135 | GPU i's series takes its sample and the other GPUs' series are unchanged |
| ResourceMonitor.StepEach | selenium_qt_browser/resource_monitor.py:121-135 | one turn of the GPU loop extends the pushed series by one GPU |
| ResourceMonitor.BeyondSeries | selenium_qt_browser/resource_monitor.py:121-137 | a GPU without a series ends the loop, which has then pushed every sample it would |
| ResourceMonitor.GpuNames | selenium_qt_browser/resource_monitor.py:115 | one name per reported GPU, in order |
| ResourceMonitor.GpuTotals | selenium_qt_browser/resource_monitor.py:116 | each GPU's total memory in GB (MB over 1024) |
| ResourceMonitor.GpuLoads | selenium_qt_browser/resource_monitor.py:122 | each GPU's load as a percentage |
| ResourceMonitor.GpuUsedGb | selenium_qt_browser/resource_monitor.py:123 | each GPU's used memory in GB |
| ResourceMonitor.GpuTemperatures | selenium_qt_browser/resource_monitor.py:124 | each GPU's temperature, as reported |
| ResourceMonitor.ModelMemoryIsTotalOverGb | selenium_qt_browser/resource_monitor.py:143-146 | dividing each device's bytes by 1024^3 and adding up gives the total bytes over 1024^3 |
| ResourceMonitor.SumModelMemory | selenium_qt_browser/resource_monitor.py:143-146 | the summing loop gives the model memory in GB |
| ResourceMonitor.LastOfEach | selenium_qt_browser/resource_monitor.py:168-172 | the newest sample of each GPU's series, 0 for an empty one |
| ResourceMonitor.ResourceData.constructor | selenium_qt_browser/resource_monitor.py:66-68 | new data is in its reset state and keeps the given history length |
| ResourceMonitor.ResourceData.Reset | selenium_qt_browser/resource_monitor.py:70-85 | every series empty, no model, and the labels "N/A" |
| ResourceMonitor.ResourceData.ClearSamples | selenium_qt_browser/resource_monitor.py:72-75 | the clock, CPU, RAM and model series are empty and the RAM total is 0 |
| ResourceMonitor.ResourceData.ClearGpus | selenium_qt_browser/resource_monitor.py:76-80 | the GPU lists are empty |
| ResourceMonitor.ResourceData.SetModelInfo | selenium_qt_browser/resource_monitor.py:153-158 | the four model fields take the given values |
| ResourceMonitor.ResourceData.Update | selenium_qt_browser/resource_monitor.py:87-151 | each of the clock, CPU and RAM series takes one sample within its window; the GPU lists are set up from the first reading that finds GPUs and then take one sample per GPU; the model series takes a sample only while a model is loaded and CUDA is there |
| ResourceMonitor.ResourceData.SampleDevices | selenium_qt_browser/resource_monitor.py:110-151 | the GPU and model parts of the update, as stated for `Update` |
| ResourceMonitor.ResourceData.SampleModel | selenium_qt_browser/resource_monitor.py:139-151 | the model series grows by the model memory only while a model is loaded and CUDA is there |
| ResourceMonitor.ResourceData.SampleGpus | selenium_qt_browser/resource_monitor.py:110-137 | without a GPU reading the GPU series are unchanged; otherwise they are set up when none are known, then take one sample each |
| ResourceMonitor.ResourceData.PushSamples | selenium_qt_browser/resource_monitor.py:90-108 | the clock, CPU and RAM series take one sample each, within the window, and the RAM total is the reading in GB |
| ResourceMonitor.ResourceData.InitGpus | selenium_qt_browser/resource_monitor.py:114-119 | the names and totals of the reported GPUs, and one empty series per GPU |
| ResourceMonitor.ResourceData.PushModelMemory | selenium_qt_browser/resource_monitor.py:143-149 | the model series takes the summed memory within the window |
| ResourceMonitor.ResourceData.UpdateGpus | selenium_qt_browser/resource_monitor.py:121-135 | every GPU's three series take that GPU's sample, within the window |
| ResourceMonitor.ResourceData.GetLatest | selenium_qt_browser/resource_monitor.py:160-179 | the newest sample of every series (0 for an empty one, now for the clock), the GPU names, count and totals, and the model fields |
| ResourceMonitor.LatestIsNewest | selenium_qt_browser/resource_monitor.py:160-166 | after an update with a positive history length, the latest value is that update's sample |
| ResourceMonitor.Monitor.constructor | selenium_qt_browser/resource_monitor.py:208-213 | a new monitor holds the data and is not running |
| ResourceMonitor.Monitor.Start | selenium_qt_browser/resource_monitor.py:215-219 | the monitor runs afterwards; the timer interval is set only when it was not running already |
| ResourceMonitor.Monitor.Stop | selenium_qt_browser/resource_monitor.py:221-225 | the monitor is not running afterwards |
| ResourceMonitor.Monitor.UpdateData | selenium_qt_browser/resource_monitor.py:227-230 | the data are updated and the signal carries the latest values, which are this update's clock and CPU samples |
| ResourceMonitor.LoadForceConfig | selenium_qt_browser/resource_monitor.py:735-745 | "8-bit" sets only 8-bit, "4-bit" sets only the complete 4-bit entries, anything else neither; device_map is "cpu" exactly for "CPU" |
| ResourceMonitor.DeviceLabel | selenium_qt_browser/resource_monitor.py:765 | the label is "CPU" exactly when the forced device_map is "cpu", and "GPU" otherwise |
| ResourceMonitor.PrecisionLabel | selenium_qt_browser/resource_monitor.py:766 | 4-bit wins over 8-bit, and neither reads "FP16" |
| ResourceMonitor.LabelsMatchChoices | selenium_qt_browser/resource_monitor.py:725-766 | the labels shown after loading read back the precision and device the boxes offered |
| ResourceMonitor.RecordLoadedModel | selenium_qt_browser/resource_monitor.py:758-769 | a loaded model is recorded with the labels read from the force config and the name "R1-1776" |
| ResourceMonitor.RecordUnloadedModel | selenium_qt_browser/resource_monitor.py:779-795 | after unloading there is no model and every label is "N/A" |
| R1Utils.DetermineOptimalConfig | r1_1776_utils.py:72-155 | the branch loop and the max_memory loop give the configuration `R1Utils.OptimalConfig` describes |
| R1Utils.OptimalFromTier | r1_1776_utils.py:93-143 | every entry but max_memory is the one the first matching branch set |
| R1Utils.QuantizationExclusive | r1_1776_utils.py:82-143 | at most one quantization is switched on, and 4-bit always comes with float16 and "nf4" |
| R1Utils.CudaTiers | r1_1776_utils.py:94-113 | the CUDA tiers match first with closed lower bounds: 12 GB and up keep the defaults, [8, 12) loads 8-bit, [4, 8) loads 4-bit, all with device_map "auto" |
| R1Utils.GpuTierEntries | r1_1776_utils.py:94-113 | the entries the four GPU branches set |
| R1Utils.SmallCudaFallsThrough | r1_1776_utils.py:109-143 | a CUDA machine with less than 4 GB matches no GPU branch and lands on "mps" or "cpu", loading 4-bit |
| R1Utils.CpuBranches | r1_1776_utils.py:116-143 | the offload folder is set exactly without an accelerator and under 16 GB of RAM; use_cpu and device_map "cpu" exactly without an accelerator |
| R1Utils.CpuTierEntries | r1_1776_utils.py:116-143 | the entries the two CPU branches, and only they, change |
| R1Utils.GpuBudgetEntries | r1_1776_utils.py:147-150 | after n turns the GPU budget has exactly the GPUs below n, each 90% of its card, truncated, in GiB |
| R1Utils.MaxMemoryOnlyMultiGpu | r1_1776_utils.py:145-153 | max_memory is set exactly on a CUDA machine with more than one GPU; it then holds one entry per GPU and one for "cpu" with half the available RAM |
| R1Utils.BudgetWithinCard | r1_1776_utils.py:150 | a budget entry never exceeds the memory it was computed from |
| R1Utils.LoadModel | r1_1776_utils.py:176-218 | a missing model directory is the only error; otherwise the loader never receives use_cpu or offload_folder |
| R1Utils.ForceReplacesDetection | r1_1776_utils.py:203-218 | a non-empty force config replaces detection wholesale, so detected entries such as max_memory do not survive; None or {} means detection is used |
| R1Utils.OffloadNeverLoaded | r1_1776_utils.py:132-140 | the detected offload folder never reaches the loader, even on the low-resource branch |
| R1Utils.GeneratedText | r1_1776_utils.py:285-288 | the generated text is never longer than the decoded text |
| R1Utils.GeneratedTextAfterPrompt | r1_1776_utils.py:285-288 | when the decoded text begins with the prompt, the result is the continuation, stripped |
| R1Setup.PackageName | run_r1_1776.py:52 | the package name is the part of the requirement before its first ">=", or the whole requirement when there is none |
| R1Setup.PackageNameOfRequirement | run_r1_1776.py:37-52 | a requirement written as name, ">=" and version gives back its name |
| R1Setup.Missing | run_r1_1776.py:50-58 | a requirement is listed as missing exactly when its package does not import |
| R1Setup.CheckDependencies | run_r1_1776.py:35-72 | the import loop and the pip step give `R1Setup.DependencyCheck`: nothing to do, the missing requirements installed, or exit code 1 when pip fails |
| R1Setup.InstallsOnlyMissing | run_r1_1776.py:50-64 | pip is asked to install exactly the listed requirements whose package does not import |
| R1Setup.Overridden | run_r1_1776.py:118-133 | with --force-cpu the device map is "cpu" and use_cpu is set whatever was detected |
| R1Setup.Fallback | run_r1_1776.py:148-169 | the basic configuration always loads float16 weights |
| R1Setup.SelectLoadKwargs | run_r1_1776.py:95-169 | the field-by-field overrides and the key filter give the loader arguments `R1Setup.DownloadKwargs` describes, with or without the helpers |
| R1Setup.OverrideQuantization | run_r1_1776.py:119-128 | --use-8bit wins over --use-4bit; --use-4bit alone switches 8-bit off and sets the complete 4-bit entries |
| R1Setup.ForceCpuIndependent | run_r1_1776.py:130-133 | forcing the CPU only sets the device map and use_cpu on top of the quantization choice |
| R1Setup.OverrideKeepsUnnamed | run_r1_1776.py:118-133 | the overrides touch no key other than the quantization and device keys |
| R1Setup.DownloadKwargsConsistent | run_r1_1776.py:95-169 | the loader never gets both 8-bit and 4-bit, a 4-bit choice always carries its compute dtype and quant type, and use_cpu and offload_folder never reach it |
| R1Setup.FallbackChoices | run_r1_1776.py:153-169 | in the basic configuration the device is "cpu" exactly when forced, and asking for both widths gives 4-bit only |
| R1Setup.BothWidthsDisagree | run_r1_1776.py:119-155 | with both --use-8bit and --use-4bit, the helper path loads 8-bit while the basic path loads 4-bit |
| Spreadsheet.Move | selenium_qt_browser/notepage_exc.py:78-82 | moving a cell changes its coordinate on that axis by exactly the given amount |
| Spreadsheet.ShiftInverses | selenium_qt_browser/notepage_exc.py:78-82 | shifting back undoes shifting on, nothing is shifted onto the inserted line, and every key off that line is the shift of its shift-back |
| Spreadsheet.InsertedKeys | selenium_qt_browser/notepage_exc.py:74-88 | after an insert, a key is present exactly when it is off the new line and its shift-back was present, and it holds that cell's value |
| Spreadsheet.RemovedKeys | selenium_qt_browser/notepage_exc.py:106-125 | after a removal, a key is present exactly when its shift-on was present, and it holds that cell's value |
| Spreadsheet.InsertedLookup | selenium_qt_browser/notepage_exc.py:78-82 | after an insert at p, each cell at or after p is one line on with its value, each other cell stays, and nothing lands on line p |
| Spreadsheet.RemovedLookup | selenium_qt_browser/notepage_exc.py:113-120 | after removing line p, cells before p stay, cells after p move one line back, and the cells of line p are gone |
| Spreadsheet.RemoveUndoesInsert | selenium_qt_browser/notepage_exc.py:74-125 | removing the line just inserted gives back the original cells |
| Spreadsheet.InsertedSize | selenium_qt_browser/notepage_exc.py:74-88 | inserting a line keeps every cell |
| Spreadsheet.RemovedSize | selenium_qt_browser/notepage_exc.py:106-125 | removing a line drops exactly the cells on that line |
| Spreadsheet.ColumnHeaderRoundTrip | selenium_qt_browser/notepage_exc.py:67 | up to column 701 ("ZZ") the header is an Excel name that reads back to its section |
| Spreadsheet.ColumnHeadersDistinct | selenium_qt_browser/notepage_exc.py:67 | no two of the first 702 columns share a header |
| Spreadsheet.ColumnHeaderExamples | selenium_qt_browser/notepage_exc.py:67 | columns 0, 25, 26, 52 and 701 are headed A, Z, AA, BA and ZZ |
| Spreadsheet.HeaderData | selenium_qt_browser/notepage_exc.py:63-72 | a header exists exactly for the display role, and a row header reads back as the 1-based row number |
| Spreadsheet.SpreadsheetModel.constructor | selenium_qt_browser/notepage_exc.py:23-27 | a new sheet has the given dimensions and no cells |
| Spreadsheet.SpreadsheetModel.Data | selenium_qt_browser/notepage_exc.py:35-44 | a valid index with the display or edit role gives the cell's text, "" when unset; anything else gives none |
| Spreadsheet.SpreadsheetModel.EditThenRead | selenium_qt_browser/notepage_exc.py:35-58 | after `setData` with the edit role, `data` reads the new text at that cell and every other cell as before |
| Spreadsheet.SpreadsheetModel.SetData | selenium_qt_browser/notepage_exc.py:46-58 | a valid index with the edit role stores exactly that one cell; otherwise nothing changes |
| Spreadsheet.SpreadsheetModel.ShiftForInsert | selenium_qt_browser/notepage_exc.py:78-85 | the rebuilding loop leaves the cells `Spreadsheet.Inserted` gives |
| Spreadsheet.SpreadsheetModel.ShiftForRemove | selenium_qt_browser/notepage_exc.py:113-122 | the rebuilding loop leaves the cells `Spreadsheet.Removed` gives |
| Spreadsheet.SpreadsheetModel.InsertRow | selenium_qt_browser/notepage_exc.py:74-88 | one more row, and the cells are shifted as an insert at that row |
| Spreadsheet.SpreadsheetModel.InsertColumn | selenium_qt_browser/notepage_exc.py:90-104 | one more column, and the cells are shifted as an insert at that column |
| Spreadsheet.SpreadsheetModel.RemoveRow | selenium_qt_browser/notepage_exc.py:106-125 | refused exactly when one row is left; otherwise one row fewer and the cells shifted as a removal of that row |
| Spreadsheet.SpreadsheetModel.RemoveColumn | selenium_qt_browser/notepage_exc.py:127-146 | refused exactly when one column is left; otherwise one column fewer and the cells shifted as a removal |
| Spreadsheet.SpreadsheetModel.Clear | selenium_qt_browser/notepage_exc.py:148-151 | no cells are left and the dimensions stay |
| Spreadsheet.SpreadsheetModel.InsertThenRemoveRow | selenium_qt_browser/notepage_exc.py:74-125 | inserting a row and removing it again restores the sheet |
| Spreadsheet.AddRowPosition | selenium_qt_browser/notepage_exc.py:277-285 | the new row goes below the first selected cell, or at the end when nothing is selected |
| Spreadsheet.AddRowBelowSelection | selenium_qt_browser/notepage_exc.py:277-285 | with the selection inside the table, the row is inserted within `[0, rowCount]`, the first selected cell keeps its place and text, and the new row is empty |
| JsonText.SortedKeys | selenium_qt_browser/session_manager.py:92 | the keys of a dict, each once, in ascending code-point order |
| JsonText.Escaped | selenium_qt_browser/session_manager.py:92 | one character of a string written as printable ASCII; exactly the printable characters other than the quote and the backslash stay as they are |
| JsonText.EscapedAll | selenium_qt_browser/session_manager.py:92 | an escaped string is printable ASCII, and a printable string without quotes or backslashes is written unchanged |
| JsonText.Quoted | selenium_qt_browser/session_manager.py:92 | a string literal is printable ASCII between double quotes |
| JsonText.FloatText | selenium_qt_browser/session_manager.py:92 | a float is written as printable ASCII |
| JsonText.Dumped | selenium_qt_browser/session_manager.py:92 | the text of every value is non-empty printable ASCII with no line break, as `json.dump` without `indent` writes it |
| JsonText.QuotedPlain | selenium_qt_browser/session_manager.py:92 | a string of printable ASCII without quotes or backslashes is written between double quotes unchanged |
| JsonText.OneMemberText | selenium_qt_browser/session_manager.py:90-92 | a one-cell sheet dict is written as {"key": "value"}, its key and its text written as string literals |
| Session.ParenthesisedMeans | selenium_qt_browser/session_manager.py:247 | the index test on a key means exactly that it starts with "(" and ends with ")" |
| Session.DecodeKey | selenium_qt_browser/session_manager.py:245-256 | a key read back as text is the saved text unchanged |
| Session.DecodeKeyDrops | selenium_qt_browser/session_manager.py:247-256 | a key is dropped exactly when it is parenthesised without exactly one comma inside |
| Session.IntToStringHasNoComma | selenium_qt_browser/session_manager.py:248-251 | a written integer holds no comma, so a cell key splits into exactly two parts |
| Session.CellKeyWellFormed | selenium_qt_browser/session_manager.py:247-252 | every cell key, negative coordinates included, is written so that the loader turns it back into the same cell |
| Session.DecodedKeysWellFormed | selenium_qt_browser/session_manager.py:245-256 | whatever key the loader produces, it produces again from that key's own text |
| Session.DecodeCellExample | selenium_qt_browser/session_manager.py:248-252 | the key "(0,1)" becomes the cell (0, 1) |
| Session.DecodeTextExample | selenium_qt_browser/session_manager.py:250-254 | "(a,b)" has two non-integer parts and stays a text key |
| Session.DumpSheetAsWritten | selenium_qt_browser/session_manager.py:88-93 | the dump as written succeeds exactly when no key is a (row, col) tuple |
| Session.EditedSheetCannotBeSaved | selenium_qt_browser/session_manager.py:92 | a sheet with one edited cell cannot be saved as written |
| Session.FirstUnsaveable | selenium_qt_browser/session_manager.py:67-96 | the first tab whose sheet the as-written dump refuses, with every tab before it dumpable |
| Session.EditedSheetAbortsSave | selenium_qt_browser/session_manager.py:88-93 | a spreadsheet tab with any edited cell stops the as-written save at or before that tab |
| Session.AsWrittenDumpAgrees | selenium_qt_browser/session_manager.py:92 | where the as-written dump succeeds it writes exactly the corrected encoding |
| Session.AbortedSaveKeepsSessionFiles | selenium_qt_browser/session_manager.py:33-44 | after an aborted save, tabs.json, chats.json, the history and the metadata are as they were and the refused sheet's file is unreadable |
| Session.SessionSave | selenium_qt_browser/session_manager.py:33-44 | with the corrected dump, tabs.json holds the tab records and chats.json the chat logs, and the save fails exactly when the stored metadata makes the metadata update raise |
| Session.EncodeSheet | selenium_qt_browser/session_manager.py:88-93 | the corrected dump writes every entry under a key that the loader turns back into its own key, and writes nothing else |
| Session.DecodingExists | selenium_qt_browser/session_manager.py:244-256 | every sheet file has a conversion |
| Session.SheetRoundTrip | selenium_qt_browser/session_manager.py:88-93 | saving with the corrected dump and loading gives back the same sheet |
| Session.DecodeSheet | selenium_qt_browser/session_manager.py:244-256 | the conversion loop yields a conversion of the file's dict, and every key it yields decodes from its own text |
| Session.IndexedNamesDistinct | selenium_qt_browser/session_manager.py:84 | a file name built from a tab index names that index only |
| Session.FileNamesDistinct | selenium_qt_browser/session_manager.py:84-90 | different tabs get different note and sheet files, and no note file is a sheet file |
| Session.TabRecord | selenium_qt_browser/session_manager.py:69-93 | a tab's record holds its index and title; a type exactly when the page has a `tab_type`; a URL exactly for a browser page; a note file exactly for a note page and a sheet file exactly for a spreadsheet page, both named after the index |
| Session.TabRecordsIndexed | selenium_qt_browser/session_manager.py:66-95 | tabs.json has one record per tab, record i describing tab i |
| Session.WriteNoteFiles | selenium_qt_browser/session_manager.py:82-87 | after a save, each note page's file holds its text |
| Session.WriteSheetsFiles | selenium_qt_browser/session_manager.py:88-93 | after a save, each spreadsheet page's file holds its encoded sheet |
| Session.WriteSheetsKeepsOthers | selenium_qt_browser/session_manager.py:64-99 | a save writes no file but the note and sheet files of its tabs |
| Session.SavedMessages | selenium_qt_browser/session_manager.py:114-122 | only widgets that expose both labels are saved, so a layout of chat.py's messages saves nothing and the "timestamp" entry of a message record is never reached |
| Session.NoChatLogIsSaved | selenium_qt_browser/session_manager.py:106-131 | since no page is tagged CHAT, chats.json always receives an empty list |
| Session.HistoryEntriesPerBrowserTab | selenium_qt_browser/session_manager.py:143-152 | one history entry is made per browser tab |
| Session.MergedHistory | selenium_qt_browser/session_manager.py:155-167 | the stored list is followed by the new entries when the stored file is a list, and the new entries stand alone when it is missing, unreadable or not a list |
| Session.HistoryKeepsOlderEntriesFirst | selenium_qt_browser/session_manager.py:157-162 | a save keeps the old history in front and adds one entry per browser tab after it |
| Session.TypeCountsExact | selenium_qt_browser/session_manager.py:188-196 | each type name is counted exactly, absent types have no key, and every key is a type name |
| Session.CountsAddUp | selenium_qt_browser/session_manager.py:188-194 | the type counts add up to the number of tagged tabs |
| Session.MetadataKeepsCreation | selenium_qt_browser/session_manager.py:173-186 | a stored name and creation time survive every save, updated is now, and tab_count is the number of tabs |
| Session.MetadataStartsFresh | selenium_qt_browser/session_manager.py:176-181 | without readable metadata the session is called "Last Session" and created now |
| Session.MetadataRejectsNonObjects | selenium_qt_browser/session_manager.py:174-184 | metadata that parses to anything but an object makes the update raise |
| Session.RestoredKind | selenium_qt_browser/session_manager.py:217-235 | only the names BROWSER, CHAT, TERMINAL, NOTEPAGE and NOTEPAGE_EXC restore a page, of the kind they name |
| Session.WithLastWidget | selenium_qt_browser/session_manager.py:233 | only the last page's widget changes |
| Session.RestoreBrowser | selenium_qt_browser/session_manager.py:219-220 | a browser record appends exactly one browser page, which becomes current |
| Session.RestoreNote | selenium_qt_browser/session_manager.py:225-233 | a note record appends exactly one note page, which becomes current; the page holds the named file's text whenever that file exists and can be read, whether it holds plain text or JSON; the restore stops only when the name is not a string or the file cannot be decoded |
| Session.JsonNoteFileReadAsText | selenium_qt_browser/session_manager.py:228-233 | a note file holding a JSON document is read as the text `json.dump` wrote, and the restore goes on |
| Session.RestoreSheet | selenium_qt_browser/session_manager.py:234-258 | a spreadsheet record appends exactly one spreadsheet page, which becomes current |
| Session.RestoreRecord | selenium_qt_browser/session_manager.py:216-258 | a record with an unknown type adds nothing; one with a known type appends one page of that kind |
| Session.RestoredBrowserTab | selenium_qt_browser/session_manager.py:219-220 | a saved browser record reopens its URL, under the title "Web Browser" rather than the saved title |
| Session.UntypedAndSkippedRecords | selenium_qt_browser/session_manager.py:217-235 | records of untyped, resource-monitor and AI-browser pages come back as nothing |
| Session.RestoredSheetTab | selenium_qt_browser/session_manager.py:234-258 | a spreadsheet page saved with the corrected dump comes back with the same cells |
| Session.RestoredNoteTab | selenium_qt_browser/session_manager.py:225-233 | a note page saved by `_save_tabs` comes back with the same text |
| Session.SheetRecordKind | selenium_qt_browser/session_manager.py:88-93 | a saved spreadsheet record restores a spreadsheet page |
| Session.RestoreSheetRecord | selenium_qt_browser/session_manager.py:234-257 | a spreadsheet record whose file holds a dict adds a page holding the converted dict |
| Session.SavedSheetData | selenium_qt_browser/session_manager.py:88-93 | the sheet file a saved record names holds that tab's encoded sheet |
| Session.RestoreRecords | selenium_qt_browser/session_manager.py:216-261 | the restore only appends pages after those already there |
| Session.FailureStops | selenium_qt_browser/session_manager.py:259-261 | once a record raised, no later record is looked at |
| Session.RestoreStepKinds | selenium_qt_browser/session_manager.py:216-235 | one record that raises nothing adds the page it asks for after those already there |
| Session.RestoreFollowsRecords | selenium_qt_browser/session_manager.py:216-258 | a restore that raises nothing appends one page per BROWSER, CHAT, TERMINAL, NOTEPAGE or NOTEPAGE_EXC record, of that kind and in record order |
| Session.MessageLines | selenium_qt_browser/session_manager.py:299-303 | when no message raises, each saved message gives one line in order, with sender "Unknown" and text "" by default |
| Session.ChatSlot | selenium_qt_browser/session_manager.py:281-285 | a tab is reused exactly when the index is in range and that page is tagged CHAT |
| Session.ChatTarget | selenium_qt_browser/session_manager.py:274-288 | `tab_index < count()` as Python evaluates it: an int or a bool (as 0 or 1) goes to `ChatSlot`, a float at or above the count adds a new chat tab, and a smaller float or any other value, a missing index included, raises |
| Session.RestoreChatLog | selenium_qt_browser/session_manager.py:274-303 | a chat log only appends pages after those already there; a log that is not a dict, or whose `tab_index` raises in the comparison or the lookup, changes nothing and stops the loop |
| Session.ChatLogAddsTab | selenium_qt_browser/session_manager.py:278-303 | no page is tagged CHAT, so a chat log whose `tab_index` compares without raising (an int, a bool, or a float at or above the count) always adds a new chat page at the end, holding exactly its messages |
| Session.RestoreChatLogs | selenium_qt_browser/session_manager.py:274-305 | the chat-log loop only appends pages |
| Session.RestoreChats | selenium_qt_browser/session_manager.py:263-305 | a missing or unparsable chats.json changes nothing, and the loader only ever appends pages |
| Session.LastSession | selenium_qt_browser/session_manager.py:46-62 | without tabs.json the window stays empty and the result is false |
| Session.NoSessionOpensDefaults | selenium_qt_browser/browser.py:134-143 | without a saved tab list the window opens browser, chat and terminal pages, browser current |
| Session.FallbackKeepsDefaults | selenium_qt_browser/browser.py:134-143 | a window that opened without its session has at least the three default pages, page 0 current and at the start URL |
| Session.SessionManager.constructor | selenium_qt_browser/session_manager.py:20-31 | the manager works on the files already on disk |
| Session.SessionManager.SaveTabs | selenium_qt_browser/session_manager.py:64-99 | with the dump as intended (see Findings): the note and sheet files are written and tabs.json holds one record per tab |
| Session.SessionManager.SaveTabsAsWritten | selenium_qt_browser/session_manager.py:64-99 | as written: the save finishes exactly when no sheet has an edited cell, and then writes what the corrected save writes; otherwise the earlier tabs' files are written, the refused sheet's file is left unreadable and tabs.json is not written |
| Session.SessionManager.SaveChatLogs | selenium_qt_browser/session_manager.py:101-131 | chats.json holds one log per tab tagged CHAT and nothing else changes |
| Session.SessionManager.SaveHistory | selenium_qt_browser/session_manager.py:138-167 | history.json holds the merged history and nothing else changes |
| Session.SessionManager.UpdateMetadata | selenium_qt_browser/session_manager.py:169-199 | metadata.json is written exactly when the stored metadata allows it, and then holds the updated fields |
| Session.SessionManager.SaveSession | selenium_qt_browser/session_manager.py:33-44 | with the dump as intended (see Findings): the four saves in order, as `Session.SessionSave` gives them; the result is false exactly when the metadata update raised, which the close handler at selenium_qt_browser/browser.py:649-655 catches |
| Session.SessionManager.SaveSessionAsWritten | selenium_qt_browser/session_manager.py:33-44 | as written: without an edited sheet the same files and result as the corrected save; with one, only the aborted tab save's files change and the result is false, because the exception skips the chat, history and metadata saves and reaches the close handler at selenium_qt_browser/browser.py:649-655 |
| Session.SessionManager.RestoreOne | selenium_qt_browser/session_manager.py:216-258 | one record applied to the window changes it as `Session.RestoreRecord` says |
| Session.SessionManager.RestoreBrowserRecord | selenium_qt_browser/session_manager.py:219-220 | a browser record applied to the window, as `Session.RestoreBrowser` says |
| Session.SessionManager.RestoreNoteRecord | selenium_qt_browser/session_manager.py:225-233 | a note record applied to the window: one note page is appended and made current, holding the named file's text when the file exists and can be read as text (JSON files included); the restore reports failure only when the name is not a string or the file cannot be decoded |
| Session.SessionManager.RestoreSheetRecord | selenium_qt_browser/session_manager.py:234-258 | a spreadsheet record applied to the window, holding a conversion of the file's dict |
| Session.SessionManager.RestoreOneChatLog | selenium_qt_browser/session_manager.py:274-303 | one chat log applied to the window, as `Session.RestoreChatLog` says |
| Session.SessionManager.FillChat | selenium_qt_browser/session_manager.py:291-303 | the chat page is cleared and gets the saved messages in order, up to the first that raises; no other page changes |
| Session.SessionManager.LoadChatLogs | selenium_qt_browser/session_manager.py:263-305 | the window's pages become those `Session.RestoreChats` gives |
| Session.SessionManager.LoadLastSession | selenium_qt_browser/session_manager.py:46-62 | on a window without pages, the pages and the result are those `Session.LastSession` gives |
| Session.SessionManager.OpenWindow | selenium_qt_browser/browser.py:117-143 | the window has the restored session or the default pages, and fails only where `__init__` raises |
| Session.SessionManager.LoadTabs | selenium_qt_browser/session_manager.py:201-261 | the records are restored in order until one raises, as `Session.RestoreRecords` says |
| Browser.NormalizeUrl | selenium_qt_browser/browser.py:72-76 | the result always has an http, https or file scheme; a URL that has one is kept, any other gets "https://" in front |
| Browser.NormalizeIdempotent | selenium_qt_browser/browser.py:72-76 | normalising twice is normalising once |
| Browser.TruncateTitle | selenium_qt_browser/browser.py:93-98 | a title of at most 20 characters is kept; a longer one becomes its first 20 characters followed by "..." |
| Browser.TruncateIdempotent | selenium_qt_browser/browser.py:93-98 | a truncated title is never longer than 23 characters and truncating it again changes nothing |
| Browser.Added | selenium_qt_browser/browser.py:326-327 | adding a page appends it and makes it current |
| Browser.Removed | selenium_qt_browser/browser.py:399 | removing a page at a valid index drops exactly that page; an index outside the pages changes nothing |
| Browser.CloseRemovesExactlyOne | selenium_qt_browser/browser.py:389-399 | with more than one page, closing a valid index removes that page and keeps the others in order |
| Browser.CloseKeepsAPage | selenium_qt_browser/browser.py:387-420 | closing never leaves the window without a page: a lone browser page goes to the start page, a lone chat, terminal, monitor or AI-browser page stays, and any other lone page is replaced by a new browser page |
| Browser.ClearingLoopNeverEmpties | selenium_qt_browser/session_manager.py:212-213 | after any number of `close_tab(0)` calls the window still has a page, so the loop that waits for zero pages never ends |
| Browser.SelectedType | selenium_qt_browser/browser.py:304-321 | a page is added exactly for the seven entries of the selector |
| Browser.SelectorEntriesMatchTitles | selenium_qt_browser/browser.py:215 | each selector entry adds a page of its own kind whose title is the entry |
| Browser.DefaultTabs | selenium_qt_browser/browser.py:136-143 | the window opens with three pages, browser at the start URL, chat and terminal, with the browser page current |
| Browser.WithDefaultTabs | selenium_qt_browser/browser.py:135-143 | after a failed restore the three default pages are appended to what is left and page 0 becomes current and goes to the start URL; this fails exactly when page 0 is left and is not a browser page |
| Browser.BrowserWindow.constructor | selenium_qt_browser/browser.py:117-124 | the window starts with no pages and its start URL is the given one, or Google when none or an empty one is given |
| Browser.BrowserWindow.AddNewTab | selenium_qt_browser/browser.py:323-336 | a browser page is appended and made current, at the normalised given URL or the start URL when the URL is empty |
| Browser.BrowserWindow.AddNewTabOfType | selenium_qt_browser/browser.py:338-379 | the page of the asked kind is appended and made current |
| Browser.BrowserWindow.AddNewTabOfSelectedType | selenium_qt_browser/browser.py:304-321 | unknown selector text adds nothing; known text appends the page of that kind |
| Browser.BrowserWindow.CloseTab | selenium_qt_browser/browser.py:387-420 | the pages become those that `Browser.Closed` gives, whose properties the two close lemmas state |
| Browser.BrowserWindow.SetTitleFromPage | selenium_qt_browser/browser.py:93-98 | the page's tab text becomes the truncated title and nothing else changes |
| Browser.BrowserWindow.NavigateTab | selenium_qt_browser/browser.py:72-77 | a browser page goes to the normalised URL; any other page, or an index outside the pages, is left as it is |
| Browser.BrowserWindow.OpenDefaultTabs | selenium_qt_browser/browser.py:134-143 | succeeds exactly when `Browser.WithDefaultTabs` does, and then leaves the pages it gives |
| Controller.RegisterAppends | selenium_qt_browser/controller.py:33-43 | registering appends to that event's list only: the event then calls the earlier callbacks in order and the new one last, and every other event calls what it did before |
| Controller.UnregisteredCallsNothing | selenium_qt_browser/controller.py:39-43 | triggering an event nobody registered for calls nothing |
| Controller.EntryAgreesWithToDict | selenium_qt_browser/controller.py:224-236 | the controller's element entry has the same keys and values as api.py's `to_dict` except the type; the types coincide for tags that name their own kind, and a div with role "button" is "div" here but "button" in api.py |
| Controller.CreatedBrowserOpensReportedUrl | selenium_qt_browser/controller.py:99-105 | a created browser page opens the URL its result reports, normalised; with no URL given, both are the window's start page |
| Controller.BrowserController.constructor | selenium_qt_browser/controller.py:28-31 | a new controller drives the given window and has no callbacks |
| Controller.BrowserController.RegisterCallback | selenium_qt_browser/controller.py:33-37 | the registry is updated by appending the callback to its event's list |
| Controller.BrowserController.TriggerCallback | selenium_qt_browser/controller.py:39-43 | exactly the callbacks registered for the event are called, in registration order, each with the same data |
| Controller.BrowserController.GetTabsInfo | selenium_qt_browser/controller.py:45-72 | the result is the tab listing that `Api.TabsInfoListsEveryTab` describes |
| Controller.BrowserController.SwitchToTab | selenium_qt_browser/controller.py:74-95 | an index outside the pages is an error, changes nothing and calls nothing; otherwise the page becomes current, its type name is reported and the "tab_switched" callbacks see the result |
| Controller.BrowserController.CreateTab | selenium_qt_browser/controller.py:97-116 | an unknown kind is an error with no page and no call; otherwise one page of the kind is appended, the result gives its index, and the "tab_created" callbacks see the result |
| Controller.BrowserController.OpenTab | selenium_qt_browser/controller.py:99-112 | the page-adding part of `create_tab`: one page of the named kind is appended and reported, or the error for an unknown kind |
| Controller.BrowserController.OpenBrowserTab | selenium_qt_browser/controller.py:99-105 | a browser page at the given URL or the start URL is appended and reported with its index |
| Controller.BrowserController.CloseTab | selenium_qt_browser/controller.py:118-131 | an index outside the pages is an error, changes nothing and calls nothing; otherwise the window closes the page, the remaining count is reported, and the "tab_closed" callbacks see it |
| Controller.BrowserController.GetPageInfo | selenium_qt_browser/controller.py:159-247 | the two error dicts without a browser page or script result; otherwise the title, URL and element entries, which the "page_info_retrieved" callbacks also see |
| Controller.BrowserController.ClickElement | selenium_qt_browser/controller.py:249-308 | no browser page, no target and a failed click each give their error and call nothing; a click returns the page information afterwards and notifies "page_info_retrieved" and then "element_clicked"; a click after which the page cannot be read returns "Failed to extract page information", which only the "element_clicked" callbacks see |
| Controller.BrowserController.ExecuteTerminalCommand | selenium_qt_browser/controller.py:438-468 | with the lookup as intended (see Findings): without a current terminal the error and no call; otherwise the command with only the output it added, which the "terminal_command_executed" callbacks see |
| Controller.BrowserController.GetCurrentDirectory | selenium_qt_browser/controller.py:470-487 | with the lookup as intended (see Findings): the error without a terminal; otherwise the stripped output of "pwd", with the command callbacks and then the "current_directory_retrieved" callbacks called |
| Controller.ControllerSlot.constructor | selenium_qt_browser/controller.py:549 | the module starts with no controller |
| Controller.ControllerSlot.GetController | selenium_qt_browser/controller.py:551-557 | the first call that passes a window creates the controller; every later call returns that same controller, and a call without a window before then returns none |
| Api.FromValue | selenium_qt_browser/api.py:21-33 | `ElementType(value)` gives back only a member whose value is the given string |
| Api.ValueRoundTrip | selenium_qt_browser/api.py:21-33 | the eleven values are distinct, so every kind is found again from its value |
| Api.ClassifyButtonFirst | selenium_qt_browser/api.py:162-167 | an element is BUTTON exactly when its lower-cased tag is "button" or its role attribute is "button", whatever else it has |
| Api.ClassifyByTag | selenium_qt_browser/api.py:168-186 | without role "button", the tags a, textarea, select, div, span and img give the kind whose value they are, and no other tag gives it |
| Api.ClassifyInput | selenium_qt_browser/api.py:170-176 | an input tag is CHECKBOX or RADIO exactly when its lower-cased type is that word, and INPUT otherwise |
| Api.ClassifyOther | selenium_qt_browser/api.py:162-186 | OTHER is given exactly when no rule of the chain matches |
| Api.ToDict | selenium_qt_browser/api.py:50-60 | the dict has exactly the seven keys id, type, text, attributes, position, size and is_visible |
| Api.ToDictRoundTrip | selenium_qt_browser/api.py:50-60 | reading the dict back gives the same element: `to_dict` loses nothing |
| Api.PageResponseElements | selenium_qt_browser/api.py:160-205 | the response lists one element per script entry, in order; each reads back as the element built from that entry, with the type its tag selects |
| Api.BrowserApi.constructor | selenium_qt_browser/api.py:66-68 | a new API drives the given window and has no last response |
| Api.BrowserApi.GetPageInfo | selenium_qt_browser/api.py:149-208 | no current browser page and an empty script result give their two error dicts and keep the last response; otherwise the page response is returned and stored |
| Api.ClickTargetOf | selenium_qt_browser/api.py:210-252 | a click is an error exactly when no element id, no selector and no position is given |
| Api.ClickPriority | selenium_qt_browser/api.py:217-250 | the element id wins over the selector, and both win over the position |
| Api.OutputDiff | selenium_qt_browser/api.py:396-400 | the reported output is never longer than the terminal's text |
| Api.OutputDiffAppended | selenium_qt_browser/api.py:397-398 | output appended after the earlier text is reported stripped, and nothing of the earlier text is |
| Api.OutputDiffRewritten | selenium_qt_browser/api.py:399-400 | when the earlier text is no longer a prefix, the whole text is reported |
| Api.OutputDiffBlank | selenium_qt_browser/api.py:397-398 | a command that prints only blanks reports the empty string |
| Api.TerminalAndChatNeverFound | selenium_qt_browser/api.py:369-374 | the lookup as written never finds a page: no terminal or chat page carries a `tab_type` (controller.py's `_get_current_terminal_tab` and `_get_current_chat_tab` make the same test) |
| Api.CurrentTerminalFound | selenium_qt_browser/api.py:369-374 | when the current page is a terminal, the lookup by page class finds it while the `tab_type` test as written does not |
| Api.DirectoryResult | selenium_qt_browser/api.py:418-419 | an error from running "pwd" is passed back unchanged |
| Api.DirectoryAfterPwd | selenium_qt_browser/api.py:409-423 | after "pwd" prints a directory, the reported directory is that text without surrounding blanks |
| Api.TerminalApi.constructor | selenium_qt_browser/api.py:365-367 | a new API drives the given window and has an empty last output |
| Api.TerminalApi.ExecuteCommand | selenium_qt_browser/api.py:376-407 | without a current terminal the error dict is returned and nothing changes; otherwise the result holds the command and only the output it added, which is also kept as the last output |
| Api.TerminalApi.GetCurrentDirectory | selenium_qt_browser/api.py:409-423 | the error without a terminal; otherwise the directory read from the output of "pwd" |
| Api.TabsInfoListsEveryTab | selenium_qt_browser/api.py:515-542 | every page is listed in order with its index and title; its type is "unknown" exactly when it has no `tab_type`, and only browser pages carry a URL |
| Api.ListTabs | selenium_qt_browser/api.py:515-542 | the loop over the pages builds the dict that lemma describes |
| Api.CreatedKind | selenium_qt_browser/api.py:544-556 | a kind is created exactly for "browser", "chat" and "terminal" in any case, and it is the kind of that name |
| Api.Route | selenium_qt_browser/api.py:570-625 | a command fails exactly when its (command type, command) pair is not one of the routed pairs |
| Api.RouteErrors | selenium_qt_browser/api.py:586-625 | an unknown command type is reported by name, and so is an unknown tab command |
| Api.TabDefaults | selenium_qt_browser/api.py:613-619 | missing keyword arguments mean tab 0 and a browser tab |
| Api.BrowserController.constructor | selenium_qt_browser/api.py:491-495 | the controller drives the given window |
| Api.BrowserController.SwitchToTab | selenium_qt_browser/api.py:497-513 | an index outside the pages is an error and changes nothing; otherwise that page becomes current and its type name is reported |
| Api.BrowserController.CreateTab | selenium_qt_browser/api.py:544-556 | an unknown kind is an error and changes nothing; otherwise one page of that kind is appended and its index and kind are reported |
| Api.BrowserController.CloseTab | selenium_qt_browser/api.py:558-568 | an index outside the pages is an error and changes nothing; otherwise the window closes that page and the remaining count is reported |
| Api.BrowserController.ExecuteCommand | selenium_qt_browser/api.py:605-625 | an unroutable command gives its error and changes nothing; a tab switch in range makes that tab current and reports its index and type; a close in range removes that tab and reports the index and the tabs left; a create of an unknown type reports "Unknown tab type" and changes nothing, and of a known type appends that page and reports its index and type |
| Middleware.TabLines | selenium_qt_browser/ai_browser_middleware.py:286-294 | a tab line appears exactly when the current index is an integer inside the tab list; the URL line appears exactly when that tab is a BROWSER tab with a non-empty URL |
| Middleware.Truncated | selenium_qt_browser/ai_browser_middleware.py:316 | texts of at most 50 characters are kept; longer ones become their first 50 characters followed by "..." |
| Middleware.ShownLines | selenium_qt_browser/ai_browser_middleware.py:306-319 | one line per element, for at most the first ten elements, each numbered from 1 |
| Middleware.MoreLine | selenium_qt_browser/ai_browser_middleware.py:321-322 | the "... and N more elements" line appears exactly when there are more than ten elements, with N the number left out |
| Middleware.ElementSection | selenium_qt_browser/ai_browser_middleware.py:303-322 | the interactive-element section is empty exactly when the page lists no elements |
| Middleware.PageLines | selenium_qt_browser/ai_browser_middleware.py:297-300 | the page section appears exactly when the page info has a non-empty title and a non-empty URL |
| Middleware.EventLine | selenium_qt_browser/ai_browser_middleware.py:328-352 | an event is described exactly when it is "navigated", "element_clicked" or "input_filled" |
| Middleware.EventLines | selenium_qt_browser/ai_browser_middleware.py:328-352 | the event lines are never more than the events |
| Middleware.EventLinesCount | selenium_qt_browser/ai_browser_middleware.py:328-352 | the number of event lines is the number of described events, so any other event type shortens the list |
| Middleware.HistoryLines | selenium_qt_browser/ai_browser_middleware.py:325-352 | the "Recent Actions" section is empty exactly when the history is, and shows at most the last five events plus its heading |
| Middleware.UndescribedEventTakesAPlace | selenium_qt_browser/ai_browser_middleware.py:325-352 | an event of an undescribed kind, such as the "page_info_retrieved" notice each context update adds, still takes one of the last five places, so at most four event lines follow the heading |
| Middleware.PromptText | selenium_qt_browser/ai_browser_middleware.py:280-364 | the prompt is the fixed header, then the tab, page and history sections in that order, then the fixed instructions |
| Middleware.PromptBounded | selenium_qt_browser/ai_browser_middleware.py:280-364 | the prompt has a bounded number of lines whatever the size of the page or the history |
| Middleware.PromptIgnoresOlderEvents | selenium_qt_browser/ai_browser_middleware.py:328 | once the history holds five events, prepending older events does not change the prompt |
| Middleware.ExtractJson | selenium_qt_browser/ai_browser_middleware.py:387-396 | after dropping the echoed prompt and surrounding space, a reply that starts with "{" and contains "}" is cut just after its first "}"; any other reply is kept whole |
| Middleware.FirstObject | selenium_qt_browser/ai_browser_middleware.py:395-396 | the result is a prefix of the text ending at its first "}" when the text starts with "{" and has one, and is the whole text otherwise |
| Middleware.ExtractJsonOfReply | selenium_qt_browser/ai_browser_middleware.py:387-396 | a reply that echoes the prompt and then an object without a nested "}" yields exactly that object |
| Middleware.ReplyStripped | selenium_qt_browser/ai_browser_middleware.py:392 | stripping leaves a reply alone when it starts with "{" and does not end in space |
| Middleware.FirstObjectOfReply | selenium_qt_browser/ai_browser_middleware.py:395-396 | the first-object cut returns the leading object and drops the trailing text |
| Middleware.FirstBrace | selenium_qt_browser/ai_browser_middleware.py:396 | the first "}" of such a reply is the one closing the leading object |
| Middleware.IndexArg | selenium_qt_browser/ai_browser_middleware.py:464-465 | a tab index is used only when it is not negative; the default -1 and negative integers mean no call; a bool counts as the integer 0 or 1, as in Python |
| Middleware.ClickCall | selenium_qt_browser/ai_browser_middleware.py:424-436 | a click goes by element id when one is given, else by selector, else by position, and makes no call when none is given |
| Middleware.FillCall | selenium_qt_browser/ai_browser_middleware.py:439-449 | a fill is made exactly when there is text and an element id or selector; it targets the id when there is one |
| Middleware.IndexCall | selenium_qt_browser/ai_browser_middleware.py:463-479 | switch_tab and close_tab call the controller only with a non-negative index |
| Middleware.CallFor | selenium_qt_browser/ai_browser_middleware.py:415-495 | an action name outside the eleven known ones is reported as unknown; navigate needs a non-empty URL; create_tab defaults to a "browser" tab with no URL |
| Middleware.ActionOf | selenium_qt_browser/ai_browser_middleware.py:412-498 | a non-string action name raises and is caught; otherwise the lower-cased name selects the call, reading the remaining keys as arguments |
| Middleware.LowerTwice | selenium_qt_browser/ai_browser_middleware.py:415 | lower-casing is idempotent |
| Middleware.ActionNameCaseInsensitive | selenium_qt_browser/ai_browser_middleware.py:415 | an action name and its lower-cased form give the same call |
| Middleware.ClickAgreesWithController | selenium_qt_browser/ai_browser_middleware.py:428-433 | a click action picks the same target (element id first, then selector, else nothing) that the controller's own click picks from the same arguments |
| Middleware.FallbackLoaderConfig | selenium_qt_browser/ai_browser_middleware.py:119-126 | the fallback loader configuration holds every forced setting and otherwise defaults to float16 weights on device map "auto" |
| Middleware.SubscribedAddsOneEach | selenium_qt_browser/ai_browser_middleware.py:78-92 | subscribing a list of distinct events adds exactly one handler to each of them and leaves every other event alone |
| Middleware.HandlerMatchesEvent | selenium_qt_browser/ai_browser_middleware.py:78-92 | after registration each of the twelve events has its own handler appended |
| Middleware.AppendElementLines | selenium_qt_browser/ai_browser_middleware.py:306-322 | the element loop appends the shown element lines and the "more" line to the prompt |
| Middleware.EventLinesStep | selenium_qt_browser/ai_browser_middleware.py:328-352 | each loop step adds the event's line exactly when the event is described |
| Middleware.AppendEventLines | selenium_qt_browser/ai_browser_middleware.py:328-352 | the event loop appends the described events' lines in order |
| Middleware.HistoryKeepsLatest | selenium_qt_browser/ai_browser_middleware.py:242-243 | trimming after every event keeps the same ten events as trimming once at the end, and the last five of those are the last five events |
| Middleware.AIMiddleware.constructor | selenium_qt_browser/ai_browser_middleware.py:36-76 | the queue, history and page info start empty, no tab is current, the model is not loaded, the loop is not running, and the twelve handlers are subscribed |
| Middleware.AIMiddleware.RegisterCallbacks | selenium_qt_browser/ai_browser_middleware.py:78-92 | one handler is appended to each of the twelve events and nothing else changes |
| Middleware.AIMiddleware.AddEvent | selenium_qt_browser/ai_browser_middleware.py:227-243 | the event is queued and added to the history, which keeps only its last ten entries |
| Middleware.AIMiddleware.OnEvent | selenium_qt_browser/ai_browser_middleware.py:502-548 | each event handler records its own event type with the data it receives |
| Middleware.AIMiddleware.GetEvents | selenium_qt_browser/ai_browser_middleware.py:220-225 | returns the queued events in order and empties the queue |
| Middleware.AIMiddleware.UpdateContext | selenium_qt_browser/ai_browser_middleware.py:245-260 | the current tab and tab list come from the controller's tab info; whenever the current tab is a browser page the page info is replaced by the page query's result, an error dict included, and otherwise it is kept; a successful query also reaches the middleware's own "page_info_retrieved" handler, so that response is queued as an event and added to the history cut to ten, while an error dict or no query leaves queue and history unchanged |
| Middleware.AIMiddleware.ContextToPrompt | selenium_qt_browser/ai_browser_middleware.py:280-364 | the string built step by step is the prompt of the current context |
| Middleware.AIMiddleware.AppendTab | selenium_qt_browser/ai_browser_middleware.py:286-294 | appends the current-tab lines |
| Middleware.AIMiddleware.AppendPage | selenium_qt_browser/ai_browser_middleware.py:296-322 | appends the page section |
| Middleware.AIMiddleware.AppendHistory | selenium_qt_browser/ai_browser_middleware.py:324-352 | appends the recent-actions section |
| Middleware.AIMiddleware.LoadModel | selenium_qt_browser/ai_browser_middleware.py:94-139 | an already loaded model is kept and reported as success; otherwise the result and the loaded flag follow the loader |
| Middleware.AIMiddleware.UnloadModel | selenium_qt_browser/ai_browser_middleware.py:141-165 | the model is no longer loaded |
| Middleware.AIMiddleware.Start | selenium_qt_browser/ai_browser_middleware.py:167-181 | starting when running changes nothing; otherwise the model is loaded if needed and the loop runs exactly when a model is loaded |
| Middleware.AIMiddleware.Stop | selenium_qt_browser/ai_browser_middleware.py:183-195 | the loop is no longer running |
| NotePage.WordLength | selenium_qt_browser/notepage.py:77 | the length of the leading word: it contains no space and is followed by a space or the end of the text |
| NotePage.Words | selenium_qt_browser/notepage.py:77 | `str.split()` with no separator yields only non-empty words without whitespace |
| NotePage.WordsEmptyIffBlank | selenium_qt_browser/notepage.py:77 | a text splits into no words exactly when it is all whitespace |
| NotePage.WordCount | selenium_qt_browser/notepage.py:74-78 | the count is zero exactly when the text is empty or all whitespace |
| NotePage.WordLengthOfWord | selenium_qt_browser/notepage.py:77 | a word followed by whitespace or the end is measured whole |
| NotePage.WordsOfJoined | selenium_qt_browser/notepage.py:77 | words joined by single spaces split back into the same words |
| NotePage.NotePage.constructor | selenium_qt_browser/notepage.py:50-58 | the status shows "Ready" and the word count "Words: 0" |
| NotePage.NotePage.UpdateWordCount | selenium_qt_browser/notepage.py:74-78 | the label shows "Words: " followed by the text's word count |
| NotePage.NotePage.UpdateStatus | selenium_qt_browser/notepage.py:80-82 | the status label shows the given message |
| NotePage.Without | selenium_qt_browser/notepage.py:197-204 | the text without any `*`, never longer than the line |
| NotePage.Pieces | selenium_qt_browser/notepage.py:197-207 | only non-empty runs become parts, at most one per segment |
| NotePage.SplitSnoc | selenium_qt_browser/notepage.py:197-204 | reading one more character either closes the current run (a `*`) or extends it |
| NotePage.ConcatSplit | selenium_qt_browser/notepage.py:197-204 | the runs between `*`s, put back together, are the line without its `*`s |
| NotePage.TextsOfPieces | selenium_qt_browser/notepage.py:199-207 | dropping the empty runs does not change the text the parts spell |
| NotePage.BoldPartsSpellText | selenium_qt_browser/notepage.py:184-216 | the inserted parts spell exactly the line with its `*`s removed, so no character is lost or repeated |
| NotePage.SegmentAt | selenium_qt_browser/notepage.py:197-204 | each run sits in the line at a known position, after as many `*`s as its index |
| NotePage.PieceOrigin | selenium_qt_browser/notepage.py:199-207 | every part is a non-empty run of the line, bold exactly when an odd number of `*`s came before it |
| NotePage.BoldIffOddStarsBefore | selenium_qt_browser/notepage.py:193-207 | each part occurs in the line, and it is bold exactly when the line has an odd number of `*`s before it |
| NotePage.ParseBold | selenium_qt_browser/notepage.py:193-207 | the character loop produces the parts `NotePage.BoldParts` describes |
| NotePage.Classify | selenium_qt_browser/notepage.py:113-141 | a header has level 1 to 3 with point size 18, 16 or 14; bold formatting needs at least two `*`s and spells the line without them |
| NotePage.HeadingRecognised | selenium_qt_browser/notepage.py:119-158 | "# ", "## " or "### " followed by text formats as a header of that level with that text |
| NotePage.BulletRecognised | selenium_qt_browser/notepage.py:131-180 | "- " followed by text becomes a bullet item "• " plus the text |
| NotePage.BareHeaderMarkerUnformatted | selenium_qt_browser/notepage.py:113-119 | a line holding only "# " is stripped to "#" first and so is not a header |
| NotePage.BareBulletMarkerUnformatted | selenium_qt_browser/notepage.py:113-131 | a line holding only "- " is stripped to "-" first and so is not a bullet |
| NotePage.ClassifyIgnoresSurroundingSpace | selenium_qt_browser/notepage.py:113 | leading and trailing whitespace never changes the formatting, and stripping twice is stripping once |
| NotePage.MarkdownTextEdit.constructor | selenium_qt_browser/notepage.py:88-95 | no block is being edited and no original text is remembered |
| NotePage.MarkdownTextEdit.ApplyMarkdownFormatting | selenium_qt_browser/notepage.py:106-141 | while a block is being edited nothing happens; otherwise the stripped line is remembered at its block position, the first matching rule formats it and the status names the rule; the editing flag is back to its old value afterwards |
| NotePage.MarkdownTextEdit.RevertOnClick | selenium_qt_browser/notepage.py:220-241 | a click on a formatted block restores its remembered original text; any other block is left alone |
| Utils.DeepUpdate | selenium_qt_browser/utils.py:100-106 | after the update the target has its own keys and the source's; keys the source does not mention keep their values |
| Utils.CoversSelf | selenium_qt_browser/utils.py:100-106 | every nested setting covers itself |
| Utils.DeepUpdateCoversSource | selenium_qt_browser/utils.py:100-106 | every leaf of the source can be found at the same path in the updated target |
| Utils.DeepUpdateIdempotent | selenium_qt_browser/utils.py:100-106 | applying the same update twice gives the same result as applying it once |
| Utils.DeepUpdateSelf | selenium_qt_browser/utils.py:100-106 | updating a dict with itself changes nothing |
| Utils.DeepUpdateInPlace | selenium_qt_browser/utils.py:100-106 | the loop over the source keys, recursing into nested dicts, produces `Utils.DeepUpdate` of its inputs |
| Utils.LoadedConfig | selenium_qt_browser/utils.py:63-83 | a missing, unreadable or non-object file gives the defaults; otherwise every default key is present and every setting of the file is taken |
| Utils.LoadedKeepsUnmentioned | selenium_qt_browser/utils.py:72-80 | a default setting the file does not mention keeps its default value in the loaded configuration |
| Utils.SharedSections | selenium_qt_browser/utils.py:77-78 | the shallow copy shares its sections with the defaults, so merging a file changes the defaults' sections in place and adds no top-level key to them |
| Utils.DefaultsLeakAfterLoad | selenium_qt_browser/utils.py:77-78 | the shipped theme is "system", but after loading a file that picks "dark" the defaults themselves say "dark" |
| Utils.ConfigStore.constructor | selenium_qt_browser/utils.py:31-52 | the store starts with the shipped defaults |
| Utils.ConfigStore.LoadConfigSharedCopy | selenium_qt_browser/utils.py:63-83 | the returned configuration is `Utils.LoadedConfig` of the old defaults, and the defaults lose their original section contents as `Utils.SharedSections` describes |
| Utils.ConfigStore.LoadConfig | selenium_qt_browser/utils.py:63-83 | with a deep copy, the configuration is the same and the defaults are left untouched |
| Utils.CreatedProfile | selenium_qt_browser/utils.py:143-158 | creation succeeds exactly when the profile does not exist and the directory can be made; the profile is added exactly then |
| Utils.DeletedProfile | selenium_qt_browser/utils.py:161-180 | deletion succeeds exactly when the name is not "default", the profile exists and its directory can be removed; the profile is removed exactly then |
| Utils.DefaultProfileKept | selenium_qt_browser/utils.py:163-165 | a deletion asked for the name "default" is refused, so the default profile is kept |
| Utils.CreateThenDelete | selenium_qt_browser/utils.py:143-180 | creating a new profile other than "default" and deleting it again leaves the profiles as they were |
| Utils.ProfileStore.CreateProfile | selenium_qt_browser/utils.py:143-158 | the result and the new profile set are those `Utils.CreatedProfile` gives |
| Utils.ProfileStore.DeleteProfile | selenium_qt_browser/utils.py:161-180 | the result and the new profile set are those `Utils.DeletedProfile` gives |

## Left out

- The GUI is left out: layouts, stylesheets, painting, gauges and graphs, menus and dialogs, and the `ResourceMonitorWidget` display. Only the state these widgets keep and the labels they compute are modelled.
- Hardware probes are inputs. `torch.cuda`, psutil, GPUtil and `platform` calls become a record of facts, and sizes are exact `real`s instead of floats.
- Model loading and inference are left out, because they are foreign library code. Whether a loader succeeds is a boolean parameter, and the generated text is an input.
- Files, JSON and processes are abstract:
  - the file system is an abstract store, or a parameter saying what a file holds and whether a directory operation succeeds;
  - `json.load` and `json.dump` work on `Json` values, and `json.loads` of the model's reply is not modelled;
  - pip, shell commands and `shutil.rmtree` are outcomes passed in.
- Threads, locks, timers and event loops are left out. This includes `_processing_loop`, `_generate_actions` and `_load_model_thread`. `_processing_loop` calls `self._process_event` (ai_browser_middleware.py:204), which the class never defines; read as written, the loop would raise `AttributeError` at its first queued event, and the model has no counterpart for it. `AIMiddleware.Start` and `Stop` keep only the flags.
- Middleware.AIMiddleware.constructor takes its controller as given. The source falls back to `get_controller()` when `controller` is None, and raises `ValueError("Browser controller not available")` when the controller is still falsy (ai_browser_middleware.py:39-46); neither path is modelled.
- Clocks are parameters: `time.time()` and `datetime.now()` values are passed in.
- Controller calls are results, not actions. The middleware's `_execute_action` returns the controller call it would make as an `ActionCall` value, and callbacks are identifiers whose calls are recorded.
- The JavaScript run in pages is not modelled. For the page-info, click and fill scripts, and for `navigate`, `go_back`, `go_forward` and `refresh` in api.py and controller.py, only the result they report is modelled. The scraping in `ChatAPI` and `send_chat_message` is left out.
- Common.Strip, Common.Lower and the word split treat only ASCII whitespace and ASCII letters; Python's Unicode tables are not modelled.
- Middleware.Show writes a float, a list or a dict as "?" instead of Python's `repr`, so prompt lines that interpolate such values are not exact.
- Middleware.IndexArg: a `tab_index` that is a float is reported as an error rather than passed on, and a string or other value as the `TypeError` of the comparison.
- Context entries that are not dicts read as empty dicts in the prompt pieces.
- Utils.DeepUpdateInPlace returns the updated dict rather than mutating the caller's. Aliasing is modelled only where it matters: the sections that `load_config`'s shallow copy shares with `DEFAULT_CONFIG`.
- `save_config`, called by `load_config` on a missing file, is not modelled beyond the returned defaults.
- Profile names are used as given; path normalisation is not modelled.
- Utils.DefaultProfileKept covers the name "default" only. Aliases such as "default/" or "./default" pass the string test in the source and would delete the default profile's directory; the model treats them as other names.
- JsonText.Dumped writes object keys in code-point order. `json.dump` keeps the dict's insertion order, which a `map` does not record, so a sheet file with several cells may list them in another order.
- JsonText.FloatText writes a float in fixed notation with at most 17 decimals. `repr` switches to exponent notation from 1e16 and chooses the shortest digits that read back, so very large, very small or inexact floats are written differently.
- Session.NoteText reads a JSON file as its `json.dump` text, subject to the key order and float notes above. In the other direction, a plain-text file named as a sheet file reads as unparsable (`TextDoc`) even when its text would parse as JSON.
- Session.ChatTarget treats a float `tab_index` below the tab count as raising: `tab_widget.widget()` takes an int and refuses a float.
- Session.SavedMessages leaves out the "timestamp" entry of a message record. No chat.py widget exposes the labels, so that entry is never written.
- Common.ParseInt does not accept Python's underscore digit grouping, such as "1_0".
- Controller.BrowserController.ExecuteTerminalCommand uses the terminal lookup as intended. As written, controller.py's `tab_type` test never finds a terminal, so the source always returns the error and calls nothing (see Findings).
- Controller.BrowserController.GetCurrentDirectory uses the same intended lookup, so the source as written always returns the error here too (see Findings).
- `apply_markdown_formatting`'s cursor operations, including selection, character formats and text insertion, are represented by the `Formatting` value they would apply.
- The redundant `"*" in text` test before `text.count("*") >= 2` is folded into the count.
- The history copy that `add_to_history` in start.py writes to disk is not modelled.
- The creation of the offload directory in r1_1776_utils.py is not modelled.
- `get_history` is not modelled.
- `closeEvent` is modelled only as far as the session save it triggers.
- Session.SessionManager.SaveTabs writes each sheet with the corrected dump. As written, `json.dump` raises on the first sheet with an edited cell (see Findings and `Session.SessionManager.SaveTabsAsWritten`).
- Session.SessionManager.SaveSession runs all four saves. As written, the tab save's exception skips the other three and the result is false (`Session.SessionManager.SaveSessionAsWritten`). A refused sheet's file is modelled as unreadable, not as the characters `json.dump` had written when it raised.
- Session.SessionManager.LoadLastSession requires a window with no tabs. It is called only from `BrowserWindow.__init__` before any tab is added, and on a window with pages the source's `while count > 0: close_tab(0)` loop would never end (`Browser.ClearingLoopNeverEmpties`).
- Spreadsheet.ColumnHeaderRoundTrip holds only for columns below 702. From column 702 on, the source's two-letter formula yields characters beyond "Z".

## Findings

| source | as written | input that shows it | evidently intended | confidence | as-written member | corrected member |
|---|---|---|---|---|---|---|
| selenium_qt_browser/session_manager.py:92 | the spreadsheet's `data` dict, keyed by `(row, col)` tuples, is passed to `json.dump`, which rejects tuple keys, so any sheet with an edited cell cannot be saved: its file is left unreadable and the exception skips tabs.json and the chat, history and metadata saves | a sheet whose cell (0, 0) holds "x" | keys written as "(r,c)" strings, which the loader at lines 245-256 turns back into tuples | high; not executed | Session.SessionManager.SaveSessionAsWritten | Session.SheetRoundTrip |
| selenium_qt_browser/utils.py:77-78 | `DEFAULT_CONFIG.copy()` is shallow, so `deep_update` merges the file's settings into the nested sections of `DEFAULT_CONFIG` itself | a settings file holding {"ui": {"theme": "dark"}}; afterwards the shipped defaults say "dark" | a deep copy, leaving the defaults untouched | high; not executed | Utils.DefaultsLeakAfterLoad | Utils.ConfigStore.LoadConfig |
| selenium_qt_browser/api.py:369-374 | the current terminal (and, at lines 432-437, chat) tab is looked up by `tab_type`, which neither the terminal nor the chat widget sets, so terminal and chat commands always fail | a window whose current page is a terminal | the current page when it is a terminal (or chat) widget | medium; not executed | Api.TerminalAndChatNeverFound | Api.TerminalApi.ExecuteCommand |
| selenium_qt_browser/controller.py:431-436 | `_get_current_terminal_tab` (and `_get_current_chat_tab` at lines 489-494) makes the same `tab_type` test, so `execute_terminal_command`, `get_current_directory` and `send_chat_message` always report that no tab is current | a window whose current page is a terminal | the current page when it is a terminal (or chat) widget | medium; not executed | Api.TerminalAndChatNeverFound | Controller.BrowserController.ExecuteTerminalCommand |
