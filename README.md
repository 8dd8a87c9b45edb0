# process-exporter, modelled in Dafny

This project models the selection and emission logic of the two Prometheus exporters in the process-exporter repository.

**self-process-exporter** monitors processes whose name contains one of the comma-separated fragments given in `-names`.
- A background refresher enumerates all processes. It keeps those whose name resolves and contains a fragment, and swaps a freshly built PID → process map into the collector's cache.
- A failed enumeration leaves the cache untouched.
- On each scrape, every cached process is queried for CPU times, memory, threads, open descriptors and start time.
- A process whose CPU-times query fails sends nothing. Otherwise it sends `cpu_user`, `cpu_system` and `up` = 1, RSS and VMS together when the memory query succeeds, and one sample each for threads, open descriptors and start time when that query succeeds.

**node-process** enumerates all processes on every scrape.
- It keeps those whose normalised name (lower-cased, one trailing `.exe` removed) is in the include set built from `-names`. An empty set keeps every process.
- Each kept process is labelled with name, PID, command line (`""` on failure) and user (`"unknown"` on failure).
- It reports CPU and memory percentages and the open-file count, each only when its query succeeds with a value above zero.
- It reports the I/O read/write counters as a pair whenever that query succeeds.

## Model structure

The OS and the Prometheus client are replaced by values:
- An enumeration is an `Option<seq<…>>`, which is `None` when `process.Processes()` fails.
- Each fallible query is an `Option`.
- The metric channel is the sequence of samples sent.

| file | module | what it holds |
|---|---|---|
| `wrappers.dfy` | `Wrappers` | `Option` and `Result`, standing in for Go's `(value, err)` pairs |
| `go_strings.dfy` | `GoStrings` | `strings.Contains`, `HasSuffix`/`TrimSuffix`, `ToLower` (ASCII), `TrimSpace`, `Split`/`Join` and `strconv.Itoa`, each with the contract or lemma that fixes its meaning |
| `metrics.dfy` | `Metrics` | `int32` PIDs, `Sample` (descriptor, value type, value, label values) and descriptor counts |
| `bags.dfy` | `Bags` | the multiset sum over a map's entries in unspecified order, which is what ranging over a Go map produces |
| `folds.dfy` | `Folds` | the set image and the concatenation that a `for … range` loop over a slice computes |
| `self_process_exporter.dfy` | `SelfProcessExporter` | the `ProcessCollector` class (its `cachedProcs` map field, `IsTarget`, `RefreshProcessCache`, `StartCacheUpdater`, `Collect`) and the specification functions it is proved against |
| `node_process.dfy` | `NodeProcess` | `NormalizeName`, the include set and its building loop, the per-process emission rule and the `ProcessCollector.Collect` loop |

Some source behaviours are modelled exactly as the code does them, though a reader might expect otherwise:
- In self-process-exporter, `-names` is split on commas with no trimming. An empty fragment (from `nginx,` or `a,,b`) is therefore contained in every name, and the exporter then monitors every process. This is proved, not corrected (`TrailingCommaMonitorsEverything`).
- In node-process, a part such as `.exe` normalises to the empty string. That adds `""` to the include set, which matches a process whose name is exactly `.exe` (in any case) or empty.
- The `-refresh-interval` flag (self-process-exporter/main.go:212) sets the ticker period. The model takes the refresh schedule as a given sequence of enumeration outcomes, one per tick.

## Model

| member | source | states |
|---|---|---|
| SelfProcessExporter.DescNamesDistinct | self-process-exporter/main.go:40-71 | the eight descriptors have eight different metric names, so no two series of one process collide |
| SelfProcessExporter.ParseTargetNames | self-process-exporter/main.go:215-219 | an empty `-names` is the fatal error; otherwise the fragments are at least one, contain no comma, and joined with commas give back the flag exactly (no trimming, no dropping) |
| SelfProcessExporter.EmptyFragmentMatchesAll | self-process-exporter/main.go:200-207 | an empty fragment among the targets makes every name a target, since `strings.Contains(x, "")` holds |
| SelfProcessExporter.TrailingCommaMonitorsEverything | self-process-exporter/main.go:200-219 | a `-names` value ending in a comma is accepted and makes every process name a target |
| GoStrings.ContainsIffOccurs | self-process-exporter/main.go:202 | `strings.Contains(s, sub)` is true exactly when `sub` occurs in `s` at some index |
| SelfProcessExporter.ProcessCollector.IsTarget | self-process-exporter/main.go:200-207 | the loop answers true exactly when some configured fragment is contained in the name (so never with no fragments) |
| SelfProcessExporter.ProcessCollector.constructor | self-process-exporter/main.go:36-39 | the collector keeps the fragments as given and starts with an empty cache |
| SelfProcessExporter.NewCache | self-process-exporter/main.go:106-121 | the new map's keys are exactly the PIDs of enumerated processes whose name resolved and is a target; each entry sits under its own PID with a name one of them resolved to, and that name is a target |
| SelfProcessExporter.NewCacheOfDistinctPids | self-process-exporter/main.go:108-121 | with distinct PIDs, a qualifying process is cached under the name it resolved to, and a process whose `Name()` failed is absent |
| SelfProcessExporter.ProcessCollector.RefreshProcessCache | self-process-exporter/main.go:97-129 | a failed enumeration leaves `cachedProcs` exactly as it was; otherwise `cachedProcs` becomes the map built aside, replacing the old one wholesale, and the cache invariant holds |
| SelfProcessExporter.ProcessCollector.StartCacheUpdater | self-process-exporter/main.go:77-93 | one refresh runs at once and one per tick, so the cache is the result of those refreshes in order |
| SelfProcessExporter.LastSuccessfulScanWins | self-process-exporter/main.go:77-129 | after any run of refreshes the cache is built from the last enumeration that succeeded, or is the starting cache if none did |
| SelfProcessExporter.ProcessCollector.Snapshot | self-process-exporter/main.go:145-151 | the copied list holds every cached entry exactly once, each under its own PID, and the cache is only read |
| SelfProcessExporter.ProcessCollector.CollectEntry | self-process-exporter/main.go:153-196 | one pass of the scrape loop sends exactly the entry's samples in sending order, nothing at all if `Times()` fails |
| SelfProcessExporter.EntryEmission | self-process-exporter/main.go:164-196 | an entry sends nothing iff `Times()` fails; otherwise `cpu_user`, `cpu_system` and `up` once each, RSS and VMS together iff memory succeeded, threads, FDs and start time each iff its own query succeeded, hence 3 to 8 samples |
| SelfProcessExporter.EntryLabels | self-process-exporter/main.go:155-196 | every sample of an entry is labelled with the cached name and the decimal PID, and `up` is the gauge 1 |
| GoStrings.ParseItoa | self-process-exporter/main.go:157 | the decimal PID label reads back as the PID it was made from |
| GoStrings.ItoaInjective | self-process-exporter/main.go:157 | distinct PIDs get distinct `pid` labels |
| GoStrings.ItoaForm | self-process-exporter/main.go:157 | the `pid` label is a run of decimal digits with no leading zero (only 0 is written "0"), preceded by `-` exactly for a negative PID |
| SelfProcessExporter.ListingSamples | self-process-exporter/main.go:147-197 | emitting over any listing of the cache sends exactly the scrape's multiset of samples, whatever the map order |
| SelfProcessExporter.ProcessCollector.Collect | self-process-exporter/main.go:142-198 | the samples sent, as a multiset, are the sum over the cached entries of what each sends, and the cache is not modified |
| SelfProcessExporter.ScrapeShape | self-process-exporter/main.go:153-197 | a scrape sends at most eight samples per cached entry, and a sample is sent iff it is one of some cached entry's samples |
| SelfProcessExporter.UpSampleIffTimesSucceeded | self-process-exporter/main.go:164-196 | `process_up{name,pid}` = 1 is sent iff that PID is cached under that name and its CPU-times query succeeded in this scrape |
| NodeProcess.BuildFQName | node-process/main.go:18-19 | with a non-empty namespace, subsystem and name, the metric name is the three joined by underscores; with neither namespace nor subsystem it is the name alone; with an empty name it is empty |
| NodeProcess.DescNameQualified | node-process/main.go:38-66 | every descriptor's metric name is `node_process_` followed by its own suffix |
| NodeProcess.DescNamesDistinct | node-process/main.go:38-66 | the five descriptors have five different metric names |
| NodeProcess.NormalizeName | node-process/main.go:157-163 | the result is lower case; it is the lower-cased name less one trailing `.exe` when it had one, and the lower-cased name otherwise |
| GoStrings.ToLowerNormalizes | node-process/main.go:158 | lower-casing leaves no capital, changes nothing in a lower-case string, and is idempotent |
| NodeProcess.NormalizeIgnoresCase | node-process/main.go:157-158 | names differing only in the case of letters normalise alike |
| NodeProcess.NormalizeStripsOnce | node-process/main.go:159-161 | only one `.exe` is removed: `x.exe.exe` normalises to `x.exe` (lower-cased) |
| NodeProcess.NormalizeDropsExtension | node-process/main.go:157-163 | a name plus `.exe` in any case normalises like the bare name, to its lower-cased form |
| NodeProcess.NormalizeIdempotentIff | node-process/main.go:157-163 | normalising twice equals normalising once exactly when the first result does not end in `.exe` |
| GoStrings.TrimSpace | node-process/main.go:190 | the trimmed part is the piece of the part left once only white space is cut off before and after it; it has no white space at either end, and is empty exactly when the part is all white space |
| NodeProcess.IncludeSet | node-process/main.go:186-196 | an empty `-names` gives the empty set |
| NodeProcess.IncludeSetMembership | node-process/main.go:186-196 | a name is in the include set iff the flag is non-empty and some comma-separated part, trimmed and non-blank, normalises to it |
| NodeProcess.BlankFlagGivesEmptySet | node-process/main.go:187-195 | a flag made only of commas and white space yields the empty set, so every process is collected |
| NodeProcess.IncludeSetHasNoCommas | node-process/main.go:188-194 | no entry of the include set contains a comma |
| NodeProcess.BuildIncludeSet | node-process/main.go:186-196 | the loop over the parts, skipping blank ones, builds exactly the include set |
| NodeProcess.EmptyIncludeCollectsAll | node-process/main.go:97-102 | with no `-names`, every process whose name resolves passes the filter |
| NodeProcess.ConfiguredNameIsCollected | node-process/main.go:97-102 | a process whose normalised name equals that of a configured part passes the filter |
| NodeProcess.ProcessLabels | node-process/main.go:104-117 | the labels are name, decimal PID, the command line or `""` on failure, and the user or `"unknown"` on failure |
| NodeProcess.ProcessEmission | node-process/main.go:119-153 | CPU, memory and open-files samples are each sent once iff their query succeeded with a value above zero; read and write counters once each iff the I/O query succeeded, whatever their values; at most five samples |
| NodeProcess.ProcessSampleValues | node-process/main.go:116-153 | every sample carries the four labels, and each value and value type is the one its query returned |
| NodeProcess.CollectSamples | node-process/main.go:83-87 | a failed enumeration sends nothing |
| NodeProcess.ScrapeMembership | node-process/main.go:89-155 | a sample is sent iff it is one of the samples of an enumerated process whose name resolved and passed the filter |
| NodeProcess.ScrapeBound | node-process/main.go:89-155 | a scrape sends at most five samples per enumerated process |
| NodeProcess.ScrapeRespectsFilter | node-process/main.go:97-117 | with a non-empty include set, every sample's name label normalises into the set |
| NodeProcess.ProcessCollector.constructor | node-process/main.go:36-70 | the collector keeps the include set it is given |
| NodeProcess.ProcessCollector.Collect | node-process/main.go:82-155 | the loop sends exactly the samples of the collected processes, in enumeration order, and nothing when enumeration fails |
| NodeProcess.ProcessCollector.CollectProcess | node-process/main.go:104-153 | one pass of the loop for a collected process sends exactly its samples in order, after falling back to `""` and `"unknown"` |

## Left out

- Concurrency (the goroutine, ticker, context cancellation and `RWMutex`) is not modelled. Refresh and collect are sequential methods, and the cache swap is one field assignment. The ticker is the given sequence of per-tick enumeration outcomes.
- gopsutil queries are not modelled. Their outcomes are inputs:
  - per-PID query outcomes (`ProcStats`) for self-process-exporter, where a PID with no outcome is a process that has exited;
  - per-process fields of `NodeProc` for node-process.
- Process handles are identified with their PIDs, so PID reuse between refresh and scrape is not modelled.
- Floating point is not modelled. Values are exact reals: the `float64` conversions and the `/1000.0` of the start time are not rounded, and NaN does not arise.
- The memory-percentage formula (`getProcMemoryPercent`) is an input `Option<real>`, because it divides two OS readings.
- Not modelled: descriptor help texts, `Describe`, the registry, the HTTP handler and server, and the `-addr` and `-refresh-interval` flags. These are library glue and I/O.
- SelfProcessExporter.ProcessCollector.StartCacheUpdater: `time.NewTicker` panics when `-refresh-interval` is not positive, after the first refresh has run (self-process-exporter/main.go:79-81). The model takes the ticks as given and does not represent this crash.
- `log` output is dropped, and `log.Fatal` on an empty `-names` is the `Failure` result of `ParseTargetNames`.
- `strings.ToLower` is modelled for ASCII letters only. Full Unicode case mapping is out of scope.
- `strings.Split` is modelled for the one-character separator the exporters use.
- `MustNewConstMetric` panics are not modelled. The label count always matches the descriptor in this code, but a label value that is not valid UTF-8 (a process name, command line or user name can hold arbitrary bytes) makes `MustNewConstMetric` panic inside `Collect`. The model's strings are sequences of Unicode characters, so this crash path is not modelled.
- SelfProcessExporter.ProcessCollector.Collect: states the samples sent as a multiset and not as a sequence, because Go map iteration order is unspecified.
