/**
 * self-process-exporter: a collector that keeps a PID -> process cache,
 * rebuilt wholesale by a background refresher, and on each scrape queries
 * every cached process for CPU times, memory, threads, open descriptors and
 * start time.
 *
 * The OS is an input here: an enumeration is an `Option<seq<ProcEntry>>`
 * (`None` when process.Processes() fails), and the statistics a scrape can
 * read are a map from PID to the outcomes of each query (a PID missing from
 * the map is a process that has exited, so every query on it fails).
 */
module SelfProcessExporter {
  import opened Wrappers
  import opened GoStrings
  import opened Metrics
  import opened Bags

  // ------------------------------------------------------------------ data

  /** The eight descriptors built by NewProcessCollector. */
  datatype Desc = Up | CpuUser | CpuSystem | MemoryRss | MemoryVms | NumThreads | OpenFds | StartTime
  {
    /** The metric name on the wire. */
    function Name(): string {
      match this
      case Up => "process_up"
      case CpuUser => "process_cpu_user_seconds_total"
      case CpuSystem => "process_cpu_system_seconds_total"
      case MemoryRss => "process_memory_rss_bytes"
      case MemoryVms => "process_memory_vms_bytes"
      case NumThreads => "process_num_threads"
      case OpenFds => "process_open_fds"
      case StartTime => "process_start_time_seconds"
    }
  }

  /** The eight descriptors go out under eight different metric names. */
  lemma DescNamesDistinct(a: Desc, b: Desc)
    ensures a.Name() == b.Name() <==> a == b
  {
  }

  type ProcessSample = Sample<Desc>

  /** One process of an enumeration: its PID and the outcome of `Name()`. */
  datatype ProcEntry = ProcEntry(pid: Pid, name: Option<string>)

  /** CachedProcess: the process handle (bound to its PID) and the name resolved at refresh time. */
  datatype CachedProcess = CachedProcess(pid: Pid, name: string)

  datatype CpuTimes = CpuTimes(user: real, system: real)

  datatype MemoryInfo = MemoryInfo(rss: nat, vms: nat)

  /**
   * The outcomes of the live queries a scrape makes on one process:
   * Times, MemoryInfo, NumThreads, NumFDs and CreateTime (milliseconds).
   */
  datatype ProcStats = ProcStats(
    times: Option<CpuTimes>,
    memory: Option<MemoryInfo>,
    numThreads: Option<int32>,
    numFds: Option<int32>,
    createTime: Option<int>)

  /** What every query reports for a process that has exited: an error. */
  const Vanished := ProcStats(None, None, None, None, None)

  function StatsOf(live: map<Pid, ProcStats>, pid: Pid): ProcStats {
    if pid in live then live[pid] else Vanished
  }

  /** The label values of every sample: process_name and the decimal PID. */
  function Labels(name: string, pid: Pid): seq<string> {
    [name, Itoa(pid as int)]
  }

  // ------------------------------------------------------- configuration

  datatype ConfigError = MissingNames

  /**
   * main: an empty `-names` is fatal; otherwise the flag is split on commas
   * with no trimming and no dropping of empty fragments.
   */
  function ParseTargetNames(namesFlag: string): (r: Result<seq<string>, ConfigError>)
    ensures r.Failure? <==> namesFlag == ""
    ensures r.Success? ==> |r.value| >= 1 && Join(r.value, ',') == namesFlag
    ensures r.Success? ==> forall t :: t in r.value ==> ',' !in t
  {
    if namesFlag == "" then Failure(MissingNames)
    else
      JoinSplit(namesFlag, ',');
      SplitPartsAvoidSeparator(namesFlag, ',');
      Success(Split(namesFlag, ','))
  }

  // ---------------------------------------------------------- the matcher

  /** isTarget's meaning: some configured fragment occurs in the name. */
  predicate Matches(targets: seq<string>, name: string) {
    exists i :: 0 <= i < |targets| && Contains(name, targets[i])
  }

  /** An empty fragment, as `-names=nginx,` produces, makes every name a target. */
  lemma EmptyFragmentMatchesAll(targets: seq<string>, name: string)
    requires "" in targets
    ensures Matches(targets, name)
  {
    var i :| 0 <= i < |targets| && targets[i] == "";
    EmptyIsContainedEverywhere(name);
  }

  /** A trailing comma in `-names` turns the exporter into one that monitors every process. */
  lemma TrailingCommaMonitorsEverything(namesFlag: string, name: string)
    ensures ParseTargetNames(namesFlag + ",").Success?
    ensures Matches(ParseTargetNames(namesFlag + ",").value, name)
  {
    var targets := Split(namesFlag + ",", ',');
    SplitTrailingSeparator(namesFlag, ',');
    assert targets[|targets| - 1] in targets;
    EmptyFragmentMatchesAll(targets, name);
  }

  // ------------------------------------------------------------ the cache

  /** An enumerated process the refresher keeps: its name resolved and it is a target. */
  predicate Qualifies(targets: seq<string>, p: ProcEntry) {
    p.name.Some? && Matches(targets, p.name.value)
  }

  /** Every cached entry is stored under its own PID under a name that is a target. */
  ghost predicate WellFormedCache(targets: seq<string>, cache: map<Pid, CachedProcess>) {
    forall pid :: pid in cache ==> cache[pid].pid == pid && Matches(targets, cache[pid].name)
  }

  /**
   * The cache refreshProcessCache builds from one enumeration: its keys are
   * exactly the PIDs of qualifying processes, and each entry holds the name
   * that one of them resolved to (the last one, should a PID repeat).
   */
  function NewCache(targets: seq<string>, procs: seq<ProcEntry>): (m: map<Pid, CachedProcess>)
    ensures forall pid :: pid in m <==> exists i :: 0 <= i < |procs| && procs[i].pid == pid && Qualifies(targets, procs[i])
    ensures forall pid :: pid in m ==> exists i :: 0 <= i < |procs| && procs[i].pid == pid && procs[i].name == Some(m[pid].name)
    ensures WellFormedCache(targets, m)
  {
    if procs == [] then map[]
    else
      var m := NewCache(targets, procs[..|procs| - 1]);
      var p := procs[|procs| - 1];
      if Qualifies(targets, p) then m[p.pid := CachedProcess(p.pid, p.name.value)] else m
  }

  /** When PIDs are distinct, a qualifying process is cached under its own name, and any other process is absent. */
  lemma NewCacheOfDistinctPids(targets: seq<string>, procs: seq<ProcEntry>, i: nat)
    requires forall j, k :: 0 <= j < k < |procs| ==> procs[j].pid != procs[k].pid
    requires i < |procs|
    ensures Qualifies(targets, procs[i]) ==> procs[i].pid in NewCache(targets, procs) && NewCache(targets, procs)[procs[i].pid].name == procs[i].name.value
    ensures procs[i].name.None? ==> procs[i].pid !in NewCache(targets, procs)
  {
    var m := NewCache(targets, procs);
    if procs[i].pid in m {
      var j :| 0 <= j < |procs| && procs[j].pid == procs[i].pid && procs[j].name == Some(m[procs[i].pid].name);
      assert j == i;
    }
  }

  /** The effect of one refresh cycle: a failed enumeration keeps the old cache. */
  function Refreshed(targets: seq<string>, cache: map<Pid, CachedProcess>, processes: Option<seq<ProcEntry>>): map<Pid, CachedProcess> {
    match processes
    case None => cache
    case Some(procs) => NewCache(targets, procs)
  }

  /** The cache after a run of refresh cycles, oldest first. */
  function AfterScans(targets: seq<string>, cache: map<Pid, CachedProcess>, scans: seq<Option<seq<ProcEntry>>>): map<Pid, CachedProcess> {
    if scans == [] then cache
    else Refreshed(targets, AfterScans(targets, cache, scans[..|scans| - 1]), scans[|scans| - 1])
  }

  /** The most recent enumeration that succeeded, if any. */
  function LastSuccessfulScan(scans: seq<Option<seq<ProcEntry>>>): Option<seq<ProcEntry>> {
    if scans == [] then None
    else if scans[|scans| - 1].Some? then scans[|scans| - 1]
    else LastSuccessfulScan(scans[..|scans| - 1])
  }

  /**
   * Staleness: after any run of cycles the cache is built from the last
   * enumeration that succeeded, and is the starting cache if none did.
   */
  lemma {:induction false} LastSuccessfulScanWins(targets: seq<string>, cache: map<Pid, CachedProcess>, scans: seq<Option<seq<ProcEntry>>>)
    ensures AfterScans(targets, cache, scans) ==
      match LastSuccessfulScan(scans)
      case None => cache
      case Some(procs) => NewCache(targets, procs)
  {
    if scans != [] && scans[|scans| - 1].None? {
      LastSuccessfulScanWins(targets, cache, scans[..|scans| - 1]);
    }
  }

  // ------------------------------------------------------------ emission

  function CpuSamples(times: CpuTimes, labels: seq<string>): seq<ProcessSample> {
    [Sample(CpuUser, CounterValue, times.user, labels), Sample(CpuSystem, CounterValue, times.system, labels)]
  }

  function MemorySamples(memory: Option<MemoryInfo>, labels: seq<string>): seq<ProcessSample> {
    match memory
    case Some(m) => [Sample(MemoryRss, GaugeValue, m.rss as real, labels), Sample(MemoryVms, GaugeValue, m.vms as real, labels)]
    case None => []
  }

  function CountSample(desc: Desc, count: Option<int32>, labels: seq<string>): seq<ProcessSample> {
    match count
    case Some(n) => [Sample(desc, GaugeValue, n as real, labels)]
    case None => []
  }

  function StartTimeSamples(createTime: Option<int>, labels: seq<string>): seq<ProcessSample> {
    match createTime
    case Some(ms) => [Sample(StartTime, GaugeValue, ms as real / 1000.0, labels)]
    case None => []
  }

  /** What Collect sends for one cached entry, in sending order. */
  function EntrySamples(target: CachedProcess, stats: ProcStats): seq<ProcessSample> {
    match stats.times
    case None => []
    case Some(times) =>
      var labels := Labels(target.name, target.pid);
      CpuSamples(times, labels)
      + MemorySamples(stats.memory, labels)
      + CountSample(NumThreads, stats.numThreads, labels)
      + CountSample(OpenFds, stats.numFds, labels)
      + StartTimeSamples(stats.createTime, labels)
      + [Sample(Up, GaugeValue, 1.0, labels)]
  }

  /** The descriptors an entry whose CPU-times query succeeded sends, in sending order. */
  function LiveDescs(stats: ProcStats): seq<Desc> {
    [CpuUser, CpuSystem]
    + (if stats.memory.Some? then [MemoryRss, MemoryVms] else [])
    + (if stats.numThreads.Some? then [NumThreads] else [])
    + (if stats.numFds.Some? then [OpenFds] else [])
    + (if stats.createTime.Some? then [StartTime] else [])
    + [Up]
  }

  lemma EntryDescs(target: CachedProcess, stats: ProcStats)
    ensures Descs(EntrySamples(target, stats)) == if stats.times.Some? then LiveDescs(stats) else []
  {
    if times :| stats.times == Some(times) {
      var labels := Labels(target.name, target.pid);
      var cpu := CpuSamples(times, labels);
      var mem := MemorySamples(stats.memory, labels);
      var thr := CountSample(NumThreads, stats.numThreads, labels);
      var fds := CountSample(OpenFds, stats.numFds, labels);
      var st := StartTimeSamples(stats.createTime, labels);
      var up := [Sample(Up, GaugeValue, 1.0, labels)];
      assert EntrySamples(target, stats) == cpu + mem + thr + fds + st + up;
      var d1 := [CpuUser, CpuSystem];
      var d2 := if stats.memory.Some? then [MemoryRss, MemoryVms] else [];
      var d3 := if stats.numThreads.Some? then [NumThreads] else [];
      var d4 := if stats.numFds.Some? then [OpenFds] else [];
      var d5 := if stats.createTime.Some? then [StartTime] else [];
      assert Descs(cpu + mem) == d1 + d2 by {
        DescsAppend(cpu, mem);
      }
      assert Descs(cpu + mem + thr) == d1 + d2 + d3 by {
        DescsAppend(cpu + mem, thr);
      }
      assert Descs(cpu + mem + thr + fds) == d1 + d2 + d3 + d4 by {
        DescsAppend(cpu + mem + thr, fds);
      }
      assert Descs(cpu + mem + thr + fds + st) == d1 + d2 + d3 + d4 + d5 by {
        DescsAppend(cpu + mem + thr + fds, st);
      }
      DescsAppend(cpu + mem + thr + fds + st, up);
    }
  }

  /** LiveDescs as a multiset, given which of the optional queries succeeded. */
  function LiveBag(memory: bool, threads: bool, fds: bool, start: bool): multiset<Desc> {
    multiset{CpuUser, CpuSystem}
    + (if memory then multiset{MemoryRss, MemoryVms} else multiset{})
    + (if threads then multiset{NumThreads} else multiset{})
    + (if fds then multiset{OpenFds} else multiset{})
    + (if start then multiset{StartTime} else multiset{})
    + multiset{Up}
  }

  lemma LiveDescsBag(stats: ProcStats)
    ensures multiset(LiveDescs(stats)) == LiveBag(stats.memory.Some?, stats.numThreads.Some?, stats.numFds.Some?, stats.createTime.Some?)
  {
    assert multiset(if stats.memory.Some? then [MemoryRss, MemoryVms] else [])
      == if stats.memory.Some? then multiset{MemoryRss, MemoryVms} else multiset{};
    assert multiset(if stats.numThreads.Some? then [NumThreads] else [])
      == if stats.numThreads.Some? then multiset{NumThreads} else multiset{};
    assert multiset(if stats.numFds.Some? then [OpenFds] else [])
      == if stats.numFds.Some? then multiset{OpenFds} else multiset{};
    assert multiset(if stats.createTime.Some? then [StartTime] else [])
      == if stats.createTime.Some? then multiset{StartTime} else multiset{};
  }

  lemma LiveBagCounts(memory: bool, threads: bool, fds: bool, start: bool)
    ensures var ds := LiveBag(memory, threads, fds, start);
      && ds[Up] == 1 && ds[CpuUser] == 1 && ds[CpuSystem] == 1
      && ds[MemoryRss] == OneIf(memory) && ds[MemoryVms] == OneIf(memory)
      && ds[NumThreads] == OneIf(threads) && ds[OpenFds] == OneIf(fds) && ds[StartTime] == OneIf(start)
  {
  }

  /** The descriptor counts of any sample sequence whose descriptors are those of an entry. */
  lemma DescCounts(r: seq<ProcessSample>, stats: ProcStats)
    requires Descs(r) == if stats.times.Some? then LiveDescs(stats) else []
    ensures r == [] <==> stats.times.None?
    ensures stats.times.Some? ==>
      && CountOf(r, Up) == 1 && CountOf(r, CpuUser) == 1 && CountOf(r, CpuSystem) == 1
      && CountOf(r, MemoryRss) == OneIf(stats.memory.Some?)
      && CountOf(r, MemoryVms) == OneIf(stats.memory.Some?)
      && CountOf(r, NumThreads) == OneIf(stats.numThreads.Some?)
      && CountOf(r, OpenFds) == OneIf(stats.numFds.Some?)
      && CountOf(r, StartTime) == OneIf(stats.createTime.Some?)
      && 3 <= |r| <= 8
  {
    if stats.times.Some? {
      var m, t, f, c := stats.memory.Some?, stats.numThreads.Some?, stats.numFds.Some?, stats.createTime.Some?;
      assert multiset(Descs(r)) == LiveBag(m, t, f, c) by {
        LiveDescsBag(stats);
      }
      LiveBagCounts(m, t, f, c);
      assert 3 <= |Descs(r)| <= 8 by {
        LiveDescsLength(stats);
      }
    } else {
      assert |Descs(r)| == 0;
    }
  }

  lemma LiveDescsLength(stats: ProcStats)
    ensures 3 <= |LiveDescs(stats)| <= 8
  {
  }

  /**
   * The per-entry rule: a failed CPU-times query silences the entry;
   * otherwise cpu_user, cpu_system and up appear once each, RSS and VMS
   * appear together or not at all, threads, FDs and start time each appear
   * iff their own query succeeded, so three to eight samples are sent.
   */
  lemma EntryEmission(target: CachedProcess, stats: ProcStats)
    ensures var r := EntrySamples(target, stats);
      && (r == [] <==> stats.times.None?)
      && (stats.times.Some? ==>
        && CountOf(r, Up) == 1 && CountOf(r, CpuUser) == 1 && CountOf(r, CpuSystem) == 1
        && CountOf(r, MemoryRss) == OneIf(stats.memory.Some?)
        && CountOf(r, MemoryVms) == OneIf(stats.memory.Some?)
        && CountOf(r, NumThreads) == OneIf(stats.numThreads.Some?)
        && CountOf(r, OpenFds) == OneIf(stats.numFds.Some?)
        && CountOf(r, StartTime) == OneIf(stats.createTime.Some?)
        && 3 <= |r| <= 8)
  {
    EntryDescs(target, stats);
    DescCounts(EntrySamples(target, stats), stats);
  }

  /** Every sample of an entry carries the cached name and the decimal PID, and `up` is always 1. */
  lemma EntryLabels(target: CachedProcess, stats: ProcStats)
    ensures forall s :: s in EntrySamples(target, stats) ==> s.labels == Labels(target.name, target.pid)
    ensures forall s :: s in EntrySamples(target, stats) && s.desc == Up ==> s.value == 1.0 && s.valueType == GaugeValue
  {
    if times :| stats.times == Some(times) {
      var labels := Labels(target.name, target.pid);
      var cpu := CpuSamples(times, labels);
      var mem := MemorySamples(stats.memory, labels);
      var thr := CountSample(NumThreads, stats.numThreads, labels);
      var fds := CountSample(OpenFds, stats.numFds, labels);
      var st := StartTimeSamples(stats.createTime, labels);
      var up := [Sample(Up, GaugeValue, 1.0, labels)];
      assert EntrySamples(target, stats) == cpu + mem + thr + fds + st + up;
    }
  }

  /** The samples sent for a list of entries, in order. */
  function Emitted(targets: seq<CachedProcess>, live: map<Pid, ProcStats>): seq<ProcessSample> {
    if targets == [] then []
    else
      var last := targets[|targets| - 1];
      Emitted(targets[..|targets| - 1], live) + EntrySamples(last, StatsOf(live, last.pid))
  }

  /** What one cached entry contributes to a scrape, as a multiset. */
  function EntryBag(live: map<Pid, ProcStats>): CachedProcess -> multiset<ProcessSample> {
    (cp: CachedProcess) => multiset(EntrySamples(cp, StatsOf(live, cp.pid)))
  }

  /**
   * The samples of a scrape over a cache, as a multiset: Go's map iteration
   * order is unspecified, so only the multiset is determined.
   */
  ghost function CacheSamples(cache: map<Pid, CachedProcess>, live: map<Pid, ProcStats>): multiset<ProcessSample> {
    SumOver(cache, EntryBag(live))
  }

  /** A sequence lists a cache: each entry once, each under its own key. */
  ghost predicate IsListing(targets: seq<CachedProcess>, cache: map<Pid, CachedProcess>) {
    && (forall i :: 0 <= i < |targets| ==> targets[i].pid in cache && cache[targets[i].pid] == targets[i])
    && (forall i, j :: 0 <= i < j < |targets| ==> targets[i].pid != targets[j].pid)
    && (forall pid :: pid in cache ==> exists i :: 0 <= i < |targets| && targets[i].pid == pid)
  }

  /** Dropping the last entry of a listing lists the cache without that entry's key. */
  lemma ListingPrefix(targets: seq<CachedProcess>, cache: map<Pid, CachedProcess>)
    requires IsListing(targets, cache) && targets != []
    ensures IsListing(targets[..|targets| - 1], cache - {targets[|targets| - 1].pid})
  {
    var n := |targets| - 1;
    var rest := cache - {targets[n].pid};
    var prefix := targets[..n];
    forall pid | pid in rest ensures exists i :: 0 <= i < |prefix| && prefix[i].pid == pid {
      var i :| 0 <= i < |targets| && targets[i].pid == pid;
      assert prefix[i].pid == pid;
    }
  }

  /** Emitting over any listing of the cache sends exactly the scrape's multiset of samples. */
  lemma {:induction false} ListingSamples(targets: seq<CachedProcess>, cache: map<Pid, CachedProcess>, live: map<Pid, ProcStats>)
    requires IsListing(targets, cache)
    ensures multiset(Emitted(targets, live)) == CacheSamples(cache, live)
  {
    if targets == [] {
      assert cache == map[];
    } else {
      var n := |targets| - 1;
      var last := targets[n];
      var k := last.pid;
      var bag := multiset(EntrySamples(last, StatsOf(live, k)));
      ListingPrefix(targets, cache);
      ListingSamples(targets[..n], cache - {k}, live);
      assert multiset(Emitted(targets, live)) == multiset(Emitted(targets[..n], live)) + bag;
      assert EntryBag(live)(cache[k]) == bag;
      SumOverRemove(cache, EntryBag(live), k);
    }
  }

  /**
   * A scrape sends at most eight samples per cached entry, and each sample
   * it sends belongs to one cached entry.
   */
  lemma ScrapeShape(cache: map<Pid, CachedProcess>, live: map<Pid, ProcStats>, s: ProcessSample)
    ensures |CacheSamples(cache, live)| <= 8 * |cache.Keys|
    ensures s in CacheSamples(cache, live) <==> exists pid :: pid in cache && s in EntrySamples(cache[pid], StatsOf(live, cache[pid].pid))
  {
    forall pid | pid in cache ensures |EntryBag(live)(cache[pid])| <= 8 {
      EntryEmission(cache[pid], StatsOf(live, cache[pid].pid));
    }
    SumOverBound(cache, EntryBag(live), 8);
    SumOverMember(cache, EntryBag(live), s);
  }

  /**
   * `process_up` is 1 for a (name, pid) pair exactly when that PID is cached
   * under that name and its CPU-times query succeeded in this scrape.
   */
  lemma UpSampleIffTimesSucceeded(cache: map<Pid, CachedProcess>, live: map<Pid, ProcStats>, name: string, pid: Pid)
    requires forall p :: p in cache ==> cache[p].pid == p
    ensures Sample(Up, GaugeValue, 1.0, Labels(name, pid)) in CacheSamples(cache, live)
      <==> pid in cache && cache[pid].name == name && StatsOf(live, pid).times.Some?
  {
    var up := Sample(Up, GaugeValue, 1.0, Labels(name, pid));
    ScrapeShape(cache, live, up);
    if up in CacheSamples(cache, live) {
      var p :| p in cache && up in EntrySamples(cache[p], StatsOf(live, cache[p].pid));
      EntryLabels(cache[p], StatsOf(live, p));
      ItoaInjective(p as int, pid as int);
    }
    if pid in cache && cache[pid].name == name && StatsOf(live, pid).times.Some? {
      var r := EntrySamples(cache[pid], StatsOf(live, pid));
      EntryEmission(cache[pid], StatsOf(live, pid));
      EntryLabels(cache[pid], StatsOf(live, pid));
      CountOfWitness(r, Up);
      var s :| s in r && s.desc == Up;
      assert s == up;
    }
  }

  // ------------------------------------------------------------ collector

  /** ProcessCollector: the configured fragments and the PID -> process cache. */
  class ProcessCollector {
    const targetNames: seq<string>
    var cachedProcs: map<Pid, CachedProcess>

    ghost predicate Valid()
      reads this
    {
      WellFormedCache(targetNames, cachedProcs)
    }

    /** NewProcessCollector: the fragments as given, and an empty cache. */
    constructor (names: seq<string>)
      ensures targetNames == names && cachedProcs == map[]
      ensures Valid()
    {
      targetNames := names;
      cachedProcs := map[];
    }

    /** isTarget: the fragments are tried in order and the first one contained in the name answers true. */
    method IsTarget(procName: string) returns (b: bool)
      ensures b == Matches(targetNames, procName)
    {
      for i := 0 to |targetNames|
        invariant forall j :: 0 <= j < i ==> !Contains(procName, targetNames[j])
      {
        if Contains(procName, targetNames[i]) {
          return true;
        }
      }
      return false;
    }

    /**
     * refreshProcessCache: a failed enumeration leaves the cache as it was;
     * otherwise a new map is built aside from the processes whose name
     * resolves and is a target, and replaces the cache in one assignment.
     */
    method RefreshProcessCache(processes: Option<seq<ProcEntry>>)
      requires Valid()
      modifies this
      ensures Valid()
      ensures cachedProcs == Refreshed(targetNames, old(cachedProcs), processes)
    {
      if processes.None? {
        return;
      }
      var allProcs := processes.value;
      var newCache: map<Pid, CachedProcess> := map[];
      for i := 0 to |allProcs|
        invariant newCache == NewCache(targetNames, allProcs[..i])
      {
        assert allProcs[..i + 1][..i] == allProcs[..i];
        var p := allProcs[i];
        if p.name.None? {
          continue;
        }
        var name := p.name.value;
        var isTarget := IsTarget(name);
        if isTarget {
          newCache := newCache[p.pid := CachedProcess(p.pid, name)];
        }
      }
      assert allProcs[..|allProcs|] == allProcs;
      cachedProcs := newCache;
    }

    /**
     * StartCacheUpdater: one refresh at once, then one per ticker tick until
     * the context is cancelled; `ticks` holds the enumeration of each tick.
     */
    method StartCacheUpdater(first: Option<seq<ProcEntry>>, ticks: seq<Option<seq<ProcEntry>>>)
      requires Valid()
      modifies this
      ensures Valid()
      ensures cachedProcs == AfterScans(targetNames, old(cachedProcs), [first] + ticks)
    {
      RefreshProcessCache(first);
      assert ([first] + ticks[..0])[..0] == [];
      for i := 0 to |ticks|
        invariant Valid()
        invariant cachedProcs == AfterScans(targetNames, old(cachedProcs), [first] + ticks[..i])
      {
        assert ([first] + ticks[..i + 1])[..i + 1] == [first] + ticks[..i];
        RefreshProcessCache(ticks[i]);
      }
      assert ticks[..|ticks|] == ticks;
    }

    /** The first half of Collect: copy the cache's entries, in map order, into a list. */
    method Snapshot() returns (targets: seq<CachedProcess>)
      requires Valid()
      ensures IsListing(targets, cachedProcs)
    {
      targets := [];
      var remaining := cachedProcs.Keys;
      while remaining != {}
        invariant remaining <= cachedProcs.Keys
        invariant forall i :: 0 <= i < |targets| ==> targets[i].pid in cachedProcs && cachedProcs[targets[i].pid] == targets[i] && targets[i].pid !in remaining
        invariant forall i, j :: 0 <= i < j < |targets| ==> targets[i].pid != targets[j].pid
        invariant forall pid :: pid in cachedProcs && pid !in remaining ==> exists i :: 0 <= i < |targets| && targets[i].pid == pid
        decreases remaining
      {
        var pid :| pid in remaining;
        ghost var listed := targets;
        targets := targets + [cachedProcs[pid]];
        remaining := remaining - {pid};
        forall q | q in cachedProcs && q !in remaining ensures exists i :: 0 <= i < |targets| && targets[i].pid == q {
          if q == pid {
            assert targets[|listed|].pid == q;
          } else {
            var i :| 0 <= i < |listed| && listed[i].pid == q;
            assert targets[i].pid == q;
          }
        }
      }
    }

    /**
     * Collect: query every entry of a snapshot of the cache and send what
     * can be read; the samples sent are those of CacheSamples, in some order.
     * Collect has no modifies clause: the cache is only read.
     */
    method Collect(live: map<Pid, ProcStats>) returns (out: seq<ProcessSample>)
      requires Valid()
      ensures multiset(out) == CacheSamples(cachedProcs, live)
    {
      var targets := Snapshot();
      out := [];
      for i := 0 to |targets|
        invariant out == Emitted(targets[..i], live)
      {
        assert targets[..i + 1][..i] == targets[..i];
        var sent := CollectEntry(targets[i], StatsOf(live, targets[i].pid));
        out := out + sent;
      }
      assert targets[..|targets|] == targets;
      ListingSamples(targets, cachedProcs, live);
    }

    /**
     * One pass of Collect's loop: nothing when the CPU-times query fails,
     * otherwise the samples each successful query yields, in sending order.
     */
    static method CollectEntry(target: CachedProcess, stats: ProcStats) returns (sent: seq<ProcessSample>)
      ensures sent == EntrySamples(target, stats)
    {
      var name := target.name;
      var pidStr := Itoa(target.pid as int);
      if stats.times.None? {
        return [];
      }
      var times := stats.times.value;
      ghost var labels := Labels(name, target.pid);
      assert [name, pidStr] == labels;
      sent := [Sample(CpuUser, CounterValue, times.user, [name, pidStr])];
      sent := sent + [Sample(CpuSystem, CounterValue, times.system, [name, pidStr])];
      if stats.memory.Some? {
        var mem := stats.memory.value;
        sent := sent + [Sample(MemoryRss, GaugeValue, mem.rss as real, [name, pidStr])];
        sent := sent + [Sample(MemoryVms, GaugeValue, mem.vms as real, [name, pidStr])];
      }
      assert sent == CpuSamples(times, labels) + MemorySamples(stats.memory, labels);
      ghost var expected := sent;
      if stats.numThreads.Some? {
        sent := sent + [Sample(NumThreads, GaugeValue, stats.numThreads.value as real, [name, pidStr])];
      }
      assert sent == expected + CountSample(NumThreads, stats.numThreads, labels);
      expected := sent;
      if stats.numFds.Some? {
        sent := sent + [Sample(OpenFds, GaugeValue, stats.numFds.value as real, [name, pidStr])];
      }
      assert sent == expected + CountSample(OpenFds, stats.numFds, labels);
      expected := sent;
      if stats.createTime.Some? {
        sent := sent + [Sample(StartTime, GaugeValue, stats.createTime.value as real / 1000.0, [name, pidStr])];
      }
      assert sent == expected + StartTimeSamples(stats.createTime, labels);
      sent := sent + [Sample(Up, GaugeValue, 1.0, [name, pidStr])];
    }
  }
}
