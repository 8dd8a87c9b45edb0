/**
 * node-process: a collector that, on each scrape, enumerates every process
 * of the node, keeps those whose normalised name is in the include set (or
 * all of them when the set is empty), and reports CPU and memory usage, open
 * files and I/O byte counters, labelled by name, PID, command line and user.
 *
 * The OS is an input here: an enumeration is an `Option<seq<NodeProc>>`
 * (`None` when process.Processes() fails), and each process carries the
 * outcome of every query a scrape makes on it.
 */
module NodeProcess {
  import opened Wrappers
  import opened GoStrings
  import opened Metrics
  import opened Folds

  // ------------------------------------------------------------------ data

  /** The namespace and subsystem every metric name is built from. */
  const Namespace: string := "node"
  const Subsystem: string := "process"

  /**
   * prometheus.BuildFQName: the empty string when `name` is empty, otherwise
   * the non-empty parts joined by underscores.
   */
  function BuildFQName(namespace: string, subsystem: string, name: string): (r: string)
    ensures namespace != "" && subsystem != "" && name != "" ==>
      r == namespace + "_" + subsystem + "_" + name
    ensures namespace == "" && subsystem == "" ==> r == name
    ensures name == "" ==> r == ""
  {
    if name == "" then ""
    else
      var parts := (if namespace == "" then [] else [namespace])
        + (if subsystem == "" then [] else [subsystem])
        + [name];
      assert namespace != "" && subsystem != "" ==>
        parts == [namespace, subsystem, name]
        && Join(parts[1..], '_') == subsystem + "_" + name;
      Join(parts, '_')
  }

  /** The five descriptors built by NewProcessCollector. */
  datatype Desc = Cpu | Memory | OpenFiles | ReadBytesTotal | WriteBytesTotal
  {
    /** The last component of the metric name. */
    function Suffix(): string {
      match this
      case Cpu => "cpu_usage_percent"
      case Memory => "memory_usage_percent"
      case OpenFiles => "open_files_count"
      case ReadBytesTotal => "read_bytes_total"
      case WriteBytesTotal => "write_bytes_total"
    }

    /** The metric name on the wire. */
    function Name(): string {
      BuildFQName(Namespace, Subsystem, Suffix())
    }
  }

  /** Every metric name is "node_process_" followed by the descriptor's suffix. */
  lemma DescNameQualified(d: Desc)
    ensures d.Name() == "node_process_" + d.Suffix()
  {
  }

  /** The five descriptors go out under five different metric names. */
  lemma DescNamesDistinct(a: Desc, b: Desc)
    ensures a.Name() == b.Name() <==> a == b
  {
    DescNameQualified(a);
    DescNameQualified(b);
    if a.Name() == b.Name() {
      assert a.Suffix() == a.Name()[13..] == b.Name()[13..] == b.Suffix();
      assert a.Suffix()[0] == b.Suffix()[0];
    }
  }

  type NodeSample = Sample<Desc>

  datatype IOCounters = IOCounters(readBytes: nat, writeBytes: nat)

  /**
   * One enumerated process and the outcome of each query on it: Name,
   * Cmdline, Username, CPUPercent, the memory percentage, OpenFiles (only
   * its length is used) and IOCounters.
   */
  datatype NodeProc = NodeProc(
    pid: Pid,
    name: Option<string>,
    cmdline: Option<string>,
    username: Option<string>,
    cpuPercent: Option<real>,
    memoryPercent: Option<real>,
    openFiles: Option<nat>,
    ioCounters: Option<IOCounters>)

  // ------------------------------------------------------- normalizeName

  /**
   * normalizeName: lower-case the name, then drop one trailing ".exe".
   * The result is the lower-cased name, less ".exe" exactly when it ended
   * with it.
   */
  function NormalizeName(n: string): (r: string)
    ensures IsLowerCase(r)
    ensures HasSuffix(ToLower(n), ".exe") ==> r + ".exe" == ToLower(n)
    ensures !HasSuffix(ToLower(n), ".exe") ==> r == ToLower(n)
  {
    var s := ToLower(n);
    ToLowerNormalizes(n);
    if HasSuffix(s, ".exe") then TrimSuffix(s, ".exe") else s
  }

  /** Names that differ only in the case of their letters normalise alike. */
  lemma NormalizeIgnoresCase(a: string, b: string)
    requires |a| == |b|
    requires forall i :: 0 <= i < |a| ==> LowerChar(a[i]) == LowerChar(b[i])
    ensures NormalizeName(a) == NormalizeName(b)
  {
    assert ToLower(a) == ToLower(b);
  }

  /** Lower-casing distributes over concatenation. */
  lemma ToLowerAppend(a: string, b: string)
    ensures ToLower(a + b) == ToLower(a) + ToLower(b)
  {
    assert forall i :: 0 <= i < |a + b| ==> ToLower(a + b)[i] == (ToLower(a) + ToLower(b))[i];
  }

  /** Only one ".exe" is removed: a doubled extension keeps one of them. */
  lemma NormalizeStripsOnce(s: string)
    ensures NormalizeName(s + ".exe.exe") == ToLower(s) + ".exe"
  {
    ToLowerAppend(s, ".exe.exe");
    var l := ToLower(s) + ".exe.exe";
    assert l[|l| - 4..] == ".exe";
    assert l[..|l| - 4] == ToLower(s) + ".exe";
  }

  /** A Windows image name, in any case, matches its bare lower-case name. */
  lemma NormalizeDropsExtension(s: string, ext: string)
    requires |ext| == 4 && ToLower(ext) == ".exe"
    requires !HasSuffix(ToLower(s), ".exe")
    ensures NormalizeName(s + ext) == NormalizeName(s) == ToLower(s)
  {
    ToLowerAppend(s, ext);
    var l := ToLower(s) + ".exe";
    assert l[|l| - 4..] == ".exe";
    assert l[..|l| - 4] == ToLower(s);
  }

  /** Normalising twice changes nothing exactly when the first pass left no ".exe" behind. */
  lemma NormalizeIdempotentIff(n: string)
    ensures NormalizeName(NormalizeName(n)) == NormalizeName(n) <==> !HasSuffix(NormalizeName(n), ".exe")
  {
    var r := NormalizeName(n);
    ToLowerNormalizes(r);
    if HasSuffix(r, ".exe") {
      assert |NormalizeName(r)| == |r| - 4;
    }
  }

  /** A character of a normalised name is the lowered form of a character of the name. */
  lemma NormalizeChars(n: string, c: char)
    ensures c in NormalizeName(n) ==> exists i :: 0 <= i < |n| && LowerChar(n[i]) == c
  {
    var r := NormalizeName(n);
    if c in r {
      var j :| 0 <= j < |r| && r[j] == c;
      assert ToLower(n)[j] == c;
    }
  }

  // ---------------------------------------------------------- include set

  /** The set entry a part of `-names` yields: nothing when it is blank once trimmed, else its normalised form. */
  function EntryOf(part: string): Option<string> {
    var t := TrimSpace(part);
    if t == "" then None else Some(NormalizeName(t))
  }

  /**
   * The include set main builds from `-names`: the flag is split on commas,
   * each part is trimmed, blank parts are skipped and the rest normalised;
   * an empty flag gives the empty set.
   */
  function IncludeSet(namesFlag: string): (wanted: set<string>)
    ensures namesFlag == "" ==> wanted == {}
  {
    if namesFlag == "" then {} else Image(Split(namesFlag, ','), EntryOf)
  }

  /** A name is in the include set exactly when some part of the flag yields it. */
  lemma IncludeSetMembership(namesFlag: string, x: string)
    ensures x in IncludeSet(namesFlag) <==>
      namesFlag != "" && exists i :: 0 <= i < |Split(namesFlag, ',')| && EntryOf(Split(namesFlag, ',')[i]) == Some(x)
  {
    ImageMembership(Split(namesFlag, ','), EntryOf, x);
    assert x in IncludeSet(namesFlag) <==> namesFlag != "" && x in Image(Split(namesFlag, ','), EntryOf);
  }

  /** A flag of nothing but commas and white space includes every process. */
  lemma BlankFlagGivesEmptySet(namesFlag: string)
    requires forall k :: 0 <= k < |namesFlag| ==> namesFlag[k] == ',' || IsSpace(namesFlag[k])
    ensures IncludeSet(namesFlag) == {}
  {
    if namesFlag != "" {
      var parts := Split(namesFlag, ',');
      forall x | x in IncludeSet(namesFlag) ensures false {
        ImageMembership(parts, EntryOf, x);
        var i :| 0 <= i < |parts| && EntryOf(parts[i]) == Some(x);
        BlankPart(namesFlag, parts[i]);
      }
    }
  }

  /** Every part of a blank flag is blank. */
  lemma {:induction false} BlankPart(s: string, p: string)
    requires forall k :: 0 <= k < |s| ==> s[k] == ',' || IsSpace(s[k])
    requires p in Split(s, ',')
    ensures forall k :: 0 <= k < |p| ==> IsSpace(p[k])
    decreases |s|
  {
    if s != [] {
      var rest := Split(s[1..], ',');
      if s[0] == ',' {
        if p != [] {
          assert p in rest;
          BlankPart(s[1..], p);
        }
      } else if p == [s[0]] + rest[0] {
        assert rest[0] in rest;
        BlankPart(s[1..], rest[0]);
      } else {
        assert p in rest[1..];
        assert p in rest;
        BlankPart(s[1..], p);
      }
    }
  }

  /** No entry of the include set contains a comma, so each stands for one name of the flag. */
  lemma IncludeSetHasNoCommas(namesFlag: string, x: string)
    requires x in IncludeSet(namesFlag)
    ensures ',' !in x
  {
    var parts := Split(namesFlag, ',');
    assert x in Image(parts, EntryOf);
    ImageMembership(parts, EntryOf, x);
    var i :| 0 <= i < |parts| && EntryOf(parts[i]) == Some(x);
    SplitPartsAvoidSeparator(namesFlag, ',');
    assert parts[i] in parts;
    EntryKeepsOutCommas(parts[i], x);
  }

  /** Trimming and normalising a part cannot bring in a comma it did not hold. */
  lemma EntryKeepsOutCommas(part: string, x: string)
    requires ',' !in part && EntryOf(part) == Some(x)
    ensures ',' !in x
  {
    var t := TrimSpace(part);
    var j :| OccursAt(part, t, j);
    assert ',' !in t by {
      forall k | 0 <= k < |t| ensures t[k] != ',' {
        assert t[k] == part[j + k];
      }
    }
    NormalizeChars(t, ',');
  }

  /**
   * The include-map loop of main: for each comma-separated part, trim it,
   * skip it when blank, and otherwise add its normalised form.
   */
  method BuildIncludeSet(namesFlag: string) returns (wanted: set<string>)
    ensures wanted == IncludeSet(namesFlag)
  {
    wanted := {};
    if namesFlag != "" {
      var parts := Split(namesFlag, ',');
      for i := 0 to |parts|
        invariant wanted == Image(parts[..i], EntryOf)
      {
        assert parts[..i + 1][..i] == parts[..i];
        var t := TrimSpace(parts[i]);
        if t == "" {
          continue;
        }
        wanted := wanted + {NormalizeName(t)};
      }
      assert parts[..|parts|] == parts;
    }
  }

  // ------------------------------------------------------------ filtering

  /** The filter of Collect: an empty set lets every name through, otherwise the normalised name must be in it. */
  predicate Included(wanted: set<string>, name: string) {
    |wanted| == 0 || NormalizeName(name) in wanted
  }

  /** With no -names, every process whose name resolves is collected. */
  lemma EmptyIncludeCollectsAll(name: string)
    ensures Included(IncludeSet(""), name)
  {
  }

  /** A process named like a configured entry, in any case and with or without ".exe", is collected. */
  lemma ConfiguredNameIsCollected(namesFlag: string, part: string, name: string)
    requires part in Split(namesFlag, ',') && TrimSpace(part) != "" && namesFlag != ""
    requires NormalizeName(name) == NormalizeName(TrimSpace(part))
    ensures Included(IncludeSet(namesFlag), name)
  {
    var parts := Split(namesFlag, ',');
    var i :| 0 <= i < |parts| && parts[i] == part;
    ImageMembership(parts, EntryOf, NormalizeName(name));
    assert EntryOf(parts[i]) == Some(NormalizeName(name));
  }

  // ------------------------------------------------------------- emission

  /** The label values: name, decimal PID, and the fall-backs "" and "unknown" for failed lookups. */
  function ProcessLabels(p: NodeProc, name: string): (labels: seq<string>)
    ensures |labels| == 4 && labels[0] == name && labels[1] == Itoa(p.pid as int)
    ensures labels[2] == (if p.cmdline.Some? then p.cmdline.value else "")
    ensures labels[3] == (if p.username.Some? then p.username.value else "unknown")
  {
    [name, Itoa(p.pid as int), p.cmdline.GetOr(""), p.username.GetOr("unknown")]
  }

  /** A gauge that is sent only when its query succeeded with a value above zero. */
  function PositiveGauge(desc: Desc, value: Option<real>, labels: seq<string>): seq<NodeSample> {
    if Positive(value) then [Sample(desc, GaugeValue, value.value, labels)] else []
  }

  function IoSamples(io: Option<IOCounters>, labels: seq<string>): seq<NodeSample> {
    match io
    case Some(c) => [Sample(ReadBytesTotal, CounterValue, c.readBytes as real, labels), Sample(WriteBytesTotal, CounterValue, c.writeBytes as real, labels)]
    case None => []
  }

  /** The open-file count as the value that is compared with zero. */
  function OpenFilesValue(p: NodeProc): Option<real> {
    match p.openFiles
    case Some(n) => Some(n as real)
    case None => None
  }

  /** What Collect sends for one collected process, in sending order. */
  function ProcessSamples(p: NodeProc, name: string): seq<NodeSample> {
    var labels := ProcessLabels(p, name);
    PositiveGauge(Cpu, p.cpuPercent, labels)
    + PositiveGauge(Memory, p.memoryPercent, labels)
    + PositiveGauge(OpenFiles, OpenFilesValue(p), labels)
    + IoSamples(p.ioCounters, labels)
  }

  predicate Positive(value: Option<real>) {
    value.Some? && value.value > 0.0
  }

  /** The descriptors of a process's samples, given which of them are sent. */
  function ProcessDescs(cpu: bool, memory: bool, files: bool, io: bool): seq<Desc> {
    (if cpu then [Cpu] else [])
    + (if memory then [Memory] else [])
    + (if files then [OpenFiles] else [])
    + (if io then [ReadBytesTotal, WriteBytesTotal] else [])
  }

  lemma GaugeDescs(desc: Desc, value: Option<real>, labels: seq<string>)
    ensures Descs(PositiveGauge(desc, value, labels)) == if Positive(value) then [desc] else []
  {
  }

  lemma IoDescs(io: Option<IOCounters>, labels: seq<string>)
    ensures Descs(IoSamples(io, labels)) == if io.Some? then [ReadBytesTotal, WriteBytesTotal] else []
  {
  }

  lemma ProcessSamplesDescs(p: NodeProc, name: string)
    ensures Descs(ProcessSamples(p, name))
      == ProcessDescs(Positive(p.cpuPercent), Positive(p.memoryPercent), Positive(OpenFilesValue(p)), p.ioCounters.Some?)
  {
    var labels := ProcessLabels(p, name);
    var a := PositiveGauge(Cpu, p.cpuPercent, labels);
    var b := PositiveGauge(Memory, p.memoryPercent, labels);
    var c := PositiveGauge(OpenFiles, OpenFilesValue(p), labels);
    var d := IoSamples(p.ioCounters, labels);
    var da := if Positive(p.cpuPercent) then [Cpu] else [];
    var db := if Positive(p.memoryPercent) then [Memory] else [];
    var dc := if Positive(OpenFilesValue(p)) then [OpenFiles] else [];
    var dd := if p.ioCounters.Some? then [ReadBytesTotal, WriteBytesTotal] else [];
    assert Descs(a + b) == da + db by {
      GaugeDescs(Cpu, p.cpuPercent, labels);
      GaugeDescs(Memory, p.memoryPercent, labels);
      DescsAppend(a, b);
    }
    assert Descs(a + b + c) == da + db + dc by {
      GaugeDescs(OpenFiles, OpenFilesValue(p), labels);
      DescsAppend(a + b, c);
    }
    assert Descs(a + b + c + d) == da + db + dc + dd by {
      IoDescs(p.ioCounters, labels);
      DescsAppend(a + b + c, d);
    }
    assert ProcessSamples(p, name) == a + b + c + d;
  }

  /** ProcessDescs as a multiset. */
  function ProcessBag(cpu: bool, memory: bool, files: bool, io: bool): multiset<Desc> {
    (if cpu then multiset{Cpu} else multiset{})
    + (if memory then multiset{Memory} else multiset{})
    + (if files then multiset{OpenFiles} else multiset{})
    + (if io then multiset{ReadBytesTotal, WriteBytesTotal} else multiset{})
  }

  lemma ProcessDescsBag(cpu: bool, memory: bool, files: bool, io: bool)
    ensures multiset(ProcessDescs(cpu, memory, files, io)) == ProcessBag(cpu, memory, files, io)
  {
    assert multiset(if cpu then [Cpu] else []) == if cpu then multiset{Cpu} else multiset{};
    assert multiset(if memory then [Memory] else []) == if memory then multiset{Memory} else multiset{};
    assert multiset(if files then [OpenFiles] else []) == if files then multiset{OpenFiles} else multiset{};
    assert multiset(if io then [ReadBytesTotal, WriteBytesTotal] else [])
      == if io then multiset{ReadBytesTotal, WriteBytesTotal} else multiset{};
  }

  lemma ProcessBagCounts(cpu: bool, memory: bool, files: bool, io: bool)
    ensures var ds := ProcessBag(cpu, memory, files, io);
      && ds[Cpu] == OneIf(cpu) && ds[Memory] == OneIf(memory) && ds[OpenFiles] == OneIf(files)
      && ds[ReadBytesTotal] == OneIf(io) && ds[WriteBytesTotal] == OneIf(io)
  {
  }

  lemma ProcessDescsLength(cpu: bool, memory: bool, files: bool, io: bool)
    ensures |ProcessDescs(cpu, memory, files, io)| <= 5
  {
  }

  /**
   * The per-process rule: the CPU, memory and open-files gauges are each
   * sent once exactly when their query succeeded with a value above zero;
   * the read and write counters are sent once each exactly when the I/O
   * query succeeded, whatever their values; so at most five samples.
   */
  lemma ProcessEmission(p: NodeProc, name: string)
    ensures var r := ProcessSamples(p, name);
      && CountOf(r, Cpu) == OneIf(p.cpuPercent.Some? && p.cpuPercent.value > 0.0)
      && CountOf(r, Memory) == OneIf(p.memoryPercent.Some? && p.memoryPercent.value > 0.0)
      && CountOf(r, OpenFiles) == OneIf(p.openFiles.Some? && p.openFiles.value > 0)
      && CountOf(r, ReadBytesTotal) == OneIf(p.ioCounters.Some?)
      && CountOf(r, WriteBytesTotal) == OneIf(p.ioCounters.Some?)
      && |r| <= 5
  {
    var r := ProcessSamples(p, name);
    var cpu, memory, files, io := Positive(p.cpuPercent), Positive(p.memoryPercent), Positive(OpenFilesValue(p)), p.ioCounters.Some?;
    assert multiset(Descs(r)) == ProcessBag(cpu, memory, files, io) by {
      ProcessSamplesDescs(p, name);
      ProcessDescsBag(cpu, memory, files, io);
    }
    ProcessBagCounts(cpu, memory, files, io);
    assert |r| <= 5 by {
      ProcessSamplesDescs(p, name);
      ProcessDescsLength(cpu, memory, files, io);
    }
  }

  /** Every sample of a process carries its four labels, and each value is the one its query returned. */
  lemma ProcessSampleValues(p: NodeProc, name: string, s: NodeSample)
    requires s in ProcessSamples(p, name)
    ensures s.labels == ProcessLabels(p, name)
    ensures s.desc == Cpu ==> s.valueType == GaugeValue && Some(s.value) == p.cpuPercent && s.value > 0.0
    ensures s.desc == Memory ==> s.valueType == GaugeValue && Some(s.value) == p.memoryPercent && s.value > 0.0
    ensures s.desc == OpenFiles ==> s.valueType == GaugeValue && p.openFiles.Some? && s.value == p.openFiles.value as real > 0.0
    ensures s.desc == ReadBytesTotal ==> s.valueType == CounterValue && p.ioCounters.Some? && s.value == p.ioCounters.value.readBytes as real
    ensures s.desc == WriteBytesTotal ==> s.valueType == CounterValue && p.ioCounters.Some? && s.value == p.ioCounters.value.writeBytes as real
  {
  }

  // --------------------------------------------------------------- scrape

  /** What one enumerated process contributes: nothing when its name fails or is filtered out. */
  function Sent(wanted: set<string>, p: NodeProc): seq<NodeSample> {
    if p.name.None? || !Included(wanted, p.name.value) then [] else ProcessSamples(p, p.name.value)
  }

  function SentBy(wanted: set<string>): NodeProc -> seq<NodeSample> {
    (p: NodeProc) => Sent(wanted, p)
  }

  /** The samples a scrape sends for an enumeration, in enumeration order. */
  function ScrapeSamples(wanted: set<string>, procs: seq<NodeProc>): seq<NodeSample> {
    FlatMap(procs, SentBy(wanted))
  }

  /** Collect's output: nothing at all when the enumeration fails. */
  function CollectSamples(wanted: set<string>, processes: Option<seq<NodeProc>>): (out: seq<NodeSample>)
    ensures processes.None? ==> out == []
  {
    match processes
    case None => []
    case Some(procs) => ScrapeSamples(wanted, procs)
  }

  /** A process that passed the filter, and one of the samples it sends. */
  predicate SendsFor(wanted: set<string>, p: NodeProc, s: NodeSample) {
    p.name.Some? && Included(wanted, p.name.value) && s in ProcessSamples(p, p.name.value)
  }

  /**
   * A sample is sent exactly when it is one of the samples of a process
   * whose name resolved and passed the include filter.
   */
  lemma ScrapeMembership(wanted: set<string>, procs: seq<NodeProc>, s: NodeSample)
    ensures s in ScrapeSamples(wanted, procs) <==> exists i :: 0 <= i < |procs| && SendsFor(wanted, procs[i], s)
  {
    FlatMapMembership(procs, SentBy(wanted), s);
    forall i | 0 <= i < |procs| ensures s in SentBy(wanted)(procs[i]) <==> SendsFor(wanted, procs[i], s) {
    }
  }

  /** A scrape sends at most five samples per enumerated process. */
  lemma ScrapeBound(wanted: set<string>, procs: seq<NodeProc>)
    ensures |ScrapeSamples(wanted, procs)| <= 5 * |procs|
  {
    forall i | 0 <= i < |procs| ensures |SentBy(wanted)(procs[i])| <= 5 {
      var p := procs[i];
      if p.name.Some? {
        ProcessEmission(p, p.name.value);
      }
    }
    FlatMapBound(procs, SentBy(wanted), 5);
  }

  /**
   * Every sample a scrape sends belongs to a process that was collected:
   * its name label normalises into the include set (when there is one).
   */
  lemma ScrapeRespectsFilter(wanted: set<string>, procs: seq<NodeProc>, s: NodeSample)
    requires s in ScrapeSamples(wanted, procs)
    requires |wanted| > 0
    ensures |s.labels| == 4 && NormalizeName(s.labels[0]) in wanted
  {
    ScrapeMembership(wanted, procs, s);
    var i :| 0 <= i < |procs| && SendsFor(wanted, procs[i], s);
    ProcessSampleValues(procs[i], procs[i].name.value, s);
  }

  // ------------------------------------------------------------ collector

  /** ProcessCollector: the five descriptors and the include set it was built with. */
  class ProcessCollector {
    const includeNames: set<string>

    /** NewProcessCollector. */
    constructor (wanted: set<string>)
      ensures includeNames == wanted
    {
      includeNames := wanted;
    }

    /**
     * Collect: enumerate, skip processes whose name fails or is filtered
     * out, read the command line and user with their fall-backs, and send
     * each process's samples; it sends exactly CollectSamples.
     */
    method Collect(processes: Option<seq<NodeProc>>) returns (out: seq<NodeSample>)
      ensures out == CollectSamples(includeNames, processes)
    {
      out := [];
      if processes.None? {
        return;
      }
      var procs := processes.value;
      for i := 0 to |procs|
        invariant out == ScrapeSamples(includeNames, procs[..i])
      {
        assert procs[..i + 1][..i] == procs[..i];
        var proc := procs[i];
        if proc.name.None? {
          continue;
        }
        var name := proc.name.value;
        if |includeNames| > 0 {
          var nn := NormalizeName(name);
          if nn !in includeNames {
            continue;
          }
        }
        var sent := CollectProcess(proc, name);
        out := out + sent;
        assert sent == SentBy(includeNames)(proc);
      }
      assert procs[..|procs|] == procs;
    }

    /** One pass of Collect's loop for a process that passed the filter. */
    static method CollectProcess(proc: NodeProc, name: string) returns (sent: seq<NodeSample>)
      ensures sent == ProcessSamples(proc, name)
    {
      var cmdline: string;
      if proc.cmdline.Some? {
        cmdline := proc.cmdline.value;
      } else {
        cmdline := "";
      }
      var user: string;
      if proc.username.Some? {
        user := proc.username.value;
      } else {
        user := "unknown";
      }
      var labelValues := [name, Itoa(proc.pid as int), cmdline, user];
      assert labelValues == ProcessLabels(proc, name);
      sent := [];
      if proc.cpuPercent.Some? {
        var cpuPercent := proc.cpuPercent.value;
        if cpuPercent > 0.0 {
          sent := sent + [Sample(Cpu, GaugeValue, cpuPercent, labelValues)];
        }
      }
      assert sent == PositiveGauge(Cpu, proc.cpuPercent, labelValues);
      ghost var expected := sent;
      if proc.memoryPercent.Some? {
        var memPercent := proc.memoryPercent.value;
        if memPercent > 0.0 {
          sent := sent + [Sample(Memory, GaugeValue, memPercent, labelValues)];
        }
      }
      assert sent == expected + PositiveGauge(Memory, proc.memoryPercent, labelValues);
      expected := sent;
      if proc.openFiles.Some? {
        var count := proc.openFiles.value;
        if count > 0 {
          sent := sent + [Sample(OpenFiles, GaugeValue, count as real, labelValues)];
        }
      }
      assert sent == expected + PositiveGauge(OpenFiles, OpenFilesValue(proc), labelValues);
      expected := sent;
      if proc.ioCounters.Some? {
        var io := proc.ioCounters.value;
        sent := sent + [Sample(ReadBytesTotal, CounterValue, io.readBytes as real, labelValues)];
        sent := sent + [Sample(WriteBytesTotal, CounterValue, io.writeBytes as real, labelValues)];
      }
      assert sent == expected + IoSamples(proc.ioCounters, labelValues);
    }
  }
}
