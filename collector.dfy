/** The process collector: its configuration, the boot-time probe that decides
    whether it is available, and the collection pass that turns the per-process
    records into six metric samples. */
module Collector {
  import opened Wrappers
  import opened Bytes
  import opened StatRecord
  import opened Aggregation

  /** Clock ticks per second when the platform cannot say. */
  const DEFAULT_TICKS: real := 100.0

  predicate EndsWith(s: string, suffix: string) {
    |suffix| <= |s| && s[|s| - |suffix|..] == suffix
  }

  /** The metric-name prefix: `<namespace>_process_`, or `process_` for an empty namespace. */
  function Prefix(namespace: string): (prefix: string)
    ensures EndsWith(prefix, "process_")
    ensures namespace == "" ==> prefix == "process_"
    ensures namespace != "" ==> |prefix| == |namespace| + 9 && prefix[..|namespace| + 1] == namespace + "_"
  {
    if namespace != "" then namespace + "_process_" else "process_"
  }

  /** Different namespaces give different prefixes. */
  lemma PrefixInjective(namespace1: string, namespace2: string)
    requires Prefix(namespace1) == Prefix(namespace2)
    ensures namespace1 == namespace2
  {
    var p := Prefix(namespace1);
    if namespace1 != "" && namespace2 != "" {
      assert namespace1 == p[..|namespace1|] == namespace2;
    }
  }

  /** The name suffix and help text of each of the six metric families. */
  const VMEM_SUFFIX: string := "virtual_memory_bytes"
  const VMEM_HELP: string := "Virtual memory size in bytes."
  const RSS_SUFFIX: string := "resident_memory_bytes"
  const RSS_HELP: string := "Resident memory size in bytes."
  const START_SUFFIX: string := "start_time_seconds"
  const START_HELP: string := "Start time of the process since unix epoch in seconds."
  const CPU_SUFFIX: string := "cpu_seconds_total"
  const CPU_HELP: string := "Total user and system CPU time spent in seconds."
  const OPEN_FDS_SUFFIX: string := "open_fds"
  const OPEN_FDS_HELP: string := "Number of open file descriptors."
  const MAX_FDS_SUFFIX: string := "max_fds"
  const MAX_FDS_HELP: string := "Maximum number of open file descriptors."

  /** The name suffixes of the six samples, in the order a pass emits them. */
  const SUFFIXES: seq<string> := [VMEM_SUFFIX, RSS_SUFFIX, START_SUFFIX, CPU_SUFFIX, OPEN_FDS_SUFFIX, MAX_FDS_SUFFIX]

  const HELP_TEXTS: seq<string> := [VMEM_HELP, RSS_HELP, START_HELP, CPU_HELP, OPEN_FDS_HELP, MAX_FDS_HELP]

  /** A gauge is overwritten at every scrape; a counter only ever grows. */
  datatype Kind = Gauge | Counter

  /** One metric family with its single sample. */
  datatype Sample = Sample(name: string, help: string, value: real, kind: Kind)

  /** The six samples of an available pass; open_fds and max_fds are always 0. */
  function Samples(prefix: string, vmem: real, rss: real, startTime: real, cpu: real): (samples: seq<Sample>)
    ensures |samples| == 6
  {
    [Sample(prefix + VMEM_SUFFIX, VMEM_HELP, vmem, Gauge),
     Sample(prefix + RSS_SUFFIX, RSS_HELP, rss, Gauge),
     Sample(prefix + START_SUFFIX, START_HELP, startTime, Gauge),
     Sample(prefix + CPU_SUFFIX, CPU_HELP, cpu, Counter),
     Sample(prefix + OPEN_FDS_SUFFIX, OPEN_FDS_HELP, 0.0, Gauge),
     Sample(prefix + MAX_FDS_SUFFIX, MAX_FDS_HELP, 0.0, Gauge)]
  }

  /** The six samples are named `<prefix><suffix>` in the order vmem, rss, start time, cpu,
      open_fds, max_fds, carry their help texts, only the cpu sample is a counter, and the two
      file-descriptor samples are 0; no two of them share a name. */
  lemma SamplesShape(prefix: string, vmem: real, rss: real, startTime: real, cpu: real)
    ensures var samples := Samples(prefix, vmem, rss, startTime, cpu);
      && |samples| == 6
      && (forall k :: 0 <= k < 6 ==> samples[k].name == prefix + SUFFIXES[k] && samples[k].help == HELP_TEXTS[k])
      && (forall k :: 0 <= k < 6 ==> (samples[k].kind == Counter <==> k == 3))
      && samples[0].value == vmem && samples[1].value == rss && samples[2].value == startTime
      && samples[3].value == cpu && samples[4].value == 0.0 && samples[5].value == 0.0
      && (forall j, k :: 0 <= j < k < 6 ==> samples[j].name != samples[k].name)
  {
    var samples := Samples(prefix, vmem, rss, startTime, cpu);
    forall j, k | 0 <= j < k < 6
      ensures samples[j].name != samples[k].name
    {
      SuffixesDiffer(prefix, j, k);
    }
  }

  /** Appending two different suffixes to one prefix gives two different names. */
  lemma SuffixesDiffer(prefix: string, j: nat, k: nat)
    requires j < k < 6
    ensures prefix + SUFFIXES[j] != prefix + SUFFIXES[k]
  {
    assert (prefix + SUFFIXES[j])[|prefix|..] == SUFFIXES[j];
    assert (prefix + SUFFIXES[k])[|prefix|..] == SUFFIXES[k];
  }

  /** No `p` in `s` is directly followed by an `r`. */
  predicate NoPr(s: string) {
    forall m :: 0 <= m < |s| - 1 ==> !(s[m] == 'p' && s[m + 1] == 'r')
  }

  lemma SuffixesNoPr(k: nat)
    requires k < 6
    ensures NoPr(SUFFIXES[k])
  {
  }

  /** A name under a shorter prefix never equals one under a longer prefix: the `pr` of the
      longer prefix's `process_` would have to fall inside `process_` or inside a suffix. */
  lemma NoShift(p1: string, s1: string, p2: string, s2: string)
    requires |p1| < |p2| && EndsWith(p1, "process_") && EndsWith(p2, "process_")
    requires NoPr(s1)
    ensures p1 + s1 != p2 + s2
  {
    var x1, x2 := p1 + s1, p2 + s2;
    if |x1| == |x2| {
      var i, d := |p2| - 8, |p2| - |p1|;
      assert x2[i] == 'p' && x2[i + 1] == 'r';
      if d < 8 {
        assert x1[i] == p1[i] == "process_"[d];
      } else {
        assert x1[i] == s1[d - 8] && x1[i + 1] == s1[d - 7];
      }
      assert x1[i] != x2[i] || x1[i + 1] != x2[i + 1];
    }
  }

  /** Collectors never share a metric name: a name `<prefix><suffix>` determines both the
      namespace and which of the six samples it belongs to. */
  lemma NamesDisjoint(namespace1: string, namespace2: string, j: nat, k: nat)
    requires j < 6 && k < 6
    requires Prefix(namespace1) + SUFFIXES[j] == Prefix(namespace2) + SUFFIXES[k]
    ensures namespace1 == namespace2 && j == k
  {
    var p1, p2 := Prefix(namespace1), Prefix(namespace2);
    SuffixesNoPr(j);
    SuffixesNoPr(k);
    if |p1| < |p2| {
      NoShift(p1, SUFFIXES[j], p2, SUFFIXES[k]);
    } else if |p2| < |p1| {
      NoShift(p2, SUFFIXES[k], p1, SUFFIXES[j]);
    } else {
      var x := p1 + SUFFIXES[j];
      assert p1 == x[..|p1|] == p2;
      PrefixInjective(namespace1, namespace2);
      if j < k {
        SuffixesDiffer(p1, j, k);
      } else if k < j {
        SuffixesDiffer(p1, k, j);
      }
    }
  }

  /** Python truthiness of `_btime`: None, 0 and 0.0 are all false. */
  predicate Truthy(btime: Option<real>) {
    btime.Some? && btime.value != 0.0
  }

  /** `b'btime '` */
  const BTIME_KEY: Bytes := ['b' as int, 't' as int, 'i' as int, 'm' as int, 'e' as int, ' ' as int]

  predicate IsBtimeLine(line: Bytes) {
    StartsWith(line, BTIME_KEY)
  }

  /** `float(line.split()[1])`, as `_boot_time` returns it. */
  function BtimeValue(line: Bytes): (r: Outcome<Option<real>>)
    ensures r.Raise? <==> |Split(line)| < 2 || !IsDecimal(Split(line)[1])
    ensures r.Raise? ==> (r.exc == IndexError <==> |Split(line)| < 2)
    ensures r.Raise? ==> r.exc == IndexError || r.exc == ValueError
    ensures r.Return? ==> r.value == Some(DecimalValue(Split(line)[1]) as real)
  {
    var seconds :- FloatField(Split(line), 1);
    Return(Some(seconds))
  }

  /** The loop of `_boot_time` over the lines of `<proc>/stat`. */
  function FirstBtime(lines: seq<Bytes>): (r: Outcome<Option<real>>)
    ensures r.Raise? ==> r.exc == IndexError || r.exc == ValueError
  {
    if lines == [] then Return(None)
    else if IsBtimeLine(lines[0]) then BtimeValue(lines[0])
    else FirstBtime(lines[1..])
  }

  /** The probe returns None exactly when no line starts with `btime `. */
  lemma {:induction false} FirstBtimeNone(lines: seq<Bytes>)
    ensures FirstBtime(lines) == Return(None) <==> forall i :: 0 <= i < |lines| ==> !IsBtimeLine(lines[i])
    decreases |lines|
  {
    if lines != [] {
      FirstBtimeNone(lines[1..]);
      assert forall i :: 0 < i < |lines| ==> lines[i] == lines[1..][i - 1];
    }
  }

  /** The first line that starts with `btime ` decides the probe; later lines are never read. */
  lemma {:induction false} FirstBtimeAt(lines: seq<Bytes>, i: nat)
    requires i < |lines| && IsBtimeLine(lines[i])
    requires forall j :: 0 <= j < i ==> !IsBtimeLine(lines[j])
    ensures FirstBtime(lines) == BtimeValue(lines[i])
    decreases i
  {
    if i > 0 {
      FirstBtimeAt(lines[1..], i - 1);
    }
  }

  /** `_boot_time()`: opening `<proc>/stat` raises IOError when the file cannot be read. */
  function ProbeBootTime(stat: FileRead<seq<Bytes>>): (r: Outcome<Option<real>>)
    ensures r.Raise? && r.exc == IOError <==> stat.Unreadable?
  {
    match stat
    case Unreadable => Raise(IOError)
    case Content(lines) => FirstBtime(lines)
  }

  /** The value `__init__` leaves in `_btime`: 0 when the probe raises IOError, the probe's
      result otherwise; any other exception of the probe escapes from `__init__`. */
  function InitialBtime(stat: FileRead<seq<Bytes>>): (r: Outcome<Option<real>>)
    ensures r.Raise? <==> ProbeBootTime(stat).Raise? && ProbeBootTime(stat).exc != IOError
    ensures r.Raise? ==> r.exc == ProbeBootTime(stat).exc
    ensures ProbeBootTime(stat).Return? ==> r == ProbeBootTime(stat)
    ensures stat.Unreadable? ==> r == Return(Some(0.0))
  {
    match ProbeBootTime(stat)
    case Raise(IOError) => Return(Some(0.0))
    case Raise(e) => Raise(e)
    case Return(b) => Return(b)
  }

  /** `start_time`: 0 unless `parts` is a non-empty list, and then
      `float(parts[19]) / ticks + btime`. */
  function StartTime(parts: Option<seq<Bytes>>, ticks: real, btime: real): (r: Outcome<real>)
    requires ticks > 0.0
    ensures parts.None? || parts.value == [] ==> r == Return(0.0)
    ensures parts.Some? && parts.value != [] ==>
      (r.Raise? <==> |parts.value| <= STARTTIME || !IsDecimal(parts.value[STARTTIME]))
    ensures r.Raise? ==> parts.Some? && (r.exc == IndexError <==> |parts.value| <= STARTTIME)
    ensures r.Raise? ==> r.exc == IndexError || r.exc == ValueError
    ensures parts.Some? && parts.value != [] && r.Return? ==>
      r.value == DecimalValue(parts.value[STARTTIME]) as real / ticks + btime
  {
    if parts.Some? && |parts.value| > 0 then
      var seconds :- FloatField(parts.value, STARTTIME);
      Return(seconds / ticks + btime)
    else
      Return(0.0)
  }

  /** What `collect()` makes of the outcome of its loop: no samples when `_btime` is
      falsy; otherwise the loop's exception, the exception of the start-time conversion,
      or the six samples built from the accumulators. */
  function Report(prefix: string, ticks: real, btime: Option<real>, looped: Outcome<Acc>): (r: Outcome<seq<Sample>>)
    requires ticks > 0.0
    ensures !Truthy(btime) ==> r == Return([])
    ensures Truthy(btime) && looped.Raise? ==> r == Raise(looped.exc)
    ensures Truthy(btime) && looped.Return? && r.Return? ==>
      && |r.value| == 6 && r.value[0].value == looped.value.vmem
      && r.value[1].value == looped.value.rss && r.value[3].value == looped.value.cpu
  {
    if !Truthy(btime) then Return([])
    else
      var acc :- looped;
      var startTime :- StartTime(acc.parts, ticks, btime.value);
      Return(Samples(prefix, acc.vmem, acc.rss, startTime, acc.cpu))
  }

  /** What one call of `collect()` returns, or the exception it raises, for the collector's
      configuration and a snapshot: the listing of `/proc`, the per-pid `stat` reads, the page size. */
  function CollectSpec(prefix: string, ticks: real, btime: Option<real>, pageSize: nat,
                       listing: seq<string>, files: map<string, FileRead<Bytes>>): (r: Outcome<seq<Sample>>)
    requires ticks > 0.0
    ensures !Truthy(btime) ==> r == Return([])
  {
    Report(prefix, ticks, btime, Scan(INITIAL, DigitNames(listing), files, ticks, pageSize))
  }

  /** A pass sees the snapshot only through the records it reads. */
  lemma CollectByRecords(prefix: string, ticks: real, btime: Option<real>, pageSize: nat,
                         listing: seq<string>, files: map<string, FileRead<Bytes>>)
    requires ticks > 0.0
    ensures CollectSpec(prefix, ticks, btime, pageSize, listing, files)
         == Report(prefix, ticks, btime, Fold(INITIAL, Records(DigitNames(listing), files), ticks, pageSize))
  {
    ScanRecords(INITIAL, DigitNames(listing), files, ticks, pageSize);
  }

  /** An available pass that returns gives the six samples, in the fixed order and shape. */
  lemma CollectShape(prefix: string, ticks: real, btime: Option<real>, pageSize: nat,
                     listing: seq<string>, files: map<string, FileRead<Bytes>>)
    requires ticks > 0.0 && Truthy(btime)
    requires CollectSpec(prefix, ticks, btime, pageSize, listing, files).Return?
    ensures var samples := CollectSpec(prefix, ticks, btime, pageSize, listing, files).value;
      && |samples| == 6
      && (forall k :: 0 <= k < 6 ==> samples[k].name == prefix + SUFFIXES[k] && samples[k].help == HELP_TEXTS[k])
      && (forall k :: 0 <= k < 6 ==> (samples[k].kind == Counter <==> k == 3))
      && samples[4].value == 0.0 && samples[5].value == 0.0
      && (forall j, k :: 0 <= j < k < 6 ==> samples[j].name != samples[k].name)
  {
    var looped := Scan(INITIAL, DigitNames(listing), files, ticks, pageSize);
    var acc := looped.value;
    var startTime := StartTime(acc.parts, ticks, btime.value).value;
    SamplesShape(prefix, acc.vmem, acc.rss, startTime, acc.cpu);
  }

  /** What an available pass computes, stated over the records it reads. If every record
      is well formed, the samples carry Σ vsize, Σ rss × page size, the start time of the
      LAST record read (0 when there is none) and Σ (utime + stime) / ticks; otherwise the
      pass raises what the first malformed record raises, or ValueError when only the
      last record's starttime is not a number. */
  lemma CollectTotals(prefix: string, ticks: real, btime: Option<real>, pageSize: nat,
                      listing: seq<string>, files: map<string, FileRead<Bytes>>)
    requires ticks > 0.0 && Truthy(btime)
    ensures var recs := Records(DigitNames(listing), files);
      CollectSpec(prefix, ticks, btime, pageSize, listing, files) ==
        if !AllWellFormed(recs) then
          Raise(Contribute(recs[FirstMalformed(recs)], ticks, pageSize).exc)
        else if recs != [] && !IsDecimal(recs[|recs| - 1][STARTTIME]) then
          Raise(ValueError)
        else
          Return(Samples(prefix, TotalVmem(recs), TotalRss(recs, pageSize),
                         if recs == [] then 0.0
                         else DecimalValue(recs[|recs| - 1][STARTTIME]) as real / ticks + btime.value,
                         TotalCpu(recs, ticks)))
  {
    var recs := Records(DigitNames(listing), files);
    CollectByRecords(prefix, ticks, btime, pageSize, listing, files);
    if AllWellFormed(recs) {
      FoldWellFormed(INITIAL, recs, ticks, pageSize);
    } else {
      FoldMalformed(INITIAL, recs, ticks, pageSize);
    }
  }

  /** With no process record read, an available pass emits six samples that are all 0. */
  lemma CollectNoProcesses(prefix: string, ticks: real, btime: Option<real>, pageSize: nat,
                           listing: seq<string>, files: map<string, FileRead<Bytes>>)
    requires ticks > 0.0 && Truthy(btime)
    requires Records(DigitNames(listing), files) == []
    ensures CollectSpec(prefix, ticks, btime, pageSize, listing, files) == Return(Samples(prefix, 0.0, 0.0, 0.0, 0.0))
  {
    CollectTotals(prefix, ticks, btime, pageSize, listing, files);
  }

  /** An entry that is not all digits, or a pid whose read raises IOError, changes nothing:
      the pass gives the same outcome as over the listing without it. */
  lemma CollectSkips(prefix: string, ticks: real, btime: Option<real>, pageSize: nat,
                     a: seq<string>, name: string, b: seq<string>, files: map<string, FileRead<Bytes>>)
    requires ticks > 0.0
    requires !IsDigitName(name) || ReadStat(files, name) == Unreadable
    ensures CollectSpec(prefix, ticks, btime, pageSize, a + [name] + b, files)
         == CollectSpec(prefix, ticks, btime, pageSize, a + b, files)
  {
    RecordsSkip(a, name, b, files);
    CollectByRecords(prefix, ticks, btime, pageSize, a + [name] + b, files);
    CollectByRecords(prefix, ticks, btime, pageSize, a + b, files);
  }

  /** One process whose record is laid out as proc(5) shows it, whatever its name:
      the samples carry its vsize, rss × page size, starttime / ticks + btime and
      (utime + stime) / ticks. */
  lemma CollectOneProcess(prefix: string, ticks: real, btime: Option<real>, pageSize: nat,
                          pid: string, pidField: Bytes, comm: Bytes, fields: seq<Bytes>)
    requires ticks > 0.0 && Truthy(btime) && IsDigitName(pid)
    requires ParenFree(fields) && |fields| > RSS
    requires IsDecimal(fields[UTIME]) && IsDecimal(fields[STIME]) && IsDecimal(fields[STARTTIME])
    requires IsDecimal(fields[VSIZE]) && IsDecimal(fields[RSS])
    ensures CollectSpec(prefix, ticks, btime, pageSize, [pid], map[pid := Content(Layout(pidField, comm, fields))])
         == Return(Samples(prefix,
                           DecimalValue(fields[VSIZE]) as real,
                           DecimalValue(fields[RSS]) as real * pageSize as real,
                           DecimalValue(fields[STARTTIME]) as real / ticks + btime.value,
                           DecimalValue(fields[UTIME]) as real / ticks + DecimalValue(fields[STIME]) as real / ticks))
  {
    var files := map[pid := Content(Layout(pidField, comm, fields))];
    LayoutRecords(pid, pidField, comm, fields);
    CollectByRecords(prefix, ticks, btime, pageSize, [pid], files);
    ReportOne(prefix, ticks, btime, pageSize, fields);
  }

  /** The snapshot of one process whose record is laid out as proc(5) shows it reads as that record's fields. */
  lemma LayoutRecords(pid: string, pidField: Bytes, comm: Bytes, fields: seq<Bytes>)
    requires IsDigitName(pid) && ParenFree(fields)
    ensures Records(DigitNames([pid]), map[pid := Content(Layout(pidField, comm, fields))]) == [fields]
  {
    var files := map[pid := Content(Layout(pidField, comm, fields))];
    assert DigitNames([pid]) == [pid];
    RecordsReadable(pid, files, Layout(pidField, comm, fields));
    FieldsOfLayout(pidField, comm, fields);
  }

  /** The samples a pass reports for one well-formed record. */
  lemma ReportOne(prefix: string, ticks: real, btime: Option<real>, pageSize: nat, fields: seq<Bytes>)
    requires ticks > 0.0 && Truthy(btime) && WellFormed(fields) && IsDecimal(fields[STARTTIME])
    ensures Report(prefix, ticks, btime, Fold(INITIAL, [fields], ticks, pageSize))
         == Return(Samples(prefix,
                           DecimalValue(fields[VSIZE]) as real,
                           DecimalValue(fields[RSS]) as real * pageSize as real,
                           DecimalValue(fields[STARTTIME]) as real / ticks + btime.value,
                           DecimalValue(fields[UTIME]) as real / ticks + DecimalValue(fields[STIME]) as real / ticks))
  {
    FoldOne(INITIAL, fields, ticks, pageSize);
    var acc := Acc(0.0 + Vsize(fields), 0.0 + ResidentBytes(fields, pageSize), 0.0 + CpuSeconds(fields, ticks), Some(fields));
    var startTime := DecimalValue(fields[STARTTIME]) as real / ticks + btime.value;
    assert StartTime(acc.parts, ticks, btime.value) == Return(startTime);
    ReportOf(prefix, ticks, btime, acc, startTime);
    OneRecordSums(fields, ticks, pageSize);
  }

  /** What an available pass reports when its loop returns `acc` and the start time converts. */
  lemma ReportOf(prefix: string, ticks: real, btime: Option<real>, acc: Acc, startTime: real)
    requires ticks > 0.0 && Truthy(btime) && StartTime(acc.parts, ticks, btime.value) == Return(startTime)
    ensures Report(prefix, ticks, btime, Return(acc)) == Return(Samples(prefix, acc.vmem, acc.rss, startTime, acc.cpu))
  {
  }

  /** Proof step of ReportOne: adding one record's values to the zero accumulators. */
  lemma OneRecordSums(fields: seq<Bytes>, ticks: real, pageSize: nat)
    requires ticks > 0.0 && WellFormed(fields)
    ensures 0.0 + Vsize(fields) == DecimalValue(fields[VSIZE]) as real
    ensures 0.0 + ResidentBytes(fields, pageSize) == DecimalValue(fields[RSS]) as real * pageSize as real
    ensures 0.0 + CpuSeconds(fields, ticks)
         == DecimalValue(fields[UTIME]) as real / ticks + DecimalValue(fields[STIME]) as real / ticks
  {
  }

  /** A process with utime 50, stime 30, starttime 1000, vsize 204800 and rss 10 pages,
      whatever its pid and name (`weird (name) here` included), with 100 ticks per second,
      4096-byte pages and boot time 1600000000: the pass gives vmem 204800, rss 40960,
      start time 1600000010 and cpu 0.8 seconds. */
  lemma ExampleOneProcess(prefix: string, ticks: real, btime: real, pageSize: nat,
                          pid: string, pidField: Bytes, comm: Bytes, fields: seq<Bytes>)
    requires ticks == 100.0 && btime == 1600000000.0 && pageSize == 4096 && IsDigitName(pid)
    requires ParenFree(fields) && |fields| > RSS
    requires fields[UTIME] == Decimal(50) && fields[STIME] == Decimal(30) && fields[STARTTIME] == Decimal(1000)
    requires fields[VSIZE] == Decimal(204800) && fields[RSS] == Decimal(10)
    ensures CollectSpec(prefix, ticks, Some(btime), pageSize, [pid], map[pid := Content(Layout(pidField, comm, fields))])
         == Return(Samples(prefix, 204800.0, 40960.0, 1600000010.0, 0.8))
  {
    var files := map[pid := Content(Layout(pidField, comm, fields))];
    ExampleValues(fields);
    LayoutRecords(pid, pidField, comm, fields);
    CollectByRecords(prefix, ticks, Some(btime), pageSize, [pid], files);
    ExampleReport(prefix, ticks, btime, pageSize, fields);
  }

  /** The samples of the example's record, once it is read. */
  lemma ExampleReport(prefix: string, ticks: real, btime: real, pageSize: nat, fields: seq<Bytes>)
    requires ticks == 100.0 && btime == 1600000000.0 && pageSize == 4096
    requires WellFormed(fields) && IsDecimal(fields[STARTTIME])
    requires DecimalValue(fields[UTIME]) == 50 && DecimalValue(fields[STIME]) == 30
    requires DecimalValue(fields[STARTTIME]) == 1000
    requires DecimalValue(fields[VSIZE]) == 204800 && DecimalValue(fields[RSS]) == 10
    ensures Report(prefix, ticks, Some(btime), Fold(INITIAL, [fields], ticks, pageSize))
         == Return(Samples(prefix, 204800.0, 40960.0, 1600000010.0, 0.8))
  {
    ReportOne(prefix, ticks, Some(btime), pageSize, fields);
    var vmem := DecimalValue(fields[VSIZE]) as real;
    var rss := DecimalValue(fields[RSS]) as real * pageSize as real;
    var startTime := DecimalValue(fields[STARTTIME]) as real / ticks + btime;
    var cpu := DecimalValue(fields[UTIME]) as real / ticks + DecimalValue(fields[STIME]) as real / ticks;
    assert vmem == 204800.0 && rss == 40960.0 && startTime == 1600000010.0 && cpu == 0.8;
  }

  /** The numbers the example's fields hold. */
  lemma ExampleValues(fields: seq<Bytes>)
    requires |fields| > RSS
    requires fields[UTIME] == Decimal(50) && fields[STIME] == Decimal(30) && fields[STARTTIME] == Decimal(1000)
    requires fields[VSIZE] == Decimal(204800) && fields[RSS] == Decimal(10)
    ensures IsDecimal(fields[UTIME]) && IsDecimal(fields[STIME]) && IsDecimal(fields[STARTTIME])
    ensures IsDecimal(fields[VSIZE]) && IsDecimal(fields[RSS])
    ensures DecimalValue(fields[UTIME]) == 50 && DecimalValue(fields[STIME]) == 30
    ensures DecimalValue(fields[STARTTIME]) == 1000
    ensures DecimalValue(fields[VSIZE]) == 204800 && DecimalValue(fields[RSS]) == 10
  {
    DecimalRoundTrip(50);
    DecimalRoundTrip(30);
    DecimalRoundTrip(1000);
    DecimalRoundTrip(204800);
    DecimalRoundTrip(10);
  }

  /** A collector whose boot-time probe found the stat file unreadable, or no `btime ` line
      in it, is unavailable: every pass returns no samples, whatever the processes are. */
  lemma FailedProbeDisables(stat: FileRead<seq<Bytes>>, prefix: string, ticks: real, pageSize: nat,
                            listing: seq<string>, files: map<string, FileRead<Bytes>>)
    requires ticks > 0.0
    requires stat.Unreadable? || forall i :: 0 <= i < |stat.data| ==> !IsBtimeLine(stat.data[i])
    ensures InitialBtime(stat).Return? && !Truthy(InitialBtime(stat).value)
    ensures CollectSpec(prefix, ticks, InitialBtime(stat).value, pageSize, listing, files) == Return([])
  {
    if stat.Content? {
      FirstBtimeNone(stat.data);
    }
  }

  class ProcessCollector {
    const prefix: string
    const ticks: real
    const btime: Option<real>

    /** The configuration part of `__init__`: the prefix, and the clock-tick rate the
        platform reports (`clockTicks`, None when the query fails) or 100.0. */
    constructor (namespace: string, clockTicks: Option<real>, btime: Option<real>)
      requires clockTicks.Some? ==> clockTicks.value > 0.0
      ensures prefix == Prefix(namespace)
      ensures ticks == (if clockTicks.Some? then clockTicks.value else DEFAULT_TICKS)
      ensures ticks > 0.0
      ensures this.btime == btime
    {
      prefix := Prefix(namespace);
      var t := DEFAULT_TICKS;
      if clockTicks.Some? {
        t := clockTicks.value;
      }
      ticks := t;
      this.btime := btime;
    }

    /** `ProcessCollector(namespace, ...)`: `_btime` starts as 0, the probe's IOError is
        swallowed, and any other exception of the probe escapes. */
    static method Create(namespace: string, clockTicks: Option<real>, stat: FileRead<seq<Bytes>>)
      returns (r: Outcome<ProcessCollector>)
      requires clockTicks.Some? ==> clockTicks.value > 0.0
      ensures r.Raise? <==> InitialBtime(stat).Raise?
      ensures r.Raise? ==> r.exc == InitialBtime(stat).exc
      ensures r.Return? ==> fresh(r.value) && r.value.prefix == Prefix(namespace)
      ensures r.Return? ==> r.value.ticks == (if clockTicks.Some? then clockTicks.value else DEFAULT_TICKS)
      ensures r.Return? ==> r.value.ticks > 0.0 && r.value.btime == InitialBtime(stat).value
    {
      var btime: Option<real> := Some(0.0);
      var probe := BootTime(stat);
      match probe {
        case Raise(IOError) =>
        case Raise(e) => return Raise(e);
        case Return(b) => btime := b;
      }
      var collector := new ProcessCollector(namespace, clockTicks, btime);
      return Return(collector);
    }

    /** `_boot_time()`: reads the lines of `<proc>/stat` and returns at the first one that
        starts with `btime `; None when there is none. */
    static method BootTime(stat: FileRead<seq<Bytes>>) returns (r: Outcome<Option<real>>)
      ensures r == ProbeBootTime(stat)
    {
      if stat.Unreadable? {
        return Raise(IOError);
      }
      var lines := stat.data;
      for i := 0 to |lines|
        invariant forall j :: 0 <= j < i ==> !IsBtimeLine(lines[j])
      {
        if IsBtimeLine(lines[i]) {
          FirstBtimeAt(lines, i);
          var seconds :- FloatField(Split(lines[i]), 1);
          return Return(Some(seconds));
        }
      }
      FirstBtimeNone(lines);
      return Return(None);
    }

    /** The loop of `collect()` over the digit-named entries `pids`: it returns the four
        accumulators `vmem_value`, `rss_value`, `cpu_value` and `parts`, or the first
        exception other than IOError. */
    method Accumulate(pids: seq<string>, files: map<string, FileRead<Bytes>>, pageSize: nat)
      returns (r: Outcome<Acc>)
      requires ticks > 0.0
      ensures r == Scan(INITIAL, pids, files, ticks, pageSize)
    {
      var vmemValue, rssValue, cpuValue := 0.0, 0.0, 0.0;
      var parts: Option<seq<Bytes>> := None;
      for i := 0 to |pids|
        invariant Scan(Acc(vmemValue, rssValue, cpuValue, parts), pids[i..], files, ticks, pageSize)
               == Scan(INITIAL, pids, files, ticks, pageSize)
      {
        ghost var before := Acc(vmemValue, rssValue, cpuValue, parts);
        var read := ReadStat(files, pids[i]);
        ScanFrom(before, pids, i, files, ticks, pageSize);
        if read.Content? {
          var fields := Fields(read.data);
          AbsorbRecord(before, fields, ticks, pageSize);
          parts := Some(fields);
          var vsize :- FloatField(fields, VSIZE);
          vmemValue := vmemValue + vsize;
          var rssPages :- FloatField(fields, RSS);
          rssValue := rssValue + rssPages * pageSize as real;
          var utime :- FloatField(fields, UTIME);
          var stime :- FloatField(fields, STIME);
          cpuValue := cpuValue + (utime / ticks + stime / ticks);
          StepConverted(before, read.data, ticks, pageSize, vsize, rssPages, utime, stime);
        } else {
          assert Step(before, read, ticks, pageSize) == Return(before);
        }
      }
      assert pids[|pids|..] == [];
      return Return(Acc(vmemValue, rssValue, cpuValue, parts));
    }

    /** `collect()` over a snapshot: `listing` is what `os.listdir('/proc')` returns,
        `files` what reading each `<proc>/<pid>/stat` gives, `pageSize` the module's page size. */
    method Collect(listing: seq<string>, files: map<string, FileRead<Bytes>>, pageSize: nat)
      returns (r: Outcome<seq<Sample>>)
      requires ticks > 0.0
      ensures r == CollectSpec(prefix, ticks, btime, pageSize, listing, files)
    {
      if !Truthy(btime) {
        return Return([]);
      }
      var result: seq<Sample> := [];
      var acc :- Accumulate(DigitNames(listing), files, pageSize);
      var vmem := Sample(prefix + VMEM_SUFFIX, VMEM_HELP, acc.vmem, Gauge);
      var rss := Sample(prefix + RSS_SUFFIX, RSS_HELP, acc.rss, Gauge);
      var startTime := Sample(prefix + START_SUFFIX, START_HELP, 0.0, Gauge);
      var cpu := Sample(prefix + CPU_SUFFIX, CPU_HELP, acc.cpu, Counter);
      if acc.parts.Some? && |acc.parts.value| > 0 {
        var startTicks :- FloatField(acc.parts.value, STARTTIME);
        startTime := Sample(prefix + START_SUFFIX, START_HELP, startTicks / ticks + btime.value, Gauge);
      }
      assert StartTime(acc.parts, ticks, btime.value) == Return(startTime.value);
      result := result + [vmem, rss, startTime, cpu];
      var maxFds := Sample(prefix + MAX_FDS_SUFFIX, MAX_FDS_HELP, 0.0, Gauge);
      var openFds := Sample(prefix + OPEN_FDS_SUFFIX, OPEN_FDS_HELP, 0.0, Gauge);
      result := result + [openFds, maxFds];
      assert result == Samples(prefix, acc.vmem, acc.rss, startTime.value, acc.cpu);
      return Return(result);
    }

    /** `collect()` touches only its locals: two passes over one snapshot agree. */
    method CollectTwice(listing: seq<string>, files: map<string, FileRead<Bytes>>, pageSize: nat)
      returns (first: Outcome<seq<Sample>>, second: Outcome<seq<Sample>>)
      requires ticks > 0.0
      ensures first == second
    {
      first := Collect(listing, files, pageSize);
      second := Collect(listing, files, pageSize);
    }
  }
}
