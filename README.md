# Process collector model

A Dafny model of `ProcessCollector` from the Prometheus Python client
(`prometheus_client/process_collector.py`). The collector reports six metric
families about processes on a Linux host:

- virtual memory;
- resident memory;
- start time;
- CPU seconds;
- open and maximum file descriptors.

It proceeds in three steps:

- **Construction.** It builds the metric-name prefix from a namespace and
  picks the clock-tick rate. It probes the boot time by looking for the first
  `btime ` line of `<proc>/stat`. A probe that cannot read the file, or
  finds no `btime ` line, leaves the collector unavailable.
- **Collection.** Each pass lists `/proc` and keeps the all-digit entries.
  For each one it reads `<proc>/<pid>/stat` and splits the record after its
  last `)`. It then adds up vsize, rss × page size and (utime + stime) / ticks,
  skipping pids whose read raises an IOError.
- **Start time.** This is taken from the last record read.

The model is split into five modules:

- `Wrappers` stands for Python's `None`, its exceptions (`Outcome`, which
  propagates with `:-`) and file reads.
- `Bytes` covers the `bytes` operations the collector uses:
  - `split()` on ASCII whitespace;
  - `split(b')')[-1]`;
  - `startswith`;
  - `float()` of a decimal token.

  It also proves that splitting undoes joining with spaces, and that a
  decimal token reads back as its number.
- `StatRecord` covers one `stat` record:
  - the field positions;
  - the cut at the last `)`;
  - the four conversions of one loop iteration, in source order, with the
    exception each one raises.

  It proves that a record laid out as proc(5) shows it yields its fields at
  fixed offsets, whatever the process name holds (spaces, `)`, `(`).
- `Aggregation` describes the accumulation loop as functions:
  - `Scan` is the loop over pids, exactly as written.
  - `Contents` lists the stat contents the loop reads, and `Records` their
    fields.
  - `Fold` is the loop over those records.
  - `TotalVmem`, `TotalRss` and `TotalCpu` are the reference sums.

  It also holds the lemmas that connect these.
- `Collector` holds the prefix, the boot-time probe, the six samples,
  `CollectSpec` (what one `collect()` call returns or raises) and the
  properties proved about it. Its class `ProcessCollector` carries the
  fields `__init__` sets. `BootTime`, `Accumulate` and `Collect` are written
  with the source's loops, and each is proved equal to its specification
  function.

The environment is passed in as values rather than read:

- the lines of `<proc>/stat`;
- the listing of `/proc`;
- a map from pid to the result of reading its `stat` file, where a pid
  missing from the map raises IOError;
- the clock-tick query result;
- the page size.

Floats are exact reals, so the sums are the mathematical sums. The source's
`_btime` is tested by Python truthiness, where `None`, `0` and `0.0` are all
false; the model writes this test as `Truthy`.

Two facts about the code that are easy to miss:

- `__init__` can raise. A `btime ` line whose second token is missing raises
  IndexError, and one whose token is not a number raises ValueError
  (`_boot_time`, line 49). Only IOError is caught (line 40), so both
  exceptions escape from construction. `Create` returns them.
- `parts[19]`, `parts[20]` and `parts[21]` (lines 89, 66 and 68) are counted
  from the `)`-cut. They are proc(5) fields (22) starttime, (23) vsize and
  (24) rss, and `parts[11]` and `parts[12]` are (14) utime and (15) stime.
  The constants in `StatRecord` name these positions.

## Model

| member | source | states |
|---|---|---|
| `Collector.Prefix` | prometheus_client/process_collector.py:26-29 | the prefix ends in `process_`; it is exactly `process_` for an empty namespace, and `<namespace>_` followed by `process_` otherwise |
| `Collector.PrefixInjective` | prometheus_client/process_collector.py:26-29 | two namespaces with the same prefix are equal |
| `Collector.ProcessCollector.constructor` | prometheus_client/process_collector.py:26-34 | the prefix is `Prefix(namespace)`; ticks is the platform's clock-tick rate, or 100.0 when the query fails; the boot time is the value given |
| `Collector.ProcessCollector.Create` | prometheus_client/process_collector.py:36-41 | construction raises exactly when the probe raises something other than IOError, and raises that exception; otherwise the collector has the prefix, the ticks and the btime `InitialBtime` gives |
| `Collector.InitialBtime` | prometheus_client/process_collector.py:37-41 | `_btime` is 0 when the stat file is unreadable and the probe's value when the probe returns; construction raises exactly when the probe raises something other than IOError, and raises that exception |
| `Collector.ProcessCollector.BootTime` | prometheus_client/process_collector.py:45-49 | the line-by-line loop equals the probe specification: IOError for an unreadable file, otherwise the first `btime ` line decides |
| `Collector.FirstBtimeNone` | prometheus_client/process_collector.py:45-49 | the probe returns None if and only if no line starts with `btime ` |
| `Collector.FirstBtimeAt` | prometheus_client/process_collector.py:47-49 | when line i is the first that starts with `btime `, the probe's outcome is `float()` of that line's second token, whatever the later lines hold |
| `Collector.BtimeValue` | prometheus_client/process_collector.py:49 | `float(line.split()[1])`; it raises exactly when the line has fewer than two tokens (IndexError) or its second token is not a number (ValueError), and otherwise returns that number |
| `Collector.FirstBtime` | prometheus_client/process_collector.py:47-49 | the loop over the lines; its only exceptions are IndexError and ValueError; the outcome is stated by `FirstBtimeNone` and `FirstBtimeAt` |
| `Collector.ProbeBootTime` | prometheus_client/process_collector.py:45-49 | `_boot_time()`; it raises IOError exactly when `<proc>/stat` cannot be read, so the `except IOError` at line 40 catches nothing else |
| `Collector.FailedProbeDisables` | prometheus_client/process_collector.py:37-53 | after a probe that found the file unreadable or found no `btime ` line, `_btime` is falsy and every pass returns no samples |
| `Collector.CollectSpec` | prometheus_client/process_collector.py:51-53 | a pass with a falsy `_btime` returns the empty list, whatever the processes are |
| `Collector.Report` | prometheus_client/process_collector.py:52-111 | gate: no samples when `_btime` is falsy; an exception from the loop propagates; after a loop that returns, the samples have length 6 and carry the loop's vmem, rss and cpu sums |
| `Collector.StartTime` | prometheus_client/process_collector.py:82-92 | the start-time value: 0 when `parts` is None or empty; otherwise `float(parts[19]) / ticks + btime`, raising exactly when there is no field 19 (IndexError) or it is not a number (ValueError) |
| `Collector.Samples` | prometheus_client/process_collector.py:76-111 | the six samples of an available pass; the contract states the length 6, and `SamplesShape` states the names, help texts, kinds, values and distinct names |
| `Collector.ProcessCollector.Accumulate` | prometheus_client/process_collector.py:55-74 | the imperative loop over the pids returns exactly what `Aggregation.Scan` gives: the four accumulators, or the first exception other than IOError |
| `Collector.ProcessCollector.Collect` | prometheus_client/process_collector.py:51-115 | `collect()` returns or raises exactly what `CollectSpec` says for the collector's prefix, ticks and btime and the snapshot |
| `Collector.ProcessCollector.CollectTwice` | prometheus_client/process_collector.py:51-115 | two passes over the same snapshot give the same outcome (`collect()` changes no state) |
| `Collector.CollectTotals` | prometheus_client/process_collector.py:54-98 | if every record read is well formed, the pass reports Σ vsize, Σ rss × page size, the LAST record's starttime / ticks + btime (0 with no record) and Σ (utime + stime) / ticks; otherwise it raises what the first malformed record raises; it raises ValueError when only the last record's starttime is not a number |
| `Collector.CollectNoProcesses` | prometheus_client/process_collector.py:76-111 | an available pass that reads no record reports six samples, all 0 |
| `Collector.CollectShape` | prometheus_client/process_collector.py:76-111 | an available pass that returns gives six samples, named `<prefix>` followed by the suffixes in the order vmem, rss, start time, cpu, open_fds, max_fds, with their help texts; only cpu is a counter; both fd samples are 0; no two names are equal |
| `Collector.SamplesShape` | prometheus_client/process_collector.py:76-111 | the six samples carry the given values, names and help texts in the fixed order; only cpu is a counter; the names are pairwise distinct |
| `Collector.SuffixesDiffer` | prometheus_client/process_collector.py:76-110 | two different metric suffixes after the same prefix give different names |
| `Collector.NamesDisjoint` | prometheus_client/process_collector.py:26-29 | a metric name `<prefix><suffix>` determines both the namespace and which of the six samples it names, so collectors in different namespaces never share a metric name |
| `Collector.CollectByRecords` | prometheus_client/process_collector.py:60-74 | a pass depends on the snapshot only through the sequence of records it reads: it equals the report of `Fold` over `Records` |
| `Collector.CollectSkips` | prometheus_client/process_collector.py:60-74 | inserting a listing entry that is not all digits, or a pid whose read raises IOError, anywhere in the listing leaves the pass's outcome unchanged |
| `Collector.CollectOneProcess` | prometheus_client/process_collector.py:60-92 | one process whose record is laid out as proc(5) shows it, whatever its name, yields vmem = vsize, rss = rss × page size, start time = starttime / ticks + btime, cpu = (utime + stime) / ticks |
| `Collector.LayoutRecords` | prometheus_client/process_collector.py:60-64 | a listing of one digit pid whose stat file holds a proc(5) record reads as exactly that record's fields |
| `Collector.ReportOne` | prometheus_client/process_collector.py:66-92 | for a single well-formed record, the report carries that record's vsize, resident bytes, start time and CPU seconds |
| `Collector.ReportOf` | prometheus_client/process_collector.py:88-98 | proof step (one unfolding of `Report`): when the loop returns and the start-time conversion succeeds, the report is the six samples built from the accumulators and that start time |
| `Collector.ExampleOneProcess` | prometheus_client/process_collector.py:60-92 | a process with utime 50, stime 30, starttime 1000, vsize 204800 and rss 10 pages, with 100 ticks per second, 4096-byte pages and btime 1600000000, whatever its pid and name, yields vmem 204800, rss 40960, start time 1600000010 and cpu 0.8 |
| `Collector.ExampleReport` | prometheus_client/process_collector.py:66-92 | the report for the example's record, once read, carries exactly those four values |
| `Collector.ExampleValues` | prometheus_client/process_collector.py:66-89 | the example's decimal fields convert to 50, 30, 1000, 204800 and 10 |
| `Aggregation.Scan` | prometheus_client/process_collector.py:60-74 | the loop over the pids; an IOError never escapes it, and only IndexError or ValueError can; `ScanRecords`, `FoldWellFormed` and `FoldMalformed` state what it returns |
| `Aggregation.Step` | prometheus_client/process_collector.py:62-74 | one iteration: a read that raises IOError leaves the accumulators as they were; a record read becomes `parts`; only IndexError or ValueError escape |
| `Aggregation.Absorb` | prometheus_client/process_collector.py:64-72 | the conversions of one record read; on success `parts` is that record; only IndexError or ValueError are raised; `AbsorbRecord` states the sums |
| `Aggregation.DigitNames` | prometheus_client/process_collector.py:60 | the filtered listing is no longer than the listing, and every entry kept is all digits |
| `Aggregation.DigitNamesMembers` | prometheus_client/process_collector.py:60 | a name is kept if and only if it is in the listing and all digits |
| `Aggregation.DigitNamesAppend` | prometheus_client/process_collector.py:60 | the filter keeps listing order and distributes over concatenation |
| `Aggregation.DigitNamesInsert` | prometheus_client/process_collector.py:60 | an entry inserted between two parts of a listing is kept, in place, exactly when it is all digits |
| `Aggregation.ScanFrom` | prometheus_client/process_collector.py:60-74 | proof step (one unfolding of `Scan`): the loop from position i is one iteration on `pids[i]` followed by the loop from i + 1; an exception ends it |
| `Aggregation.AbsorbRecord` | prometheus_client/process_collector.py:64-72 | a record read is absorbed exactly when all four of its conversions succeed: the accumulators grow by its vsize, rss × page size and (utime + stime) / ticks, and `parts` becomes the record; otherwise the iteration raises what the conversions raise |
| `Aggregation.StepConverted` | prometheus_client/process_collector.py:62-72 | an iteration whose four conversions return given values adds exactly those values to the accumulators |
| `Aggregation.ContentsAppend` | prometheus_client/process_collector.py:60-64 | the stat contents read from a concatenation of pid lists are those read from each part, in order |
| `Aggregation.ContentsSkip` | prometheus_client/process_collector.py:60-74 | inserting an entry that is not all digits, or a pid whose read raises IOError, leaves the contents read unchanged |
| `Aggregation.RecordsAppend` | prometheus_client/process_collector.py:60-74 | the records read from a concatenation of pid lists are the records of each part, in order |
| `Aggregation.RecordsUnreadable` | prometheus_client/process_collector.py:62-74 | proof step (`Records` on one pid): a pid whose read raises IOError contributes no record |
| `Aggregation.RecordsReadable` | prometheus_client/process_collector.py:62-64 | proof step (`Records` on one pid): a pid whose read succeeds contributes the fields of its record after the last `)` |
| `Aggregation.RecordsSkip` | prometheus_client/process_collector.py:60-74 | inserting an entry that is not all digits, or a pid whose read raises IOError, leaves the records read unchanged |
| `Aggregation.ScanRecords` | prometheus_client/process_collector.py:60-74 | the loop over pids equals the loop over the records read, so pids that raise IOError leave no trace |
| `Aggregation.FirstMalformed` | prometheus_client/process_collector.py:66-71 | the index returned is that of the first record whose conversions do not all succeed, or the number of records when every record converts |
| `Aggregation.FoldWellFormed` | prometheus_client/process_collector.py:55-72 | over well-formed records the loop returns, adding Σ vsize, Σ rss × page size, Σ (utime + stime) / ticks, and leaving `parts` as the last record (unchanged with no record) |
| `Aggregation.FoldOne` | prometheus_client/process_collector.py:63-72 | proof step (`FoldWellFormed` on one record): the loop over one well-formed record adds that record's contribution and keeps it as `parts` |
| `Aggregation.FoldMalformed` | prometheus_client/process_collector.py:66-73 | when some record is malformed, the loop raises what the first malformed record raises |
| `StatRecord.Contribute` | prometheus_client/process_collector.py:66-71 | the conversions succeed if and only if the record is well formed, and then give vsize, rss × page size and utime / ticks + stime / ticks; too few fields raise IndexError; a non-numeric vsize raises ValueError; only IndexError or ValueError is raised, and IndexError exactly when vsize is missing, or when vsize is numeric and rss is missing |
| `StatRecord.FieldsOfLayout` | prometheus_client/process_collector.py:64-71 | splitting a proc(5)-shaped record after its last `)` gives back its fields from (3) on, so index k is field k + 3 |
| `StatRecord.FieldsIgnoreName` | prometheus_client/process_collector.py:64 | two records that agree after their last `)` give the same fields, however their pid and name parts differ |
| `StatRecord.Fields` | prometheus_client/process_collector.py:64 | `stat.read().split(b')')[-1].split()`; it has no contract of its own, and `FieldsOfLayout` and `FieldsIgnoreName` state its properties |
| `StatRecord.FloatField` | prometheus_client/process_collector.py:66-71 | `float(parts[i])`: it raises exactly when there is no field i (IndexError) or the field is not a number (ValueError), and only those two |
| `Bytes.AfterLastParen` | prometheus_client/process_collector.py:64 | the result is a suffix of the input that holds no `)`, preceded by a `)` whenever it is shorter than the input |
| `Bytes.AfterLastParenOf` | prometheus_client/process_collector.py:64 | whatever precedes the last `)`, only what follows it is kept |
| `Bytes.Split` | prometheus_client/process_collector.py:64 | every token `split()` yields is non-empty and free of whitespace |
| `Bytes.SplitJoin` | prometheus_client/process_collector.py:64 | splitting tokens joined with single spaces, with any trailing whitespace, gives back the tokens |
| `Bytes.DecimalRoundTrip` | prometheus_client/process_collector.py:66-71 | the decimal digits of n form a token that `float()` reads back as n |

## Left out

- File I/O. The contents of `<proc>/stat`, the listing of `/proc` and each
  `<proc>/<pid>/stat` are inputs. The pass reads the listing root `/proc`
  regardless of the `proc` argument (line 60), and the model gives the
  listing as a separate input to match.
- `os.sysconf('SC_CLK_TCK')` and `resource.getpagesize()`. Their results are
  parameters. The clock-tick rate is assumed positive; a platform reporting 0
  would make the source divide by zero, and that is not modelled.
- Exceptions from the platform calls are not modelled. `os.listdir('/proc')` (line 60) can raise out of `collect()`; the model takes the listing as given. `os.sysconf` can raise OSError, which the tuple at line 33 does not catch, out of `__init__`; the model treats every failed clock-tick query as the fallback to 100.0.
- Registering with the registry (lines 42-43). This is a call into code
  outside this model.
- The default module-level singleton (line 118). It depends on the real
  host.
- The `pid` and `namespace` and `proc` arguments as stored fields
  (lines 23-25). `pid` is never used, `namespace` is used only to build the
  prefix, and `proc` only names the files, which are inputs here.
- The commented-out per-process cpu and `limits` code (lines 93-97, 100-103, 107 and 112-113).
- IEEE-754 rounding. Sums and quotients are exact reals.
- `GaugeMetricFamily` and `CounterMetricFamily`. Each is modelled as a
  `Sample` record holding a name, a help text, one value and its kind; their
  other behaviour is outside this model.
- StatRecord.FloatField: `float()` accepts more token forms than this model
  does: signs, decimal points, exponents, `inf`, `nan`, underscores and
  surrounding whitespace. Here only ASCII digit tokens convert, and a token of
  any other form raises ValueError.
- Aggregation.IsDigitName: `str.isdigit()` also accepts non-ASCII Unicode
  digits; the model accepts ASCII `0`-`9` only.
- Collector.Truthy: `_btime` is the integer 0 after a probe that raised
  IOError. The model writes that as `Some(0.0)`, which is equally falsy.
- Collector.ProcessCollector.Collect: the accumulation loop of `collect()` is
  written as the separate method `Accumulate`, which `Collect` calls.
