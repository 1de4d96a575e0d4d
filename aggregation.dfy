/** The accumulation loop of a collection pass, as functions: which directory
    entries it visits, what one iteration does to the accumulators, and what the
    whole loop computes, stated against reference sums over the records read. */
module Aggregation {
  import opened Wrappers
  import opened Bytes
  import opened StatRecord

  /** `name.isdigit()` for a directory entry: non-empty and all decimal digits. */
  predicate IsDigitName(name: string) {
    |name| > 0 && forall k :: 0 <= k < |name| ==> '0' <= name[k] <= '9'
  }

  /** `[pid for pid in listing if pid.isdigit()]`: the digit-named entries, in listing order. */
  function DigitNames(listing: seq<string>): (pids: seq<string>)
    ensures |pids| <= |listing|
    ensures forall k :: 0 <= k < |pids| ==> IsDigitName(pids[k])
  {
    if listing == [] then []
    else (if IsDigitName(listing[0]) then [listing[0]] else []) + DigitNames(listing[1..])
  }

  /** The filter keeps exactly the entries whose names are all digits. */
  lemma {:induction false} DigitNamesMembers(listing: seq<string>)
    ensures forall name :: name in DigitNames(listing) <==> name in listing && IsDigitName(name)
    decreases |listing|
  {
    if listing != [] {
      DigitNamesMembers(listing[1..]);
      assert listing == [listing[0]] + listing[1..];
    }
  }

  /** The filter keeps order: it works on each part of a listing separately. */
  lemma {:induction false} DigitNamesAppend(a: seq<string>, b: seq<string>)
    ensures DigitNames(a + b) == DigitNames(a) + DigitNames(b)
    decreases |a|
  {
    if a != [] {
      assert (a + b)[0] == a[0];
      assert (a + b)[1..] == a[1..] + b;
      DigitNamesAppend(a[1..], b);
    } else {
      assert a + b == b;
    }
  }

  /** One more entry between two parts of a listing is kept exactly when its name is all digits. */
  lemma DigitNamesInsert(a: seq<string>, name: string, b: seq<string>)
    ensures DigitNames(a + [name] + b) == DigitNames(a) + (if IsDigitName(name) then [name] else []) + DigitNames(b)
    ensures DigitNames(a + b) == DigitNames(a) + DigitNames(b)
  {
    var kept := if IsDigitName(name) then [name] else [];
    assert [name][1..] == [];
    assert DigitNames([name]) == kept + DigitNames([]);
    DigitNamesAppend(a, [name]);
    assert DigitNames(a + [name]) == DigitNames(a) + kept;
    DigitNamesAppend(a + [name], b);
    assert DigitNames(a + [name] + b) == DigitNames(a) + kept + DigitNames(b);
    DigitNamesAppend(a, b);
  }

  /** What opening and reading `<proc>/<pid>/stat` gives in the snapshot `files`;
      a pid that has no entry there has gone away and raises IOError. */
  function ReadStat(files: map<string, FileRead<Bytes>>, pid: string): FileRead<Bytes> {
    if pid in files then files[pid] else Unreadable
  }

  /** The loop's accumulators: `vmem_value`, `rss_value`, `cpu_value` and `parts`. */
  datatype Acc = Acc(vmem: real, rss: real, cpu: real, parts: Option<seq<Bytes>>)

  const INITIAL := Acc(0.0, 0.0, 0.0, None)

  /** What one record read adds: it becomes `parts` before its fields are converted,
      and the first conversion that fails raises. */
  function Absorb(acc: Acc, parts: seq<Bytes>, ticks: real, pageSize: nat): (r: Outcome<Acc>)
    requires ticks > 0.0
    ensures r.Return? ==> r.value.parts == Some(parts)
    ensures r.Raise? ==> r.exc == IndexError || r.exc == ValueError
  {
    var c :- Contribute(parts, ticks, pageSize);
    Return(Acc(acc.vmem + c.vmem, acc.rss + c.rss, acc.cpu + c.cpu, Some(parts)))
  }

  /** One iteration of the loop: an IOError changes nothing, a record read is absorbed. */
  function Step(acc: Acc, read: FileRead<Bytes>, ticks: real, pageSize: nat): (r: Outcome<Acc>)
    requires ticks > 0.0
    ensures read.Unreadable? ==> r == Return(acc)
    ensures r.Return? && read.Content? ==> r.value.parts == Some(Fields(read.data))
    ensures r.Raise? ==> r.exc == IndexError || r.exc == ValueError
  {
    match read
    case Unreadable => Return(acc)
    case Content(data) => Absorb(acc, Fields(data), ticks, pageSize)
  }

  /** A record is absorbed exactly when it is well formed; the accumulators then grow by
      its vsize, rss × page size and (utime + stime) / ticks, and otherwise the
      iteration raises what its conversions raise. */
  lemma AbsorbRecord(acc: Acc, parts: seq<Bytes>, ticks: real, pageSize: nat)
    requires ticks > 0.0
    ensures Absorb(acc, parts, ticks, pageSize) ==
      if WellFormed(parts) then
        Return(Acc(acc.vmem + Vsize(parts), acc.rss + ResidentBytes(parts, pageSize),
                   acc.cpu + CpuSeconds(parts, ticks), Some(parts)))
      else Raise(Contribute(parts, ticks, pageSize).exc)
  {
  }

  /** One iteration whose four conversions return `vsize`, `rssPages`, `utime` and `stime`. */
  lemma StepConverted(acc: Acc, data: Bytes, ticks: real, pageSize: nat, vsize: real, rssPages: real, utime: real, stime: real)
    requires ticks > 0.0
    requires FloatField(Fields(data), VSIZE) == Return(vsize) && FloatField(Fields(data), RSS) == Return(rssPages)
    requires FloatField(Fields(data), UTIME) == Return(utime) && FloatField(Fields(data), STIME) == Return(stime)
    ensures Step(acc, Content(data), ticks, pageSize) ==
      Return(Acc(acc.vmem + vsize, acc.rss + rssPages * pageSize as real,
                 acc.cpu + (utime / ticks + stime / ticks), Some(Fields(data))))
  {
    var parts := Fields(data);
    assert WellFormed(parts);
    assert vsize == Vsize(parts) && rssPages * pageSize as real == ResidentBytes(parts, pageSize);
    assert utime / ticks + stime / ticks == CpuSeconds(parts, ticks);
    AbsorbRecord(acc, parts, ticks, pageSize);
  }

  /** The loop run from `acc` over `pids`; the first exception ends it, and an
      IOError never escapes it. */
  function Scan(acc: Acc, pids: seq<string>, files: map<string, FileRead<Bytes>>, ticks: real, pageSize: nat): (r: Outcome<Acc>)
    requires ticks > 0.0
    ensures r.Raise? ==> r.exc == IndexError || r.exc == ValueError
    decreases |pids|
  {
    if pids == [] then Return(acc)
    else
      var next :- Step(acc, ReadStat(files, pids[0]), ticks, pageSize);
      Scan(next, pids[1..], files, ticks, pageSize)
  }

  /** The loop from position i of `pids` on: one iteration, then the loop from i + 1. */
  lemma ScanFrom(acc: Acc, pids: seq<string>, i: nat, files: map<string, FileRead<Bytes>>, ticks: real, pageSize: nat)
    requires ticks > 0.0 && i < |pids|
    ensures Scan(acc, pids[i..], files, ticks, pageSize) ==
      match Step(acc, ReadStat(files, pids[i]), ticks, pageSize)
      case Raise(e) => Raise(e)
      case Return(next) => Scan(next, pids[i + 1..], files, ticks, pageSize)
  {
    assert pids[i..][0] == pids[i] && pids[i..][1..] == pids[i + 1..];
  }

  /** The contents of the `stat` files the loop reads, in order: one per pid whose read succeeds. */
  function Contents(pids: seq<string>, files: map<string, FileRead<Bytes>>): seq<Bytes> {
    if pids == [] then []
    else
      (match ReadStat(files, pids[0])
       case Unreadable => []
       case Content(data) => [data])
      + Contents(pids[1..], files)
  }

  /** `f` applied to each element of `s`, in order. */
  function Mapped<A, B>(f: A -> B, s: seq<A>): (r: seq<B>)
    ensures |r| == |s|
  {
    if s == [] then [] else [f(s[0])] + Mapped(f, s[1..])
  }

  /** The records the loop reads, in order: the fields of every pid whose read succeeds. */
  function Records(pids: seq<string>, files: map<string, FileRead<Bytes>>): seq<seq<Bytes>> {
    Mapped(Fields, Contents(pids, files))
  }

  /** The contents read from a concatenation of pid lists are those of each part, in order. */
  lemma {:induction false} ContentsAppend(a: seq<string>, b: seq<string>, files: map<string, FileRead<Bytes>>)
    ensures Contents(a + b, files) == Contents(a, files) + Contents(b, files)
    decreases |a|
  {
    if a != [] {
      assert (a + b)[0] == a[0];
      assert (a + b)[1..] == a[1..] + b;
      ContentsAppend(a[1..], b, files);
    } else {
      assert a + b == b;
    }
  }

  /** Mapping works on each part of a concatenation separately. */
  lemma {:induction false} MappedAppend<A, B>(f: A -> B, x: seq<A>, y: seq<A>)
    ensures Mapped(f, x + y) == Mapped(f, x) + Mapped(f, y)
    decreases |x|
  {
    if x != [] {
      assert (x + y)[0] == x[0];
      assert (x + y)[1..] == x[1..] + y;
      MappedAppend(f, x[1..], y);
    } else {
      assert x + y == y;
    }
  }

  /** The records of a concatenation of pid lists are the records of each, in order. */
  lemma RecordsAppend(a: seq<string>, b: seq<string>, files: map<string, FileRead<Bytes>>)
    ensures Records(a + b, files) == Records(a, files) + Records(b, files)
  {
    ContentsAppend(a, b, files);
    MappedAppend(Fields, Contents(a, files), Contents(b, files));
  }

  /** A pid whose read raises IOError contributes no content. */
  lemma ContentsUnreadable(pid: string, files: map<string, FileRead<Bytes>>)
    requires ReadStat(files, pid) == Unreadable
    ensures Contents([pid], files) == []
  {
    assert [pid][0] == pid && [pid][1..] == [];
  }

  /** A pid whose read raises IOError contributes no record. */
  lemma RecordsUnreadable(pid: string, files: map<string, FileRead<Bytes>>)
    requires ReadStat(files, pid) == Unreadable
    ensures Records([pid], files) == []
  {
    ContentsUnreadable(pid, files);
  }

  /** A pid whose read succeeds contributes the fields of its record. */
  lemma RecordsReadable(pid: string, files: map<string, FileRead<Bytes>>, data: Bytes)
    requires ReadStat(files, pid) == Content(data)
    ensures Records([pid], files) == [Fields(data)]
  {
    assert [pid][0] == pid && [pid][1..] == [];
    assert Contents([pid], files) == [data];
    assert [data][0] == data && [data][1..] == [];
    assert Mapped(Fields, [data]) == [Fields(data)] + Mapped(Fields, []);
  }

  /** An entry that is not all digits, or a pid whose read raises IOError, adds no content read. */
  lemma ContentsSkip(a: seq<string>, name: string, b: seq<string>, files: map<string, FileRead<Bytes>>)
    requires !IsDigitName(name) || ReadStat(files, name) == Unreadable
    ensures Contents(DigitNames(a + [name] + b), files) == Contents(DigitNames(a + b), files)
  {
    DigitNamesInsert(a, name, b);
    var pa, pb := DigitNames(a), DigitNames(b);
    if IsDigitName(name) {
      ContentsAppend(pa + [name], pb, files);
      ContentsAppend(pa, [name], files);
      ContentsUnreadable(name, files);
      ContentsAppend(pa, pb, files);
    } else {
      assert DigitNames(a + [name] + b) == DigitNames(a + b);
    }
  }

  /** An entry that is not all digits, or a pid whose read raises IOError, adds no record. */
  lemma RecordsSkip(a: seq<string>, name: string, b: seq<string>, files: map<string, FileRead<Bytes>>)
    requires !IsDigitName(name) || ReadStat(files, name) == Unreadable
    ensures Records(DigitNames(a + [name] + b), files) == Records(DigitNames(a + b), files)
  {
    ContentsSkip(a, name, b, files);
  }

  /** The loop over the records read: what the loop over the pids reduces to. */
  function Fold(acc: Acc, recs: seq<seq<Bytes>>, ticks: real, pageSize: nat): Outcome<Acc>
    requires ticks > 0.0
    decreases |recs|
  {
    if recs == [] then Return(acc)
    else
      var next :- Absorb(acc, recs[0], ticks, pageSize);
      Fold(next, recs[1..], ticks, pageSize)
  }

  /** The loop sees the snapshot only through the records it reads: pids whose read
      raises IOError are skipped without a trace. */
  lemma {:induction false} ScanRecords(acc: Acc, pids: seq<string>, files: map<string, FileRead<Bytes>>, ticks: real, pageSize: nat)
    requires ticks > 0.0
    ensures Scan(acc, pids, files, ticks, pageSize) == Fold(acc, Records(pids, files), ticks, pageSize)
    decreases |pids|
  {
    if pids != [] {
      var later := Contents(pids[1..], files);
      var rest := Records(pids[1..], files);
      match ReadStat(files, pids[0])
      case Unreadable =>
        assert Contents(pids, files) == later;
        ScanRecords(acc, pids[1..], files, ticks, pageSize);
      case Content(data) =>
        var contents := [data] + later;
        assert Contents(pids, files) == contents;
        assert contents[0] == data && contents[1..] == later;
        var recs := [Fields(data)] + rest;
        assert Records(pids, files) == recs;
        assert recs[0] == Fields(data) && recs[1..] == rest;
        match Absorb(acc, Fields(data), ticks, pageSize)
        case Raise(_) =>
        case Return(next) => ScanRecords(next, pids[1..], files, ticks, pageSize);
    }
  }

  predicate AllWellFormed(recs: seq<seq<Bytes>>) {
    forall k :: 0 <= k < |recs| ==> WellFormed(recs[k])
  }

  /** The index of the first record that is not well formed, or |recs| if there is none. */
  function FirstMalformed(recs: seq<seq<Bytes>>): (k: nat)
    ensures k <= |recs|
    ensures forall j :: 0 <= j < k ==> WellFormed(recs[j])
    ensures k < |recs| ==> !WellFormed(recs[k])
  {
    if recs == [] || !WellFormed(recs[0]) then 0 else 1 + FirstMalformed(recs[1..])
  }

  /** Σ vsize (field 23) over the records. */
  function TotalVmem(recs: seq<seq<Bytes>>): real
    requires AllWellFormed(recs)
  {
    if recs == [] then 0.0 else Vsize(recs[0]) + TotalVmem(recs[1..])
  }

  /** Σ rss (field 24) × page size over the records. */
  function TotalRss(recs: seq<seq<Bytes>>, pageSize: nat): real
    requires AllWellFormed(recs)
  {
    if recs == [] then 0.0 else ResidentBytes(recs[0], pageSize) + TotalRss(recs[1..], pageSize)
  }

  /** Σ (utime / ticks + stime / ticks) (fields 14 and 15) over the records. */
  function TotalCpu(recs: seq<seq<Bytes>>, ticks: real): real
    requires AllWellFormed(recs) && ticks > 0.0
  {
    if recs == [] then 0.0 else CpuSeconds(recs[0], ticks) + TotalCpu(recs[1..], ticks)
  }

  /** The last of the records, or `prev` when there are none. */
  function LastOr(prev: Option<seq<Bytes>>, recs: seq<seq<Bytes>>): Option<seq<Bytes>> {
    if recs == [] then prev else Some(recs[|recs| - 1])
  }

  /** When every record read is well formed, the loop returns: the accumulators grow
      by the three sums over those records, and `parts` ends as the last of them. */
  lemma {:induction false} FoldWellFormed(acc: Acc, recs: seq<seq<Bytes>>, ticks: real, pageSize: nat)
    requires ticks > 0.0 && AllWellFormed(recs)
    ensures Fold(acc, recs, ticks, pageSize) ==
      Return(Acc(acc.vmem + TotalVmem(recs), acc.rss + TotalRss(recs, pageSize),
                 acc.cpu + TotalCpu(recs, ticks), LastOr(acc.parts, recs)))
    decreases |recs|
  {
    if recs != [] {
      var parts, rest := recs[0], recs[1..];
      assert AllWellFormed(rest) by {
        assert forall k :: 0 <= k < |rest| ==> rest[k] == recs[k + 1];
      }
      AbsorbRecord(acc, parts, ticks, pageSize);
      var next := Acc(acc.vmem + Vsize(parts), acc.rss + ResidentBytes(parts, pageSize),
                      acc.cpu + CpuSeconds(parts, ticks), Some(parts));
      assert Fold(acc, recs, ticks, pageSize) == Fold(next, rest, ticks, pageSize);
      FoldWellFormed(next, rest, ticks, pageSize);
      assert LastOr(next.parts, rest) == LastOr(acc.parts, recs);
    }
  }

  /** The loop over one well-formed record adds that record's contribution and keeps it as `parts`. */
  lemma FoldOne(acc: Acc, parts: seq<Bytes>, ticks: real, pageSize: nat)
    requires ticks > 0.0 && WellFormed(parts)
    ensures Fold(acc, [parts], ticks, pageSize) ==
      Return(Acc(acc.vmem + Vsize(parts), acc.rss + ResidentBytes(parts, pageSize),
                 acc.cpu + CpuSeconds(parts, ticks), Some(parts)))
  {
    AbsorbRecord(acc, parts, ticks, pageSize);
    assert [parts][0] == parts && [parts][1..] == [];
  }

  /** When some record read is malformed, the loop raises what the first malformed
      record's conversions raise. */
  lemma {:induction false} FoldMalformed(acc: Acc, recs: seq<seq<Bytes>>, ticks: real, pageSize: nat)
    requires ticks > 0.0 && !AllWellFormed(recs)
    ensures Fold(acc, recs, ticks, pageSize) == Raise(Contribute(recs[FirstMalformed(recs)], ticks, pageSize).exc)
    decreases |recs|
  {
    var parts, rest := recs[0], recs[1..];
    AbsorbRecord(acc, parts, ticks, pageSize);
    if WellFormed(parts) {
      assert !AllWellFormed(rest) by {
        assert forall k :: 0 < k < |recs| ==> recs[k] == rest[k - 1];
      }
      var next := Acc(acc.vmem + Vsize(parts), acc.rss + ResidentBytes(parts, pageSize),
                      acc.cpu + CpuSeconds(parts, ticks), Some(parts));
      assert Fold(acc, recs, ticks, pageSize) == Fold(next, rest, ticks, pageSize);
      FoldMalformed(next, rest, ticks, pageSize);
      assert recs[FirstMalformed(recs)] == rest[FirstMalformed(rest)];
    }
  }
}
