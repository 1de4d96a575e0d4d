/** One `/proc/[pid]/stat` record: cutting it at the last `)`, splitting the
    rest into fields, and converting the fields the collector sums. */
module StatRecord {
  import opened Wrappers
  import opened Bytes

  /* After the cut at the last `)`, index k holds field (k + 3) of the record
     as proc(5) numbers them: (1) is the pid and (2) the parenthesised name. */
  const UTIME: nat := 11      // (14) utime: clock ticks spent in user mode
  const STIME: nat := 12      // (15) stime: clock ticks spent in kernel mode
  const STARTTIME: nat := 19  // (22) starttime: clock ticks after boot
  const VSIZE: nat := 20      // (23) vsize: virtual memory size in bytes
  const RSS: nat := 21        // (24) rss: resident set size in pages

  /** `stat.read().split(b')')[-1].split()`: the fields after the last `)`. */
  function Fields(content: Bytes): seq<Bytes> {
    Split(AfterLastParen(content))
  }

  /** `float(parts[i])`: IndexError past the end, ValueError for a token that is not a number. */
  function FloatField(parts: seq<Bytes>, i: nat): (r: Outcome<real>)
    ensures r.Raise? <==> i >= |parts| || !IsDecimal(parts[i])
    ensures r.Raise? ==> (r.exc == IndexError <==> i >= |parts|)
    ensures r.Raise? ==> r.exc == IndexError || r.exc == ValueError
  {
    if i >= |parts| then Raise(IndexError)
    else if !IsDecimal(parts[i]) then Raise(ValueError)
    else Return(DecimalValue(parts[i]) as real)
  }

  /** A record whose conversions in the loop body all succeed. */
  predicate WellFormed(parts: seq<Bytes>) {
    |parts| > RSS && IsDecimal(parts[VSIZE]) && IsDecimal(parts[RSS])
    && IsDecimal(parts[UTIME]) && IsDecimal(parts[STIME])
  }

  function Vsize(parts: seq<Bytes>): real
    requires WellFormed(parts)
  {
    DecimalValue(parts[VSIZE]) as real
  }

  function ResidentBytes(parts: seq<Bytes>, pageSize: nat): real
    requires WellFormed(parts)
  {
    DecimalValue(parts[RSS]) as real * pageSize as real
  }

  function CpuSeconds(parts: seq<Bytes>, ticks: real): real
    requires WellFormed(parts) && ticks > 0.0
  {
    DecimalValue(parts[UTIME]) as real / ticks + DecimalValue(parts[STIME]) as real / ticks
  }

  /** What one record adds to the three sums. */
  datatype Contribution = Contribution(vmem: real, rss: real, cpu: real)

  /** The conversions of one record's fields, in the order the loop body makes them:
      vsize, rss, utime, stime; the first that fails raises. */
  function Contribute(parts: seq<Bytes>, ticks: real, pageSize: nat): (r: Outcome<Contribution>)
    requires ticks > 0.0
    ensures r.Return? <==> WellFormed(parts)
    ensures r.Return? ==>
      r.value == Contribution(Vsize(parts), ResidentBytes(parts, pageSize), CpuSeconds(parts, ticks))
    ensures |parts| <= VSIZE ==> r == Raise(IndexError)
    ensures |parts| > VSIZE && !IsDecimal(parts[VSIZE]) ==> r == Raise(ValueError)
    ensures r.Raise? ==>
      (r.exc == IndexError <==> |parts| <= VSIZE || (|parts| == RSS && IsDecimal(parts[VSIZE])))
    ensures r.Raise? ==> r.exc == IndexError || r.exc == ValueError
  {
    var vsize :- FloatField(parts, VSIZE);
    var rss :- FloatField(parts, RSS);
    var utime :- FloatField(parts, UTIME);
    var stime :- FloatField(parts, STIME);
    Return(Contribution(vsize, rss * pageSize as real, utime / ticks + stime / ticks))
  }

  predicate ParenFree(fields: seq<Bytes>) {
    forall k :: 0 <= k < |fields| ==> IsToken(fields[k]) && RPAREN !in fields[k]
  }

  /** A record laid out as proc(5) shows it: `pid (comm) f3 f4 ...` and a newline,
      where `fields` holds the fields from (3) on. */
  function Layout(pid: Bytes, comm: Bytes, fields: seq<Bytes>): Bytes {
    pid + [SPACE, LPAREN] + comm + [RPAREN, SPACE] + JoinSpaces(fields) + [NEWLINE]
  }

  /** Fields recovers the fields after the name, so index k is field (k + 3),
      whatever spaces and parentheses the pid and the name hold. */
  lemma FieldsOfLayout(pid: Bytes, comm: Bytes, fields: seq<Bytes>)
    requires ParenFree(fields)
    ensures Fields(Layout(pid, comm, fields)) == fields
  {
    var joined := JoinSpaces(fields) + [NEWLINE];
    var tail := [SPACE] + joined;
    var head := pid + [SPACE, LPAREN] + comm;
    assert Layout(pid, comm, fields) == head + [RPAREN] + tail;
    NoParenInJoin(fields);
    assert RPAREN !in tail;
    FieldsIgnoreName(head, head, tail);
    SplitLeadingSpace(joined);
    SplitJoin(fields, [NEWLINE]);
  }

  /** Two records that agree after their last `)` give the same fields, however their
      names differ: a name with spaces or `)` in it cannot shift the fields. */
  lemma FieldsIgnoreName(head1: Bytes, head2: Bytes, tail: Bytes)
    requires RPAREN !in tail
    ensures Fields(head1 + [RPAREN] + tail) == Fields(head2 + [RPAREN] + tail) == Split(tail)
  {
    AfterLastParenOf(head1, tail);
    AfterLastParenOf(head2, tail);
  }
}
