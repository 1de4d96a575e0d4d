/** The Python `bytes` operations the collector applies to file contents:
    `split()` on whitespace, `split(b')')[-1]`, `startswith` and `float()`
    of a decimal token. */
module Bytes {

  type Byte = b: int | 0 <= b < 256
  type Bytes = seq<Byte>

  const NEWLINE: Byte := 10
  const SPACE: Byte := 32
  const LPAREN: Byte := 40
  const RPAREN: Byte := 41

  /** The ASCII whitespace on which `bytes.split()` splits: space, \t, \n, \v, \f and \r. */
  predicate IsSpace(b: Byte) {
    b == SPACE || 9 <= b <= 13
  }

  predicate NoSpace(s: Bytes) {
    forall k :: 0 <= k < |s| ==> !IsSpace(s[k])
  }

  predicate AllSpace(s: Bytes) {
    forall k :: 0 <= k < |s| ==> IsSpace(s[k])
  }

  /** A token as `split()` produces it: non-empty and free of whitespace. */
  predicate IsToken(t: Bytes) {
    t != [] && NoSpace(t)
  }

  predicate StartsWith(s: Bytes, prefix: Bytes) {
    |prefix| <= |s| && s[..|prefix|] == prefix
  }

  /** The length of the run of non-whitespace bytes that starts s. */
  function TokenLength(s: Bytes): (n: nat)
    ensures n <= |s|
    ensures forall k :: 0 <= k < n ==> !IsSpace(s[k])
    ensures n == |s| || IsSpace(s[n])
  {
    if s == [] || IsSpace(s[0]) then 0 else 1 + TokenLength(s[1..])
  }

  /** `s.split()`: the maximal runs of non-whitespace bytes of s, in order;
      leading, trailing and repeated whitespace produce no empty tokens. */
  function Split(s: Bytes): (tokens: seq<Bytes>)
    ensures forall k :: 0 <= k < |tokens| ==> IsToken(tokens[k])
    decreases |s|
  {
    if s == [] then []
    else if IsSpace(s[0]) then Split(s[1..])
    else
      var n := TokenLength(s);
      [s[..n]] + Split(s[n..])
  }

  /** The tokens written out with one space between neighbours. */
  function JoinSpaces(tokens: seq<Bytes>): Bytes {
    if |tokens| == 0 then []
    else if |tokens| == 1 then tokens[0]
    else tokens[0] + [SPACE] + JoinSpaces(tokens[1..])
  }

  lemma {:induction false} SplitAllSpace(ws: Bytes)
    requires AllSpace(ws)
    ensures Split(ws) == []
    decreases |ws|
  {
    if ws != [] {
      SplitAllSpace(ws[1..]);
    }
  }

  /** Leading whitespace produces no token. */
  lemma SplitLeadingSpace(s: Bytes)
    ensures Split([SPACE] + s) == Split(s)
  {
    assert ([SPACE] + s)[1..] == s;
  }

  /** A token followed by whitespace (or by nothing) is split off whole. */
  lemma TokenLengthOfToken(t: Bytes, rest: Bytes)
    requires IsToken(t)
    requires rest == [] || IsSpace(rest[0])
    ensures TokenLength(t + rest) == |t|
  {
    var s := t + rest;
    assert forall k :: 0 <= k < |t| ==> s[k] == t[k];
    assert rest != [] ==> s[|t|] == rest[0];
  }

  /** A token followed by whitespace (or by nothing) becomes the first token of the split. */
  lemma SplitAfterToken(t: Bytes, rest: Bytes)
    requires IsToken(t)
    requires rest == [] || IsSpace(rest[0])
    ensures Split(t + rest) == [t] + Split(rest)
  {
    TokenLengthOfToken(t, rest);
    var s := t + rest;
    assert s[0] == t[0];
    assert s[..|t|] == t && s[|t|..] == rest;
  }

  /** Split undoes JoinSpaces, whatever whitespace trails the joined text. */
  lemma {:induction false} SplitJoin(tokens: seq<Bytes>, ws: Bytes)
    requires forall k :: 0 <= k < |tokens| ==> IsToken(tokens[k])
    requires AllSpace(ws)
    ensures Split(JoinSpaces(tokens) + ws) == tokens
    decreases |tokens|
  {
    if |tokens| == 0 {
      assert JoinSpaces(tokens) + ws == ws;
      SplitAllSpace(ws);
    } else if |tokens| == 1 {
      SplitAfterToken(tokens[0], ws);
      SplitAllSpace(ws);
    } else {
      var tail := JoinSpaces(tokens[1..]) + ws;
      assert JoinSpaces(tokens) + ws == tokens[0] + ([SPACE] + tail);
      SplitAfterToken(tokens[0], [SPACE] + tail);
      assert ([SPACE] + tail)[1..] == tail;
      SplitJoin(tokens[1..], ws);
      assert tokens == [tokens[0]] + tokens[1..];
    }
  }

  /** `s.split(b')')[-1]`: the bytes after the last `)` of s, or all of s when it has none. */
  function AfterLastParen(s: Bytes): (r: Bytes)
    ensures |r| <= |s| && r == s[|s| - |r|..]
    ensures RPAREN !in r
    ensures |r| < |s| ==> s[|s| - |r| - 1] == RPAREN
    decreases |s|
  {
    if s == [] then []
    else if s[|s| - 1] == RPAREN then []
    else
      var init := s[..|s| - 1];
      var t := AfterLastParen(init);
      assert s == init + [s[|s| - 1]];
      assert s[|s| - |t| - 1..] == init[|init| - |t|..] + [s[|s| - 1]];
      assert |t| < |init| ==> s[|s| - |t| - 2] == init[|init| - |t| - 1];
      t + [s[|s| - 1]]
  }

  /** Whatever precedes the last `)`, only what follows it is kept. */
  lemma {:induction false} AfterLastParenOf(head: Bytes, tail: Bytes)
    requires RPAREN !in tail
    ensures AfterLastParen(head + [RPAREN] + tail) == tail
    decreases |tail|
  {
    var s := head + [RPAREN] + tail;
    if tail != [] {
      var shorter := tail[..|tail| - 1];
      assert s[..|s| - 1] == head + [RPAREN] + shorter;
      assert s[|s| - 1] == tail[|tail| - 1];
      AfterLastParenOf(head, shorter);
      assert tail == shorter + [tail[|tail| - 1]];
    }
  }

  lemma NoParenInJoin(tokens: seq<Bytes>)
    requires forall k :: 0 <= k < |tokens| ==> RPAREN !in tokens[k]
    ensures RPAREN !in JoinSpaces(tokens)
  {
  }

  predicate IsDigit(b: Byte) {
    '0' as int <= b <= '9' as int
  }

  /** A token `float()` accepts here: one or more ASCII decimal digits. */
  predicate IsDecimal(t: Bytes) {
    |t| > 0 && forall k :: 0 <= k < |t| ==> IsDigit(t[k])
  }

  function DigitValue(b: Byte): nat {
    if IsDigit(b) then b - '0' as int else 0
  }

  /** The number a decimal token denotes. */
  function DecimalValue(t: Bytes): nat {
    if t == [] then 0 else 10 * DecimalValue(t[..|t| - 1]) + DigitValue(t[|t| - 1])
  }

  /** The decimal digits of n, without leading zeros. */
  function Decimal(n: nat): Bytes {
    if n < 10 then [n + '0' as int] else Decimal(n / 10) + [n % 10 + '0' as int]
  }

  /** Decimal writes a decimal token, and DecimalValue reads it back. */
  lemma {:induction false} DecimalRoundTrip(n: nat)
    ensures IsDecimal(Decimal(n))
    ensures DecimalValue(Decimal(n)) == n
  {
    if n >= 10 {
      DecimalRoundTrip(n / 10);
      var d := Decimal(n);
      assert d[..|d| - 1] == Decimal(n / 10);
    }
  }
}
