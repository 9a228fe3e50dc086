/**
 * The few Python string and integer primitives the launcher relies on:
 * `str.isdigit`, `int(str)`, `str(int)`, `str.split()`, `str.splitlines()`,
 * `str.strip()`, `str.find` and `str.join`, written out over `seq<char>`.
 */
module Text {
  import opened Wrappers

  // ---------- characters ----------

  /** An ASCII decimal digit. */
  predicate IsDigit(c: char) {
    '0' <= c <= '9'
  }

  /** A character Python's `str.split()` and `str.strip()` treat as white space. */
  predicate IsSpace(c: char) {
    var n := c as int;
    n == 0x20 || 0x09 <= n <= 0x0D || 0x1C <= n <= 0x1F || n == 0x85 || n == 0xA0 ||
    n == 0x1680 || 0x2000 <= n <= 0x200A || n == 0x2028 || n == 0x2029 ||
    n == 0x202F || n == 0x205F || n == 0x3000
  }

  /** A character at which Python's `str.splitlines()` ends a line. */
  predicate IsLineBreak(c: char) {
    var n := c as int;
    n == 0x0A || n == 0x0D || n == 0x0B || n == 0x0C || 0x1C <= n <= 0x1E ||
    n == 0x85 || n == 0x2028 || n == 0x2029
  }

  predicate AllDigits(s: string) {
    forall i :: 0 <= i < |s| ==> IsDigit(s[i])
  }

  /** Python's `str.isdigit()` on ASCII text: non-empty and digits only; a digit run is a single field of `split()`. */
  predicate IsDigits(s: string)
    ensures IsDigits(s) ==> s != [] && forall k :: 0 <= k < |s| ==> !IsSpace(s[k])
  {
    |s| > 0 && AllDigits(s)
  }

  function DigitValue(c: char): (d: nat)
    requires IsDigit(c)
    ensures d < 10
  {
    c as int - '0' as int
  }

  function DigitChar(d: nat): (c: char)
    requires d < 10
    ensures IsDigit(c) && DigitValue(c) == d
  {
    (d + '0' as int) as char
  }

  // ---------- integers and their decimal text ----------

  /** The number a string of decimal digits denotes, most significant digit first. */
  function DecimalValue(s: string): nat
    requires AllDigits(s)
  {
    if s == [] then 0 else 10 * DecimalValue(s[..|s| - 1]) + DigitValue(s[|s| - 1])
  }

  /** Python's `str(n)` for a natural number: digits without leading zeros. */
  function NatToString(n: nat): (s: string)
    ensures IsDigits(s) && DecimalValue(s) == n
    ensures |s| > 1 ==> s[0] != '0'
  {
    if n < 10 then [DigitChar(n)]
    else
      var front := NatToString(n / 10);
      var s := front + [DigitChar(n % 10)];
      assert s[..|s| - 1] == front;
      s
  }

  /** Python's `str(i)` for any integer, negative ones with a leading `-`. */
  function IntToString(i: int): (s: string)
    ensures |s| > 0 && (IsDigit(s[0]) || s[0] == '-')
    ensures forall k :: 0 < k < |s| ==> IsDigit(s[k])
  {
    if i < 0 then "-" + NatToString(-i) else NatToString(i)
  }

  // ---------- white space ----------

  /** `s` without its leading white space. */
  function TrimLeft(s: string): (r: string)
    ensures |r| <= |s| && r == s[|s| - |r|..]
    ensures r != [] ==> !IsSpace(r[0])
  {
    if s != [] && IsSpace(s[0]) then TrimLeft(s[1..]) else s
  }

  /** What `TrimLeft` drops is white space. */
  lemma {:induction false} TrimLeftDropsSpace(s: string)
    ensures forall k :: 0 <= k < |s| - |TrimLeft(s)| ==> IsSpace(s[k])
    decreases |s|
  {
    if s != [] && IsSpace(s[0]) {
      TrimLeftDropsSpace(s[1..]);
      forall k | 1 <= k < |s| - |TrimLeft(s)|
        ensures IsSpace(s[k])
      {
        assert s[k] == s[1..][k - 1];
      }
    }
  }

  /** `s` without its trailing white space. */
  function TrimRight(s: string): (r: string)
    ensures |r| <= |s| && r == s[..|r|]
    ensures r != [] ==> !IsSpace(r[|r| - 1])
  {
    if s != [] && IsSpace(s[|s| - 1]) then TrimRight(s[..|s| - 1]) else s
  }

  /** What `TrimRight` drops is white space. */
  lemma {:induction false} TrimRightDropsSpace(s: string)
    ensures forall k :: |TrimRight(s)| <= k < |s| ==> IsSpace(s[k])
    decreases |s|
  {
    if s != [] && IsSpace(s[|s| - 1]) {
      TrimRightDropsSpace(s[..|s| - 1]);
      forall k | |TrimRight(s)| <= k < |s| - 1
        ensures IsSpace(s[k])
      {
        assert s[k] == s[..|s| - 1][k];
      }
    }
  }

  /** Python's `str.strip()`. */
  function Strip(s: string): string {
    TrimRight(TrimLeft(s))
  }

  /** `strip()` keeps a contiguous stretch of `s`, starting where the leading white space ends. */
  lemma StripSlice(s: string)
    ensures var i := |s| - |TrimLeft(s)|; var j := i + |Strip(s)|;
            j <= |s| && Strip(s) == s[i..j]
  {
    var i := |s| - |TrimLeft(s)|;
    var r := Strip(s);
    assert r == s[i..][..|r|];
    SliceOfSlice(s, i, |r|);
  }

  /** The first `n` characters from index `i` on are the slice from `i` to `i + n`. */
  lemma SliceOfSlice(s: string, i: nat, n: nat)
    requires i + n <= |s|
    ensures s[i..][..n] == s[i..i + n]
  {
  }

  /** Everything `strip()` drops after the kept stretch is white space. */
  lemma StripTail(s: string)
    ensures forall k :: |s| - |TrimLeft(s)| + |Strip(s)| <= k < |s| ==> IsSpace(s[k])
  {
    var t := TrimLeft(s);
    var r := Strip(s);
    var i := |s| - |t|;
    assert t == s[i..];
    TrimRightDropsSpace(t);
    forall k | i + |r| <= k < |s|
      ensures IsSpace(s[k])
    {
      var j := k - i;
      assert IsSpace(t[j]);
      assert s[k] == t[j];
    }
  }

  /**
   * What `strip()` keeps: the part of `s` between its leading and its trailing white space,
   * which neither starts nor ends with white space.
   */
  lemma StripParts(s: string)
    ensures var i := |s| - |TrimLeft(s)|; var j := i + |Strip(s)|;
            j <= |s| && Strip(s) == s[i..j]
    ensures forall k :: 0 <= k < |s| - |TrimLeft(s)| ==> IsSpace(s[k])
    ensures forall k :: |s| - |TrimLeft(s)| + |Strip(s)| <= k < |s| ==> IsSpace(s[k])
    ensures Strip(s) != [] ==> !IsSpace(Strip(s)[0]) && !IsSpace(Strip(s)[|Strip(s)| - 1])
  {
    StripSlice(s);
    TrimLeftDropsSpace(s);
    StripTail(s);
    if Strip(s) != [] {
      assert Strip(s)[0] == TrimLeft(s)[0];
    }
  }

  /** A sign character followed by a digit run: the signed form `int` accepts. */
  predicate IsSignedDigits(t: string) {
    |t| > 0 && (t[0] == '-' || t[0] == '+') && IsDigits(t[1..])
  }

  /** `int` of text without surrounding white space: a digit run, optionally after one sign. */
  function ParseSigned(t: string): (r: Option<int>)
    ensures r.Some? <==> IsDigits(t) || IsSignedDigits(t)
    ensures IsDigits(t) ==> r == Some(DecimalValue(t))
    ensures IsSignedDigits(t) && t[0] == '-' ==> r == Some(-(DecimalValue(t[1..]) as int))
    ensures IsSignedDigits(t) && t[0] == '+' ==> r == Some(DecimalValue(t[1..]))
  {
    if |t| > 0 && (t[0] == '-' || t[0] == '+') then
      if IsDigits(t[1..]) then
        var v: int := DecimalValue(t[1..]);
        Some(if t[0] == '-' then -v else v)
      else None
    else if IsDigits(t) then Some(DecimalValue(t))
    else None
  }

  /**
   * Python's `int(s)` on a string: optional white space around an optional sign and ASCII
   * digits; any other text raises, which is `None` here.
   */
  function ParseIntLiteral(s: string): (r: Option<int>)
    ensures r.Some? <==> IsDigits(Strip(s)) || IsSignedDigits(Strip(s))
    ensures IsDigits(Strip(s)) ==> r == Some(DecimalValue(Strip(s)))
    ensures IsSignedDigits(Strip(s)) && Strip(s)[0] == '-' ==> r == Some(-(DecimalValue(Strip(s)[1..]) as int))
    ensures IsSignedDigits(Strip(s)) && Strip(s)[0] == '+' ==> r == Some(DecimalValue(Strip(s)[1..]))
    ensures r.Some? ==> Strip(s) != []
    ensures r.Some? && r.value < 0 ==> Strip(s)[0] == '-'
  {
    ParseSigned(Strip(s))
  }

  /** Text that neither starts nor ends with white space is its own `strip()`. */
  lemma StripUnpadded(s: string)
    requires s != [] && !IsSpace(s[0]) && !IsSpace(s[|s| - 1])
    ensures Strip(s) == s
  {
    assert TrimLeft(s) == s;
    assert TrimRight(s) == s;
  }

  /** A string that is a digit run, read with `int`, gives its decimal value. */
  lemma ParseDigits(s: string)
    requires IsDigits(s)
    ensures ParseIntLiteral(s) == Some(DecimalValue(s))
  {
    StripUnpadded(s);
    assert s[0] != '-' && s[0] != '+';
  }

  /** Reading back what `str` printed gives the same integer. */
  lemma IntToStringRoundTrip(i: int)
    ensures ParseIntLiteral(IntToString(i)) == Some(i)
  {
    var s := IntToString(i);
    StripUnpadded(s);
    if i < 0 {
      var d := NatToString(-i);
      assert s == "-" + d && s[1..] == d;
    } else {
      ParseDigits(s);
    }
  }

  // ---------- str.split() ----------

  /** A non-empty run of non-white-space characters. */
  predicate IsWord(w: string) {
    w != [] && forall m :: 0 <= m < |w| ==> !IsSpace(w[m])
  }

  /** The end of the run of non-white-space characters that starts at `i`. */
  function WordEnd(s: string, i: nat): (j: nat)
    requires i <= |s|
    ensures i <= j <= |s|
    ensures forall k :: i <= k < j ==> !IsSpace(s[k])
    ensures j == |s| || IsSpace(s[j])
    decreases |s| - i
  {
    if i == |s| || IsSpace(s[i]) then i else WordEnd(s, i + 1)
  }

  /** Python's `s.split()`: the maximal runs of non-white-space characters, in order. */
  function Fields(s: string): (r: seq<string>)
    ensures forall k :: 0 <= k < |r| ==> IsWord(r[k])
    decreases |s|
  {
    if s == [] then []
    else if IsSpace(s[0]) then Fields(s[1..])
    else
      var j := WordEnd(s, 0);
      [s[..j]] + Fields(s[j..])
  }

  /** `WordEnd` stops where `a` ends when white space follows it. */
  lemma {:induction false} WordEndStops(a: string, t: string, i: nat)
    requires i <= |a|
    requires t != [] && IsSpace(t[0])
    ensures WordEnd(a + t, i) == WordEnd(a, i)
    decreases |a| - i
  {
    if i < |a| {
      assert (a + t)[i] == a[i];
      if !IsSpace(a[i]) {
        WordEndStops(a, t, i + 1);
      }
    } else {
      assert (a + t)[i] == t[0];
    }
  }

  /** A single word splits into itself. */
  lemma FieldsOfWord(w: string)
    requires IsWord(w)
    ensures Fields(w) == [w]
  {
    var j := WordEnd(w, 0);
    assert j == |w|;
    assert w[..j] == w && w[j..] == [];
  }

  /** White space between two texts separates their fields. */
  lemma {:induction false} FieldsAppend(a: string, b: string)
    ensures Fields(a + " " + b) == Fields(a) + Fields(b)
    decreases |a|
  {
    var s := a + " " + b;
    if a == [] {
      assert s[1..] == b;
    } else if IsSpace(a[0]) {
      assert s[1..] == a[1..] + " " + b;
      FieldsAppend(a[1..], b);
    } else {
      var j := WordEnd(a, 0);
      assert s == a + (" " + b);
      WordEndStops(a, " " + b, 0);
      assert s[..j] == a[..j];
      assert s[j..] == a[j..] + " " + b;
      FieldsAppend(a[j..], b);
    }
  }

  /** `split()` undoes `" ".join` of words: the fields are the words, in order. */
  lemma {:induction false} FieldsOfJoin(parts: seq<string>)
    requires forall k :: 0 <= k < |parts| ==> IsWord(parts[k])
    ensures Fields(Join(" ", parts)) == parts
  {
    if |parts| == 1 {
      FieldsOfWord(parts[0]);
    } else if |parts| > 1 {
      var front := parts[..|parts| - 1];
      var last := parts[|parts| - 1];
      FieldsOfJoin(front);
      FieldsAppend(Join(" ", front), last);
      FieldsOfWord(last);
      assert front + [last] == parts;
    }
  }

  // ---------- str.splitlines() ----------

  predicate NoLineBreak(s: string) {
    forall k :: 0 <= k < |s| ==> !IsLineBreak(s[k])
  }

  /** The index of the first line break at or after `i`, or `|s|`. */
  function LineEnd(s: string, i: nat): (j: nat)
    requires i <= |s|
    ensures i <= j <= |s|
    ensures forall k :: i <= k < j ==> !IsLineBreak(s[k])
    ensures j == |s| || IsLineBreak(s[j])
    decreases |s| - i
  {
    if i == |s| || IsLineBreak(s[i]) then i else LineEnd(s, i + 1)
  }

  /**
   * Python's `s.splitlines()`: the lines without their terminators; "\r\n" ends one line,
   * and a final terminator does not start an empty last line.
   */
  function SplitLines(s: string): (lines: seq<string>)
    ensures forall k :: 0 <= k < |lines| ==> NoLineBreak(lines[k])
    ensures s == [] <==> lines == []
    decreases |s|
  {
    if s == [] then []
    else
      var j := LineEnd(s, 0);
      if j == |s| then [s]
      else
        var next := if s[j] == '\r' && j + 1 < |s| && s[j + 1] == '\n' then j + 2 else j + 1;
        [s[..j]] + SplitLines(s[next..])
  }

  /** A first line ended by "\n" is split off whole, whatever follows it. */
  lemma SplitLinesFirst(head: string, body: string)
    requires NoLineBreak(head)
    ensures SplitLines(head + "\n" + body) == [head] + SplitLines(body)
  {
    var s := head + "\n" + body;
    assert s[|head|] == '\n';
    assert forall k :: 0 <= k < |head| ==> s[k] == head[k];
    var j := LineEnd(s, 0);
    assert j == |head|;
    assert s[..j] == head;
    assert s[j + 1..] == body;
  }

  // ---------- str.find, str.join ----------

  /** `pat` occurs in `s` starting at index `k`. */
  predicate OccursAt(s: string, pat: string, k: int) {
    0 <= k && k + |pat| <= |s| && s[k..k + |pat|] == pat
  }

  /** The first index at or after `i` where `pat` occurs in `s`. */
  function FindFrom(s: string, pat: string, i: nat): (r: Option<nat>)
    requires i <= |s|
    ensures r.Some? ==> i <= r.value && OccursAt(s, pat, r.value)
    ensures forall k :: i <= k && (r.None? || k < r.value) ==> !OccursAt(s, pat, k)
    decreases |s| - i
  {
    if i + |pat| > |s| then None
    else if s[i..i + |pat|] == pat then Some(i)
    else FindFrom(s, pat, i + 1)
  }

  /** Python's `s.find(pat)`, with `None` for -1. */
  function Find(s: string, pat: string): (r: Option<nat>)
    ensures r.Some? ==> OccursAt(s, pat, r.value) && forall k :: 0 <= k < r.value ==> !OccursAt(s, pat, k)
    ensures r.None? ==> forall k :: 0 <= k ==> !OccursAt(s, pat, k)
  {
    FindFrom(s, pat, 0)
  }

  /** The first occurrence is the one with no occurrence before it. */
  lemma FindIs(s: string, pat: string, k: nat)
    requires OccursAt(s, pat, k)
    requires forall j :: 0 <= j < k ==> !OccursAt(s, pat, j)
    ensures Find(s, pat) == Some(k)
  {
  }

  /** Python's `sep.join(parts)`. */
  function Join(sep: string, parts: seq<string>): string {
    if parts == [] then ""
    else if |parts| == 1 then parts[0]
    else Join(sep, parts[..|parts| - 1]) + sep + parts[|parts| - 1]
  }
}
