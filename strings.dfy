/** The JavaScript string built-ins the tracker relies on, over `seq<char>`:
    `trim`, the `\s` class, `indexOf`/`includes`, `split` and `join` with a
    non-empty separator, `parseInt` without a radix, `Number.prototype.toString`
    for integers and `padStart` with '0'. */
module Strings {
  import opened Types

  /** JavaScript's WhiteSpace and LineTerminator code points: what `trim()` strips,
      what `\s` matches and what `parseInt` skips. */
  predicate IsSpace(c: char) {
    c == ' ' || c == '\t' || c == '\n' || c == '\r' || c == '\U{B}' || c == '\U{C}'
    || c == '\U{A0}' || c == '\U{1680}' || ('\U{2000}' <= c <= '\U{200A}')
    || c == '\U{2028}' || c == '\U{2029}' || c == '\U{202F}' || c == '\U{205F}'
    || c == '\U{3000}' || c == '\U{FEFF}'
  }

  /** The characters that `.` in a regular expression does not match. */
  predicate IsLineTerminator(c: char) {
    c == '\n' || c == '\r' || c == '\U{2028}' || c == '\U{2029}'
  }

  predicate IsDigit(c: char) { '0' <= c <= '9' }

  predicate AllDigits(s: string) { forall i :: 0 <= i < |s| ==> IsDigit(s[i]) }

  /** `s.trim()` is the empty string, i.e. `s.trim()` is falsy. */
  predicate Blank(s: string) { forall i :: 0 <= i < |s| ==> IsSpace(s[i]) }

  function TrimStart(s: string): (r: string)
    ensures |r| <= |s| && r == s[|s| - |r|..]
    ensures r == [] || !IsSpace(r[0])
    ensures forall i :: 0 <= i < |s| - |r| ==> IsSpace(s[i])
  {
    if s != [] && IsSpace(s[0]) then TrimStart(s[1..]) else s
  }

  function TrimEnd(s: string): (r: string)
    ensures |r| <= |s| && r == s[..|r|]
    ensures r == [] || !IsSpace(r[|r| - 1])
    ensures forall i :: |r| <= i < |s| ==> IsSpace(s[i])
  {
    if s != [] && IsSpace(s[|s| - 1]) then TrimEnd(s[..|s| - 1]) else s
  }

  /** `s.trim()` */
  function Trim(s: string): string {
    TrimEnd(TrimStart(s))
  }

  /** `s.trim()` is truthy exactly when `s` holds a character that is not white space. */
  lemma TrimEmptyIffBlank(s: string)
    ensures Trim(s) == [] <==> Blank(s)
  {
    var u := TrimStart(s);
    if Trim(s) == [] {
      assert |u| == 0;
    }
  }

  /** A string with no white space at either end is its own trim. */
  lemma TrimOfTrimmed(s: string)
    requires s == [] || (!IsSpace(s[0]) && !IsSpace(s[|s| - 1]))
    ensures Trim(s) == s
  {
  }

  predicate StartsWith(s: string, p: string) {
    |p| <= |s| && s[..|p|] == p
  }

  /** `s.indexOf(m)`: the first position at which `m` occurs, or -1. */
  function IndexOf(s: string, m: string): (r: int)
    ensures r == -1 || 0 <= r <= |s| - |m|
    ensures r >= 0 ==> StartsWith(s[r..], m)
    ensures forall k :: 0 <= k <= |s| && (r < 0 || k < r) ==> !StartsWith(s[k..], m)
    decreases |s|
  {
    if StartsWith(s, m) then 0
    else if s == [] then -1
    else
      var k := IndexOf(s[1..], m);
      assert forall j :: 1 <= j <= |s| ==> s[1..][j - 1..] == s[j..];
      if k < 0 then -1 else k + 1
  }

  /** `s.includes(m)` */
  predicate Contains(s: string, m: string) {
    IndexOf(s, m) >= 0
  }

  /** `m` occurs in `s` at position `k`, so `s.includes(m)`. */
  lemma ContainsAt(s: string, m: string, k: nat)
    requires k <= |s| && StartsWith(s[k..], m)
    ensures Contains(s, m)
  {
  }

  /** `s.split(sep)` for a non-empty separator. */
  function Split(s: string, sep: string): (r: seq<string>)
    requires |sep| > 0
    ensures |r| >= 1
    ensures |r| == 1 <==> !Contains(s, sep)
    decreases |s|
  {
    var i := IndexOf(s, sep);
    if i < 0 then [s] else [s[..i]] + Split(s[i + |sep|..], sep)
  }

  /** `ls.join(sep)` */
  function Join(ls: seq<string>, sep: string): string {
    if |ls| == 0 then "" else if |ls| == 1 then ls[0] else ls[0] + sep + Join(ls[1..], sep)
  }

  lemma IndexOfAbsentChar(a: string, c: char)
    requires c !in a
    ensures IndexOf(a, [c]) == -1
  {
    forall k | 0 <= k < |a| ensures !StartsWith(a[k..], [c]) {
      assert a[k..][0] == a[k];
    }
  }

  lemma IndexOfFirstChar(a: string, c: char, b: string)
    requires c !in a
    ensures IndexOf(a + [c] + b, [c]) == |a|
  {
    var s := a + [c] + b;
    assert s[|a|..][..1] == [c];
    forall k | 0 <= k < |a| ensures !StartsWith(s[k..], [c]) {
      assert s[k..][0] == a[k];
    }
  }

  /** Splitting on a one-character separator peels off the text up to its first occurrence. */
  lemma SplitAtFirst(a: string, c: char, b: string)
    requires c !in a
    ensures Split(a + [c] + b, [c]) == [a] + Split(b, [c])
  {
    var s := a + [c] + b;
    IndexOfFirstChar(a, c, b);
    assert s[..|a|] == a;
    assert s[|a| + 1..] == b;
  }

  lemma SplitWithout(a: string, c: char)
    requires c !in a
    ensures Split(a, [c]) == [a]
  {
    IndexOfAbsentChar(a, c);
  }

  /** Splitting a join on a character no part contains gives the parts back. */
  lemma {:induction false} SplitJoin(ls: seq<string>, c: char)
    requires |ls| >= 1
    requires forall i :: 0 <= i < |ls| ==> c !in ls[i]
    ensures Split(Join(ls, [c]), [c]) == ls
    decreases |ls|
  {
    if |ls| == 1 {
      SplitWithout(ls[0], c);
    } else {
      SplitAtFirst(ls[0], c, Join(ls[1..], [c]));
      SplitJoin(ls[1..], c);
      assert [ls[0]] + ls[1..] == ls;
    }
  }

  // ---- decimal digits -------------------------------------------------------

  function DigitChar(d: nat): (c: char)
    requires d < 10
    ensures IsDigit(c)
  {
    (48 + d) as char
  }

  function DigitValue(c: char): (d: nat)
    requires IsDigit(c)
    ensures d < 10
  {
    (c as int) - 48
  }

  /** The value of a string of decimal digits, most significant first. */
  function DecimalValue(ds: string): nat
    requires AllDigits(ds)
  {
    if ds == [] then 0 else DecimalValue(ds[..|ds| - 1]) * 10 + DigitValue(ds[|ds| - 1])
  }

  /** `n.toString()` for a non-negative integer. */
  function NatToString(n: nat): (r: string)
    ensures |r| >= 1 && AllDigits(r) && DecimalValue(r) == n
    ensures |r| == 1 <==> n < 10
    ensures 10 <= n < 100 ==> |r| == 2
    ensures n >= 100 ==> |r| >= 3
  {
    if n < 10 then [DigitChar(n)]
    else
      var q, d := n / 10, n % 10;
      assert n == q * 10 + d && 1 <= q;
      assert n < 100 ==> q < 10;
      assert n >= 100 ==> q >= 10;
      var r := NatToString(q) + [DigitChar(d)];
      assert r[..|r| - 1] == NatToString(q);
      assert DigitValue(r[|r| - 1]) == d;
      r
  }

  /** `n.toString()` for any integer. */
  function IntToString(n: int): string {
    if n < 0 then "-" + NatToString(-n) else NatToString(n)
  }

  /** `s.padStart(width, '0')` */
  function PadStart(s: string, width: nat): (r: string)
    ensures |r| == if |s| >= width then |s| else width
    ensures r[|r| - |s|..] == s
    ensures forall i :: 0 <= i < |r| - |s| ==> r[i] == '0'
    decreases width - |s|
  {
    if |s| >= width then s else
      var r := PadStart(['0'] + s, width);
      assert r[|r| - |s|..] == (r[|r| - |s| - 1..])[1..];
      r
  }

  /** A leading zero does not change a decimal value. */
  lemma {:induction false} LeadingZero(ds: string)
    requires AllDigits(ds)
    ensures AllDigits(['0'] + ds) && DecimalValue(['0'] + ds) == DecimalValue(ds)
    decreases |ds|
  {
    var z := ['0'] + ds;
    if ds != [] {
      assert z[..|z| - 1] == ['0'] + ds[..|ds| - 1];
      LeadingZero(ds[..|ds| - 1]);
    }
  }

  /** Padding a string of digits with zeros keeps it a string of digits of the same value. */
  lemma {:induction false} PadKeepsValue(ds: string, width: nat)
    requires AllDigits(ds)
    ensures AllDigits(PadStart(ds, width)) && DecimalValue(PadStart(ds, width)) == DecimalValue(ds)
    decreases width - |ds|
  {
    if |ds| < width {
      LeadingZero(ds);
      PadKeepsValue(['0'] + ds, width);
    }
  }

  /** A string of digits contains no character other than a digit. */
  lemma DigitsExclude(ds: string, c: char)
    requires AllDigits(ds) && !IsDigit(c)
    ensures c !in ds
  {
  }

  // ---- parseInt -------------------------------------------------------------

  predicate IsHexDigit(c: char) {
    IsDigit(c) || ('a' <= c <= 'f') || ('A' <= c <= 'F')
  }

  function HexDigitValue(c: char): nat
    requires IsHexDigit(c)
  {
    if IsDigit(c) then DigitValue(c)
    else if 'a' <= c <= 'f' then (c as int) - 87
    else (c as int) - 55
  }

  /** Length of the longest prefix of `s` made of characters satisfying `ok`. */
  function RunLength(s: string, ok: char -> bool): (n: nat)
    ensures n <= |s|
    ensures forall i :: 0 <= i < n ==> ok(s[i])
    ensures n < |s| ==> !ok(s[n])
  {
    if s != [] && ok(s[0]) then 1 + RunLength(s[1..], ok) else 0
  }

  function HexValue(ds: string): nat
    requires forall i :: 0 <= i < |ds| ==> IsHexDigit(ds[i])
  {
    if ds == [] then 0 else HexValue(ds[..|ds| - 1]) * 16 + HexDigitValue(ds[|ds| - 1])
  }

  /** The value of the longest run of decimal digits at the start of `s`; None (NaN) when there is none. */
  function DecimalPrefix(s: string): Option<nat> {
    var n := RunLength(s, IsDigit);
    if n == 0 then None else Some(DecimalValue(s[..n]))
  }

  function HexPrefix(s: string): Option<nat> {
    var n := RunLength(s, IsHexDigit);
    if n == 0 then None else Some(HexValue(s[..n]))
  }

  /** `parseInt(s)` with no radix: leading white space, an optional sign, a "0x"
      prefix selecting base 16, then the longest run of digits; None stands for NaN. */
  function ParseInt(s: string): Option<int> {
    var t := TrimStart(s);
    var negative := |t| > 0 && t[0] == '-';
    var u := if |t| > 0 && (t[0] == '-' || t[0] == '+') then t[1..] else t;
    var magnitude := if |u| >= 2 && u[0] == '0' && (u[1] == 'x' || u[1] == 'X') then HexPrefix(u[2..]) else DecimalPrefix(u);
    match magnitude
    case None => None
    case Some(v) => var m: int := v; Some(if negative then -m else m)
  }

  /** `parseInt(s) || 0`: NaN becomes 0. */
  function ParseIntOrZero(s: string): int {
    ParseInt(s).GetOr(0)
  }

  lemma {:induction false} RunOfDigits(ds: string)
    requires AllDigits(ds)
    ensures RunLength(ds, IsDigit) == |ds|
    decreases |ds|
  {
    if ds != [] {
      RunOfDigits(ds[1..]);
    }
  }

  /** A run of decimal digits is its own longest digit prefix. */
  lemma DigitsPrefix(ds: string)
    requires |ds| >= 1 && AllDigits(ds)
    ensures DecimalPrefix(ds) == Some(DecimalValue(ds))
  {
    RunOfDigits(ds);
    assert ds[..|ds|] == ds;
  }

  /** `parseInt` reads back a plain run of decimal digits exactly. */
  lemma ParseDigits(ds: string)
    requires |ds| >= 1 && AllDigits(ds)
    ensures ParseInt(ds).Some? && ParseInt(ds).value == DecimalValue(ds)
  {
    assert !IsSpace(ds[0]);
    assert TrimStart(ds) == ds;
    assert ds[0] != '-' && ds[0] != '+';
    assert |ds| >= 2 ==> ds[1] != 'x' && ds[1] != 'X';
    DigitsPrefix(ds);
  }
}
