/** Text helpers the editor relies on: Python's decimal rendering of integers
    (`str(int)`, the `{idx:03d}` format), `str.endswith`, `os.path.join`,
    `os.path.expanduser` for a `~/...` path, and reading a text file back as
    lines (the inverse of writing one line per entry). */
module Strings {

  predicate IsDigit(c: char) {
    '0' <= c <= '9'
  }

  predicate AllDigits(s: string) {
    forall i :: 0 <= i < |s| ==> IsDigit(s[i])
  }

  function DigitChar(d: nat): (c: char)
    requires d < 10
    ensures IsDigit(c) && c as int - '0' as int == d
  {
    ('0' as int + d) as char
  }

  /** The number a string of decimal digits denotes (leading zeros allowed). */
  function DigitsValue(s: string): nat
    requires AllDigits(s)
  {
    if s == [] then 0
    else DigitsValue(s[..|s| - 1]) * 10 + (s[|s| - 1] as int - '0' as int)
  }

  /** `str(n)` for a natural number: digits only, at least one, no leading
      zero (the first digit is '0' only for 0 itself), and reading the digits
      back gives n. */
  function Decimal(n: nat): (s: string)
    ensures |s| >= 1 && AllDigits(s)
    ensures DigitsValue(s) == n
    ensures s[0] == '0' <==> n == 0
    ensures n < 10 <==> |s| == 1
    ensures n < 100 ==> |s| <= 2
    ensures n >= 100 ==> |s| >= 3
    ensures n < 1000 ==> |s| <= 3
  {
    if n < 10 then [DigitChar(n)]
    else
      var front := Decimal(n / 10);
      var s := front + [DigitChar(n % 10)];
      assert s[..|s| - 1] == front;
      assert s[0] == front[0];
      s
  }

  /** `str(n)` is the only way to write n in digits without a leading zero:
      any such digit string is `Decimal` of the number it denotes. */
  lemma {:induction false} DecimalCanonical(s: string)
    requires |s| >= 1 && AllDigits(s)
    requires |s| > 1 ==> s[0] != '0'
    ensures s == Decimal(DigitsValue(s))
  {
    var v := DigitsValue(s);
    var c := s[|s| - 1];
    if |s| == 1 {
      assert DigitsValue(s) == DigitsValue(s[..|s| - 1]) * 10 + (c as int - '0' as int);
      assert s[..|s| - 1] == [];
      assert DigitChar(v) as int == c as int;
    } else {
      var t := s[..|s| - 1];
      assert t[0] == s[0];
      DecimalCanonical(t);
      LeadingDigitValue(t);
      var d := c as int - '0' as int;
      assert v == DigitsValue(t) * 10 + d && 0 <= d < 10;
      assert v / 10 == DigitsValue(t) && v % 10 == d;
      assert DigitChar(d) as int == c as int;
      assert s == t + [c];
    }
  }

  lemma {:induction false} LeadingDigitValue(s: string)
    requires |s| >= 1 && AllDigits(s) && s[0] != '0'
    ensures DigitsValue(s) >= 1
  {
    if |s| > 1 {
      var t := s[..|s| - 1];
      assert t[0] == s[0];
      LeadingDigitValue(t);
    }
  }

  /** `str(i)` for any integer: a minus sign in front of negative numbers. */
  function IntDecimal(i: int): (s: string)
    ensures i >= 0 ==> s == Decimal(i)
    ensures i < 0 ==> s == "-" + Decimal(-i)
  {
    if i < 0 then "-" + Decimal(-i) else Decimal(i)
  }

  function Zeros(k: nat): (z: string)
    ensures |z| == k && AllDigits(z)
    ensures forall i :: 0 <= i < k ==> z[i] == '0'
  {
    if k == 0 then [] else Zeros(k - 1) + "0"
  }

  lemma {:induction false} LeadingZerosValue(k: nat, s: string)
    requires AllDigits(s)
    ensures AllDigits(Zeros(k) + s)
    ensures DigitsValue(Zeros(k) + s) == DigitsValue(s)
  {
    if s == [] {
      assert Zeros(k) + s == Zeros(k);
      ZerosValue(k);
    } else {
      var t := Zeros(k) + s;
      assert t[..|t| - 1] == Zeros(k) + s[..|s| - 1];
      LeadingZerosValue(k, s[..|s| - 1]);
    }
  }

  lemma {:induction false} ZerosValue(k: nat)
    ensures DigitsValue(Zeros(k)) == 0
  {
    if k > 0 {
      var z := Zeros(k);
      assert z[..k - 1] == Zeros(k - 1);
      ZerosValue(k - 1);
    }
  }

  /** The `{n:03d}` format: decimal, left-padded with zeros to width three;
      the padding never changes the number the digits denote, so two different
      indexes never render alike. */
  function Pad3(n: nat): (s: string)
    ensures |s| >= 3 && AllDigits(s)
    ensures DigitsValue(s) == n
    ensures n < 1000 ==> |s| == 3
    ensures n >= 100 ==> s == Decimal(n)
  {
    var d := Decimal(n);
    if |d| >= 3 then d
    else
      LeadingZerosValue(3 - |d|, d);
      Zeros(3 - |d|) + d
  }

  lemma Pad3Injective(i: nat, j: nat)
    requires Pad3(i) == Pad3(j)
    ensures i == j
  {
  }

  /** `s.endswith(suffix)`. */
  predicate EndsWith(s: string, suffix: string) {
    |suffix| <= |s| && s[|s| - |suffix|..] == suffix
  }

  /** `os.path.join(dir, name)` with one component, POSIX rules: an absolute
      component replaces the directory; otherwise one separator is inserted
      unless the directory is empty or already ends in one. */
  function PathJoin(dir: string, name: string): (p: string)
    ensures |name| > 0 && name[0] == '/' ==> p == name
    ensures !(|name| > 0 && name[0] == '/') ==>
      && |dir| <= |p| && p[..|dir|] == dir && EndsWith(p, name)
      && ((dir == [] || dir[|dir| - 1] == '/') ==> |p| == |dir| + |name|)
      && (!(dir == [] || dir[|dir| - 1] == '/') ==> |p| == |dir| + 1 + |name| && p[|dir|] == '/')
  {
    if |name| > 0 && name[0] == '/' then name
    else if dir == [] || dir[|dir| - 1] == '/' then dir + name
    else dir + "/" + name
  }

  function StripTrailingSlashes(s: string): (r: string)
    ensures |r| <= |s| && r == s[..|r|]
    ensures r == [] || r[|r| - 1] != '/'
    ensures forall i :: |r| <= i < |s| ==> s[i] == '/'
  {
    if s == [] || s[|s| - 1] != '/' then s
    else StripTrailingSlashes(s[..|s| - 1])
  }

  /** `os.path.expanduser("~" + rest)` with `home` as the home directory:
      the home directory loses its trailing slashes and `rest` follows. */
  function ExpandUser(home: string, rest: string): (p: string)
    requires |rest| > 0
    ensures EndsWith(p, rest)
    ensures p[..|p| - |rest|] == StripTrailingSlashes(home)
  {
    StripTrailingSlashes(home) + rest
  }

  /** The text of a file written line by line, each line followed by "\n". */
  function Lines(ls: seq<string>): string {
    if ls == [] then "" else ls[0] + "\n" + Lines(ls[1..])
  }

  lemma {:induction false} LinesAppend(ls: seq<string>, l: string)
    ensures Lines(ls + [l]) == Lines(ls) + l + "\n"
  {
    if ls == [] {
      assert ls + [l] == [l];
    } else {
      assert (ls + [l])[1..] == ls[1..] + [l];
      LinesAppend(ls[1..], l);
    }
  }

  function NewlineIndex(s: string): (k: nat)
    ensures k <= |s|
    ensures k < |s| ==> s[k] == '\n'
    ensures forall i :: 0 <= i < k ==> s[i] != '\n'
  {
    if s == [] || s[0] == '\n' then 0 else 1 + NewlineIndex(s[1..])
  }

  /** Reading a text back as lines (Python's `str.splitlines` for "\n"): a
      final line without a terminator still counts, an empty text has none. */
  function SplitLines(s: string): seq<string>
    decreases |s|
  {
    if s == [] then []
    else
      var k := NewlineIndex(s);
      if k == |s| then [s] else [s[..k]] + SplitLines(s[k + 1..])
  }

  predicate NoNewline(s: string) {
    forall i :: 0 <= i < |s| ==> s[i] != '\n'
  }

  /** Writing lines and reading them back gives the same lines, provided no
      line holds a line break of its own. */
  lemma {:induction false} SplitLinesOfLines(ls: seq<string>)
    requires forall i :: 0 <= i < |ls| ==> NoNewline(ls[i])
    ensures SplitLines(Lines(ls)) == ls
  {
    if ls != [] {
      var l, rest := ls[0], Lines(ls[1..]);
      var s := l + "\n" + rest;
      assert s == Lines(ls);
      var k := NewlineIndex(s);
      assert s[|l|] == '\n';
      assert forall i :: 0 <= i < |l| ==> s[i] == l[i];
      assert k == |l|;
      assert s[..k] == l;
      assert s[k + 1..] == rest;
      SplitLinesOfLines(ls[1..]);
    }
  }
}
