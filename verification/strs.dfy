/**
  * The slice of Python's `str` and `int` behaviour the gateway relies on:
  * prefix tests, `split`/`join`, character-set `strip`, `replace`, ASCII case
  * mapping, and decimal/hexadecimal conversion in both directions.
  */
module Strs {
  import opened Wrappers

  predicate StartsWith(s: string, p: string) {
    |p| <= |s| && s[..|p|] == p
  }

  predicate EndsWith(s: string, p: string) {
    |p| <= |s| && s[|s| - |p|..] == p
  }

  /** `sub in s` */
  predicate Contains(s: string, sub: string)
    decreases |s|
  {
    StartsWith(s, sub) || (|s| > 0 && Contains(s[1..], sub))
  }

  /** A text starts with whatever was put in front of it. */
  lemma StartsWithConcat(p: string, t: string)
    ensures StartsWith(p + t, p)
  {
    assert (p + t)[..|p|] == p;
  }

  /** A character of a prefix is the text's character at the same place. */
  lemma PrefixChar(s: string, p: string, i: nat)
    ensures StartsWith(s, p) && i < |p| ==> s[i] == p[i]
  {
    if StartsWith(s, p) && i < |p| {
      assert s[i] == s[..|p|][i];
    }
  }

  /** An occurrence at position `i` makes `sub in s` hold. */
  lemma {:induction false} ContainsAt(s: string, sub: string, i: nat)
    requires i + |sub| <= |s| && s[i..i + |sub|] == sub
    ensures Contains(s, sub)
    decreases i
  {
    if i > 0 {
      assert s[1..][i - 1..i - 1 + |sub|] == s[i..i + |sub|];
      ContainsAt(s[1..], sub, i - 1);
    }
  }

  /** A text lacking one of the characters of `sub` does not contain `sub`. */
  lemma {:induction false} MissingCharAbsent(s: string, sub: string, c: char)
    requires c in sub && c !in s
    ensures !Contains(s, sub)
    decreases |s|
  {
    var k :| 0 <= k < |sub| && sub[k] == c;
    if |sub| <= |s| {
      assert s[..|sub|][k] == s[k] && s[k] in s;
    }
    if |s| > 0 {
      assert forall j :: 0 <= j < |s[1..]| ==> s[1..][j] == s[j + 1];
      MissingCharAbsent(s[1..], sub, c);
    }
  }

  // ---------------------------------------------------------------- case

  function LowerChar(c: char): char {
    if 'A' <= c <= 'Z' then (c as int + 32) as char else c
  }

  function UpperChar(c: char): char {
    if 'a' <= c <= 'z' then (c as int - 32) as char else c
  }

  /** `s.lower()` on ASCII letters */
  function Lower(s: string): (r: string)
    ensures |r| == |s|
  {
    seq(|s|, i requires 0 <= i < |s| => LowerChar(s[i]))
  }

  /** `s.upper()` on ASCII letters */
  function Upper(s: string): (r: string)
    ensures |r| == |s|
  {
    seq(|s|, i requires 0 <= i < |s| => UpperChar(s[i]))
  }

  predicate IsAsciiLetter(c: char) { 'A' <= c <= 'Z' || 'a' <= c <= 'z' }
  predicate IsDigit(c: char) { '0' <= c <= '9' }
  predicate IsUpperLetter(c: char) { 'A' <= c <= 'Z' }

  /** The characters kept by `re.sub('[^A-Za-z0-9-]+', '', s)`. */
  predicate IsNameChar(c: char) { IsAsciiLetter(c) || IsDigit(c) || c == '-' }

  /** Python's `str.isspace` restricted to ASCII. */
  predicate IsSpace(c: char) {
    c == ' ' || c == '\t' || c == '\n' || c == '\r' || c == '\U{000B}' || c == '\U{000C}'
    || ('\U{001C}' <= c <= '\U{001F}')
  }

  // ---------------------------------------------------------------- filtering

  /** `s` with every character failing `keep` removed. */
  function KeepChars(s: string, keep: char -> bool): (r: string)
    ensures |r| <= |s|
    ensures forall i :: 0 <= i < |r| ==> keep(r[i])
    decreases |s|
  {
    if |s| == 0 then ""
    else if keep(s[0]) then [s[0]] + KeepChars(s[1..], keep)
    else KeepChars(s[1..], keep)
  }

  /** `re.sub('[^A-Za-z0-9-]+', '', s)` */
  function NormalizeName(s: string): (r: string)
    ensures forall i :: 0 <= i < |r| ==> IsNameChar(r[i])
  {
    KeepChars(s, IsNameChar)
  }

  // ---------------------------------------------------------------- strip

  /** `s.lstrip(chars)`: drop leading characters that belong to the set. */
  function LStrip(s: string, chars: set<char>): (r: string)
    ensures |r| <= |s| && r == s[|s| - |r|..]
    ensures |r| > 0 ==> r[0] !in chars
    decreases |s|
  {
    if |s| > 0 && s[0] in chars then LStrip(s[1..], chars) else s
  }

  /** A leading run of stripped characters makes no difference to what is left. */
  lemma {:induction false} LStripRun(p: string, s: string, chars: set<char>)
    requires forall i :: 0 <= i < |p| ==> p[i] in chars
    ensures LStrip(p + s, chars) == LStrip(s, chars)
    decreases |p|
  {
    if |p| > 0 {
      assert (p + s)[0] == p[0] && (p + s)[1..] == p[1..] + s;
      assert LStrip(p + s, chars) == LStrip(p[1..] + s, chars);
      LStripRun(p[1..], s, chars);
    } else {
      assert p + s == s;
    }
  }

  /** A leading run of stripped characters is all that goes when what follows
      starts with a kept character. */
  lemma StripRun(p: string, t: string, chars: set<char>)
    requires forall i :: 0 <= i < |p| ==> p[i] in chars
    requires |t| > 0 && t[0] !in chars
    ensures LStrip(p + t, chars) == t
  {
    LStripRun(p, t, chars);
  }

  /** `s.rstrip(chars)`: drop trailing characters that belong to the set. */
  function RStrip(s: string, chars: set<char>): (r: string)
    ensures |r| <= |s| && r == s[..|r|]
    ensures |r| > 0 ==> r[|r| - 1] !in chars
    decreases |s|
  {
    if |s| > 0 && s[|s| - 1] in chars then RStrip(s[..|s| - 1], chars) else s
  }

  function LStripSpace(s: string): (r: string)
    ensures |r| <= |s| && r == s[|s| - |r|..]
    ensures |r| > 0 ==> !IsSpace(r[0])
    decreases |s|
  {
    if |s| > 0 && IsSpace(s[0]) then LStripSpace(s[1..]) else s
  }

  function RStripSpace(s: string): (r: string)
    ensures |r| <= |s| && r == s[..|r|]
    ensures |r| > 0 ==> !IsSpace(r[|r| - 1])
    decreases |s|
  {
    if |s| > 0 && IsSpace(s[|s| - 1]) then RStripSpace(s[..|s| - 1]) else s
  }

  /** `s.strip()` */
  function Strip(s: string): (r: string)
    ensures |r| <= |s|
    ensures |r| > 0 ==> !IsSpace(r[0]) && !IsSpace(r[|r| - 1])
  {
    RStripSpace(LStripSpace(s))
  }

  // ---------------------------------------------------------------- split / join

  /** `sep.join(parts)` */
  function Join(parts: seq<string>, sep: string): string
    decreases |parts|
  {
    if |parts| == 0 then ""
    else if |parts| == 1 then parts[0]
    else parts[0] + sep + Join(parts[1..], sep)
  }

  /** `s.split(sep)` for a one-character separator. */
  function Split(s: string, sep: char): (parts: seq<string>)
    ensures |parts| >= 1
    ensures forall i :: 0 <= i < |parts| ==> sep !in parts[i]
    decreases |s|
  {
    if |s| == 0 then [""]
    else if s[0] == sep then [""] + Split(s[1..], sep)
    else
      var rest := Split(s[1..], sep);
      [[s[0]] + rest[0]] + rest[1..]
  }

  /** `s.split(sep)` for a separator of any non-zero length, scanning left to right. */
  function SplitStr(s: string, sep: string): (parts: seq<string>)
    requires |sep| > 0
    ensures |parts| >= 1
    decreases |s|
  {
    if |s| < |sep| then [s]
    else if s[..|sep|] == sep then [""] + SplitStr(s[|sep|..], sep)
    else
      var rest := SplitStr(s[1..], sep);
      [[s[0]] + rest[0]] + rest[1..]
  }

  /** Splitting on a character and joining back with it gives the original string. */
  lemma {:induction false} SplitJoin(s: string, sep: char)
    ensures Join(Split(s, sep), [sep]) == s
    decreases |s|
  {
    if |s| == 0 {
    } else if s[0] == sep {
      var rest := Split(s[1..], sep);
      SplitJoin(s[1..], sep);
      assert Split(s, sep) == [""] + rest;
      assert ([""] + rest)[1..] == rest;
    } else {
      var rest := Split(s[1..], sep);
      SplitJoin(s[1..], sep);
      var parts := [[s[0]] + rest[0]] + rest[1..];
      assert Split(s, sep) == parts;
      if |rest| == 1 {
        assert Join(parts, [sep]) == [s[0]] + rest[0];
        assert s == [s[0]] + s[1..];
      } else {
        assert parts[1..] == rest[1..];
        assert Join(rest, [sep]) == rest[0] + [sep] + Join(rest[1..], [sep]);
        assert s == [s[0]] + s[1..];
      }
    }
  }

  /** `s.split(sep, maxsplit=1)[0]`, which is also `s.split(sep)[0]`. */
  function FirstToken(s: string, sep: char): (r: string)
    ensures sep !in r && StartsWith(s, r)
    ensures |r| < |s| ==> s[|r|] == sep
    decreases |s|
  {
    if |s| == 0 || s[0] == sep then "" else [s[0]] + FirstToken(s[1..], sep)
  }

  // ---------------------------------------------------------------- replace

  /** `s.replace(pat, repl)`: every non-overlapping occurrence, left to right. */
  function ReplaceAll(s: string, pat: string, repl: string): string
    requires |pat| > 0
    decreases |s|
  {
    if |s| < |pat| then s
    else if s[..|pat|] == pat then repl + ReplaceAll(s[|pat|..], pat, repl)
    else [s[0]] + ReplaceAll(s[1..], pat, repl)
  }

  /** Replacing a string that does not occur leaves the text unchanged. */
  lemma {:induction false} ReplaceAbsent(s: string, pat: string, repl: string)
    requires |pat| > 0 && !Contains(s, pat)
    ensures ReplaceAll(s, pat, repl) == s
    decreases |s|
  {
    if |s| >= |pat| {
      assert !StartsWith(s, pat);
      ReplaceAbsent(s[1..], pat, repl);
      assert s == [s[0]] + s[1..];
    }
  }

  // ---------------------------------------------------------------- padding

  function Repeat(c: char, n: nat): (r: string)
    ensures |r| == n && forall i :: 0 <= i < n ==> r[i] == c
  {
    seq(n, _ => c)
  }

  /** `f'{s:>{c}{w}}'`: right-justified in a field of width `w`, padded with `c`. */
  function PadLeft(s: string, w: nat, c: char): (r: string)
    ensures |r| == if |s| >= w then |s| else w
    ensures EndsWith(r, s)
  {
    if |s| >= w then s else Repeat(c, w - |s|) + s
  }

  /** `f'{s:<{c}{w}}'`: left-justified in a field of width `w`, padded with `c`. */
  function PadRight(s: string, w: nat, c: char): (r: string)
    ensures |r| == if |s| >= w then |s| else w
    ensures StartsWith(r, s)
  {
    if |s| >= w then s else s + Repeat(c, w - |s|)
  }

  // ---------------------------------------------------------------- decimal

  function DigitChar(d: nat): char
    requires d < 10
  {
    ('0' as int + d) as char
  }

  function DigitValue(c: char): nat
    requires IsDigit(c)
  {
    c as int - '0' as int
  }

  /** `str(n)` for a natural number. */
  function NatToString(n: nat): (r: string)
    ensures |r| >= 1 && forall i :: 0 <= i < |r| ==> IsDigit(r[i])
  {
    if n < 10 then [DigitChar(n)] else NatToString(n / 10) + [DigitChar(n % 10)]
  }

  /** `str(i)` */
  function IntToString(i: int): (r: string)
    ensures |r| >= 1
  {
    if i < 0 then "-" + NatToString(-i) else NatToString(i)
  }

  predicate AllDigits(s: string) {
    forall i :: 0 <= i < |s| ==> IsDigit(s[i])
  }

  function DigitsValue(s: string): nat
    requires AllDigits(s)
  {
    if |s| == 0 then 0 else DigitsValue(s[..|s| - 1]) * 10 + DigitValue(s[|s| - 1])
  }

  /** `int(s)` for an unsigned run of decimal digits. */
  function ParseNat(s: string): Option<nat> {
    if |s| > 0 && AllDigits(s) then Some(DigitsValue(s)) else None
  }

  /** `int(s)`: an optional sign followed by decimal digits. */
  function ParseInt(s: string): Option<int> {
    if |s| > 0 && (s[0] == '-' || s[0] == '+') then
      match ParseNat(s[1..])
      case Some(n) => var v: int := if s[0] == '-' then 0 - (n as int) else n as int; Some(v)
      case None => None
    else
      match ParseNat(s)
      case Some(n) => Some(n)
      case None => None
  }

  /** A run of digits reads as its value. */
  lemma ParseDigits(s: string)
    requires |s| > 0 && AllDigits(s)
    ensures ParseInt(s) == Some(DigitsValue(s))
  {
    assert IsDigit(s[0]);
  }

  /** A minus sign before a run of digits negates its value. */
  lemma ParseNegative(s: string, d: string, v: int)
    requires s == "-" + d && |d| > 0 && AllDigits(d) && DigitsValue(d) == -v
    ensures ParseInt(s) == Some(v)
  {
    assert s[0] == '-' && s[1..] == d;
  }

  lemma {:induction false} NatToStringValue(n: nat)
    ensures AllDigits(NatToString(n)) && DigitsValue(NatToString(n)) == n
  {
    var s := NatToString(n);
    if n >= 10 {
      NatToStringValue(n / 10);
      assert s[..|s| - 1] == NatToString(n / 10);
    }
  }

  /** Printing a natural number and reading it back gives the number. */
  lemma NatRoundTrip(n: nat)
    ensures ParseNat(NatToString(n)) == Some(n)
  {
    NatToStringValue(n);
  }

  /** Printing an integer and reading it back gives the integer. */
  lemma IntRoundTrip(i: int)
    ensures ParseInt(IntToString(i)) == Some(i)
  {
    var s := IntToString(i);
    if i < 0 {
      var digits := NatToString(-i);
      NatRoundTrip(-i);
      assert s[0] == '-' && s[1..] == digits;
      assert ParseNat(s[1..]) == Some(-i);
    } else {
      NatRoundTrip(i);
      assert IsDigit(s[0]);
      assert ParseNat(s) == Some(i);
    }
  }

  // ---------------------------------------------------------------- hexadecimal

  function HexDigitChar(d: nat): char
    requires d < 16
  {
    if d < 10 then ('0' as int + d) as char else ('a' as int + d - 10) as char
  }

  predicate IsHexDigit(c: char) {
    IsDigit(c) || ('a' <= c <= 'f') || ('A' <= c <= 'F')
  }

  function HexValue(c: char): nat
    requires IsHexDigit(c)
  {
    if IsDigit(c) then c as int - '0' as int
    else if 'a' <= c <= 'f' then c as int - 'a' as int + 10
    else c as int - 'A' as int + 10
  }

  /** `hex(n)` without its `0x` prefix: lower-case digits. */
  function NatToHex(n: nat): (r: string)
    ensures |r| >= 1 && forall i :: 0 <= i < |r| ==> IsHexDigit(r[i])
  {
    if n < 16 then [HexDigitChar(n)] else NatToHex(n / 16) + [HexDigitChar(n % 16)]
  }

  predicate AllHex(s: string) {
    forall i :: 0 <= i < |s| ==> IsHexDigit(s[i])
  }

  function HexDigitsValue(s: string): nat
    requires AllHex(s)
  {
    if |s| == 0 then 0 else HexDigitsValue(s[..|s| - 1]) * 16 + HexValue(s[|s| - 1])
  }

  /** `int(s, 16)` for a run of hexadecimal digits of either case. */
  function ParseHex(s: string): Option<nat> {
    if |s| > 0 && AllHex(s) then Some(HexDigitsValue(s)) else None
  }

  lemma {:induction false} NatToHexValue(n: nat)
    ensures AllHex(NatToHex(n)) && HexDigitsValue(NatToHex(n)) == n
  {
    var s := NatToHex(n);
    if n >= 16 {
      NatToHexValue(n / 16);
      assert s[..|s| - 1] == NatToHex(n / 16);
    }
  }

  /** Leading zeros do not change the value of a run of hex digits. */
  lemma {:induction false} HexLeadingZeros(k: nat, s: string)
    requires AllHex(s)
    ensures AllHex(Repeat('0', k) + s)
    ensures HexDigitsValue(Repeat('0', k) + s) == HexDigitsValue(s)
    decreases |s|
  {
    var t := Repeat('0', k) + s;
    if |s| == 0 {
      ZerosValue(k);
      assert t == Repeat('0', k);
    } else {
      HexLeadingZeros(k, s[..|s| - 1]);
      assert t[..|t| - 1] == Repeat('0', k) + s[..|s| - 1];
    }
  }

  lemma {:induction false} ZerosValue(k: nat)
    ensures AllHex(Repeat('0', k)) && HexDigitsValue(Repeat('0', k)) == 0
  {
    if k > 0 {
      ZerosValue(k - 1);
      assert Repeat('0', k)[..k - 1] == Repeat('0', k - 1);
    }
  }

  /** Printing a number in hex, zero-padded to any width, and reading it back gives the number. */
  lemma HexRoundTrip(n: nat, w: nat)
    ensures ParseHex(PadLeft(NatToHex(n), w, '0')) == Some(n)
  {
    NatToHexValue(n);
    var h := NatToHex(n);
    if |h| < w {
      HexLeadingZeros(w - |h|, h);
    }
  }

  // ---------------------------------------------------------------- grouping

  /** `humanize.intcomma(n)`: decimal digits in groups of three separated by commas. */
  function IntComma(n: nat): (r: string)
    ensures |r| >= 1
  {
    if n < 1000 then NatToString(n)
    else IntComma(n / 1000) + "," + PadLeft(NatToString(n % 1000), 3, '0')
  }

  /** `int(x)`: truncation toward zero. */
  function Trunc(x: real): (n: int)
    ensures x >= 0.0 ==> n >= 0 && n as real <= x < n as real + 1.0
    ensures x < 0.0 ==> n <= 0 && n as real - 1.0 < x <= n as real
  {
    if x >= 0.0 then x.Floor else -((-x).Floor)
  }

  /** Python's `f'{x}'` of an optional string. */
  function Shown(x: Option<string>): string {
    if x.Some? then x.value else "None"
  }
}
