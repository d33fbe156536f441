/** The handful of Python `str` operations the core relies on, over ASCII:
    `lower`, `strip`, `startswith`, `endswith`, `in`, `find`, `join`,
    prefix slicing and decimal formatting of integers. */
module Strings {

  /** The characters below U+0080 that `str.isspace` accepts; `strip()` and
      the regular-expression class `\s` both remove or match these. */
  predicate IsSpace(c: char) {
    c == ' ' || c == '\t' || c == '\n' || c == '\r' || c == '\U{0B}' || c == '\U{0C}'
    || ('\U{1C}' <= c <= '\U{1F}')
  }

  function LowerChar(c: char): (d: char)
    ensures 'A' <= c <= 'Z' ==> d as int == c as int + 32
    ensures !('A' <= c <= 'Z') ==> d == c
  {
    if 'A' <= c <= 'Z' then (c as int + 32) as char else c
  }

  /** `s.lower()` over ASCII: every upper-case letter becomes lower case, nothing else moves. */
  function Lower(s: string): (r: string)
    ensures |r| == |s|
    ensures forall i :: 0 <= i < |s| ==> r[i] == LowerChar(s[i])
  {
    seq(|s|, i requires 0 <= i < |s| => LowerChar(s[i]))
  }

  /** Leading whitespace removed (`s.lstrip()`). */
  function TrimStart(s: string): (r: string)
    ensures |r| <= |s| && r == s[|s| - |r|..]
    ensures forall i :: 0 <= i < |s| - |r| ==> IsSpace(s[i])
    ensures r == [] || !IsSpace(r[0])
  {
    if |s| > 0 && IsSpace(s[0]) then TrimStart(s[1..]) else s
  }

  /** Trailing whitespace removed (`s.rstrip()`). */
  function TrimEnd(s: string): (r: string)
    ensures |r| <= |s| && r == s[..|r|]
    ensures forall i :: |r| <= i < |s| ==> IsSpace(s[i])
    ensures r == [] || !IsSpace(r[|r| - 1])
  {
    if |s| > 0 && IsSpace(s[|s| - 1]) then TrimEnd(s[..|s| - 1]) else s
  }

  /** `s.strip()`. */
  function Strip(s: string): (r: string)
    ensures r == [] || (!IsSpace(r[0]) && !IsSpace(r[|r| - 1]))
  {
    TrimEnd(TrimStart(s))
  }

  /** Stripping keeps a prefix made of non-whitespace characters. */
  lemma StripKeepsPrefix(s: string, p: string)
    requires StartsWith(s, p)
    requires forall i :: 0 <= i < |p| ==> !IsSpace(p[i])
    ensures StartsWith(Strip(s), p)
  {
    if |p| > 0 {
      assert s[0] == p[0];
      TrimStartNoop(s);
      assert s[|p| - 1] == p[|p| - 1];
      TrimEndKeepsPrefix(s, p);
    }
  }

  /** Stripping keeps a suffix made of non-whitespace characters. */
  lemma StripKeepsSuffix(s: string, p: string)
    requires EndsWith(s, p)
    requires forall i :: 0 <= i < |p| ==> !IsSpace(p[i])
    ensures EndsWith(Strip(s), p)
  {
    if |p| > 0 {
      assert s[|s| - |p|] == p[0];
      TrimStartKeepsSuffix(s, p);
      var t := TrimStart(s);
      assert t[|t| - 1] == p[|p| - 1];
      TrimEndNoop(t);
    }
  }

  lemma TrimStartNoop(s: string)
    requires |s| > 0 && !IsSpace(s[0])
    ensures TrimStart(s) == s
  {
  }

  lemma TrimEndNoop(s: string)
    requires |s| > 0 && !IsSpace(s[|s| - 1])
    ensures TrimEnd(s) == s
  {
  }

  lemma TrimEndKeepsPrefix(s: string, p: string)
    requires StartsWith(s, p) && |p| > 0 && !IsSpace(s[|p| - 1])
    ensures StartsWith(TrimEnd(s), p)
  {
    var r := TrimEnd(s);
    assert r[..|p|] == s[..|p|];
  }

  lemma TrimStartKeepsSuffix(s: string, p: string)
    requires EndsWith(s, p) && |p| > 0 && !IsSpace(s[|s| - |p|])
    ensures EndsWith(TrimStart(s), p)
  {
    var t := TrimStart(s);
    var k := |s| - |t|;
    assert k <= |s| - |p| by {
      assert !IsSpace(s[|s| - |p|]);
    }
    assert t == s[k..];
    assert t[|t| - |p|..] == s[k..][|t| - |p|..];
  }

  predicate StartsWith(s: string, prefix: string) {
    |prefix| <= |s| && s[..|prefix|] == prefix
  }

  predicate EndsWith(s: string, suffix: string) {
    |suffix| <= |s| && s[|s| - |suffix|..] == suffix
  }

  /** `sub` occurs in `s` starting at index `i`. */
  predicate OccursAt(s: string, sub: string, i: int) {
    0 <= i && i + |sub| <= |s| && s[i..i + |sub|] == sub
  }

  /** `s.find(sub, i)`: the least index at or after `i` where `sub` occurs, or -1. */
  function FindFrom(s: string, sub: string, i: nat): (r: int)
    decreases |s| - i
    ensures r == -1 || (i <= r && OccursAt(s, sub, r))
    ensures r == -1 ==> forall j :: i <= j ==> !OccursAt(s, sub, j)
    ensures r != -1 ==> forall j :: i <= j < r ==> !OccursAt(s, sub, j)
  {
    if i + |sub| > |s| then -1
    else if OccursAt(s, sub, i) then i
    else FindFrom(s, sub, i + 1)
  }

  /** `s.find(sub)`. */
  function Find(s: string, sub: string): (r: int)
    ensures r == -1 <==> forall j :: !OccursAt(s, sub, j)
    ensures r != -1 ==> OccursAt(s, sub, r) && forall j :: 0 <= j < r ==> !OccursAt(s, sub, j)
  {
    FindFrom(s, sub, 0)
  }

  /** `sub in s`. */
  predicate Contains(s: string, sub: string) {
    Find(s, sub) != -1
  }

  /** `sep.join(parts)`. */
  function Join(sep: string, parts: seq<string>): (r: string)
    ensures |parts| == 0 ==> r == ""
    ensures |parts| == 1 ==> r == parts[0]
  {
    if |parts| == 0 then ""
    else if |parts| == 1 then parts[0]
    else parts[0] + sep + Join(sep, parts[1..])
  }

  /** Appending a part to a non-empty list appends the separator and that
      part to the join: the separator goes between neighbours only. */
  lemma {:induction false} JoinSnoc(sep: string, parts: seq<string>, x: string)
    requires |parts| > 0
    ensures Join(sep, parts + [x]) == Join(sep, parts) + sep + x
  {
    if |parts| > 1 {
      assert (parts + [x])[1..] == parts[1..] + [x];
      JoinSnoc(sep, parts[1..], x);
    }
  }

  /** A join of a non-empty list starts with its first part. */
  lemma JoinStartsWithFirst(sep: string, parts: seq<string>)
    requires |parts| > 0
    ensures StartsWith(Join(sep, parts), parts[0])
  {
    if |parts| > 1 {
      assert Join(sep, parts) == parts[0] + (sep + Join(sep, parts[1..]));
    }
  }

  /** `s[:k]` for any integer `k`, negative values counting from the end as Python does. */
  function PyPrefix(s: string, k: int): (r: string)
    ensures 0 <= k ==> r == if k <= |s| then s[..k] else s
    ensures k < 0 ==> r == if -k <= |s| then s[..|s| + k] else ""
  {
    if 0 <= k then (if k <= |s| then s[..k] else s)
    else if -k <= |s| then s[..|s| + k] else ""
  }

  /** The character of the decimal digit `d`. */
  function DigitChar(d: nat): (c: char)
    requires d < 10
    ensures '0' <= c <= '9'
  {
    ['0', '1', '2', '3', '4', '5', '6', '7', '8', '9'][d]
  }

  /** The digit character of `d` has the value `d`. */
  lemma DigitCharValue(d: nat)
    requires d < 10
    ensures DigitValue(DigitChar(d)) == d
  {
  }

  /** The value of a decimal digit character. */
  function DigitValue(c: char): int {
    c as int - '0' as int
  }

  predicate IsDigits(s: string) {
    forall i :: 0 <= i < |s| ==> '0' <= s[i] <= '9'
  }

  /** The number a string of decimal digits spells, most significant first. */
  function DigitsValue(s: string): nat
    requires IsDigits(s)
  {
    if s == [] then 0 else DigitsValue(s[..|s| - 1]) * 10 + DigitValue(s[|s| - 1])
  }

  /** The decimal numeral `str(n)` for a natural number. */
  function NatToString(n: nat): (r: string)
    ensures |r| > 0 && IsDigits(r)
  {
    if n < 10 then [DigitChar(n)] else NatToString(n / 10) + [DigitChar(n % 10)]
  }

  /** The numeral has no leading zero, except for 0 itself. */
  lemma {:induction false} NatToStringLeadingDigit(n: nat)
    ensures NatToString(n)[0] == '0' <==> n == 0
  {
    if n >= 10 {
      NatToStringLeadingDigit(n / 10);
      assert NatToString(n)[0] == NatToString(n / 10)[0];
    } else {
      DigitCharValue(n);
    }
  }

  /** The numeral of `n` spells `n`. */
  lemma {:induction false} NatToStringValue(n: nat)
    ensures DigitsValue(NatToString(n)) == n
  {
    var r := NatToString(n);
    DigitCharValue(n % 10);
    if n >= 10 {
      NatToStringValue(n / 10);
      assert r[..|r| - 1] == NatToString(n / 10);
    }
  }

  /** A digit string whose first digit is not zero spells a positive number. */
  lemma {:induction false} LeadingDigitPositive(s: string)
    requires |s| > 0 && IsDigits(s) && s[0] != '0'
    ensures DigitsValue(s) > 0
  {
    if |s| > 1 {
      LeadingDigitPositive(s[..|s| - 1]);
    }
  }

  /** Formatting inverts reading: a digit string with no leading zero (or
      the single digit "0") is the numeral of the number it spells. */
  lemma {:induction false} NatToStringOfDigits(s: string)
    requires |s| > 0 && IsDigits(s) && (s[0] == '0' ==> |s| == 1)
    ensures NatToString(DigitsValue(s)) == s
  {
    var last := s[|s| - 1];
    DigitCharValue(DigitValue(last));
    if |s| == 1 {
      assert DigitsValue(s) == DigitValue(last);
      assert DigitChar(DigitValue(last)) == last;
    } else {
      var p := s[..|s| - 1];
      LeadingDigitPositive(p);
      NatToStringOfDigits(p);
      var v := DigitsValue(s);
      assert v / 10 == DigitsValue(p) && v % 10 == DigitValue(last);
      assert DigitChar(DigitValue(last)) == last;
      assert s == p + [last];
    }
  }

  /** `str(n)` for any integer. */
  function IntToString(n: int): (r: string)
    ensures |r| > 0
  {
    if n < 0 then "-" + NatToString(-n) else NatToString(n)
  }

  /** `str(n)` has a minus sign exactly for negative numbers, followed by the
      numeral of the magnitude: digits that spell it, with no leading zero
      except for 0 itself. */
  lemma IntToStringDigits(n: int)
    ensures var r := IntToString(n);
            && (r[0] == '-' <==> n < 0)
            && (n < 0 ==> |r| > 1 && IsDigits(r[1..]) && DigitsValue(r[1..]) == -n && r[1] != '0')
            && (n >= 0 ==> IsDigits(r) && DigitsValue(r) == n && (r[0] == '0' ==> n == 0))
  {
    var r := IntToString(n);
    NatToStringValue(if n < 0 then -n else n);
    NatToStringLeadingDigit(if n < 0 then -n else n);
    if n < 0 {
      assert r[1..] == NatToString(-n);
    }
  }
}
