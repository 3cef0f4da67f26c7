/**
 * The Python string operations the bot relies on, on `string` (a sequence of
 * Unicode scalar values).  Whitespace is Python's full Unicode set; case
 * folding, letters and digits are the ASCII ones, and the non-ASCII cases
 * Python also accepts are not modelled.
 */
module Text {
  import opened Wrappers

  function Min(a: int, b: int): (m: int) { if a <= b then a else b }

  function Max(a: int, b: int): (m: int) { if a <= b then b else a }

  /** `s.startswith(p)` */
  predicate StartsWith(s: string, p: string) { |p| <= |s| && s[..|p|] == p }

  /** `s.endswith(p)` */
  predicate EndsWith(s: string, p: string) { |p| <= |s| && s[|s| - |p|..] == p }

  /** `p in s` on strings: `p` occurs somewhere inside `s`. */
  predicate Contains(s: string, p: string)
    decreases |s|
  {
    StartsWith(s, p) || (|s| > 0 && Contains(s[1..], p))
  }

  /** `any(p in s for p in ps)` */
  predicate ContainsAny(s: string, ps: seq<string>)
    decreases |ps|
  {
    |ps| > 0 && (Contains(s, ps[0]) || ContainsAny(s, ps[1..]))
  }

  lemma {:induction false} ContainsAnyMeans(s: string, ps: seq<string>)
    ensures ContainsAny(s, ps) <==> exists i :: 0 <= i < |ps| && Contains(s, ps[i])
    decreases |ps|
  {
    if |ps| > 0 {
      ContainsAnyMeans(s, ps[1..]);
      if ContainsAny(s, ps[1..]) {
        var i :| 0 <= i < |ps[1..]| && Contains(s, ps[1..][i]);
        assert Contains(s, ps[i + 1]);
      }
      if exists i :: 0 <= i < |ps| && Contains(s, ps[i]) {
        var i :| 0 <= i < |ps| && Contains(s, ps[i]);
        if i > 0 { assert Contains(s, ps[1..][i - 1]); }
      }
    }
  }

  /** An occurrence of `p` between `a` and `b` is found by `Contains`. */
  lemma {:induction false} ContainsInfix(a: string, p: string, b: string)
    ensures Contains(a + p + b, p)
    decreases |a|
  {
    if |a| == 0 {
      assert a + p + b == p + b;
      assert (p + b)[..|p|] == p;
    } else {
      assert (a + p + b)[1..] == a[1..] + p + b;
      ContainsInfix(a[1..], p, b);
    }
  }

  /** A string contains nothing longer than itself. */
  lemma {:induction false} ContainsShorter(s: string, p: string)
    requires Contains(s, p)
    ensures |p| <= |s|
    decreases |s|
  {
    if !StartsWith(s, p) { ContainsShorter(s[1..], p); }
  }

  /** An occurrence stays an occurrence when text is appended. */
  lemma {:induction false} ContainsExtend(s: string, p: string, x: string)
    requires Contains(s, p)
    ensures Contains(s + x, p)
    decreases |s|
  {
    if !StartsWith(s, p) {
      assert (s + x)[1..] == s[1..] + x;
      ContainsExtend(s[1..], p, x);
    } else {
      assert (s + x)[..|p|] == s[..|p|];
    }
  }

  /** An occurrence stays an occurrence when text is prepended. */
  lemma {:induction false} ContainsPrepend(x: string, s: string, p: string)
    requires Contains(s, p)
    ensures Contains(x + s, p)
    decreases |x|
  {
    if |x| > 0 {
      assert (x + s)[1..] == x[1..] + s;
      ContainsPrepend(x[1..], s, p);
    } else {
      assert x + s == s;
    }
  }

  /** `s.lower()` distributes over concatenation. */
  lemma LowerAppend(a: string, b: string)
    ensures Lower(a + b) == Lower(a) + Lower(b)
  {
  }

  /** No element occurs twice. */
  predicate Distinct<T(==)>(s: seq<T>)
  {
    forall i, j :: 0 <= i < j < |s| ==> s[i] != s[j]
  }

  /** A list without repeats has as many elements as the set of its elements. */
  lemma {:induction false} DistinctCardinality<T>(s: seq<T>)
    requires Distinct(s)
    ensures |set x | x in s| == |s|
  {
    if s != [] {
      var init := s[..|s| - 1];
      var last := s[|s| - 1];
      DistinctCardinality(init);
      assert (set x | x in s) == (set x | x in init) + {last} by {
        assert s == init + [last];
      }
      assert last !in init;
    }
  }

  function LowerChar(c: char): char
  {
    if 'A' <= c <= 'Z' then (c as int + 32) as char else c
  }

  /** `s.lower()` */
  function Lower(s: string): (r: string)
    ensures |r| == |s|
    ensures forall i :: 0 <= i < |s| ==> r[i] == LowerChar(s[i])
  {
    seq(|s|, i requires 0 <= i < |s| => LowerChar(s[i]))
  }

  /** The characters `str.split()` and `str.strip()` treat as whitespace, Unicode ones included. */
  predicate IsSpace(c: char)
  {
    c == ' ' || '\t' <= c <= '\r' || '\U{1c}' <= c <= '\U{1f}' || c == '\U{85}' || c == '\U{a0}'
    || c == '\U{1680}' || '\U{2000}' <= c <= '\U{200a}' || c == '\U{2028}' || c == '\U{2029}'
    || c == '\U{202f}' || c == '\U{205f}' || c == '\U{3000}'
  }

  predicate IsBlank(s: string) { forall i :: 0 <= i < |s| ==> IsSpace(s[i]) }

  function LStrip(s: string): (r: string)
    ensures |r| <= |s| && r == s[|s| - |r|..]
    ensures |r| > 0 ==> !IsSpace(r[0])
    ensures IsBlank(s[..|s| - |r|])
    decreases |s|
  {
    if |s| > 0 && IsSpace(s[0]) then LStrip(s[1..]) else s
  }

  function RStripSpace(s: string): (r: string)
    ensures |r| <= |s| && r == s[..|r|]
    ensures |r| > 0 ==> !IsSpace(r[|r| - 1])
    ensures IsBlank(s[|r|..])
    decreases |s|
  {
    if |s| > 0 && IsSpace(s[|s| - 1]) then RStripSpace(s[..|s| - 1]) else s
  }

  /** `s.strip()`: the string without leading and trailing whitespace. */
  function Strip(s: string): (r: string)
    ensures |r| <= |s|
    ensures |r| > 0 ==> !IsSpace(r[0]) && !IsSpace(r[|r| - 1])
  {
    RStripSpace(LStrip(s))
  }

  /** Text that neither starts nor ends with whitespace is its own `strip()`. */
  lemma StripUnchanged(s: string)
    requires |s| > 0 && !IsSpace(s[0]) && !IsSpace(s[|s| - 1])
    ensures Strip(s) == s
  {
  }

  /** `strip()` is idempotent. */
  lemma StripStripped(s: string)
    ensures Strip(Strip(s)) == Strip(s)
  {
    if Strip(s) != "" { StripUnchanged(Strip(s)); }
  }

  /** `s.strip()` is empty exactly when `s` is all whitespace. */
  lemma StripEmptyIffBlank(s: string)
    ensures Strip(s) == "" <==> IsBlank(s)
  {
    var l := LStrip(s);
    if l == "" {
      assert s[..|s| - |l|] == s;
    } else {
      assert !IsSpace(s[|s| - |l|]);
    }
  }

  /** `bool(s)` for an optional string: present and non-empty. */
  predicate TruthyStr(s: Option<string>) { s.Some? && s.value != "" }

  /** `s and s.strip()`: present and not all whitespace. */
  predicate HasText(s: Option<string>) { s.Some? && s.value != "" && Strip(s.value) != "" }

  lemma HasTextIffNotBlank(s: Option<string>)
    ensures HasText(s) <==> s.Some? && !IsBlank(s.value)
  {
    if s.Some? { StripEmptyIffBlank(s.value); }
  }

  /** `s.rstrip(c)` for a single character `c`. */
  function RStripChar(s: string, c: char): (r: string)
    ensures |r| <= |s| && r == s[..|r|]
    ensures |r| > 0 ==> r[|r| - 1] != c
    ensures forall i :: |r| <= i < |s| ==> s[i] == c
    decreases |s|
  {
    if |s| > 0 && s[|s| - 1] == c then RStripChar(s[..|s| - 1], c) else s
  }

  /** `s.count(c)` for a single character `c`. */
  function CountChar(s: string, c: char): (n: nat)
    ensures n <= |s|
    decreases |s|
  {
    if |s| == 0 then 0 else (if s[0] == c then 1 else 0) + CountChar(s[1..], c)
  }

  /** `s.replace(c, '')` for a single character `c`. */
  function RemoveChar(s: string, c: char): (r: string)
    ensures |r| <= |s|
    ensures forall i :: 0 <= i < |r| ==> r[i] != c
    decreases |s|
  {
    if |s| == 0 then "" else (if s[0] == c then "" else [s[0]]) + RemoveChar(s[1..], c)
  }

  predicate IsDigit(c: char) { '0' <= c <= '9' }

  predicate IsAlnumChar(c: char) { IsDigit(c) || 'a' <= c <= 'z' || 'A' <= c <= 'Z' }

  /** `s.isalnum()`: non-empty and made of letters and digits only. */
  predicate IsAlnum(s: string) { |s| > 0 && forall i :: 0 <= i < |s| ==> IsAlnumChar(s[i]) }

  /** `2 ** n` */
  function Pow2(n: nat): (r: nat)
    ensures r >= 1
  {
    if n == 0 then 1 else 2 * Pow2(n - 1)
  }

  /** Python's `s[:n]` for any integer `n`, negative counting from the end. */
  function Take<T>(s: seq<T>, n: int): (r: seq<T>)
    ensures n >= 0 ==> |r| == Min(n, |s|)
    ensures n < 0 ==> |r| == Max(|s| + n, 0)
    ensures r == s[..|r|]
  {
    if n >= |s| then s
    else if n >= 0 then s[..n]
    else if |s| + n > 0 then s[..|s| + n]
    else []
  }

  /** The bot's limit on a post: a text over 255 characters keeps 252 of them and gains "...". */
  function FitPost(s: string): (r: string)
    ensures |r| <= 255
    ensures |s| <= 255 ==> r == s
    ensures |s| > 255 ==> |r| == 255 && StartsWith(s, r[..252]) && EndsWith(r, "...")
  {
    if |s| > 255 then s[..252] + "..." else s
  }

  function DigitChar(d: nat): (c: char)
    requires d < 10
    ensures IsDigit(c)
  {
    ('0' as int + d) as char
  }

  function DigitValue(c: char): nat
    requires IsDigit(c)
  {
    c as int - '0' as int
  }

  /** `str(n)` for a natural number. */
  function NatToString(n: nat): (r: string)
    ensures |r| >= 1
    ensures forall i :: 0 <= i < |r| ==> IsDigit(r[i])
    decreases n
  {
    if n < 10 then [DigitChar(n)] else NatToString(n / 10) + [DigitChar(n % 10)]
  }

  /** `str(n)` for an integer. */
  function IntToString(n: int): string
  {
    if n < 0 then "-" + NatToString(-n) else NatToString(n)
  }

  predicate AllDigits(s: string) { forall i :: 0 <= i < |s| ==> IsDigit(s[i]) }

  function DigitsValue(s: string): nat
    requires AllDigits(s)
    decreases |s|
  {
    if |s| == 0 then 0 else DigitsValue(s[..|s| - 1]) * 10 + DigitValue(s[|s| - 1])
  }

  /**
   * `int(s)`: surrounding whitespace, an optional sign and at least one digit;
   * `None` stands for the `ValueError` Python raises otherwise.
   */
  function ParseInt(s: string): (r: Option<int>)
    ensures r.Some? ==> Strip(s) != ""
  {
    ParseStripped(Strip(s))
  }

  /** `int(s)` once the whitespace is stripped: an optional sign and at least one digit. */
  function ParseStripped(t: string): (r: Option<int>)
    ensures r.Some? ==> t != ""
  {
    if |t| > 0 && (t[0] == '-' || t[0] == '+') then
      if |t| > 1 && AllDigits(t[1..]) then
        var v: int := DigitsValue(t[1..]);
        Some(if t[0] == '-' then -v else v)
      else None
    else if |t| > 0 && AllDigits(t) then Some(DigitsValue(t))
    else None
  }

  lemma {:induction false} DigitsValueOfNatToString(n: nat)
    ensures DigitsValue(NatToString(n)) == n
    decreases n
  {
    if n >= 10 {
      var s := NatToString(n);
      assert s[..|s| - 1] == NatToString(n / 10);
      DigitsValueOfNatToString(n / 10);
    }
  }

  lemma StripNoSpace(s: string)
    requires forall i :: 0 <= i < |s| ==> !IsSpace(s[i])
    ensures Strip(s) == s
  {
  }

  lemma ParseIntOfDigits(d: string)
    requires |d| >= 1 && AllDigits(d)
    ensures ParseInt(d) == Some(DigitsValue(d) as int)
  {
    ParseIntNoSpace(d);
    assert IsDigit(d[0]);
  }

  /** Text without whitespace is parsed as it stands. */
  lemma ParseIntNoSpace(s: string)
    requires forall i :: 0 <= i < |s| ==> !IsSpace(s[i])
    ensures ParseInt(s) == ParseStripped(s)
  {
    StripNoSpace(s);
  }

  lemma ParseIntOfNegated(d: string)
    requires |d| >= 1 && AllDigits(d)
    ensures ParseInt("-" + d) == Some(-(DigitsValue(d) as int))
  {
    var t := "-" + d;
    NegatedHasNoSpace(d);
    ParseIntNoSpace(t);
    assert t[0] == '-' && t[1..] == d;
  }

  lemma NegatedHasNoSpace(d: string)
    requires AllDigits(d)
    ensures forall i :: 0 <= i < |"-" + d| ==> !IsSpace(("-" + d)[i])
  {
    var t := "-" + d;
    forall i | 0 <= i < |t|
      ensures !IsSpace(t[i])
    {
      if i > 0 { assert t[i] == d[i - 1]; }
    }
  }

  /** `int(str(n)) == n` */
  lemma {:induction false} ParseIntOfIntToString(n: int)
    ensures ParseInt(IntToString(n)) == Some(n)
  {
    if n < 0 {
      var m: nat := -n;
      var d := NatToString(m);
      assert IntToString(n) == "-" + d;
      ParseIntOfNegated(d);
      DigitsValueOfNatToString(m);
      assert DigitsValue(d) == m;
      assert ParseInt("-" + d) == Some(n);
    } else {
      var d := NatToString(n);
      assert IntToString(n) == d;
      ParseIntOfDigits(d);
      DigitsValueOfNatToString(n);
    }
  }

  /** `s.split(sep)` for a non-empty separator, scanning left to right. */
  function Split(s: string, sep: string): (r: seq<string>)
    requires |sep| > 0
    ensures |r| >= 1
    decreases |s|
  {
    if |s| < |sep| then [s]
    else if s[..|sep|] == sep then [""] + Split(s[|sep|..], sep)
    else
      var rest := Split(s[1..], sep);
      [[s[0]] + rest[0]] + rest[1..]
  }

  /** `sep.join(parts)` */
  function Join(parts: seq<string>, sep: string): string
    decreases |parts|
  {
    if |parts| == 0 then ""
    else if |parts| == 1 then parts[0]
    else parts[0] + sep + Join(parts[1..], sep)
  }

  /** Joining the pieces of a split gives back the original string. */
  lemma {:induction false} JoinSplit(s: string, sep: string)
    requires |sep| > 0
    ensures Join(Split(s, sep), sep) == s
    decreases |s|
  {
    if |s| < |sep| {
    } else if s[..|sep|] == sep {
      var tail := s[|sep|..];
      var rest := Split(tail, sep);
      var r := [""] + rest;
      assert Split(s, sep) == r;
      JoinSplit(tail, sep);
      assert r[1..] == rest;
      assert Join(r, sep) == "" + sep + Join(rest, sep);
      assert s == sep + tail;
    } else {
      var tail := s[1..];
      var rest := Split(tail, sep);
      var r := [[s[0]] + rest[0]] + rest[1..];
      assert Split(s, sep) == r;
      JoinSplit(tail, sep);
      JoinSplitStep(s[0], rest, sep);
      assert s == [s[0]] + tail;
    }
  }

  lemma JoinSplitStep(c: char, rest: seq<string>, sep: string)
    requires |rest| >= 1
    ensures Join([[c] + rest[0]] + rest[1..], sep) == [c] + Join(rest, sep)
  {
    var r := [[c] + rest[0]] + rest[1..];
    if |rest| > 1 {
      assert r[1..] == rest[1..];
    }
  }

  /** Joining the first `k` parts gives a prefix of joining them all. */
  lemma {:induction false} JoinPrefix(parts: seq<string>, k: nat, sep: string)
    requires 1 <= k <= |parts|
    ensures StartsWith(Join(parts, sep), Join(parts[..k], sep))
    decreases k
  {
    if k > 1 {
      JoinPrefix(parts[1..], k - 1, sep);
      assert parts[..k][1..] == parts[1..][..k - 1];
      var tail := Join(parts[1..], sep);
      var tailK := Join(parts[1..][..k - 1], sep);
      assert tail[..|tailK|] == tailK;
      assert (parts[0] + sep + tail)[..|parts[0] + sep + tailK|] == parts[0] + sep + tailK;
    }
  }

  lemma StartsWithTrans(a: string, b: string, c: string)
    requires StartsWith(a, b) && StartsWith(b, c)
    ensures StartsWith(a, c)
  {
    assert a[..|c|] == a[..|b|][..|c|];
  }

  function CountWordsFrom(s: string, inWord: bool): nat
    decreases |s|
  {
    if |s| == 0 then 0
    else if IsSpace(s[0]) then CountWordsFrom(s[1..], false)
    else (if inWord then 0 else 1) + CountWordsFrom(s[1..], true)
  }

  /** `len(s.split())`: the number of maximal runs of non-whitespace. */
  function WordCount(s: string): nat
  {
    CountWordsFrom(s, false)
  }

  /** The run of non-whitespace characters that `t` starts with. */
  function FirstWord(t: string): (w: string)
    ensures |w| <= |t| && w == t[..|w|]
    ensures forall i :: 0 <= i < |w| ==> !IsSpace(w[i])
    ensures |w| < |t| ==> IsSpace(t[|w|])
    ensures |t| > 0 && !IsSpace(t[0]) ==> |w| > 0
    decreases |t|
  {
    if |t| == 0 || IsSpace(t[0]) then "" else [t[0]] + FirstWord(t[1..])
  }

  /** `s.split()`: the maximal runs of non-whitespace characters, in order. */
  function Words(s: string): (r: seq<string>)
    decreases |s|
  {
    var t := LStrip(s);
    if |t| == 0 then []
    else
      var w := FirstWord(t);
      assert |w| > 0 by { assert !IsSpace(t[0]); }
      [w] + Words(t[|w|..])
  }

  /** Two words with one space between them split into those two words. */
  lemma {:induction false} WordsOfTwo(a: string, b: string)
    requires a != "" && forall i :: 0 <= i < |a| ==> !IsSpace(a[i])
    requires b != "" && forall i :: 0 <= i < |b| ==> !IsSpace(b[i])
    ensures Words(a + " " + b) == [a, b]
  {
    var s := a + " " + b;
    assert LStrip(s) == s by { assert s[0] == a[0]; }
    assert FirstWord(s) == a by {
      assert a + (" " + b) == s;
      FirstWordOf(a, " " + b);
    }
    assert s[|a|..] == " " + b;
    OneWordAfterSpace(b);
  }

  /** A space then one word splits into that word. */
  lemma {:induction false} OneWordAfterSpace(b: string)
    requires b != "" && forall i :: 0 <= i < |b| ==> !IsSpace(b[i])
    ensures Words(" " + b) == [b]
  {
    var t := " " + b;
    assert LStrip(t) == b by {
      assert t[1..] == b;
      assert LStrip(b) == b by { assert !IsSpace(b[0]); }
    }
    assert FirstWord(b) == b by {
      assert b + "" == b;
      FirstWordOf(b, "");
    }
    assert b[|b|..] == "";
    assert Words("") == [];
    assert Words(t) == [b] + Words(b[|b|..]);
  }

  /** A word followed by nothing or by whitespace is the first word. */
  lemma {:induction false} FirstWordOf(a: string, rest: string)
    requires forall i :: 0 <= i < |a| ==> !IsSpace(a[i])
    requires rest == "" || IsSpace(rest[0])
    ensures FirstWord(a + rest) == a
    decreases |a|
  {
    if a != "" {
      assert (a + rest)[1..] == a[1..] + rest;
      FirstWordOf(a[1..], rest);
    } else {
      assert a + rest == rest;
    }
  }

  /** Python's `a < b` on `str`: lexicographic by code point, a proper prefix first. */
  predicate Less(a: string, b: string)
    decreases |a|
  {
    |b| > 0 && (|a| == 0 || a[0] < b[0] || (a[0] == b[0] && Less(a[1..], b[1..])))
  }

  lemma {:induction false} LessIrreflexive(a: string)
    ensures !Less(a, a)
    decreases |a|
  {
    if |a| > 0 {
      LessIrreflexive(a[1..]);
    }
  }

  lemma {:induction false} LessTransitive(a: string, b: string, c: string)
    requires Less(a, b) && Less(b, c)
    ensures Less(a, c)
    decreases |a|
  {
    if |a| > 0 && a[0] == b[0] && b[0] == c[0] {
      LessTransitive(a[1..], b[1..], c[1..]);
    }
  }

  lemma {:induction false} LessTotal(a: string, b: string)
    requires a != b
    ensures Less(a, b) || Less(b, a)
    decreases |a|
  {
    if |a| > 0 && |b| > 0 && a[0] == b[0] {
      assert a == [a[0]] + a[1..] && b == [b[0]] + b[1..];
      LessTotal(a[1..], b[1..]);
    }
  }
}
