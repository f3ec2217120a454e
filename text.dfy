/** String helpers with Python's meaning, restricted to ASCII where Python is Unicode-aware. */
module Text {
  import opened Wrappers

  /** Python truthiness of an optional string argument (`if s:`). */
  predicate Given(s: Option<string>) {
    s.Some? && |s.value| > 0
  }

  /** `s.startswith(p)` */
  predicate IsPrefix(p: string, s: string) {
    |p| <= |s| && s[..|p|] == p
  }

  /** `sub in s` */
  predicate Contains(s: string, sub: string) {
    exists i | 0 <= i <= |s| :: IsPrefix(sub, s[i..])
  }

  lemma NothingInEmpty(sub: string)
    requires |sub| > 0
    ensures !Contains("", sub)
  {
  }

  lemma ContainsAt(s: string, sub: string, i: nat)
    requires i <= |s| && IsPrefix(sub, s[i..])
    ensures Contains(s, sub)
  {
  }

  // ---- case mapping (ASCII letters only) ----

  function LowerChar(c: char): char {
    if 'A' <= c <= 'Z' then (c as int + 32) as char else c
  }

  function UpperChar(c: char): char {
    if 'a' <= c <= 'z' then (c as int - 32) as char else c
  }

  /** `s.lower()` */
  function Lower(s: string): (r: string)
    ensures |r| == |s|
    ensures forall i | 0 <= i < |s| :: r[i] == LowerChar(s[i])
  {
    seq(|s|, i requires 0 <= i < |s| => LowerChar(s[i]))
  }

  /** `s.upper()` */
  function Upper(s: string): (r: string)
    ensures |r| == |s|
    ensures forall i | 0 <= i < |s| :: r[i] == UpperChar(s[i])
  {
    seq(|s|, i requires 0 <= i < |s| => UpperChar(s[i]))
  }

  predicate IsLowerCase(s: string) {
    forall i | 0 <= i < |s| :: !('A' <= s[i] <= 'Z')
  }

  lemma LowerIsLowerCase(s: string)
    ensures IsLowerCase(Lower(s))
    ensures Lower(Lower(s)) == Lower(s)
  {
  }

  // ---- decimal numerals ----

  predicate IsDigit(c: char) {
    '0' <= c <= '9'
  }

  predicate AllDigits(s: string) {
    forall i | 0 <= i < |s| :: IsDigit(s[i])
  }

  function DigitChar(d: nat): char
    requires d < 10
  {
    ('0' as int + d) as char
  }

  function DigitValue(c: char): nat
    requires IsDigit(c)
  {
    c as int - '0' as int
  }

  /** `str(n)` for a non-negative integer. */
  function NatToString(n: nat): (r: string)
    ensures |r| > 0 && AllDigits(r)
    decreases n
  {
    if n < 10 then [DigitChar(n)] else NatToString(n / 10) + [DigitChar(n % 10)]
  }

  /** `str(i)` for any integer. */
  function IntToString(i: int): (r: string)
    ensures |r| > 0
    ensures forall k | 0 <= k < |r| :: IsDigit(r[k]) || r[k] == '-'
  {
    if i < 0 then "-" + NatToString(-i) else NatToString(i)
  }

  /** The value of a string of decimal digits, most significant first. */
  function DigitsValue(s: string): nat
    requires AllDigits(s)
    decreases |s|
  {
    if |s| == 0 then 0 else DigitsValue(s[..|s| - 1]) * 10 + DigitValue(s[|s| - 1])
  }

  /** `int(s)` restricted to optionally signed ASCII digit strings with surrounding whitespace. */
  function ParseInt(s: string): (r: Option<int>)
    ensures r.Some? ==> var t := Strip(s);
      |t| > 0 && (t[0] == '-' || t[0] == '+' || IsDigit(t[0])) && AllDigits(t[1..])
    ensures r.Some? && r.value < 0 ==> Strip(s)[0] == '-'
  {
    ParseSigned(Strip(s))
  }

  /** An optionally signed string of ASCII digits. */
  function ParseSigned(t: string): (r: Option<int>)
    ensures r.Some? ==> |t| > 0
  {
    if |t| > 0 && (t[0] == '-' || t[0] == '+') then
      var body := t[1..];
      if |body| > 0 && AllDigits(body) then
        var v: int := DigitsValue(body);
        Some(if t[0] == '-' then -v else v)
      else None
    else if |t| > 0 && AllDigits(t) then Some(DigitsValue(t))
    else None
  }

  lemma {:induction false} NatToStringRoundTrip(n: nat)
    ensures DigitsValue(NatToString(n)) == n
    decreases n
  {
    if n >= 10 {
      var p := NatToString(n / 10);
      var r := NatToString(n);
      assert r == p + [DigitChar(n % 10)];
      assert r[..|r| - 1] == p;
      NatToStringRoundTrip(n / 10);
    }
  }

  lemma NatToStringInjective(a: nat, b: nat)
    requires NatToString(a) == NatToString(b)
    ensures a == b
  {
    NatToStringRoundTrip(a);
    NatToStringRoundTrip(b);
  }

  /** Only the rendering of a negative number starts with a minus sign. */
  lemma IntToStringSign(i: int)
    ensures (IntToString(i)[0] == '-') <==> i < 0
  {
    if i >= 0 {
      assert IsDigit(NatToString(i)[0]);
    }
  }

  lemma IntToStringInjective(a: int, b: int)
    requires IntToString(a) == IntToString(b)
    ensures a == b
  {
    IntToStringSign(a);
    IntToStringSign(b);
    if a < 0 {
      assert IntToString(a)[1..] == NatToString(-a);
      assert IntToString(b)[1..] == NatToString(-b);
      NatToStringInjective(-a, -b);
    } else {
      NatToStringInjective(a, b);
    }
  }

  /** `int(str(i)) == i` */
  lemma ParseSignedDigits(t: string)
    requires |t| > 0 && AllDigits(t)
    ensures ParseSigned(t) == Some(DigitsValue(t) as int)
  {
    assert IsDigit(t[0]);
  }

  lemma ParseUnsigned(t: string)
    requires |t| > 0 && AllDigits(t)
    ensures ParseInt(t) == Some(DigitsValue(t) as int)
  {
    ParseSignedDigits(t);
    assert forall i | 0 <= i < |t| :: !IsSpace(t[i]);
    StripNoWhitespace(t);
    assert Strip(t) == t;
  }

  lemma ParseSignedNegative(body: string)
    requires |body| > 0 && AllDigits(body)
    ensures ParseSigned("-" + body) == Some(-(DigitsValue(body) as int))
  {
    assert ("-" + body)[1..] == body;
  }

  lemma ParseNegative(body: string)
    requires |body| > 0 && AllDigits(body)
    ensures ParseInt("-" + body) == Some(-(DigitsValue(body) as int))
  {
    var t := "-" + body;
    ParseSignedNegative(body);
    assert forall i | 0 <= i < |t| :: !IsSpace(t[i]) by {
      forall i | 0 <= i < |t| ensures !IsSpace(t[i]) {
        if i > 0 { assert t[i] == body[i - 1]; }
      }
    }
    StripNoWhitespace(t);
    assert Strip(t) == t;
  }

  lemma NatRoundTrip(n: nat)
    ensures ParseInt(NatToString(n)) == Some(n as int)
  {
    var body := NatToString(n);
    NatToStringRoundTrip(n);
    ParseUnsigned(body);
    assert DigitsValue(body) == n;
  }

  lemma NegativeRoundTrip(n: nat)
    ensures ParseInt("-" + NatToString(n)) == Some(-(n as int))
  {
    var body := NatToString(n);
    NatToStringRoundTrip(n);
    ParseNegative(body);
    assert DigitsValue(body) == n;
  }

  lemma IntToStringRoundTrip(i: int)
    ensures ParseInt(IntToString(i)) == Some(i)
  {
    if i < 0 {
      NegativeRoundTrip(-i);
      assert IntToString(i) == "-" + NatToString(-i);
    } else {
      NatRoundTrip(i);
      assert IntToString(i) == NatToString(i);
    }
  }

  // ---- decimal numbers ----

  function Pow10(n: nat): (r: nat)
    ensures r > 0
  {
    if n == 0 then 1 else 10 * Pow10(n - 1)
  }

  /** `float(s)` restricted to an optionally signed decimal `digits.digits` (either side may
      be empty, not both) with surrounding whitespace. */
  function ParseFloat(s: string): (r: Option<real>)
    ensures r.Some? ==> |Strip(s)| > 0
    ensures r.Some? && r.value < 0.0 ==> Strip(s)[0] == '-'
  {
    ParseSignedDecimal(Strip(s))
  }

  function ParseSignedDecimal(t: string): (r: Option<real>)
    ensures r.Some? ==> |t| > 0
  {
    if |t| > 0 && (t[0] == '-' || t[0] == '+') then
      match UnsignedDecimal(t[1..])
      case None => None
      case Some(v) => Some(if t[0] == '-' then -v else v)
    else UnsignedDecimal(t)
  }

  /** Digits, optionally followed by a point and more digits. */
  function UnsignedDecimal(t: string): (r: Option<real>)
    ensures r.Some? ==> r.value >= 0.0
  {
    var i := IndexOf(t, '.');
    var whole := t[..i];
    var frac := if i < |t| then t[i + 1..] else "";
    if |whole| + |frac| > 0 && AllDigits(whole) && AllDigits(frac) then
      Some(DigitsValue(whole) as real + DigitsValue(frac) as real / Pow10(|frac|) as real)
    else None
  }

  /** The digits of a natural number read back as a decimal. */
  lemma UnsignedDecimalOfNat(n: nat)
    ensures UnsignedDecimal(NatToString(n)) == Some(n as real)
  {
    var digits := NatToString(n);
    NatToStringRoundTrip(n);
    assert IndexOf(digits, '.') == |digits|;
    assert digits[..|digits|] == digits;
  }

  lemma IntToStringStripped(i: int)
    ensures Strip(IntToString(i)) == IntToString(i)
  {
    var s := IntToString(i);
    assert forall k | 0 <= k < |s| :: !IsSpace(s[k]);
    StripNoWhitespace(s);
  }

  /** `float(str(i)) == i` */
  lemma ParseFloatOfInt(i: int)
    ensures ParseFloat(IntToString(i)) == Some(i as real)
  {
    IntToStringStripped(i);
    if i < 0 {
      SignedDecimalOfNegative(-i);
    } else {
      SignedDecimalOfNat(i);
    }
  }

  lemma SignedDecimalOfNat(n: nat)
    ensures ParseSignedDecimal(NatToString(n)) == Some(n as real)
  {
    var s := NatToString(n);
    UnsignedDecimalOfNat(n);
    assert IsDigit(s[0]);
  }

  lemma SignedDecimalOfNegative(n: nat)
    requires n > 0
    ensures ParseSignedDecimal("-" + NatToString(n)) == Some(-(n as real))
  {
    var s := "-" + NatToString(n);
    UnsignedDecimalOfNat(n);
    assert s[1..] == NatToString(n);
  }

  // ---- whitespace ----

  /** Python's ASCII whitespace: space, \t, \n, \v, \f, \r and the separators \x1c-\x1f. */
  predicate IsSpace(c: char) {
    c == ' ' || (9 <= c as int <= 13) || (28 <= c as int <= 31)
  }

  /** How many whitespace characters `s` starts with. */
  function LeadingSpaces(s: string): (n: nat)
    ensures n <= |s|
    ensures forall i | 0 <= i < n :: IsSpace(s[i])
    ensures n < |s| ==> !IsSpace(s[n])
  {
    if |s| > 0 && IsSpace(s[0]) then 1 + LeadingSpaces(s[1..]) else 0
  }

  /** How many whitespace characters `s` ends with. */
  function TrailingSpaces(s: string): (n: nat)
    ensures n <= |s|
    ensures forall i | |s| - n <= i < |s| :: IsSpace(s[i])
    ensures n < |s| ==> !IsSpace(s[|s| - n - 1])
  {
    if |s| > 0 && IsSpace(s[|s| - 1]) then 1 + TrailingSpaces(s[..|s| - 1]) else 0
  }

  /** `s.strip()` */
  function Strip(s: string): (r: string)
    ensures |r| <= |s|
    ensures |r| > 0 ==> !IsSpace(r[0]) && !IsSpace(r[|r| - 1])
  {
    var t := s[LeadingSpaces(s)..];
    t[..|t| - TrailingSpaces(t)]
  }

  lemma StripNoWhitespace(s: string)
    requires forall i | 0 <= i < |s| :: !IsSpace(s[i])
    ensures Strip(s) == s
  {
  }

  // ---- replace and split ----

  /** `s.replace(pat, rep)` for a non-empty `pat`: left to right, non-overlapping. */
  function Replace(s: string, pat: string, rep: string): (r: string)
    requires |pat| > 0
    ensures !Contains(s, pat) ==> r == s
    decreases |s|
  {
    if |s| < |pat| then s
    else if s[..|pat|] == pat then
      assert IsPrefix(pat, s[0..]);
      rep + Replace(s[|pat|..], pat, rep)
    else
      var rest := Replace(s[1..], pat, rep);
      assert !Contains(s, pat) ==> !Contains(s[1..], pat) by {
        if Contains(s[1..], pat) {
          var i :| 0 <= i <= |s[1..]| && IsPrefix(pat, s[1..][i..]);
          assert s[1..][i..] == s[i + 1..];
          ContainsAt(s, pat, i + 1);
        }
      }
      [s[0]] + rest
  }

  /** Deleting a pattern from the end of a string that does not hold it gives the string
      back, provided the pattern's first character recurs nowhere else in the pattern (so no
      occurrence can start inside the string and run into the appended pattern). */
  lemma {:induction false} ReplaceDropsSuffix(t: string, pat: string)
    requires |pat| > 0 && pat[0] !in pat[1..]
    requires !Contains(t, pat)
    ensures Replace(t + pat, pat, "") == t
    decreases |t|
  {
    var s := t + pat;
    if |t| == 0 {
      assert s == pat && s[|pat|..] == "";
    } else {
      // no occurrence starts at the front of `s`
      if |t| >= |pat| {
        assert t[0..] == t && s[..|pat|] == t[..|pat|];
      } else {
        assert pat[1..][|t| - 1] == pat[|t|];
        assert s[..|pat|][|t|] == pat[0] != pat[|t|];
      }
      assert s[1..] == t[1..] + pat;
      ReplaceDropsSuffix(t[1..], pat);
      assert t == [t[0]] + t[1..];
    }
  }

  /** Index of the first occurrence of `c`, or |s| when there is none. */
  function IndexOf(s: string, c: char): (r: nat)
    ensures r <= |s|
    ensures forall i | 0 <= i < r :: s[i] != c
    ensures r < |s| ==> s[r] == c
  {
    if |s| == 0 then 0 else if s[0] == c then 0 else 1 + IndexOf(s[1..], c)
  }

  /** Replacing one character by another that the string lacks, and back, restores it. */
  lemma {:induction false} ReplaceCharBack(s: string, a: char, b: char)
    requires b !in s
    ensures Replace(Replace(s, [a], [b]), [b], [a]) == s
    decreases |s|
  {
    if |s| > 0 {
      var rest := Replace(s[1..], [a], [b]);
      ReplaceCharBack(s[1..], a, b);
      var x := if s[0] == a then b else s[0];
      ReplaceCharStep(s, a, [b]);
      var once := [x] + rest;
      assert once[1..] == rest;
      ReplaceCharStep(once, b, [a]);
    }
  }

  /** Replacing one character works on the first character, then on the rest. */
  lemma ReplaceCharStep(s: string, a: char, rep: string)
    requires |s| > 0
    ensures Replace(s, [a], rep) == (if s[0] == a then rep else [s[0]]) + Replace(s[1..], [a], rep)
  {
    assert s[..1] == [s[0]];
  }

  /** Replacing a one-character pattern passes over a prefix that does not hold it. */
  lemma {:induction false} ReplaceSkipsPrefix(a: string, t: string, c: char, rep: string)
    requires c !in a
    ensures Replace(a + t, [c], rep) == a + Replace(t, [c], rep)
    decreases |a|
  {
    if |a| > 0 {
      var s := a + t;
      ReplaceCharStep(s, c, rep);
      assert s[0] == a[0] != c;
      assert s[1..] == a[1..] + t;
      ReplaceSkipsPrefix(a[1..], t, c, rep);
      assert a == [a[0]] + a[1..];
    } else {
      assert a + t == t;
    }
  }

  /** Replacing a character a string does not hold leaves the string as it is. */
  lemma ReplaceCharAbsent(s: string, c: char, rep: string)
    requires c !in s
    ensures Replace(s, [c], rep) == s
  {
    ReplaceSkipsPrefix(s, "", c, rep);
    assert s + "" == s;
  }

  /** Deleting a character that occurs once, between two parts without it, joins the parts. */
  lemma ReplaceDropsOne(a: string, b: string, c: char)
    requires c !in a && c !in b
    ensures Replace(a + ([c] + b), [c], "") == a + b
  {
    var t := [c] + b;
    ReplaceSkipsPrefix(a, t, c, "");
    assert Replace(a + t, [c], "") == a + Replace(t, [c], "");
    ReplaceCharStep(t, c, "");
    assert t[0] == c && t[1..] == b;
    ReplaceCharAbsent(b, c, "");
    assert Replace(t, [c], "") == b;
  }

  /** A character other than the replacement stays out of a string that lacks it. */
  lemma {:induction false} ReplaceCharKeepsOut(s: string, a: char, b: char, c: char)
    requires c !in s && c != b
    ensures c !in Replace(s, [a], [b])
    decreases |s|
  {
    if |s| > 0 {
      ReplaceCharKeepsOut(s[1..], a, b, c);
      var x := if s[0] == a then b else s[0];
      assert Replace(s, [a], [b]) == [x] + Replace(s[1..], [a], [b]);
    }
  }

  /** `s.split(sep)` for a one-character separator. */
  function Split(s: string, sep: char): (r: seq<string>)
    ensures |r| > 0
    ensures forall k | 0 <= k < |r| :: sep !in r[k]
    decreases |s|
  {
    var i := IndexOf(s, sep);
    if i == |s| then [s] else [s[..i]] + Split(s[i + 1..], sep)
  }

  /** The string `parts[0] + sep + parts[1] + ...`, the inverse of Split. */
  function Join(parts: seq<string>, sep: char): string
    requires |parts| > 0
  {
    if |parts| == 1 then parts[0] else parts[0] + [sep] + Join(parts[1..], sep)
  }

  lemma {:induction false} SplitJoin(s: string, sep: char)
    ensures Join(Split(s, sep), sep) == s
    decreases |s|
  {
    var i := IndexOf(s, sep);
    var parts := Split(s, sep);
    if i < |s| {
      var rest := Split(s[i + 1..], sep);
      assert parts == [s[..i]] + rest;
      assert parts[1..] == rest;
      SplitJoin(s[i + 1..], sep);
      assert Join(parts, sep) == s[..i] + [sep] + Join(rest, sep);
      assert s == s[..i] + [sep] + s[i + 1..];
    } else {
      assert parts == [s];
    }
  }

  lemma {:induction false} IndexOfSeparated(a: string, x: string, sep: char)
    requires sep !in a
    ensures IndexOf(a + [sep] + x, sep) == |a|
    decreases |a|
  {
    if |a| > 0 {
      assert (a + [sep] + x)[1..] == a[1..] + [sep] + x;
      IndexOfSeparated(a[1..], x, sep);
    }
  }

  /** Splitting after a separator-free head gives the head and then the tail's parts. */
  lemma SplitSeparated(a: string, x: string, sep: char)
    requires sep !in a
    ensures Split(a + [sep] + x, sep) == [a] + Split(x, sep)
  {
    IndexOfSeparated(a, x, sep);
    var s := a + [sep] + x;
    assert s[..|a|] == a;
    assert s[|a| + 1..] == x;
  }

  /** The first part of a split is a prefix of the string. */
  lemma SplitHeadIsPrefix(s: string, sep: char)
    ensures Split(s, sep)[0] == s[..IndexOf(s, sep)]
  {
  }

  /** Two strings glued by a separator that neither left part holds split apart uniquely. */
  lemma SeparatedUnique(a: string, x: string, b: string, y: string, sep: char)
    requires sep !in a && sep !in b
    requires a + [sep] + x == b + [sep] + y
    ensures a == b && x == y
  {
    IndexOfSeparated(a, x, sep);
    IndexOfSeparated(b, y, sep);
    assert a == (a + [sep] + x)[..|a|];
    assert b == (b + [sep] + y)[..|b|];
    assert x == (a + [sep] + x)[|a| + 1..];
    assert y == (b + [sep] + y)[|b| + 1..];
  }
}
