/**
 String helpers with the semantics of the JavaScript built-ins the services use:
 `String.prototype.split` with a one-character separator, `Array.prototype.join`,
 `String.prototype.trim`, `startsWith`, global literal `replace`, and the decimal
 rendering of an integer `Number`.
 */
module Text {

  /** Index of the first occurrence of `c` in `s`, if any. */
  function IndexOf(s: string, c: char): (r: Position)
    ensures r.Found? ==> r.at < |s| && s[r.at] == c && c !in s[..r.at]
    ensures r.Absent? ==> c !in s
  {
    if |s| == 0 then Absent
    else if s[0] == c then Found(0)
    else
      match IndexOf(s[1..], c)
      case Absent => Absent
      case Found(i) => assert s[..i + 1] == [s[0]] + s[1..][..i]; Found(i + 1)
  }

  /** The first occurrence of `c` is at `k` when `s[k]` is `c` and no earlier character is. */
  lemma IndexOfIs(s: string, c: char, k: nat)
    requires k < |s| && s[k] == c && c !in s[..k]
    ensures IndexOf(s, c) == Found(k)
  {
    assert s[k] in s;
  }

  /** A position in a string, or none. */
  datatype Position = Absent | Found(at: nat)

  /** `parts.join(sep)`. */
  function Join(parts: seq<string>, sep: string): string
  {
    if |parts| == 0 then ""
    else if |parts| == 1 then parts[0]
    else parts[0] + sep + Join(parts[1..], sep)
  }

  /** A joined string starts with its first part. */
  lemma JoinStartsWithFirst(parts: seq<string>, sep: string)
    requires |parts| >= 1
    ensures |parts[0]| <= |Join(parts, sep)|
    ensures Join(parts, sep)[..|parts[0]|] == parts[0]
  {
    if |parts| > 1 {
      assert Join(parts, sep) == parts[0] + (sep + Join(parts[1..], sep));
    }
  }

  /** `s.split(c)` for a one-character separator: every separator cuts, so empty pieces are kept. */
  function Split(s: string, c: char): (parts: seq<string>)
    ensures |parts| >= 1
    ensures forall i :: 0 <= i < |parts| ==> c !in parts[i]
    ensures Join(parts, [c]) == s
    decreases |s|
  {
    match IndexOf(s, c)
    case Absent => [s]
    case Found(i) =>
      var rest := Split(s[i + 1..], c);
      var parts := [s[..i]] + rest;
      assert parts[1..] == rest;
      assert s == s[..i] + [c] + s[i + 1..];
      parts
  }

  /** Splitting a string without separators yields the string itself. */
  lemma {:induction false} SplitWithoutSeparator(s: string, c: char)
    requires c !in s
    ensures Split(s, c) == [s]
  {
  }

  /** A joined string ends with its last part. */
  lemma {:induction false} JoinEndsWithLast(parts: seq<string>, sep: string)
    requires |parts| >= 1
    ensures var j := Join(parts, sep); var last := parts[|parts| - 1];
      |last| <= |j| && j[|j| - |last|..] == last
  {
    if |parts| > 1 {
      JoinEndsWithLast(parts[1..], sep);
      assert Join(parts, sep) == (parts[0] + sep) + Join(parts[1..], sep);
    }
  }

  /** A string that ends with the separator splits into pieces the last of which is empty. */
  lemma SplitLastEmpty(s: string, c: char)
    requires |s| > 0 && s[|s| - 1] == c
    ensures var parts := Split(s, c); parts[|parts| - 1] == ""
  {
    var parts := Split(s, c);
    var last := parts[|parts| - 1];
    JoinEndsWithLast(parts, [c]);
    SuffixEndsWith(s, last);
  }

  /** A non-empty suffix of `s` ends with the last character of `s`. */
  lemma SuffixEndsWith(s: string, suffix: string)
    requires 0 < |s| && |suffix| <= |s| && s[|s| - |suffix|..] == suffix
    ensures suffix == [] || s[|s| - 1] in suffix
  {
    if |suffix| > 0 {
      assert suffix[|suffix| - 1] == s[|s| - 1];
    }
  }

  /**
   The characters `String.prototype.trim` removes: ECMAScript WhiteSpace and
   LineTerminator code points.
   */
  predicate IsSpace(c: char)
  {
    c in {'\t', '\n', '\U{000B}', '\U{000C}', '\r', ' ', '\U{00A0}', '\U{1680}',
          '\U{2000}', '\U{2001}', '\U{2002}', '\U{2003}', '\U{2004}', '\U{2005}',
          '\U{2006}', '\U{2007}', '\U{2008}', '\U{2009}', '\U{200A}', '\U{2028}',
          '\U{2029}', '\U{202F}', '\U{205F}', '\U{3000}', '\U{FEFF}'}
  }

  /** The first index at or after `i` that does not hold white space. */
  function SkipSpaces(s: string, i: nat): (j: nat)
    requires i <= |s|
    ensures i <= j <= |s|
    ensures forall k :: i <= k < j ==> IsSpace(s[k])
    ensures j == |s| || !IsSpace(s[j])
    decreases |s| - i
  {
    if i < |s| && IsSpace(s[i]) then SkipSpaces(s, i + 1) else i
  }

  /** The end of `s[lo..j]` once its trailing white space is dropped. */
  function BackSpaces(s: string, lo: nat, j: nat): (e: nat)
    requires lo <= j <= |s|
    ensures lo <= e <= j
    ensures forall k :: e <= k < j ==> IsSpace(s[k])
    ensures e == lo || !IsSpace(s[e - 1])
    decreases j
  {
    if j > lo && IsSpace(s[j - 1]) then BackSpaces(s, lo, j - 1) else j
  }

  /** `s.trim()`: the longest infix of `s` that neither starts nor ends with white space. */
  function Trim(s: string): (r: string)
    ensures var i := SkipSpaces(s, 0);
      && i + |r| <= |s| && r == s[i..i + |r|]
      && (forall k :: 0 <= k < i ==> IsSpace(s[k]))
      && (forall k :: i + |r| <= k < |s| ==> IsSpace(s[k]))
    ensures r == [] || (!IsSpace(r[0]) && !IsSpace(r[|r| - 1]))
  {
    var i := SkipSpaces(s, 0);
    var e := BackSpaces(s, i, |s|);
    s[i..e]
  }

  /** Trimming is idempotent, and leaves an already trimmed string alone. */
  lemma TrimIdempotent(s: string)
    ensures Trim(Trim(s)) == Trim(s)
  {
    var t := Trim(s);
    assert SkipSpaces(t, 0) == 0;
    assert BackSpaces(t, 0, |t|) == |t|;
    assert t[0..|t|] == t;
  }

  predicate StartsWith(s: string, prefix: string)
  {
    |prefix| <= |s| && s[..|prefix|] == prefix
  }

  /**
   `s.replace(/pat/g, rep)` for a literal pattern: scanning left to right, every
   non-overlapping occurrence of `pat` is replaced by `rep`.
   */
  function ReplaceAll(s: string, pat: string, rep: string): (r: string)
    requires |pat| > 0
    decreases |s|
  {
    if |s| < |pat| then s
    else if s[..|pat|] == pat then rep + ReplaceAll(s[|pat|..], pat, rep)
    else [s[0]] + ReplaceAll(s[1..], pat, rep)
  }

  /** A string in which the pattern's first character never occurs is left unchanged. */
  lemma {:induction false} ReplaceAllWithoutLead(s: string, pat: string, rep: string)
    requires |pat| > 0 && pat[0] !in s
    ensures ReplaceAll(s, pat, rep) == s
    decreases |s|
  {
    if |s| >= |pat| {
      assert s[..|pat|][0] == s[0];
      assert s[..|pat|] != pat;
      ReplaceAllWithoutLead(s[1..], pat, rep);
      assert s == [s[0]] + s[1..];
    }
  }

  predicate IsDigit(c: char)
  {
    '0' <= c <= '9'
  }

  function DigitChar(d: nat): char
    requires d < 10
  {
    "0123456789"[d]
  }

  /** Decimal digits of a natural number, most significant first, without leading zeros. */
  function Digits(n: nat): (r: string)
    ensures |r| >= 1
    ensures forall i :: 0 <= i < |r| ==> IsDigit(r[i])
    ensures |r| > 1 ==> r[0] != '0'
  {
    if n < 10 then [DigitChar(n)] else Digits(n / 10) + [DigitChar(n % 10)]
  }

  /** The value a string of decimal digits denotes. */
  function DigitsValue(s: string): nat
    requires forall i :: 0 <= i < |s| ==> IsDigit(s[i])
  {
    if |s| == 0 then 0
    else
      var last := s[|s| - 1];
      assert IsDigit(last);
      DigitsValue(s[..|s| - 1]) * 10 + (last as int - '0' as int)
  }

  /** Reading the digits back gives the number they were rendered from. */
  lemma {:induction false} DigitsRoundTrip(n: nat)
    ensures DigitsValue(Digits(n)) == n
  {
    var r := Digits(n);
    if n >= 10 {
      DigitsRoundTrip(n / 10);
      assert r[..|r| - 1] == Digits(n / 10);
    }
  }

  /**
   `String(n)` for an integer `n` below 10^21 in magnitude (larger numbers
   switch to exponent form): a minus sign for negatives, then the digits of
   `|n|`, which read back as `|n|`.
   */
  function Decimal(n: int): (r: string)
    ensures |r| >= 1
    ensures n < 0 <==> r[0] == '-'
    ensures var digits := if n < 0 then r[1..] else r;
      && |digits| >= 1
      && (forall i :: 0 <= i < |digits| ==> IsDigit(digits[i]))
      && DigitsValue(digits) == (if n < 0 then -n else n)
      && (|digits| > 1 ==> digits[0] != '0')
  {
    if n < 0 then
      var d := Digits(-n);
      DigitsRoundTrip(-n);
      assert ("-" + d)[1..] == d;
      "-" + d
    else
      DigitsRoundTrip(n);
      Digits(n)
  }
}
