/**
 Recipient validation of the mail service: the address pattern
 `^[A-Za-z0-9._%+-]+@[A-Za-z0-9.-]+\.[A-Za-z]{2,}$` applied to the trimmed
 address, and the list check that `sendEmail`, `createDraft` and `updateDraft`
 run on `to`, `cc` and `bcc`.
 */
module EmailAddress {
  import Text
  import opened Js

  predicate IsLetter(c: char)
  {
    ('a' <= c <= 'z') || ('A' <= c <= 'Z')
  }

  predicate IsAlnum(c: char)
  {
    IsLetter(c) || ('0' <= c <= '9')
  }

  /** `[a-zA-Z0-9._%+-]` */
  predicate IsLocalChar(c: char)
  {
    IsAlnum(c) || c in "._%+-"
  }

  /** `[a-zA-Z0-9.-]` */
  predicate IsDomainChar(c: char)
  {
    IsAlnum(c) || c in ".-"
  }

  predicate AllLocal(s: string)
  {
    forall i :: 0 <= i < |s| ==> IsLocalChar(s[i])
  }

  predicate AllDomain(s: string)
  {
    forall i :: 0 <= i < |s| ==> IsDomainChar(s[i])
  }

  predicate AllLetters(s: string)
  {
    forall i :: 0 <= i < |s| ==> IsLetter(s[i])
  }

  /**
   The regular expression read as a language: a non-empty local part, `@`, a
   non-empty domain, a dot, and at least two letters up to the end.
   */
  ghost predicate MatchesPattern(s: string)
  {
    exists at, dot :: MatchesAt(s, at, dot)
  }

  /** The pattern matches `s` with its `@` at `at` and the dot before the top-level label at `dot`. */
  predicate MatchesAt(s: string, at: int, dot: int)
  {
    && 0 < at && at + 1 < dot && dot + 3 <= |s|
    && s[at] == '@' && s[dot] == '.'
    && AllLocal(s[..at]) && AllDomain(s[at + 1..dot]) && AllLetters(s[dot + 1..])
  }

  /** Index of the last occurrence of `c` in `s`, if any. */
  function LastIndexOf(s: string, c: char): (r: Text.Position)
    ensures r.Found? ==> r.at < |s| && s[r.at] == c && c !in s[r.at + 1..]
    ensures r.Absent? ==> c !in s
  {
    if |s| == 0 then Text.Absent
    else if s[|s| - 1] == c then Text.Found(|s| - 1)
    else
      match LastIndexOf(s[..|s| - 1], c)
      case Absent => Text.Absent
      case Found(i) =>
        assert s[i + 1..] == s[..|s| - 1][i + 1..] + [s[|s| - 1]];
        Text.Found(i)
  }

  /**
   A single left-to-right reading of the pattern: the local part ends at the
   first `@`, and the top-level label is what follows the last dot.
   */
  predicate Matches(s: string)
  {
    match Text.IndexOf(s, '@')
    case Absent => false
    case Found(at) =>
      var rest := s[at + 1..];
      && at > 0 && AllLocal(s[..at]) && AllDomain(rest)
      && match LastIndexOf(rest, '.')
         case Absent => false
         case Found(p) => p > 0 && p + 3 <= |rest| && AllLetters(rest[p + 1..])
  }

  /** Whatever the scanner accepts matches the regular expression. */
  lemma MatchesIsSound(s: string)
    requires Matches(s)
    ensures MatchesPattern(s)
  {
    var at := Text.IndexOf(s, '@').at;
    var rest := s[at + 1..];
    var p := LastIndexOf(rest, '.').at;
    var dot := at + 1 + p;
    assert s[at + 1..dot] == rest[..p];
    assert s[dot + 1..] == rest[p + 1..];
    assert AllDomain(s[at + 1..dot]);
    assert MatchesAt(s, at, dot);
  }

  /** A local part contains no `@`, so the pattern's `@` is the first one. */
  lemma FirstAt(s: string, at: nat)
    requires at < |s| && s[at] == '@' && AllLocal(s[..at])
    ensures Text.IndexOf(s, '@') == Text.Found(at)
  {
    assert '@' !in s[..at] by {
      forall i | 0 <= i < at ensures s[..at][i] != '@' {
        assert IsLocalChar(s[..at][i]);
      }
    }
    assert s[at] in s;
  }

  /** Letters contain no dot, so a dot followed only by letters is the last one. */
  lemma LastDot(rest: string, pw: nat)
    requires pw < |rest| && rest[pw] == '.' && AllLetters(rest[pw + 1..])
    ensures LastIndexOf(rest, '.') == Text.Found(pw)
  {
    assert rest[pw] in rest;
    forall i | pw + 1 <= i < |rest| ensures rest[i] != '.' {
      assert rest[i] == rest[pw + 1..][i - pw - 1];
    }
    assert '.' !in rest[pw + 1..];
  }

  /** Around a matched `@`, everything after it is made of domain characters. */
  lemma DomainAfterAt(s: string, at: int, dot: int)
    requires MatchesAt(s, at, dot)
    ensures AllDomain(s[at + 1..])
  {
    var rest := s[at + 1..];
    var pw := dot - at - 1;
    forall i | 0 <= i < |rest| ensures IsDomainChar(rest[i]) {
      if i < pw {
        assert rest[i] == s[at + 1..dot][i];
      } else if i > pw {
        assert rest[i] == s[dot + 1..][i - pw - 1];
      }
    }
  }

  /** Whatever the regular expression matches, the scanner accepts. */
  lemma MatchesIsComplete(s: string)
    requires MatchesPattern(s)
    ensures Matches(s)
  {
    var at, dot :| MatchesAt(s, at, dot);
    FirstAt(s, at);
    var rest := s[at + 1..];
    var pw := dot - at - 1;
    assert rest[pw + 1..] == s[dot + 1..];
    LastDot(rest, pw);
    DomainAfterAt(s, at, dot);
  }

  /** The scanner accepts exactly the strings the regular expression matches. */
  lemma MatchesIsPattern(s: string)
    ensures Matches(s) <==> MatchesPattern(s)
  {
    if Matches(s) {
      MatchesIsSound(s);
    }
    if MatchesPattern(s) {
      MatchesIsComplete(s);
    }
  }

  /** `validateEmail`: the pattern is tested against the trimmed address. */
  predicate ValidateEmail(email: string)
  {
    Matches(Text.Trim(email))
  }

  /** `validateEmail` in terms of the regular expression. */
  lemma ValidateEmailMeansPattern(email: string)
    ensures ValidateEmail(email) <==> MatchesPattern(Text.Trim(email))
  {
    MatchesIsPattern(Text.Trim(email));
  }

  /** The recipients a caller hands in: nothing, one comma-separated string, or an array. */
  datatype Recipients = Missing | Joined(text: string) | Listed(items: seq<string>)

  function TrimAll(xs: seq<string>): (r: seq<string>)
    ensures |r| == |xs| && forall i :: 0 <= i < |xs| ==> r[i] == Text.Trim(xs[i])
  {
    if |xs| == 0 then [] else [Text.Trim(xs[0])] + TrimAll(xs[1..])
  }

  /**
   The addresses `validateEmailList` checks: none for a falsy input, the
   trimmed comma-separated pieces of a string, and an array as given.
   */
  function AddressesOf(input: Recipients): seq<string>
  {
    match input
    case Missing => []
    case Joined(text) => if text == "" then [] else TrimAll(Text.Split(text, ','))
    case Listed(items) => items
  }

  /** Position of the first element that `ok` rejects. */
  function FirstRejected(xs: seq<string>, ok: string -> bool): (r: Text.Position)
    ensures r.Absent? <==> forall i :: 0 <= i < |xs| ==> ok(xs[i])
    ensures r.Found? ==> r.at < |xs| && !ok(xs[r.at])
    ensures r.Found? ==> forall i :: 0 <= i < r.at ==> ok(xs[i])
  {
    if |xs| == 0 then Text.Absent
    else if !ok(xs[0]) then Text.Found(0)
    else
      match FirstRejected(xs[1..], ok)
      case Absent => Text.Absent
      case Found(i) => Text.Found(i + 1)
  }

  function InvalidAddressMessage(address: string): string
  {
    "Invalid email address: " + address
  }

  /** `validateEmailList`: throws on the first address that does not validate, naming it. */
  function ValidateList(input: Recipients): (r: Result<()>)
    ensures var xs := AddressesOf(input);
      r.Ok? <==> forall i :: 0 <= i < |xs| ==> ValidateEmail(xs[i])
    ensures var xs := AddressesOf(input);
      r.Err? ==> exists i :: (0 <= i < |xs| && !ValidateEmail(xs[i])
        && (forall k :: 0 <= k < i ==> ValidateEmail(xs[k]))
        && r.thrown == Fail(InvalidAddressMessage(xs[i])))
  {
    var xs := AddressesOf(input);
    match FirstRejected(xs, ValidateEmail)
    case Absent => Ok(())
    case Found(i) => Err(Fail(InvalidAddressMessage(xs[i])))
  }

  /** An absent or empty recipient string, and an empty array, pass trivially. */
  lemma EmptyRecipientsPass()
    ensures ValidateList(Missing).Ok?
    ensures ValidateList(Joined("")).Ok?
    ensures ValidateList(Listed([])).Ok?
  {
  }

  /**
   A string of recipients fails on a trailing comma: the empty piece after it
   is checked, and reported, like any other address.
   */
  lemma TrailingCommaRejected(text: string)
    ensures ValidateList(Joined(text + ",")).Err?
  {
    var xs := Text.Split(text + ",", ',');
    var last := |xs| - 1;
    assert Text.Join(xs, ",") == text + ",";
    Text.SplitLastEmpty(text + ",", ',');
    assert Text.Trim(xs[last]) == "";
    assert !ValidateEmail(AddressesOf(Joined(text + ","))[last]);
  }
}
