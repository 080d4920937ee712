/** The string primitives the core relies on, with the exact character sets
    the Java library uses. Java has three different notions of "space":
    - String.isBlank: every character satisfies Character.isWhitespace;
    - String.trim: strips characters whose code is at most U+0020;
    - the regular-expression class \s: exactly [ \t\n\x0B\f\r]. */
module JavaText {
  import opened Common

  /** Character.isWhitespace: Unicode space, line and paragraph separators
      other than the non-breaking ones, plus the ASCII controls
      U+0009..U+000D and U+001C..U+001F. */
  predicate IsJavaWhitespace(c: char)
  {
    ('\t' <= c <= '\r') || ('\U{1C}' <= c <= ' ')
    || c == '\U{1680}' || ('\U{2000}' <= c <= '\U{2006}') || ('\U{2008}' <= c <= '\U{200A}')
    || c == '\U{2028}' || c == '\U{2029}' || c == '\U{205F}' || c == '\U{3000}'
  }

  /** String.isBlank: empty or made of whitespace only. */
  predicate IsBlank(s: string)
  {
    forall i :: 0 <= i < |s| ==> IsJavaWhitespace(s[i])
  }

  /** The `s == null || s.isBlank()` test that guards every identifier. */
  predicate NullOrBlank(s: Option<string>)
  {
    s.None? || IsBlank(s.value)
  }

  /** The characters String.trim removes from either end. */
  predicate IsTrimmed(c: char)
  {
    c <= ' '
  }

  /** s without its leading trimmable characters: a suffix of s. */
  function DropLeading(s: string): (r: string)
    ensures |r| <= |s| && r == s[|s| - |r|..]
    ensures r == [] || !IsTrimmed(r[0])
    ensures forall k :: 0 <= k < |s| - |r| ==> IsTrimmed(s[k])
  {
    if s != [] && IsTrimmed(s[0]) then DropLeading(s[1..]) else s
  }

  /** s without its trailing trimmable characters: a prefix of s. */
  function DropTrailing(s: string): (r: string)
    ensures |r| <= |s| && r == s[..|r|]
    ensures r == [] || !IsTrimmed(r[|r| - 1])
    ensures forall k :: |r| <= k < |s| ==> IsTrimmed(s[k])
  {
    if s != [] && IsTrimmed(s[|s| - 1]) then DropTrailing(s[..|s| - 1]) else s
  }

  /** String.trim. */
  function Trim(s: string): (r: string)
  {
    DropTrailing(DropLeading(s))
  }

  /** Trim removes a run of trimmable characters from each end and keeps
      the middle of s unchanged; what it keeps neither starts nor ends with a
      trimmable character. */
  lemma TrimShape(s: string)
    ensures var i := |s| - |DropLeading(s)|;
      i + |Trim(s)| <= |s| && Trim(s) == s[i..i + |Trim(s)|]
      && (forall k :: 0 <= k < i ==> IsTrimmed(s[k]))
      && (forall k :: i + |Trim(s)| <= k < |s| ==> IsTrimmed(s[k]))
    ensures Trim(s) == [] || (!IsTrimmed(Trim(s)[0]) && !IsTrimmed(Trim(s)[|Trim(s)| - 1]))
  {
    var d := DropLeading(s);
    var i := |s| - |d|;
    var t := Trim(s);
    assert t == DropTrailing(d);
    assert forall k :: 0 <= k < i ==> IsTrimmed(s[k]);
    assert t == s[i..i + |t|];
    forall k | i + |t| <= k < |s| ensures IsTrimmed(s[k]) {
      assert s[k] == d[k - i];
    }
  }

  /** Trimming twice is trimming once, so a stored trimmed field is stable. */
  lemma {:induction false} TrimIdempotent(s: string)
    ensures Trim(Trim(s)) == Trim(s)
  {
    var t := Trim(s);
    TrimShape(s);
    assert DropLeading(t) == t;
    assert DropTrailing(t) == t;
  }

  /** Text that neither starts nor ends with a character trim removes. */
  predicate IsTrimmedText(s: string)
  {
    s == [] || (!IsTrimmed(s[0]) && !IsTrimmed(s[|s| - 1]))
  }

  /** What trim returns is trimmed text. */
  lemma TrimIsTrimmedText(s: string)
    ensures IsTrimmedText(Trim(s))
  {
    TrimShape(s);
  }

  /** Trimmed text is exactly what trim leaves unchanged. */
  lemma TrimmedTextIsFixed(s: string)
    ensures IsTrimmedText(s) <==> Trim(s) == s
  {
    if Trim(s) == s {
      TrimIsTrimmedText(s);
    }
  }

  /** The regular-expression class \s (no UNICODE_CHARACTER_CLASS flag). */
  predicate IsRegexSpace(c: char)
  {
    c == ' ' || ('\t' <= c <= '\r')
  }

  // ---------------------------------------------------------------------
  // The e-mail pattern ^[^@\s]+@[^@\s]+\.[^@\s]+$

  /** The class [^@\s]. */
  predicate EmailChar(c: char)
  {
    c != '@' && !IsRegexSpace(c)
  }

  predicate AllEmailChars(s: string)
  {
    forall k :: 0 <= k < |s| ==> EmailChar(s[k])
  }

  /** What it means for the whole of s to match the e-mail pattern: an '@'
      after a non-empty part and a '.' with non-empty text on both sides
      after it, every other character from [^@\s]. */
  ghost predicate MatchesEmailPattern(s: string)
  {
    exists at, dot :: 0 < at && at + 1 < dot && dot + 1 < |s| && s[at] == '@' && s[dot] == '.'
      && EmailCharsExcept(s, at)
  }

  /** Every character of s but the one at `at` is from [^@\s]. */
  predicate EmailCharsExcept(s: string, at: int)
  {
    forall k :: 0 <= k < |s| && k != at ==> EmailChar(s[k])
  }

  /** Splits s at its first '@'. */
  function SplitAtSign(s: string): (r: Option<(string, string)>)
    ensures r.Some? ==> s == r.value.0 + ['@'] + r.value.1 && '@' !in r.value.0
    ensures r.None? <==> '@' !in s
  {
    if s == [] then None
    else if s[0] == '@' then Some(([], s[1..]))
    else match SplitAtSign(s[1..])
      case None => None
      case Some(parts) => Some(([s[0]] + parts.0, parts.1))
  }

  /** The e-mail check as a scan: one '@' with a non-empty local part before
      it, and a domain after it that holds a '.' neither first nor last. */
  function IsEmailShaped(s: string): bool
  {
    match SplitAtSign(s)
    case None => false
    case Some(parts) =>
      var local, domain := parts.0, parts.1;
      local != [] && AllEmailChars(local) && AllEmailChars(domain)
      && |domain| >= 3 && '.' in domain[1..|domain| - 1]
  }

  /** Every string the scan accepts matches the pattern. */
  lemma EmailShapedMatches(s: string)
    requires IsEmailShaped(s)
    ensures MatchesEmailPattern(s)
  {
    var parts := SplitAtSign(s).value;
    var local, domain := parts.0, parts.1;
    var at := |local|;
    var j :| 0 <= j < |domain| - 2 && domain[1..|domain| - 1][j] == '.';
    var dot := at + 2 + j;
    assert s[at] == '@' && s[dot] == '.';
    forall k | 0 <= k < |s| && k != at ensures EmailChar(s[k]) {
      if k < at { assert s[k] == local[k]; } else { assert s[k] == domain[k - at - 1]; }
    }
  }

  /** A string with a single '@' splits around it. */
  lemma {:induction false} SplitAtOnlyAtSign(s: string, at: nat)
    requires at < |s| && s[at] == '@'
    requires forall k :: 0 <= k < |s| && k != at ==> s[k] != '@'
    ensures SplitAtSign(s) == Some((s[..at], s[at + 1..]))
  {
    if at > 0 {
      SplitAtOnlyAtSign(s[1..], at - 1);
      assert [s[0]] + s[1..][..at - 1] == s[..at];
    }
  }

  /** A stretch of s that avoids the '@' at `at` is all [^@\s]. */
  lemma EmailCharsBetween(s: string, at: int, lo: int, hi: int)
    requires 0 <= lo <= hi <= |s| && (at < lo || hi <= at)
    requires EmailCharsExcept(s, at)
    ensures AllEmailChars(s[lo..hi])
  {
    forall k | 0 <= k < hi - lo ensures EmailChar(s[lo..hi][k]) {
      assert s[lo..hi][k] == s[lo + k];
    }
  }

  /** Every string the pattern matches is accepted by the scan. */
  lemma PatternIsEmailShaped(s: string)
    requires MatchesEmailPattern(s)
    ensures IsEmailShaped(s)
  {
    var at, dot :| 0 < at && at + 1 < dot && dot + 1 < |s| && s[at] == '@' && s[dot] == '.'
      && EmailCharsExcept(s, at);
    forall k | 0 <= k < |s| && k != at ensures s[k] != '@' {
      assert EmailChar(s[k]);
    }
    SplitAtOnlyAtSign(s, at);
    EmailCharsBetween(s, at, 0, at);
    EmailCharsBetween(s, at, at + 1, |s|);
    var local, domain := s[..at], s[at + 1..];
    assert domain[1..|domain| - 1][dot - at - 2] == '.';
    assert SplitAtSign(s) == Some((local, domain)) && local != [] && |domain| >= 3;
  }

  /** The scan accepts exactly the strings the pattern matches. */
  lemma EmailShapedIffPattern(s: string)
    ensures IsEmailShaped(s) <==> MatchesEmailPattern(s)
  {
    if IsEmailShaped(s) { EmailShapedMatches(s); }
    if MatchesEmailPattern(s) { PatternIsEmailShaped(s); }
  }

  // ---------------------------------------------------------------------
  // The phone pattern ^[0-9+\-\s]*$

  /** The class [0-9+\-\s]. */
  predicate PhoneChar(c: char)
  {
    ('0' <= c <= '9') || c == '+' || c == '-' || IsRegexSpace(c)
  }

  /** The whole of s matches the phone pattern. */
  predicate MatchesPhonePattern(s: string)
  {
    forall k :: 0 <= k < |s| ==> PhoneChar(s[k])
  }
}
