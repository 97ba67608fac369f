/**
 * The few JavaScript string operations that createSolanaClient relies on:
 * `startsWith`, the first-occurrence `replace` with a string pattern, the
 * case-insensitive anchored test `/^https?/i`, and `Number.prototype.toString`
 * on a non-negative integer.
 */
module JsStrings {
  import opened Wrappers

  /** `s.startsWith(p)`. */
  predicate StartsWith(s: string, p: string)
  {
    |p| <= |s| && s[..|p|] == p
  }

  /** ASCII lower-casing, which is what the `i` flag does for the letters of `http`. */
  function ToLower(c: char): char
  {
    if 'A' <= c <= 'Z' then (c as int + 32) as char else c
  }

  /** `a` and `b` are equal when case is ignored. */
  predicate EqualIgnoringCase(a: string, b: string)
  {
    |a| == |b| && forall i :: 0 <= i < |a| ==> ToLower(a[i]) == ToLower(b[i])
  }

  /**
   * The test `/^https?/i.test(p)`: the pattern is anchored at the start only,
   * and its trailing `s` is optional, so any string that begins with `http`
   * in any case passes.
   */
  predicate MatchesHttpScheme(p: string)
  {
    |p| >= 4 && EqualIgnoringCase(p[..4], "http")
  }

  /**
   * The regular expression read literally: some prefix of `p` equals `http` or
   * `https` when case is ignored.
   */
  ghost predicate HasHttpOrHttpsPrefix(p: string)
  {
    exists n :: 0 <= n <= |p| && (EqualIgnoringCase(p[..n], "http") || EqualIgnoringCase(p[..n], "https"))
  }

  /** The match is exactly "some prefix is http or https, ignoring case"; no end anchor. */
  lemma MatchesHttpSchemeIsRegex(p: string)
    ensures MatchesHttpScheme(p) <==> HasHttpOrHttpsPrefix(p)
  {
    if MatchesHttpScheme(p) {
      assert EqualIgnoringCase(p[..4], "http");
    }
    if HasHttpOrHttpsPrefix(p) {
      var n :| 0 <= n <= |p| && (EqualIgnoringCase(p[..n], "http") || EqualIgnoringCase(p[..n], "https"));
      assert p[..n][..4] == p[..4];
      assert EqualIgnoringCase(p[..4], "http") by {
        forall i | 0 <= i < 4
          ensures ToLower(p[..4][i]) == ToLower("http"[i])
        {
          assert p[..4][i] == p[..n][i];
          if n == 5 {
            assert "https"[i] == "http"[i];
          }
        }
      }
    }
  }

  /** `pat` occurs in `s` starting at position `j`. */
  predicate OccursAt(s: string, pat: string, j: int)
  {
    0 <= j && j + |pat| <= |s| && s[j..j + |pat|] == pat
  }

  /** Position of the first occurrence of `pat` in `s` at or after `from`. */
  function IndexOf(s: string, pat: string, from: nat): (r: Option<nat>)
    requires from <= |s|
    ensures r.Some? ==> from <= r.value && OccursAt(s, pat, r.value)
    ensures r.Some? ==> forall j :: from <= j < r.value ==> !OccursAt(s, pat, j)
    ensures r.None? ==> forall j :: from <= j ==> !OccursAt(s, pat, j)
    decreases |s| - from
  {
    if from + |pat| > |s| then None
    else if s[from..from + |pat|] == pat then Some(from)
    else IndexOf(s, pat, from + 1)
  }

  /** `s.replace(pat, rep)` with a string pattern: only the first occurrence is replaced. */
  function ReplaceFirst(s: string, pat: string, rep: string): string
  {
    match IndexOf(s, pat, 0)
    case None => s
    case Some(i) => s[..i] + rep + s[i + |pat|..]
  }

  /** When `s` begins with `pat`, the replacement happens at the very start. */
  lemma ReplaceFirstAtStart(s: string, pat: string, rep: string)
    requires StartsWith(s, pat)
    ensures ReplaceFirst(s, pat, rep) == rep + s[|pat|..]
  {
    assert s[0..|pat|] == pat;
  }

  /** With no occurrence of `pat`, the string is returned unchanged. */
  lemma ReplaceFirstAbsent(s: string, pat: string, rep: string)
    requires forall j :: !OccursAt(s, pat, j)
    ensures ReplaceFirst(s, pat, rep) == s
  {
  }

  predicate IsDigit(c: char)
  {
    '0' <= c <= '9'
  }

  function DigitValue(c: char): (d: nat)
    requires IsDigit(c)
    ensures d < 10
  {
    c as int - '0' as int
  }

  function DigitChar(d: nat): (c: char)
    requires d < 10
    ensures IsDigit(c)
  {
    ('0' as int + d) as char
  }

  /** `n.toString()` for a non-negative integer: its decimal digits, most significant first. */
  function DecimalString(n: nat): (s: string)
    ensures |s| >= 1
    ensures forall i :: 0 <= i < |s| ==> IsDigit(s[i])
    ensures |s| > 1 ==> s[0] != '0'
    decreases n
  {
    if n < 10 then [DigitChar(n)] else DecimalString(n / 10) + [DigitChar(n % 10)]
  }

  /** The value of a string of decimal digits: the inverse of DecimalString. */
  function DecimalValue(s: string): nat
    requires forall i :: 0 <= i < |s| ==> IsDigit(s[i])
  {
    if s == [] then 0 else 10 * DecimalValue(s[..|s| - 1]) + DigitValue(s[|s| - 1])
  }

  /** Rendering a port number in decimal loses nothing: reading the digits back gives the number. */
  lemma {:induction false} DecimalRoundTrip(n: nat)
    ensures DecimalValue(DecimalString(n)) == n
    decreases n
  {
    var s := DecimalString(n);
    if n >= 10 {
      DecimalRoundTrip(n / 10);
      assert s[..|s| - 1] == DecimalString(n / 10);
    }
  }

  /** Distinct numbers render as distinct strings. */
  lemma DecimalStringInjective(m: nat, n: nat)
    requires DecimalString(m) == DecimalString(n)
    ensures m == n
  {
    DecimalRoundTrip(m);
    DecimalRoundTrip(n);
  }
}
