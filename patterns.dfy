/**
 * The two outdated-software regular expressions of app.py:27-28, searched
 * with `re.search` under `re.IGNORECASE`:
 *   WordPress\s+v?([0-4]\.\d+)      Apache\s+v?([0-2]\.[0-9]+)
 * Each is a keyword, one or more whitespace characters, an optional `v`,
 * a major digit in a range, a `.` and one or more digits.  A search only asks
 * whether some substring matches, so a single minor digit is enough.
 */
module Patterns {

  /** A keyword (in lower case, matched without regard to case) and the largest major digit. */
  datatype Pattern = Pattern(keyword: string, maxMajor: char)

  const WordPress := Pattern("wordpress", '4')
  const Apache := Pattern("apache", '2')

  /** The major-digit range is a range of digits, as in both patterns of app.py. */
  predicate DigitRange(p: Pattern)
  {
    '0' <= p.maxMajor <= '9'
  }

  /** The patterns in the order app.py tries them. */
  const OutdatedPatterns: seq<Pattern> := [WordPress, Apache]

  /** Python's `\s` on `str`: the characters for which `str.isspace()` holds. */
  predicate IsSpace(c: char)
  {
    ('\t' <= c <= '\r') || ('\U{1C}' <= c <= ' ') || c == '\U{85}' || c == '\U{A0}'
    || c == '\U{1680}' || ('\U{2000}' <= c <= '\U{200A}') || c == '\U{2028}' || c == '\U{2029}'
    || c == '\U{202F}' || c == '\U{205F}' || c == '\U{3000}'
  }

  predicate IsDigit(c: char)
  {
    '0' <= c <= '9'
  }

  /**
   * `c` matches the lower-case letter `k` under `re.IGNORECASE`: the letter
   * itself, its upper-case form, and for `s` also U+017F LATIN SMALL LETTER
   * LONG S, which Python's case-insensitive matching treats as `s`.
   */
  predicate CaselessEq(c: char, k: char)
  {
    c == k || (('a' <= k <= 'z') && c as int == k as int - 32) || (k == 's' && c == '\U{17F}')
  }

  predicate KeywordAt(p: Pattern, t: string, i: int)
  {
    0 <= i && i + |p.keyword| <= |t| &&
    forall k :: 0 <= k < |p.keyword| ==> CaselessEq(t[i + k], p.keyword[k])
  }

  /** `[0-N]\.\d` starts at `q`. */
  predicate MajorAt(p: Pattern, t: string, q: int)
  {
    0 <= q && q + 3 <= |t| && '0' <= t[q] <= p.maxMajor && t[q + 1] == '.' && IsDigit(t[q + 2])
  }

  /** `v?[0-N]\.\d` starts at `q`. */
  predicate VersionAt(p: Pattern, t: string, q: int)
  {
    MajorAt(p, t, q) || (0 <= q < |t| && (t[q] == 'v' || t[q] == 'V') && MajorAt(p, t, q + 1))
  }

  /** The pattern matches at `i` with exactly `w` whitespace characters after the keyword. */
  ghost predicate MatchesWith(p: Pattern, t: string, i: int, w: int)
  {
    KeywordAt(p, t, i) && 1 <= w && i + |p.keyword| + w <= |t| &&
    (forall k :: i + |p.keyword| <= k < i + |p.keyword| + w ==> IsSpace(t[k])) &&
    VersionAt(p, t, i + |p.keyword| + w)
  }

  /** What `pattern.search(text)` answers, stated as the regular expression's meaning. */
  ghost predicate Matches(p: Pattern, t: string)
  {
    exists i, w :: MatchesWith(p, t, i, w)
  }

  /** The end of the run of whitespace that starts at `j`. */
  function SkipSpaces(t: string, j: int): (r: int)
    requires 0 <= j <= |t|
    ensures j <= r <= |t|
    ensures forall k :: j <= k < r ==> IsSpace(t[k])
    ensures r < |t| ==> !IsSpace(t[r])
    decreases |t| - j
  {
    if j < |t| && IsSpace(t[j]) then SkipSpaces(t, j + 1) else j
  }

  /** A match starts at `i`: `\s+` takes the whole whitespace run, which a version cannot start inside. */
  predicate MatchAt(p: Pattern, t: string, i: int)
  {
    KeywordAt(p, t, i) &&
    var q := SkipSpaces(t, i + |p.keyword|);
    q > i + |p.keyword| && VersionAt(p, t, q)
  }

  /** `pattern.search(text)` is not None. */
  predicate Search(p: Pattern, t: string)
  {
    exists i | 0 <= i <= |t| :: MatchAt(p, t, i)
  }

  /** The matcher finds a match exactly when the regular expression has one. */
  lemma SearchIsMatches(p: Pattern, t: string)
    requires DigitRange(p)
    ensures Search(p, t) <==> Matches(p, t)
  {
    if Search(p, t) {
      var i :| 0 <= i <= |t| && MatchAt(p, t, i);
      var q := SkipSpaces(t, i + |p.keyword|);
      assert MatchesWith(p, t, i, q - i - |p.keyword|);
    }
    if Matches(p, t) {
      var i, w :| MatchesWith(p, t, i, w);
      var j := i + |p.keyword|;
      var q := SkipSpaces(t, j);
      assert IsDigit(t[j + w]) || t[j + w] == 'v' || t[j + w] == 'V';
      assert q == j + w;
      assert MatchAt(p, t, i);
    }
  }

  /** The `for pattern in outdated_patterns` loop: some pattern of `ps` is found in `t`. */
  function AnySearch(ps: seq<Pattern>, t: string): (found: bool)
    requires forall k :: 0 <= k < |ps| ==> DigitRange(ps[k])
    ensures found <==> exists k :: 0 <= k < |ps| && Matches(ps[k], t)
  {
    if ps == [] then false
    else
      SearchIsMatches(ps[0], t);
      var rest := AnySearch(ps[1..], t);
      assert forall k :: 1 <= k < |ps| ==> ps[k] == ps[1..][k - 1];
      Search(ps[0], t) || rest
  }
}
