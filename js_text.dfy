/**
 * The pieces of JavaScript string behaviour that the page components rely on:
 * what `\s` and `String.prototype.trim` treat as white space, what `.` refuses
 * (line terminators), the `||` default on strings and numbers, and the token
 * `https?:\/\/\S+` that all three URL helpers search for.
 *
 * Characters are Unicode scalar values. JavaScript strings are UTF-16 code
 * units, but every character outside the Basic Multilingual Plane is
 * non-white-space in both views, so the token boundaries coincide.
 */
module JsText {

  datatype Option<T> = None | Some(value: T)

  /**
   * The four LineTerminator code points of ECMA-262 (section 12.3): LF, CR,
   * LS, PS, the characters `.` refuses; it accepts tab and every printable
   * ASCII character, space included.
   */
  predicate IsLineTerminator(c: char): (b: bool)
    ensures b ==> !(' ' <= c <= '~') && c != '\t'
  {
    c == '\n' || c == '\r' || c as int == 0x2028 || c as int == 0x2029
  }

  /**
   * WhiteSpace and LineTerminator of ECMA-262 (sections 12.2 and 12.3): the
   * class `\s` matches and the characters `trim` removes. No visible ASCII
   * character is white space, so every character of a scheme or a URL path
   * written in ASCII belongs to `\S`.
   */
  predicate IsSpace(c: char): (b: bool)
    ensures IsLineTerminator(c) ==> b
    ensures '!' <= c <= '~' ==> !b
  {
    || IsLineTerminator(c)
    || c == '\t' || c as int == 0x0B || c as int == 0x0C || c == ' '
    || c as int == 0xA0 || c as int == 0x1680
    || (0x2000 <= c as int <= 0x200A)
    || c as int == 0x202F || c as int == 0x205F || c as int == 0x3000
    || c as int == 0xFEFF
  }

  ghost predicate AllSpace(s: string) {
    forall i :: 0 <= i < |s| ==> IsSpace(s[i])
  }

  predicate NoLineTerminator(s: string) {
    forall i :: 0 <= i < |s| ==> !IsLineTerminator(s[i])
  }

  /** Neither end is white space: what `trim` produces. */
  ghost predicate Trimmed(s: string) {
    s == [] || (!IsSpace(s[0]) && !IsSpace(s[|s| - 1]))
  }

  /** JavaScript `a || d` for a string-or-absent `a`: the empty string is falsy too. */
  function OrElse(a: Option<string>, d: string): (r: string)
    ensures r == d || (a == Some(r) && r != "")
    ensures a.Some? && a.value != "" ==> r == a.value
  {
    if a.Some? && a.value != "" then a.value else d
  }

  /** JavaScript `s || null` for a string `s`. */
  function NonEmpty(s: string): (r: Option<string>)
    ensures r.None? <==> s == ""
    ensures r.Some? ==> r.value == s
  {
    if s == "" then None else Some(s)
  }

  /** JavaScript `n || d` for a number-or-absent `n`: zero is falsy too. */
  function NumberOr(n: Option<int>, d: int): (r: int)
    ensures r == d || (n == Some(r) && r != 0)
    ensures n.Some? && n.value != 0 ==> r == n.value
  {
    if n.Some? && n.value != 0 then n.value else d
  }

  /**
   * The end of the run that starts at `j` of characters whose white-space-ness
   * is `space`: greedy `\s*` when `space` holds, greedy `\S*` otherwise.
   */
  function RunEnd(s: string, j: nat, space: bool): (r: nat)
    requires j <= |s|
    ensures j <= r <= |s|
    ensures forall i :: j <= i < r ==> IsSpace(s[i]) == space
    ensures r == |s| || IsSpace(s[r]) != space
    decreases |s| - j
  {
    if j == |s| || IsSpace(s[j]) != space then j else RunEnd(s, j + 1, space)
  }

  /**
   * The start of the white-space run that ends `s[a..b]`: `b` moved left over
   * white space, never below `a`.
   */
  function TrailStart(s: string, a: nat, b: nat): (r: nat)
    requires a <= b <= |s|
    ensures a <= r <= b
    ensures forall i :: r <= i < b ==> IsSpace(s[i])
    ensures r == a || !IsSpace(s[r - 1])
    decreases b
  {
    if b > a && IsSpace(s[b - 1]) then TrailStart(s, a, b - 1) else b
  }

  /**
   * `String.prototype.trim`: the slice of `s` left after removing a
   * white-space prefix and a white-space suffix, with no white space left at
   * either end.
   */
  function Trim(s: string): (r: string)
    ensures Trimmed(r)
    ensures r == [] <==> AllSpace(s)
    ensures var a := RunEnd(s, 0, true);
      a + |r| <= |s| && r == s[a..a + |r|] && AllSpace(s[..a]) && AllSpace(s[a + |r|..])
  {
    var a := RunEnd(s, 0, true);
    var b := TrailStart(s, a, |s|);
    assert AllSpace(s[..a]) by {
      forall i | 0 <= i < a ensures IsSpace(s[..a][i]) {
        assert s[..a][i] == s[i];
      }
    }
    assert AllSpace(s[b..]) by {
      forall i | 0 <= i < |s| - b ensures IsSpace(s[b..][i]) {
        assert s[b..][i] == s[b + i];
      }
    }
    s[a..b]
  }

  /** A string with no white space at either end is its own trim. */
  lemma TrimOfTrimmed(s: string)
    requires Trimmed(s)
    ensures Trim(s) == s
  {
    if s != [] {
      assert RunEnd(s, 0, true) == 0;
      assert TrailStart(s, 0, |s|) == |s|;
    }
  }

  /**
   * Character `c` matches the pattern character `p`; with `ci` (the `i` flag
   * without `u`) an ASCII lower-case `p` also accepts its upper case. No other
   * character canonicalises to an ASCII letter under that flag.
   */
  predicate CharMatches(c: char, p: char, ci: bool) {
    c == p || (ci && 'a' <= p <= 'z' && c as int == p as int - 32)
  }

  predicate PatternAt(s: string, i: nat, pat: string, ci: bool) {
    i + |pat| <= |s| && forall k :: 0 <= k < |pat| ==> CharMatches(s[i + k], pat[k], ci)
  }

  /** The regex prefix `https?:\/\/` can match `L` characters of `s` at `i`. */
  predicate SchemeAt(s: string, i: nat, L: nat, ci: bool) {
    || (L == 7 && PatternAt(s, i, "http://", ci))
    || (L == 8 && PatternAt(s, i, "https://", ci))
  }

  /**
   * The length of the scheme prefix at `i`, or 0 when there is none; at most
   * one length can match, so the `s?` choice is never ambiguous.
   */
  function SchemeLen(s: string, i: nat, ci: bool): (r: nat)
    ensures forall L: nat :: SchemeAt(s, i, L, ci) <==> (r != 0 && L == r)
  {
    if PatternAt(s, i, "https://", ci) then
      assert !PatternAt(s, i, "http://", ci) by {
        assert CharMatches(s[i + 4], "https://"[4], ci);
        assert !CharMatches(s[i + 4], "http://"[4], ci);
      }
      8
    else if PatternAt(s, i, "http://", ci) then 7
    else 0
  }

  /** The regex `https?:\/\/\S+` can match exactly `s[i..e]` with scheme length `L`. */
  ghost predicate MatchAt(s: string, i: nat, L: nat, e: nat, ci: bool) {
    && SchemeAt(s, i, L, ci)
    && i + L < e <= |s|
    && forall k :: i + L <= k < e ==> !IsSpace(s[k])
  }

  datatype Span = Span(start: nat, schemeLen: nat, end: nat)

  /**
   * What a non-global `match`/`replace` with `https?:\/\/\S+` picks in `s`:
   * the leftmost start, and at that start the longest match.
   */
  ghost predicate LeftmostGreedy(s: string, sp: Span, ci: bool) {
    && MatchAt(s, sp.start, sp.schemeLen, sp.end, ci)
    && (forall j: nat, L: nat, e: nat :: j < sp.start ==> !MatchAt(s, j, L, e, ci))
    && (forall L: nat, e: nat :: MatchAt(s, sp.start, L, e, ci) ==> e <= sp.end)
  }

  /** The leftmost-greedy choice is unique. */
  lemma LeftmostGreedyUnique(s: string, a: Span, b: Span, ci: bool)
    requires LeftmostGreedy(s, a, ci) && LeftmostGreedy(s, b, ci)
    ensures a == b
  {
    assert a.start == b.start by {
      if a.start < b.start {
        assert false;
      } else if b.start < a.start {
        assert false;
      }
    }
    assert SchemeAt(s, a.start, a.schemeLen, ci) && SchemeAt(s, a.start, b.schemeLen, ci);
    assert a.schemeLen == SchemeLen(s, a.start, ci);
    assert b.schemeLen == SchemeLen(s, a.start, ci);
  }

  /**
   * Scan for the first match at or after `from`, as the regex engine does:
   * try each start in turn, take the whole non-white-space run at the first
   * start that matches.
   */
  function FirstUrl(s: string, from: nat, ci: bool): (r: Option<Span>)
    requires from <= |s|
    ensures r.Some? ==> from <= r.value.start && MatchAt(s, r.value.start, r.value.schemeLen, r.value.end, ci)
    ensures r.Some? ==> forall L: nat, e: nat :: MatchAt(s, r.value.start, L, e, ci) ==> e <= r.value.end
    ensures forall j: nat, L: nat, e: nat :: from <= j && MatchAt(s, j, L, e, ci) ==> r.Some? && r.value.start <= j
    decreases |s| - from
  {
    if from == |s| then None
    else
      var L := SchemeLen(s, from, ci);
      if L != 0 && from + L < |s| && !IsSpace(s[from + L]) then
        Some(Span(from, L, RunEnd(s, from + L, false)))
      else
        assert forall L': nat, e: nat :: !MatchAt(s, from, L', e, ci);
        FirstUrl(s, from + 1, ci)
  }

  /** The scan from the start finds exactly the leftmost-greedy match, and finds none only when there is none. */
  lemma FirstUrlIsLeftmostGreedy(s: string, ci: bool)
    ensures FirstUrl(s, 0, ci).Some? ==> LeftmostGreedy(s, FirstUrl(s, 0, ci).value, ci)
    ensures FirstUrl(s, 0, ci).None? <==> forall j: nat, L: nat, e: nat :: !MatchAt(s, j, L, e, ci)
  {
  }

  /** Every case-sensitive match is a case-insensitive one. */
  lemma MatchAtIgnoringCase(s: string, i: nat, L: nat, e: nat)
    requires MatchAt(s, i, L, e, false)
    ensures MatchAt(s, i, L, e, true)
  {
  }
}
