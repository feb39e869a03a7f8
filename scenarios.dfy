/**
 * Concrete prompts run through the URL helpers: the two stored-prompt shapes
 * the components expect, and the prompts whose scheme is written in upper
 * case, where the case-sensitive search and the case-insensitive deletion
 * disagree.
 *
 * Each prompt is a parameter fixed by a `requires`, so that the verifier
 * reasons from the lemmas about the helpers instead of evaluating them
 * on the literal.
 */
module Scenarios {
  import opened JsText
  import opened LeadingUrl
  import opened PromptUrl

  lemma UrlThenCaptionRuns(s: string)
    requires s == "https://x/y.png caption"
    ensures SchemeLen(s, 0, true) == 8 && RunEnd(s, 8, false) == 15 && RunEnd(s, 15, true) == 16
  {
    assert PatternAt(s, 0, "https://", true);
    assert forall i :: 8 <= i < 15 ==> !IsSpace(s[i]);
    assert IsSpace(s[15]) && !IsSpace(s[16]);
  }

  /** A freshly composed prompt: reference URL first, then the caption. */
  lemma LeadingUrlThenCaption(s: string)
    requires s == "https://x/y.png caption"
    ensures ExtractLeadingUrl(s) == LeadingSplit(Some("https://x/y.png"), "caption")
  {
    UrlThenCaptionRuns(s);
    assert Trimmed(s);
    TrimOfTrimmed(s);
    var caption := s[16..];
    assert caption == "caption";
    assert Trimmed(caption);
    TrimOfTrimmed(caption);
    assert NoLineTerminator(caption);
    assert s[..15] == "https://x/y.png";
    assert SplitTrimmed(s) == LeadingSplit(Some(s[..15]), caption);
  }

  lemma CaptionOnlyTrimmed(s: string)
    requires s == "caption only"
    ensures Trim(s) == s
  {
    assert Trimmed(s);
    TrimOfTrimmed(s);
  }

  lemma CaptionOnlyNoScheme(s: string)
    requires s == "caption only"
    ensures SchemeLen(s, 0, true) == 0
  {
    assert !CharMatches(s[0], "http://"[0], true);
    assert !CharMatches(s[0], "https://"[0], true);
  }

  /** A caption with no URL at its head is all caption. */
  lemma CaptionOnly(s: string)
    requires s == "caption only"
    ensures ExtractLeadingUrl(s) == LeadingSplit(None, "caption only")
  {
    CaptionOnlyTrimmed(s);
    CaptionOnlyNoScheme(s);
    assert SplitTrimmed(s) == LeadingSplit(None, s);
  }

  /** No match can start before `n` when no `h` (nor, ignoring case, `H`) occurs there. */
  lemma NoMatchBefore(p: string, n: nat, ci: bool)
    requires n <= |p|
    requires forall j :: 0 <= j < n ==> p[j] != 'h' && (ci ==> p[j] != 'H')
    ensures forall j: nat, L: nat, e: nat :: j < n ==> !MatchAt(p, j, L, e, ci)
  {
    forall j: nat, L: nat, e: nat | j < n
      ensures !MatchAt(p, j, L, e, ci)
    {
      assert !CharMatches(p[j + 0], "http://"[0], ci);
      assert !CharMatches(p[j + 0], "https://"[0], ci);
    }
  }

  lemma CaptionThenUrlMatch(p: string)
    requires p == "caption https://x/y.png"
    ensures LeftmostGreedy(p, Span(8, 8, 23), false)
    ensures forall j: nat, L: nat, e: nat :: j < 8 ==> !MatchAt(p, j, L, e, true)
  {
    NoMatchBefore(p, 8, true);
    NoMatchBefore(p, 8, false);
    assert PatternAt(p, 8, "https://", false);
    assert forall k :: 16 <= k < 23 ==> !IsSpace(p[k]);
  }

  lemma TrimTrailingBlank(r: string)
    requires |r| > 0 && r[|r| - 1] == ' ' && Trimmed(r[..|r| - 1])
    ensures Trim(r) == r[..|r| - 1]
  {
    var n := |r| - 1;
    if n == 0 {
      assert RunEnd(r, 0, true) == RunEnd(r, 1, true) == 1;
    } else {
      assert r[0] == r[..n][0] && r[n - 1] == r[..n][n - 1];
      assert RunEnd(r, 0, true) == 0;
      assert TrailStart(r, 0, |r|) == TrailStart(r, 0, n) == n;
    }
  }

  lemma TrimLeadingBlank(r: string)
    requires |r| > 0 && r[0] == ' ' && Trimmed(r[1..])
    ensures Trim(r) == r[1..]
  {
    var n := |r|;
    if n == 1 {
      assert RunEnd(r, 0, true) == RunEnd(r, 1, true) == 1;
    } else {
      assert r[1] == r[1..][0] && r[n - 1] == r[1..][n - 2];
      assert RunEnd(r, 0, true) == RunEnd(r, 1, true) == 1;
      assert TrailStart(r, 1, n) == n;
    }
  }

  lemma CaptionThenUrlToken(p: string)
    requires p == "caption https://x/y.png"
    ensures p[8..23] == "https://x/y.png"
  {
  }

  lemma CaptionThenUrlRemainder(p: string)
    requires p == "caption https://x/y.png"
    ensures p[..8] + p[23..] == "caption "
  {
    assert |p| == 23 && p[23..] == [];
    assert p[..8] + p[23..] == p[..8];
  }

  /** A history prompt with the URL after the caption. */
  lemma CaptionThenUrl(p: string)
    requires p == "caption https://x/y.png"
    ensures ExtractUrlFromPrompt(p) == Some("https://x/y.png")
    ensures DisplayedPrompt(p) == "caption"
  {
    CaptionThenUrlMatch(p);
    CaptionThenUrlToken(p);
    CaptionThenUrlRemainder(p);
    assert Trimmed("caption");
    TrimTrailingBlank(p[..8] + p[23..]);
    DisplayedPromptDeletesReference(p, Span(8, 8, 23));
  }

  lemma UpperCaseMatch(p: string)
    requires p == "HTTP://a.png cat"
    ensures LeftmostGreedy(p, Span(0, 7, 12), true)
    ensures forall j: nat, L: nat, e: nat :: !MatchAt(p, j, L, e, false)
  {
    NoMatchBefore(p, |p|, false);
    assert PatternAt(p, 0, "http://", true);
    assert forall k :: 7 <= k < 12 ==> !IsSpace(p[k]);
    assert IsSpace(p[12]);
  }

  lemma UpperCaseRemainder(p: string)
    requires p == "HTTP://a.png cat"
    ensures p[..0] + p[12..] == " cat" && Trimmed("cat")
  {
    assert p[..0] + p[12..] == p[12..];
  }

  /**
   * A prompt whose only URL has an upper-case scheme: the deletion alone
   * would find it, but the case-sensitive search does not, so the modal
   * shows the prompt as stored.
   */
  lemma UpperCaseSchemeShownAsStored(p: string)
    requires p == "HTTP://a.png cat"
    ensures ExtractUrlFromPrompt(p) == None
    ensures RemoveUrlFromPrompt(p) == "cat"
    ensures DisplayedPrompt(p) == p
  {
    UpperCaseMatch(p);
    UpperCaseRemainder(p);
    RemoveUrlFromPromptDeletesLeftmost(p, Span(0, 7, 12));
    TrimLeadingBlank(p[..0] + p[12..]);
  }

  lemma MixedCaseMatches(p: string)
    requires p == "HTTP://a http://b"
    ensures LeftmostGreedy(p, Span(0, 7, 8), true)
    ensures LeftmostGreedy(p, Span(9, 7, 17), false)
  {
    NoMatchBefore(p, 9, false);
    assert PatternAt(p, 0, "http://", true);
    assert PatternAt(p, 9, "http://", false);
    assert IsSpace(p[8]) && !IsSpace(p[7]) && !IsSpace(p[16]);
  }

  lemma MixedCaseRemainder(p: string)
    requires p == "HTTP://a http://b"
    ensures p[..0] + p[8..] == " http://b" && Trimmed("http://b")
    ensures p[9..17] == "http://b"
  {
    assert p[..0] + p[8..] == p[8..];
  }

  /**
   * Upper-case scheme first, lower-case scheme second: the search reports
   * the second URL, the deletion removes the first, so the modal's caption
   * still holds the URL it shows as the reference image.
   */
  lemma MixedCaseShowsReferencedUrl(p: string)
    requires p == "HTTP://a http://b"
    ensures ExtractUrlFromPrompt(p) == Some("http://b")
    ensures DisplayedPrompt(p) == "http://b"
  {
    MixedCaseMatches(p);
    MixedCaseRemainder(p);
    ExtractUrlFromPromptFindsLeftmost(p, Span(9, 7, 17));
    RemoveUrlFromPromptDeletesLeftmost(p, Span(0, 7, 8));
    TrimLeadingBlank(p[..0] + p[8..]);
  }
}
