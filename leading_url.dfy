/**
 * `extractLeadingUrl` of the home page (app/page.js): splits a stored prompt
 * into the reference-image URL it starts with and the caption after it, by
 * matching the trimmed prompt against `/^(https?:\/\/\S+)\s*(.*)$/i`.
 */
module LeadingUrl {
  import opened JsText

  datatype LeadingSplit = LeadingSplit(url: Option<string>, text: string)

  /**
   * One way the anchored regex can match the trimmed prompt `t`: the scheme
   * has length `L`, group 1 is `t[..k]`, `\s*` takes `t[k..m]` and group 2,
   * whose `.` refuses line terminators, takes the rest `t[m..]`.
   */
  ghost predicate LeadingParse(t: string, L: nat, k: nat, m: nat) {
    && MatchAt(t, 0, L, k, true)
    && k <= m <= |t|
    && AllSpace(t[k..m])
    && NoLineTerminator(t[m..])
  }

  function ExtractLeadingUrl(promptString: string): (r: LeadingSplit)
    ensures promptString == "" ==> r == LeadingSplit(None, "")
    ensures r.url.None? ==> r.text == Trim(promptString)
  {
    if promptString == "" then LeadingSplit(None, "")
    else SplitTrimmed(Trim(promptString))
  }

  /** The regex applied to the already trimmed prompt `t`. */
  function SplitTrimmed(t: string): (r: LeadingSplit)
    ensures r.url.None? ==> r.text == t
  {
    var L := SchemeLen(t, 0, true);
    if L != 0 && L < |t| && !IsSpace(t[L]) then
      var k := RunEnd(t, L, false);
      var m := RunEnd(t, k, true);
      if NoLineTerminator(t[m..]) then LeadingSplit(Some(t[..k]), Trim(t[m..]))
      else LeadingSplit(None, t)
    else LeadingSplit(None, t)
  }

  /**
   * A URL is reported only when the regex matches, and then it is the match
   * the regex engine picks (the longest group 1, then the longest `\s*`): the
   * trimmed prompt is the URL, a white-space gap and the caption, in order.
   */
  lemma ExtractLeadingUrlSound(s: string)
    requires ExtractLeadingUrl(s).url.Some?
    ensures
      var t := Trim(s);
      var r := ExtractLeadingUrl(s);
      var k := |r.url.value|;
      var m := |t| - |r.text|;
      && k <= m <= |t|
      && t == r.url.value + t[k..m] + r.text
      && AllSpace(t[k..m])
      && LeadingParse(t, SchemeLen(t, 0, true), k, m)
      && forall L: nat, k': nat, m': nat :: LeadingParse(t, L, k', m') ==> k' < k || (k' == k && m' <= m)
  {
    SplitTrimmedSound(Trim(s));
  }

  lemma SplitTrimmedSound(t: string)
    requires Trimmed(t) && SplitTrimmed(t).url.Some?
    ensures
      var r := SplitTrimmed(t);
      var k := |r.url.value|;
      var m := |t| - |r.text|;
      && k <= m <= |t|
      && t == r.url.value + t[k..m] + r.text
      && AllSpace(t[k..m])
      && LeadingParse(t, SchemeLen(t, 0, true), k, m)
      && forall L: nat, k': nat, m': nat :: LeadingParse(t, L, k', m') ==> k' < k || (k' == k && m' <= m)
  {
    var L := SchemeLen(t, 0, true);
    var k := RunEnd(t, L, false);
    var m := RunEnd(t, k, true);
    SplitTrimmedShape(t, L, k, m);
    GreedyParse(t, L, k, m);
  }

  /** On a trimmed prompt the caption needs no further trimming: it is the whole rest after the gap. */
  lemma SplitTrimmedShape(t: string, L: nat, k: nat, m: nat)
    requires Trimmed(t) && SplitTrimmed(t).url.Some?
    requires L == SchemeLen(t, 0, true) && k == RunEnd(t, L, false) && m == RunEnd(t, k, true)
    ensures L != 0 && L < |t| && !IsSpace(t[L]) && NoLineTerminator(t[m..])
    ensures SplitTrimmed(t) == LeadingSplit(Some(t[..k]), t[m..])
  {
    var rest := t[m..];
    assert Trimmed(rest) by {
      if rest != [] {
        assert rest[|rest| - 1] == t[|t| - 1];
      }
    }
    TrimOfTrimmed(rest);
  }

  /** The parse built from the greedy runs is a parse, and no parse has a longer group 1 or gap. */
  lemma GreedyParse(t: string, L: nat, k: nat, m: nat)
    requires L == SchemeLen(t, 0, true) && L != 0 && L < |t| && !IsSpace(t[L])
    requires k == RunEnd(t, L, false) && m == RunEnd(t, k, true)
    requires NoLineTerminator(t[m..])
    ensures t == t[..k] + t[k..m] + t[m..]
    ensures LeadingParse(t, L, k, m)
    ensures forall L': nat, k': nat, m': nat :: LeadingParse(t, L', k', m') ==> k' < k || (k' == k && m' <= m)
  {
    assert t[..k] + t[k..m] == t[..m];
    assert t[..m] + t[m..] == t;
    assert SchemeAt(t, 0, L, true);
    forall L': nat, k': nat, m': nat | LeadingParse(t, L', k', m')
      ensures k' < k || (k' == k && m' <= m)
    {
    }
  }

  /** Whenever the regex can match the trimmed prompt at all, a URL is reported. */
  lemma ExtractLeadingUrlComplete(s: string, L: nat, k: nat, m: nat)
    requires LeadingParse(Trim(s), L, k, m)
    ensures ExtractLeadingUrl(s).url.Some?
  {
    assert s != "";
    SplitTrimmedComplete(Trim(s), L, k, m);
  }

  lemma SplitTrimmedComplete(t: string, L: nat, k: nat, m: nat)
    requires LeadingParse(t, L, k, m)
    ensures SplitTrimmed(t).url.Some?
  {
    assert L == SchemeLen(t, 0, true);
    assert !IsSpace(t[L]);
    var kk := RunEnd(t, L, false);
    var mm := RunEnd(t, kk, true);
    assert kk >= k;
    assert mm >= m by {
      if m > k {
        assert IsSpace(t[k..m][0]);
        assert kk == k;
      }
    }
    assert NoLineTerminator(t[mm..]) by {
      forall i | 0 <= i < |t| - mm ensures !IsLineTerminator(t[mm..][i]) {
        assert t[mm..][i] == t[m..][i + mm - m];
      }
    }
  }
}
