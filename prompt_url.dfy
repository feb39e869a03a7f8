/**
 * The prompt helpers of the community gallery (app/community/page.jsx):
 * `extractUrlFromPrompt` finds the first URL anywhere in a stored prompt with
 * a case-sensitive regex, `removeUrlFromPrompt` deletes the first URL found
 * with a case-insensitive one, and the modal shows one or the other.
 */
module PromptUrl {
  import opened JsText

  /**
   * `extractUrlFromPrompt`: the first match of `/(https?:\/\/\S+)/`, lower-case
   * scheme only, or `None` when there is no such match.
   */
  function ExtractUrlFromPrompt(prompt: string): (r: Option<string>)
    ensures r.None? <==> forall j: nat, L: nat, e: nat :: !MatchAt(prompt, j, L, e, false)
    ensures r.Some? ==> exists sp :: LeftmostGreedy(prompt, sp, false) && r.value == prompt[sp.start..sp.end]
  {
    if prompt == "" then None
    else
      match FirstUrl(prompt, 0, false)
      case None => None
      case Some(sp) => Some(prompt[sp.start..sp.end])
  }

  /**
   * `removeUrlFromPrompt`: the prompt without the first match of
   * `/https?:\/\/\S+/i`, trimmed at both ends; white space inside the prompt,
   * including on either side of the deleted token, stays.
   */
  function RemoveUrlFromPrompt(prompt: string): (r: string)
    ensures (forall j: nat, L: nat, e: nat :: !MatchAt(prompt, j, L, e, true)) ==> r == Trim(prompt)
  {
    if prompt == "" then ""
    else
      match FirstUrl(prompt, 0, true)
      case None => Trim(prompt)
      case Some(sp) => Trim(prompt[..sp.start] + prompt[sp.end..])
  }

  /**
   * The prompt text in the modal: the prompt without its URL when the
   * case-sensitive search finds one, the prompt as stored otherwise.
   */
  function DisplayedPrompt(prompt: string): (r: string)
    ensures (forall j: nat, L: nat, e: nat :: !MatchAt(prompt, j, L, e, false)) ==> r == prompt
  {
    if ExtractUrlFromPrompt(prompt).Some? then RemoveUrlFromPrompt(prompt) else prompt
  }

  /** The URL reported is the one the regex engine picks: given that match, the result is its text. */
  lemma ExtractUrlFromPromptFindsLeftmost(prompt: string, sp: Span)
    requires LeftmostGreedy(prompt, sp, false)
    ensures ExtractUrlFromPrompt(prompt) == Some(prompt[sp.start..sp.end])
  {
    FirstUrlIsLeftmostGreedy(prompt, false);
    LeftmostGreedyUnique(prompt, sp, FirstUrl(prompt, 0, false).value, false);
  }

  /** The token deleted is the one the case-insensitive regex engine picks, and nothing else. */
  lemma RemoveUrlFromPromptDeletesLeftmost(prompt: string, sp: Span)
    requires LeftmostGreedy(prompt, sp, true)
    ensures RemoveUrlFromPrompt(prompt) == Trim(prompt[..sp.start] + prompt[sp.end..])
  {
    FirstUrlIsLeftmostGreedy(prompt, true);
    LeftmostGreedyUnique(prompt, sp, FirstUrl(prompt, 0, true).value, true);
  }

  /**
   * When no upper-case-scheme URL comes before the first lower-case one, the
   * modal shows the prompt with exactly the referenced URL deleted.
   */
  lemma DisplayedPromptDeletesReference(prompt: string, sp: Span)
    requires LeftmostGreedy(prompt, sp, false)
    requires forall j: nat, L: nat, e: nat :: j < sp.start ==> !MatchAt(prompt, j, L, e, true)
    ensures ExtractUrlFromPrompt(prompt) == Some(prompt[sp.start..sp.end])
    ensures DisplayedPrompt(prompt) == Trim(prompt[..sp.start] + prompt[sp.end..])
  {
    ExtractUrlFromPromptFindsLeftmost(prompt, sp);
    MatchAtIgnoringCase(prompt, sp.start, sp.schemeLen, sp.end);
    forall L: nat, e: nat | MatchAt(prompt, sp.start, L, e, true)
      ensures e <= sp.end
    {
      assert L == SchemeLen(prompt, sp.start, true) == sp.schemeLen;
      assert MatchAt(prompt, sp.start, sp.schemeLen, e, false);
    }
    RemoveUrlFromPromptDeletesLeftmost(prompt, sp);
  }
}
