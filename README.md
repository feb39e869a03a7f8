# SINEVA image chat: transcript engine and gallery pager

This project models the state logic of two page components of the SINEVA
front end and proves properties about it in Dafny.

The home page (`app/page.js`) is a chat-style image generator. The user types
a prompt and optionally attaches a reference image, either by uploading a
file or by reusing an earlier result. The page then:

- appends an optimistic placeholder entry to the transcript;
- sends the request;
- on success, overwrites the last pending entry with the generated image;
- on failure, drops every pending entry and shows the server's message.

While an upload or a generation is in flight, the upload, prompt, send and
clear controls are disabled. Stored prompts may begin with the reference-image URL, and
`extractLeadingUrl` splits them into that URL and a caption.

The community page (`app/community/page.jsx`) shows the gallery ten images
at a time. Previous and next buttons are bounded by the page count the server
reports. Any change of page number fetches that page again. Its modal shows
each prompt without the URL it contains. For that it uses two helpers:

- `extractUrlFromPrompt`, which is case-sensitive;
- `removeUrlFromPrompt`, which is case-insensitive.

The modules are:

- `JsText`: the JavaScript behaviour the components rely on, stated
  explicitly.
  - The ECMA-262 white-space and line-terminator sets behind `\s`, `trim` and
    `.`.
  - The `||` default on strings and numbers.
  - The regex token `https?:\/\/\S+`. The predicate `MatchAt` defines which
    substrings the token can match, and `LeftmostGreedy` defines which match
    the regex engine reports. `FirstUrl` computes that match.
- `Transcript`: chat entries and the two list rewrites that settle a
  generation request.
  - `ResolveLast`: the `lastIndexOf` overwrite.
  - `RemovePending`: the `filter`.
  - Lemmas on pending counts, order preservation and rollback.
- `LeadingUrl`: `extractLeadingUrl`, together with a reference description of
  every way its anchored regex can match and a proof that the function
  returns the match the engine picks.
- `ChatPage`: class `Page`, which holds the home page's React state. Each
  asynchronous handler is split at its `await` into a Start method and a
  Complete method. A Handle method runs the two back to back. Network answers
  are parameters.
- `PromptUrl`: the two prompt helpers of the gallery and the modal's choice
  between them.
- `CommunityPage`: class `CommunityImages`, which holds the gallery state,
  `fetchImages` and the two page buttons.
- `Scenarios`: concrete prompts, including the upper-case-scheme prompts on
  which the two gallery helpers disagree.
  - A prompt whose only URL is written `HTTP://…` is shown as stored.
  - For `HTTP://a http://b`, the modal shows the referenced image `http://b`.
    It also shows `http://b` as the caption, because the removal deleted
    `HTTP://a` instead.

## Model

| member | source | states |
|---|---|---|
| JsText.IsLineTerminator | app/page.js:177 | the characters `.` refuses: LF, CR, LS and PS; tab and every printable ASCII character, space included, are accepted |
| JsText.IsSpace | app/page.js:176-177 | the ECMA-262 white space behind `\s` and `trim`: every line terminator is white space, and no visible ASCII character is |
| JsText.OrElse | app/page.js:133-134 | `a \|\| d` on a possibly absent string: the value when it is a non-empty string, otherwise the default |
| JsText.NonEmpty | app/page.js:103 | `s \|\| null`: absent exactly when `s` is empty, otherwise `s` itself |
| JsText.NumberOr | app/community/page.jsx:33-34 | `n \|\| 1` on a possibly absent number: the number unless it is absent or 0 |
| JsText.Trim | app/page.js:176 | the result has no white space at either end and is the slice of the input left after removing a white-space prefix and a white-space suffix; it is empty exactly when the input is all white space |
| JsText.TrimOfTrimmed | app/page.js:178 | trimming a string that is already trimmed changes nothing |
| JsText.RunEnd | app/page.js:177 | the end of the maximal run of white-space (or non-white-space) characters starting at a position |
| JsText.SchemeLen | app/page.js:177 | the scheme `http://` or `https://` (optionally case-insensitive) starts at a position exactly when its length is returned; at most one length applies |
| JsText.FirstUrl | app/community/page.jsx:66 | the span returned is a match of `https?:\/\/\S+`, it extends greedily to the end of the non-white-space run, and no match starts earlier; none is returned only when no match exists |
| JsText.LeftmostGreedyUnique | app/community/page.jsx:66 | the match the regex engine reports is unique |
| JsText.FirstUrlIsLeftmostGreedy | app/community/page.jsx:66 | when any match exists, the search returns the leftmost greedy one |
| JsText.MatchAtIgnoringCase | app/community/page.jsx:72 | every case-sensitive match is also a case-insensitive match |
| Transcript.StatusOf | app/page.js:241-289 | an entry renders as a placeholder exactly when it is loading, as an image exactly when it is settled with a non-empty image URL, and as the "more details" notice otherwise |
| Transcript.LastPendingIndex | app/page.js:130 | `lastIndexOf(true)` over the loading flags: -1 exactly when nothing is pending; otherwise the index holds a pending entry and no later entry is pending |
| Transcript.ResolveLast | app/page.js:128-138 | the success update keeps the length, overwrites only the last pending entry, keeps every other index, and changes nothing when no entry is pending |
| Transcript.RemovePending | app/page.js:143 | the failure filter leaves no pending entry and removes exactly as many entries as were pending |
| Transcript.NoPendingIffCountZero | app/page.js:143 | a transcript has no pending entry exactly when its pending count is zero |
| Transcript.CountPendingAppend | app/page.js:101-104 | appending an entry raises the pending count by exactly that entry's flag |
| Transcript.SettleAtMostOne | app/page.js:128-138 | with at most one entry pending, the success update leaves nothing pending |
| Transcript.CountPendingUpdate | app/page.js:132-135 | overwriting one entry changes the pending count only by the flags of the old and new entry |
| Transcript.ResolveLastCount | app/page.js:128-138 | resolving with a settled entry lowers the pending count by exactly one |
| Transcript.RemovePendingAppend | app/page.js:143 | the filter distributes over concatenation, so the kept entries stay in their original order |
| Transcript.RemovePendingSettled | app/page.js:143 | the filter leaves a transcript with no pending entry unchanged |
| Transcript.Rollback | app/page.js:101-143 | appending one placeholder to a settled transcript and then failing restores the transcript exactly |
| Transcript.ResolveAppended | app/page.js:101-138 | appending one placeholder to a settled transcript and then succeeding yields the transcript plus the resolved entry |
| LeadingUrl.ExtractLeadingUrl | app/page.js:174-180 | an empty input gives no URL and empty text; whenever no URL is reported, the text is the trimmed input |
| LeadingUrl.SplitTrimmed | app/page.js:177-179 | when the regex does not match the trimmed prompt, the prompt comes back whole as text |
| LeadingUrl.ExtractLeadingUrlSound | app/page.js:176-178 | a reported URL is a regex match: the trimmed input is URL, then a white-space gap, then the caption, with no line terminator in the caption; no other match has a longer URL or a longer gap |
| LeadingUrl.ExtractLeadingUrlComplete | app/page.js:177-179 | whenever the anchored regex can match the trimmed input, a URL is reported |
| LeadingUrl.GreedyParse | app/page.js:177 | the greedy runs after the scheme form a match that no other match exceeds |
| ChatPage.IsEmptySubmission | app/page.js:93 | a submission is refused exactly when the prompt is all white space and there is no reference image |
| ChatPage.Placeholder | app/page.js:101-104 | the optimistic entry is pending, carries the text the user typed, and carries the reference image, exactly when one was given |
| ChatPage.ResolvedEntry | app/page.js:132-135 | the entry written on success is settled; its prompt is the returned prompt when that is non-empty, else the user's text; its image is the returned one when that is non-empty, else `""`, so it renders as an image exactly when a non-empty image URL was returned |
| ChatPage.FailureMessage | app/page.js:144 | the failure message is never empty; it is the payload's message when that is non-empty, else "Something went wrong." |
| ChatPage.Page.Busy | app/page.js:29 | `busy` is the disjunction of the three flags; when it is off, `loading` agrees with the two request flags, and while it agrees, `loading` alone decides `busy` |
| ChatPage.Page.constructor | app/page.js:19-25 | the initial state: empty transcript and inputs, all flags off, not busy |
| ChatPage.Page.FetchChat | app/page.js:39-49 | the history replaces the transcript wholesale; an absent history or an error empties it; nothing else changes |
| ChatPage.Page.StartUpload | app/page.js:54-60 | without a file nothing changes; otherwise the upload and loading flags and the "Uploading image..." message are set, and the gate closes; `loading` agrees with the request flags afterwards |
| ChatPage.Page.CompleteUpload | app/page.js:72-85 | a returned URL becomes the reference with the "Image uploaded!" message; a missing URL or an error only sets its message; the transcript and prompt are untouched; both flags clear, and with no generation in flight `loading` agrees with the request flags |
| ChatPage.Page.HandleFileChange | app/page.js:54-86 | a complete upload leaves the page not busy, never touches the transcript or the prompt, and either sets the reference with the "Image uploaded!" message, or keeps the reference and shows "Upload failed: no URL returned." for a missing URL or "Failed to upload image. Try again." for a thrown error |
| ChatPage.Page.StartGenerate | app/page.js:92-113 | an empty submission only sets the message; otherwise exactly one placeholder is appended, the prompt and message are cleared, the gate closes, and the request carries the untrimmed prompt and the reference, each only when non-empty; the pending count rises by exactly one, so from a settled transcript exactly one entry is pending while the request is in flight |
| ChatPage.Page.CompleteGenerate | app/page.js:126-148 | success resolves the last pending entry and clears the reference input; failure drops every pending entry, keeps the reference and shows the failure message; both clear the flags and change nothing else; when at most one entry was pending, none is pending afterwards |
| ChatPage.Page.HandleGenerate | app/page.js:92-150 | after a complete request the page is not busy; a non-empty submission sends the untrimmed prompt and the reference, each only when non-empty; from a settled transcript, success adds exactly the resolved entry and failure restores the transcript exactly |
| ChatPage.Page.HandleEdit | app/page.js:157 | the edit handler only puts the given text into the prompt box |
| ChatPage.Page.EditEntry | app/page.js:209-232 | the edit button, rendered only for a non-empty caption, puts the entry's caption, without its leading URL, into the prompt box; a prompt with no leading URL goes in trimmed |
| ChatPage.Page.DownloadFailed | app/page.js:168-171 | a failed download only sets its message |
| ChatPage.Page.UseImage | app/page.js:264 | reusing a generated image only sets the reference input |
| ChatPage.Page.ClearReference | app/page.js:342-343 | the clear button, usable only when not busy, only empties the reference input |
| PromptUrl.ExtractUrlFromPrompt | app/community/page.jsx:64-68 | absent exactly when no lower-case-scheme URL occurs; otherwise the leftmost greedy match |
| PromptUrl.RemoveUrlFromPrompt | app/community/page.jsx:70-73 | with no URL in any case, the prompt is only trimmed |
| PromptUrl.DisplayedPrompt | app/community/page.jsx:189-191 | with no lower-case-scheme URL, the prompt is shown as stored |
| PromptUrl.ExtractUrlFromPromptFindsLeftmost | app/community/page.jsx:66-67 | the URL reported is the text of the match the case-sensitive regex picks |
| PromptUrl.RemoveUrlFromPromptDeletesLeftmost | app/community/page.jsx:72 | exactly the token the case-insensitive regex picks is deleted; interior white space stays and only the ends are trimmed |
| PromptUrl.DisplayedPromptDeletesReference | app/community/page.jsx:189-191 | when no upper-case-scheme URL precedes the referenced URL, the modal shows the prompt with exactly that URL deleted |
| CommunityPage.CommunityImages.constructor | app/community/page.jsx:9-14 | the initial state: no images, page 1 of 1, the whole-page loader on |
| CommunityPage.CommunityImages.StartFetch | app/community/page.jsx:17-24 | without a token nothing changes and no request is made; otherwise the page loader turns on and page `pageNumber` is requested, ten per page |
| CommunityPage.CommunityImages.CompleteFetch | app/community/page.jsx:31-49 | a successful body replaces the images, page and page count, with falsy values defaulting to `[]`, 1 and 1; without pagination only the images change; any other answer changes none of the three; both loaders clear; a refetch happens exactly when the page changed |
| CommunityPage.CommunityImages.FetchImages | app/community/page.jsx:17-45 | without a token nothing changes; any issued request ends with both loaders off; a successful answer replaces the images, and the page and page count when pagination is present (falsy values defaulting to `[]`, 1 and 1), only the images when it is absent; a failed request changes nothing else; a refetch happens exactly when the page changed |
| CommunityPage.CommunityImages.PrevPage | app/community/page.jsx:56-58 | moves back one page only when the page is above 1, else changes nothing; keeps `page >= 1` and the bounds; refetches exactly when it moved |
| CommunityPage.CommunityImages.NextPage | app/community/page.jsx:60-62 | moves on one page only when the page is below the count, else changes nothing; keeps `page <= totalPages` and the bounds; refetches exactly when it moved |
| Scenarios.LeadingUrlThenCaption | app/page.js:174-180 | `https://x/y.png caption` splits into that URL and `caption` |
| Scenarios.CaptionOnly | app/page.js:174-180 | `caption only` has no leading URL and comes back as text |
| Scenarios.CaptionThenUrl | app/community/page.jsx:189-191 | for `caption https://x/y.png`, the URL is found and the modal shows `caption` |
| Scenarios.UpperCaseSchemeShownAsStored | app/community/page.jsx:189-191 | `HTTP://a.png cat` has no case-sensitive URL, so it is shown as stored even though the removal alone would give `cat` |
| Scenarios.MixedCaseShowsReferencedUrl | app/community/page.jsx:189-199 | for `HTTP://a http://b`, the referenced URL is `http://b` and the displayed caption is also `http://b` |

## Left out

- Rendering is left out: JSX, CSS, the image modal, icons, the "Generating..." label and `scrollToBottom`. These hold no state logic beyond what is modelled.
- Network I/O is left out: axios calls, endpoint URLs and `FormData`. Each answer is a parameter. For the generation request, only which fields are sent is kept.
- The browser APIs of `handleCopy`, `handleDownload` and `downloadImage` are left out. Only the message set when `handleDownload` fails is modelled.
- `triggerFileSelect` is left out. It only clicks the hidden file input, so it is represented by the `fileSelected` argument of the upload methods.
- The session plumbing is left out: `router.push`, `localStorage`, `handleLogout`, and the redirect effect of the home page. `AuthContext` is not part of this model. A token is modelled only as present or absent (`hasToken`).
- The effect that calls `fetchChat` when a token appears is represented only by `FetchChat` itself.
- app/login/page.js, components/Sidebar.js, components/Layout.jsx and app/layout.js are not part of this model: they are authentication and layout UI.
- Clicks on the edit and "use this image" buttons while a request is in flight are not covered by `HandleGenerate` and `HandleFileChange`. These two buttons have no `disabled={busy}`, so either can change the prompt or the reference input between the start and the end of a request. Each click is modelled on its own (`HandleEdit`, `EditEntry`, `UseImage`), but the two Handle methods assume nothing fires in between. With such a click, a failed generation leaves the newly chosen reference, not the old one.
- React scheduling is left out: batching and interleaved completions of concurrent requests. Each handler is a Start/Complete pair that runs under its busy precondition. The source has no guard against a request finishing after its owner lapsed, so the model invents none.
- `console.error` and `alert` diagnostics are left out.
- JavaScript numbers are modelled as unbounded integers. A page number or page count of a non-number type is not modelled.
- An absent (`null` or `undefined`) prompt is modelled as the empty string. The three prompt helpers treat it the same way.
- Characters are Unicode scalar values rather than UTF-16 code units. No character outside the Basic Multilingual Plane is white space, so token boundaries are the same.
- On a failed generation, every pending entry is dropped, not only the request's own placeholder. This follows the code's filter.
- A successful gallery response without `pagination` still replaces the images, because the code throws only after `setImages`.
