/**
 * The state and handlers of the home page component (app/page.js): the
 * transcript, the prompt and reference-image inputs, the status message and
 * the three flags whose disjunction is the busy gate.
 *
 * Each asynchronous handler is split at its `await`: a Start method runs the
 * synchronous prefix and returns what the request carries, a Complete method
 * applies the response (or the caught error) and the `finally` block. The
 * Handle methods run the two back to back, as the page does when no other
 * handler fires in between. The busy gate disables the upload, prompt, send
 * and clear controls; the edit and "use this image" buttons are not disabled
 * while busy, so the Handle methods do not cover a click between Start and
 * Complete.
 */
module ChatPage {
  import opened JsText
  import opened Transcript
  import opened LeadingUrl

  const EmptySubmissionMessage := "Please enter a prompt or provide an image URL."
  const GenericFailureMessage := "Something went wrong."
  const UploadingMessage := "Uploading image..."
  const UploadedMessage := "Image uploaded! Ready to send with prompt."
  const NoUrlMessage := "Upload failed: no URL returned."
  const UploadFailedMessage := "Failed to upload image. Try again."
  const DownloadFailedMessage := "Failed to download image. Please try again."

  /** All the component's state, for stating what a handler leaves unchanged. */
  datatype PageState = PageState(
    chat: seq<Entry>,
    prompt: string,
    imageUrlInput: string,
    message: string,
    loading: bool,
    isUploading: bool,
    isGenerating: bool)

  /** What the closure of one generation request captured, and the form fields it sends. */
  datatype Submission = Submission(userText: string, promptField: Option<string>, imageUrlField: Option<string>)

  /** The history endpoint's answer: `res.data?.data` (absent or present), or a thrown error. */
  datatype FetchOutcome = Fetched(data: Option<seq<Entry>>) | FetchFailed

  /** The upload endpoint's answer: `res.data?.imageUrl` (absent or present), or a thrown error. */
  datatype UploadOutcome = Uploaded(imageUrl: Option<string>) | UploadFailed

  /**
   * The generation endpoint's answer: the `prompt` and `imageUrl` of
   * `res.data?.data` (each possibly absent), or a thrown error with the
   * payload's `message`, if any.
   */
  datatype GenerateOutcome =
    | Generated(prompt: Option<string>, imageUrl: Option<string>)
    | GenerateFailed(payloadMessage: Option<string>)

  /** The guard of `handleGenerate`: nothing but white space typed and no reference image. */
  predicate IsEmptySubmission(prompt: string, imageUrlInput: string): (b: bool)
    ensures b <==> AllSpace(prompt) && imageUrlInput == ""
  {
    Trim(prompt) == "" && imageUrlInput == ""
  }

  /** The optimistic placeholder appended before the request. */
  function Placeholder(userText: string, imageUrlInput: string): (e: Entry)
    ensures StatusOf(e) == Pending && e.prompt == userText
    ensures e.imageUrl.Some? <==> imageUrlInput != ""
    ensures e.imageUrl.Some? ==> e.imageUrl.value == imageUrlInput
  {
    Entry(userText, NonEmpty(imageUrlInput), true)
  }

  /**
   * The entry that replaces the placeholder on success: the returned prompt
   * when it is a non-empty string, else the text the user sent; the returned
   * image, else the empty string, which renders as the "more details" notice.
   */
  function ResolvedEntry(userText: string, returnedPrompt: Option<string>, returnedImageUrl: Option<string>): (e: Entry)
    ensures !e.loading
    ensures e.prompt == userText || (returnedPrompt == Some(e.prompt) && e.prompt != "")
    ensures returnedPrompt.None? ==> e.prompt == userText
    ensures returnedPrompt.Some? && returnedPrompt.value != "" ==> e.prompt == returnedPrompt.value
    ensures !(returnedImageUrl.Some? && returnedImageUrl.value != "") ==> e.imageUrl == Some("")
    ensures StatusOf(e) == Resolved <==> returnedImageUrl.Some? && returnedImageUrl.value != ""
    ensures StatusOf(e) == Resolved ==> e.imageUrl == returnedImageUrl
  {
    Entry(OrElse(returnedPrompt, userText), Some(OrElse(returnedImageUrl, "")), false)
  }

  /** The message a failed generation shows: the payload's, else the generic one. */
  function FailureMessage(payloadMessage: Option<string>): (msg: string)
    ensures msg != ""
    ensures payloadMessage.Some? && payloadMessage.value != "" ==> msg == payloadMessage.value
    ensures msg != GenericFailureMessage ==> payloadMessage == Some(msg)
  {
    OrElse(payloadMessage, GenericFailureMessage)
  }

  class Page {
    var chat: seq<Entry>
    var prompt: string
    var imageUrlInput: string
    var message: string
    var loading: bool
    var isUploading: bool
    var isGenerating: bool

    function State(): PageState
      reads this
    {
      PageState(chat, prompt, imageUrlInput, message, loading, isUploading, isGenerating)
    }

    /**
     * `loading` is on exactly when an upload or a generation is in flight:
     * both handlers set it with their own flag and clear it with that flag.
     */
    predicate LoaderTracksRequests()
      reads this
    {
      loading == (isUploading || isGenerating)
    }

    /**
     * `busy`: an upload or a generation is in flight; the upload, prompt, send
     * and clear controls are disabled while it holds. While the loader tracks
     * the requests, `loading` alone decides it.
     */
    predicate Busy(): (b: bool)
      reads this
      ensures !b ==> LoaderTracksRequests()
      ensures LoaderTracksRequests() ==> (b <==> loading)
    {
      isUploading || isGenerating || loading
    }

    /** The initial `useState` values. */
    constructor ()
      ensures State() == PageState([], "", "", "", false, false, false)
      ensures !Busy()
    {
      chat, prompt, imageUrlInput, message := [], "", "", "";
      loading, isUploading, isGenerating := false, false, false;
    }

    /** `fetchChat`: the history replaces the transcript wholesale; a failure empties it. */
    method FetchChat(outcome: FetchOutcome)
      modifies this
      ensures outcome.Fetched? && outcome.data.Some? ==> chat == outcome.data.value
      ensures outcome.FetchFailed? || outcome.data.None? ==> chat == []
      ensures State() == old(State()).(chat := chat)
    {
      match outcome {
        case Fetched(data) =>
          chat := if data.Some? then data.value else [];
        case FetchFailed =>
          chat := [];
      }
    }

    /**
     * The synchronous part of `handleFileChange`, up to the upload request.
     * Without a selected file nothing happens.
     */
    method StartUpload(fileSelected: bool) returns (started: bool)
      requires !Busy()
      modifies this
      ensures started == fileSelected
      ensures !started ==> State() == old(State())
      ensures started ==> Busy()
      ensures started ==>
        State() == old(State()).(isUploading := true, loading := true, message := UploadingMessage)
      ensures LoaderTracksRequests()
    {
      started := fileSelected;
      if !started {
        return;
      }
      isUploading := true;
      loading := true;
      message := UploadingMessage;
    }

    /** The rest of `handleFileChange`: apply the upload's answer, then the `finally` block. */
    method CompleteUpload(outcome: UploadOutcome)
      modifies this
      ensures !isUploading && !loading
      ensures !old(isGenerating) ==> LoaderTracksRequests()
      ensures chat == old(chat) && prompt == old(prompt) && isGenerating == old(isGenerating)
      ensures outcome.Uploaded? && outcome.imageUrl.Some? && outcome.imageUrl.value != "" ==>
        imageUrlInput == outcome.imageUrl.value && message == UploadedMessage
      ensures outcome.Uploaded? && (outcome.imageUrl.None? || outcome.imageUrl.value == "") ==>
        imageUrlInput == old(imageUrlInput) && message == NoUrlMessage
      ensures outcome.UploadFailed? ==>
        imageUrlInput == old(imageUrlInput) && message == UploadFailedMessage
    {
      match outcome {
        case Uploaded(uploadedUrl) =>
          if uploadedUrl.Some? && uploadedUrl.value != "" {
            imageUrlInput := uploadedUrl.value;
            message := UploadedMessage;
          } else {
            message := NoUrlMessage;
          }
        case UploadFailed =>
          message := UploadFailedMessage;
      }
      isUploading := false;
      loading := false;
    }

    /** `handleFileChange` from selection to `finally`: the transcript is never touched and the gate reopens. */
    method HandleFileChange(fileSelected: bool, outcome: UploadOutcome)
      requires !Busy()
      modifies this
      ensures !Busy()
      ensures chat == old(chat) && prompt == old(prompt)
      ensures !fileSelected ==> State() == old(State())
      ensures fileSelected && outcome.Uploaded? && outcome.imageUrl.Some? && outcome.imageUrl.value != "" ==>
        imageUrlInput == outcome.imageUrl.value && message == UploadedMessage
      ensures fileSelected && outcome.Uploaded? && (outcome.imageUrl.None? || outcome.imageUrl.value == "") ==>
        imageUrlInput == old(imageUrlInput) && message == NoUrlMessage
      ensures fileSelected && outcome.UploadFailed? ==>
        imageUrlInput == old(imageUrlInput) && message == UploadFailedMessage
    {
      var started := StartUpload(fileSelected);
      if started {
        CompleteUpload(outcome);
      }
    }

    /**
     * The synchronous part of `handleGenerate`, up to the request. An empty
     * submission only sets the message. Otherwise the placeholder is appended,
     * the prompt and message are cleared and the gate closes; the request
     * carries the prompt as typed (not trimmed) and the reference URL, each
     * only when non-empty.
     */
    method StartGenerate() returns (sub: Option<Submission>)
      requires !Busy()
      modifies this
      ensures old(IsEmptySubmission(prompt, imageUrlInput)) ==>
        sub.None? && State() == old(State()).(message := EmptySubmissionMessage)
      ensures !old(IsEmptySubmission(prompt, imageUrlInput)) ==>
        && sub == Some(Submission(old(prompt), NonEmpty(old(prompt)), NonEmpty(old(imageUrlInput))))
        && Busy()
        && State() == old(State()).(
             chat := old(chat) + [Placeholder(old(prompt), old(imageUrlInput))],
             prompt := "", message := "", isGenerating := true, loading := true)
      ensures sub.Some? ==> CountPending(chat) == CountPending(old(chat)) + 1
      ensures NoPending(old(chat)) && sub.Some? ==> CountPending(chat) == 1
      ensures LoaderTracksRequests()
    {
      if IsEmptySubmission(prompt, imageUrlInput) {
        message := EmptySubmissionMessage;
        return None;
      }
      var userText := prompt;
      var imageUrl := imageUrlInput;
      prompt := "";
      message := "";
      chat := chat + [Placeholder(userText, imageUrl)];
      isGenerating := true;
      loading := true;
      sub := Some(Submission(userText, NonEmpty(userText), NonEmpty(imageUrl)));
      CountPendingAppend(old(chat), Placeholder(userText, imageUrl));
      NoPendingIffCountZero(old(chat));
    }

    /**
     * The rest of `handleGenerate`. Success copies the transcript, overwrites
     * its last pending entry and clears the reference input; failure drops
     * every pending entry and shows the error. Both reopen the gate.
     */
    method CompleteGenerate(sub: Submission, outcome: GenerateOutcome)
      modifies this
      ensures outcome.Generated? ==>
        State() == old(State()).(
          chat := ResolveLast(old(chat), ResolvedEntry(sub.userText, outcome.prompt, outcome.imageUrl)),
          imageUrlInput := "", isGenerating := false, loading := false)
      ensures outcome.GenerateFailed? ==>
        State() == old(State()).(
          chat := RemovePending(old(chat)), message := FailureMessage(outcome.payloadMessage),
          isGenerating := false, loading := false)
      ensures CountPending(old(chat)) <= 1 ==> NoPending(chat)
      ensures !old(isUploading) ==> LoaderTracksRequests()
    {
      match outcome {
        case Generated(returnedPrompt, returnedImageUrl) =>
          if CountPending(chat) <= 1 {
            SettleAtMostOne(chat, ResolvedEntry(sub.userText, returnedPrompt, returnedImageUrl));
          }
          var newChat := chat;
          var lastIndex := LastPendingIndex(newChat);
          if lastIndex != -1 {
            newChat := newChat[lastIndex := ResolvedEntry(sub.userText, returnedPrompt, returnedImageUrl)];
          }
          chat := newChat;
          imageUrlInput := "";
        case GenerateFailed(payloadMessage) =>
          chat := RemovePending(chat);
          message := FailureMessage(payloadMessage);
      }
      isGenerating := false;
      loading := false;
    }

    /**
     * `handleGenerate` from click to `finally`. Starting from a transcript
     * with no pending entry: success leaves it one resolved entry longer,
     * failure restores it exactly, and neither leaves anything pending.
     */
    method HandleGenerate(outcome: GenerateOutcome) returns (sub: Option<Submission>)
      requires !Busy()
      modifies this
      ensures !Busy()
      ensures old(IsEmptySubmission(prompt, imageUrlInput)) ==>
        sub.None? && State() == old(State()).(message := EmptySubmissionMessage)
      ensures !old(IsEmptySubmission(prompt, imageUrlInput)) ==>
        sub == Some(Submission(old(prompt), NonEmpty(old(prompt)), NonEmpty(old(imageUrlInput)))) && prompt == ""
      ensures sub.Some? && outcome.Generated? ==>
        && chat == ResolveLast(old(chat) + [Placeholder(old(prompt), old(imageUrlInput))],
                               ResolvedEntry(old(prompt), outcome.prompt, outcome.imageUrl))
        && imageUrlInput == "" && message == ""
      ensures sub.Some? && outcome.Generated? && NoPending(old(chat)) ==>
        && chat == old(chat) + [ResolvedEntry(old(prompt), outcome.prompt, outcome.imageUrl)]
        && NoPending(chat)
      ensures sub.Some? && outcome.GenerateFailed? ==>
        && chat == RemovePending(old(chat))
        && imageUrlInput == old(imageUrlInput)
        && message == FailureMessage(outcome.payloadMessage)
      ensures sub.Some? && outcome.GenerateFailed? && NoPending(old(chat)) ==> chat == old(chat)
    {
      ghost var chat0 := chat;
      ghost var text0 := prompt;
      ghost var url0 := imageUrlInput;
      sub := StartGenerate();
      if sub.Some? {
        CompleteGenerate(sub.value, outcome);
        if NoPending(chat0) {
          var p := Placeholder(text0, url0);
          match outcome {
            case Generated(_, _) =>
              ResolveAppended(chat0, p, ResolvedEntry(text0, outcome.prompt, outcome.imageUrl));
              assert NoPending(chat0 + [ResolvedEntry(text0, outcome.prompt, outcome.imageUrl)]);
            case GenerateFailed(_) =>
              Rollback(chat0, p);
          }
        }
        if outcome.GenerateFailed? {
          RemovePendingAppend(chat0, [Placeholder(text0, url0)]);
          assert RemovePending([Placeholder(text0, url0)]) == [];
        }
      }
    }

    /** The edit button: an earlier caption goes back into the prompt box. */
    method HandleEdit(text: string)
      modifies this
      ensures State() == old(State()).(prompt := text)
    {
      prompt := text;
    }

    /**
     * The edit button of a transcript entry, rendered only when the caption is
     * non-empty: the caption that `extractLeadingUrl` splits off the entry's
     * prompt goes into the prompt box; the leading reference URL, if any, does
     * not.
     */
    method EditEntry(e: Entry)
      requires ExtractLeadingUrl(e.prompt).text != ""
      modifies this
      ensures State() == old(State()).(prompt := ExtractLeadingUrl(e.prompt).text)
      ensures ExtractLeadingUrl(e.prompt).url.None? ==> prompt == Trim(e.prompt)
    {
      HandleEdit(ExtractLeadingUrl(e.prompt).text);
    }

    /** `handleDownload` when fetching the image throws: only the message changes. */
    method DownloadFailed()
      modifies this
      ensures State() == old(State()).(message := DownloadFailedMessage)
    {
      message := DownloadFailedMessage;
    }

    /** "Use this image": a generated image becomes the reference for the next request. */
    method UseImage(imageUrl: string)
      modifies this
      ensures State() == old(State()).(imageUrlInput := imageUrl)
    {
      imageUrlInput := imageUrl;
    }

    /** The clear button on the reference preview, disabled while busy. */
    method ClearReference()
      requires !Busy()
      modifies this
      ensures State() == old(State()).(imageUrlInput := "")
    {
      imageUrlInput := "";
    }
  }
}
