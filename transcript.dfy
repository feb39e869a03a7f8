/**
 * The conversation transcript of the home page: the `chat` list of entries
 * `{prompt, imageUrl, loading}` and the two list rewrites that settle a
 * generation request, resolving the last pending entry on success or dropping
 * every pending entry on failure.
 */
module Transcript {
  import opened JsText

  /**
   * One chat entry. `loading` marks the optimistic placeholder of a request in
   * flight; `imageUrl` is the reference image while pending and the generated
   * image once resolved (`None` is JavaScript's `null`).
   */
  datatype Entry = Entry(prompt: string, imageUrl: Option<string>, loading: bool)

  /** How an entry is rendered: a placeholder, a generated image, or the "more details" notice. */
  datatype Status = Pending | Resolved | Empty

  function StatusOf(e: Entry): (st: Status)
    ensures st == Pending <==> e.loading
    ensures st == Resolved <==> !e.loading && e.imageUrl.Some? && e.imageUrl.value != ""
  {
    if e.loading then Pending
    else if e.imageUrl.Some? && e.imageUrl.value != "" then Resolved
    else Empty
  }

  predicate NoPending(s: seq<Entry>) {
    forall i :: 0 <= i < |s| ==> !s[i].loading
  }

  function CountPending(s: seq<Entry>): (n: nat)
    ensures n <= |s|
  {
    if s == [] then 0
    else CountPending(s[..|s| - 1]) + (if s[|s| - 1].loading then 1 else 0)
  }

  /** `chat.map(m => m.loading).lastIndexOf(true)`: the index of the last pending entry, or -1. */
  function LastPendingIndex(s: seq<Entry>): (r: int)
    ensures -1 <= r < |s|
    ensures r == -1 <==> NoPending(s)
    ensures r != -1 ==> s[r].loading && forall j :: r < j < |s| ==> !s[j].loading
  {
    if s == [] then -1
    else if s[|s| - 1].loading then |s| - 1
    else LastPendingIndex(s[..|s| - 1])
  }

  /**
   * The success update: the last pending entry is overwritten by `e`, at its
   * own index; a transcript with no pending entry is returned as it is.
   */
  function ResolveLast(s: seq<Entry>, e: Entry): (r: seq<Entry>)
    ensures |r| == |s|
    ensures NoPending(s) ==> r == s
    ensures !NoPending(s) ==>
      var i := LastPendingIndex(s);
      && r[i] == e
      && (forall j :: 0 <= j < |s| && j != i ==> r[j] == s[j])
  {
    var i := LastPendingIndex(s);
    if i == -1 then s else s[i := e]
  }

  /** The failure update, `chat.filter(m => !m.loading)`. */
  function RemovePending(s: seq<Entry>): (r: seq<Entry>)
    ensures NoPending(r)
    ensures |r| == |s| - CountPending(s)
  {
    if s == [] then []
    else RemovePending(s[..|s| - 1]) + (if s[|s| - 1].loading then [] else [s[|s| - 1]])
  }

  lemma {:induction false} NoPendingIffCountZero(s: seq<Entry>)
    ensures NoPending(s) <==> CountPending(s) == 0
  {
    if s != [] {
      NoPendingIffCountZero(s[..|s| - 1]);
      assert NoPending(s) ==> NoPending(s[..|s| - 1]);
      assert NoPending(s[..|s| - 1]) && !s[|s| - 1].loading ==> NoPending(s);
    }
  }

  /** Appending one entry raises the pending count by that entry's flag. */
  lemma CountPendingAppend(s: seq<Entry>, p: Entry)
    ensures CountPending(s + [p]) == CountPending(s) + (if p.loading then 1 else 0)
  {
    assert (s + [p])[..|s|] == s;
  }

  /**
   * With at most one entry pending, the success update leaves nothing pending
   * (the failure update never does, by its own contract).
   */
  lemma SettleAtMostOne(s: seq<Entry>, e: Entry)
    requires CountPending(s) <= 1 && !e.loading
    ensures NoPending(ResolveLast(s, e))
  {
    if !NoPending(s) {
      NoPendingIffCountZero(s);
      ResolveLastCount(s, e);
      NoPendingIffCountZero(ResolveLast(s, e));
    }
  }

  /** Overwriting one entry changes the pending count only by that entry's flag. */
  lemma {:induction false} CountPendingUpdate(s: seq<Entry>, i: nat, e: Entry)
    requires i < |s|
    ensures CountPending(s[i := e]) ==
      CountPending(s) - (if s[i].loading then 1 else 0) + (if e.loading then 1 else 0)
  {
    var n := |s| - 1;
    if i < n {
      CountPendingUpdate(s[..n], i, e);
      assert s[i := e][..n] == s[..n][i := e];
    } else {
      assert s[i := e][..n] == s[..n];
    }
  }

  /** Resolving with a settled entry takes exactly one entry out of the pending state. */
  lemma ResolveLastCount(s: seq<Entry>, e: Entry)
    requires !NoPending(s) && !e.loading
    ensures CountPending(ResolveLast(s, e)) == CountPending(s) - 1
  {
    CountPendingUpdate(s, LastPendingIndex(s), e);
  }

  /** The filter distributes over concatenation, so it keeps the order of what it keeps. */
  lemma {:induction false} RemovePendingAppend(a: seq<Entry>, b: seq<Entry>)
    ensures RemovePending(a + b) == RemovePending(a) + RemovePending(b)
  {
    if b != [] {
      var n := |b| - 1;
      RemovePendingAppend(a, b[..n]);
      assert (a + b)[..|a + b| - 1] == a + b[..n];
    } else {
      assert a + b == a;
    }
  }

  /** A transcript without pending entries passes through the filter untouched. */
  lemma {:induction false} RemovePendingSettled(s: seq<Entry>)
    requires NoPending(s)
    ensures RemovePending(s) == s
  {
    if s != [] {
      RemovePendingSettled(s[..|s| - 1]);
    }
  }

  /**
   * Rollback: appending one placeholder to a settled transcript and then
   * failing restores the transcript exactly.
   */
  lemma Rollback(s: seq<Entry>, p: Entry)
    requires NoPending(s) && p.loading
    ensures RemovePending(s + [p]) == s
  {
    RemovePendingAppend(s, [p]);
    RemovePendingSettled(s);
    assert RemovePending([p]) == [];
  }

  /**
   * Resolution of the placeholder appended to a settled transcript replaces
   * exactly that placeholder.
   */
  lemma ResolveAppended(s: seq<Entry>, p: Entry, e: Entry)
    requires NoPending(s) && p.loading
    ensures ResolveLast(s + [p], e) == s + [e]
  {
    assert LastPendingIndex(s + [p]) == |s|;
  }
}
