/**
 * The landing screen's controller: one URL box, one `loading` flag and one
 * status message. A successful indexing request schedules a move to the
 * chat screen and never clears `loading`; a failed one schedules clearing
 * the message and makes the page idle again.
 *
 * As on the chat screen, `handleIndex` is split at its `await` into
 * `HandleIndex` and the continuations `CompleteOk` / `CompleteErr`;
 * `setTimeout` callbacks are pending timers that `FireTimer` runs.
 */
module IndexScreen {
  import Text

  /** A `setTimeout` callback not yet run. */
  datatype Timer = ClearMessage | NavigateToChat

  const ChatRoute := "/chat"
  const IndexingInProgress := "\U{23F3} Indexing in progress..."
  const IndexingFailed := "\U{274C} Indexing failed. Please check the URL and try again."
  const SuccessPrefix := "\U{2705} "

  /** How many of the pending callbacks navigate to the chat screen. */
  function Navigations(timers: seq<Timer>): (n: nat)
    ensures n <= |timers|
    ensures n == 0 <==> NavigateToChat !in timers
  {
    if timers == [] then 0
    else (if timers[0] == NavigateToChat then 1 else 0) + Navigations(timers[1..])
  }

  /** Removing one pending callback removes its navigation, if it is one. */
  lemma {:induction false} NavigationsRemove(timers: seq<Timer>, k: nat)
    requires k < |timers|
    ensures Navigations(timers[..k] + timers[k + 1..])
         == Navigations(timers) - (if timers[k] == NavigateToChat then 1 else 0)
  {
    if k > 0 {
      NavigationsRemove(timers[1..], k - 1);
      assert timers[..k] + timers[k + 1..] == [timers[0]] + (timers[1..][..k - 1] + timers[1..][k..]);
    } else {
      assert timers[..k] + timers[k + 1..] == timers[1..];
    }
  }

  /** Navigations counts appended callbacks. */
  lemma {:induction false} NavigationsAppend(timers: seq<Timer>, t: Timer)
    ensures Navigations(timers + [t]) == Navigations(timers) + (if t == NavigateToChat then 1 else 0)
  {
    if timers != [] {
      NavigationsAppend(timers[1..], t);
      assert (timers + [t])[1..] == timers[1..] + [t];
    }
  }

  class IndexPage {
    var url: string
    var loading: bool
    var indexingMessage: string
    /** `handleIndex` is suspended at its `await`. */
    var awaiting: bool
    /** `setTimeout` callbacks not yet run, in the order they were scheduled. */
    var timers: seq<Timer>
    /** Routes passed to `navigate`, in order. */
    var navigated: seq<string>
    /** How many navigations to the chat screen any callback has been scheduled to make. */
    ghost var navigationsScheduled: nat

    /**
     * At most one navigation is ever scheduled, and once it is (a request succeeded)
     * the page stays busy; otherwise the page is busy exactly while a request is awaited.
     */
    ghost predicate Valid()
      reads this
    {
      && navigationsScheduled <= 1
      && (loading <==> awaiting || navigationsScheduled == 1)
      && (awaiting ==> navigationsScheduled == 0)
      && Navigations(timers) <= navigationsScheduled
    }

    /** The index button's `disabled` condition. */
    predicate SubmitDisabled()
      reads this
    {
      loading || Text.JsTrim(url) == ""
    }

    /** The initial `useState` values. */
    constructor ()
      ensures Valid()
      ensures url == "" && !loading && indexingMessage == "" && !awaiting && timers == [] && navigated == []
    {
      url, loading, indexingMessage, awaiting, timers, navigated := "", false, "", false, [], [];
      navigationsScheduled := 0;
    }

    /** Typing in the URL box. */
    method SetUrl(text: string)
      requires Valid()
      modifies this
      ensures Valid() && url == text
      ensures loading == old(loading) && indexingMessage == old(indexingMessage) && awaiting == old(awaiting)
      ensures timers == old(timers) && navigated == old(navigated) && navigationsScheduled == old(navigationsScheduled)
    {
      url := text;
    }

    /**
     * `handleIndex` up to its `await`: rejected exactly when the button is disabled
     * (a blank URL or a busy page), and then nothing changes; otherwise the page is busy
     * and shows the progress message before the request is sent.
     */
    method HandleIndex() returns (accepted: bool)
      requires Valid()
      modifies this
      ensures Valid()
      ensures accepted <==> !old(SubmitDisabled())
      ensures !accepted ==> unchanged(this)
      ensures accepted ==> loading && awaiting && indexingMessage == IndexingInProgress
      ensures accepted ==> url == old(url) && timers == old(timers) && navigated == old(navigated)
      ensures accepted ==> navigationsScheduled == old(navigationsScheduled)
    {
      if Text.JsTrim(url) == "" || loading {
        return false;
      }
      loading := true;
      indexingMessage := IndexingInProgress;
      awaiting := true;
      accepted := true;
    }

    /**
     * The continuation on success: the server's message behind a check mark, an empty
     * URL box, and exactly one navigation to the chat screen scheduled. `loading` stays
     * set, so every later submission is rejected.
     */
    method CompleteOk(message: string)
      requires Valid() && awaiting
      modifies this
      ensures Valid()
      ensures indexingMessage == SuccessPrefix + message && url == ""
      ensures timers == old(timers) + [NavigateToChat] && Navigations(timers) == 1
      ensures loading && !awaiting && navigated == old(navigated)
    {
      indexingMessage := SuccessPrefix + message;
      url := "";
      NavigationsAppend(timers, NavigateToChat);
      timers := timers + [NavigateToChat];
      awaiting := false;
      navigationsScheduled := 1;
    }

    /**
     * The continuation on failure: the fixed failure text, the URL kept for a retry,
     * a message clear scheduled, no navigation, and the page idle.
     */
    method CompleteErr()
      requires Valid() && awaiting
      modifies this
      ensures Valid()
      ensures indexingMessage == IndexingFailed && url == old(url)
      ensures timers == old(timers) + [ClearMessage] && Navigations(timers) == 0
      ensures !loading && !awaiting && navigated == old(navigated)
      ensures navigationsScheduled == old(navigationsScheduled)
    {
      indexingMessage := IndexingFailed;
      NavigationsAppend(timers, ClearMessage);
      timers := timers + [ClearMessage];
      awaiting := false;
      loading := false;
    }

    /**
     * The event loop runs pending callback `k` (the two delays differ, so callbacks need
     * not run in the order they were scheduled). A clear blanks whatever message is
     * shown now, even a newer one; a navigation moves to the chat screen.
     */
    method FireTimer(k: nat)
      requires Valid() && k < |timers|
      modifies this
      ensures Valid()
      ensures timers == old(timers[..k] + timers[k + 1..])
      ensures old(timers[k]) == ClearMessage ==> indexingMessage == "" && navigated == old(navigated)
      ensures old(timers[k]) == NavigateToChat ==>
                indexingMessage == old(indexingMessage) && navigated == old(navigated) + [ChatRoute]
      ensures url == old(url) && loading == old(loading) && awaiting == old(awaiting)
      ensures navigationsScheduled == old(navigationsScheduled)
    {
      var t := timers[k];
      NavigationsRemove(timers, k);
      timers := timers[..k] + timers[k + 1..];
      match t {
        case ClearMessage => indexingMessage := "";
        case NavigateToChat => navigated := navigated + [ChatRoute];
      }
    }

    /** The "Skip to chat" button. */
    method SkipToChat()
      requires Valid()
      modifies this
      ensures Valid() && navigated == old(navigated) + [ChatRoute]
      ensures url == old(url) && loading == old(loading) && indexingMessage == old(indexingMessage)
      ensures awaiting == old(awaiting) && timers == old(timers) && navigationsScheduled == old(navigationsScheduled)
    {
      navigated := navigated + [ChatRoute];
    }
  }

  /**
   * A success followed by a new URL: the second submission is rejected, and exactly one
   * navigation to the chat screen happens once the pending callback runs.
   */
  method ResubmitAfterSuccessScenario() returns (accepted: bool, routes: seq<string>, busy: bool)
    ensures !accepted && routes == [ChatRoute] && busy
  {
    var page := new IndexPage();
    page.SetUrl("http://site");
    accepted := page.HandleIndex();
    page.CompleteOk("Website indexed successfully");
    page.SetUrl("http://other");
    accepted := page.HandleIndex();
    page.FireTimer(0);
    routes := page.navigated;
    busy := page.loading;
  }

  /**
   * A failure followed by a retry: the clear scheduled by the failure blanks the retry's
   * progress message while the retry is still in flight.
   */
  method StaleClearTimerScenario() returns (message: string, busy: bool, routes: seq<string>)
    ensures message == "" && busy && routes == []
  {
    var page := new IndexPage();
    page.SetUrl("http://site");
    var accepted := page.HandleIndex();
    page.CompleteErr();
    accepted := page.HandleIndex();
    page.FireTimer(0);
    message := page.indexingMessage;
    busy := page.loading;
    routes := page.navigated;
  }
}
