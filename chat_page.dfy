/**
 * The chat screen's controller: the conversation, the send handler, the
 * clear-chat action and the indexing panel, which share one `loading` flag.
 *
 * Each `async` handler is split at its `await`: the synchronous part is a
 * `Handle…` method, and the continuation is a `Complete…Ok` or
 * `Complete…Err` method that the event loop may run later. A
 * `setTimeout` callback is a pending event that `FireClearTimer` runs.
 */
module Chat {
  import opened Wrappers
  import Text
  import opened Sources

  /** One question/answer pair; `answer == None` is the `null` drawn as "Thinking...". */
  datatype Exchange = Exchange(question: string, answer: Option<string>, docs: seq<Doc>)

  /** The body of a successful `POST /chat` reply. */
  datatype ChatReply = ChatReply(question: string, answer: string, docs: seq<Doc>)

  /** A handler suspended at its `await`, with what its continuation still uses. */
  datatype Awaiting = SendAwaiting(userQuestion: string) | IndexAwaiting

  const SendFailedAnswer := "\U{274C} Sorry, there was an error processing your request. Please try again."
  const IndexingInProgress := "\U{23F3} Indexing in progress..."
  const IndexingFailed := "\U{274C} Indexing failed. Please check the URL and try again."
  const SuccessPrefix := "\U{2705} "

  /**
   * `copy[copy.length - 1] = e` on a copy of the list. On an empty list the index is -1,
   * which only sets a property that is not an element: the visible list stays empty.
   */
  function ReplaceLast(xs: seq<Exchange>, e: Exchange): (r: seq<Exchange>)
    ensures |r| == |xs|
    ensures forall i :: 0 <= i < |xs| - 1 ==> r[i] == xs[i]
    ensures xs != [] ==> r[|r| - 1] == e
  {
    if xs == [] then [] else xs[..|xs| - 1] + [e]
  }

  class ChatPage {
    var question: string
    var messages: seq<Exchange>
    var loading: bool
    var url: string
    var indexingMessage: string
    var showIndexing: bool
    var showDeleteModal: bool
    /** The handler suspended at its `await`, if any. */
    var awaiting: Option<Awaiting>
    /** `setTimeout(() => setIndexingMessage(''), 5000)` callbacks not yet run. */
    var pendingClears: nat

    /**
     * `loading` is set exactly while a handler is suspended; only the last exchange
     * can be unanswered, and then it is the question the suspended send is waiting on.
     */
    ghost predicate Valid()
      reads this
    {
      && (loading <==> awaiting.Some?)
      && (forall i :: 0 <= i < |messages| - 1 ==> messages[i].answer.Some?)
      && (messages != [] && messages[|messages| - 1].answer.None? ==>
            awaiting == Some(SendAwaiting(messages[|messages| - 1].question)))
      && (awaiting.Some? && awaiting.value.SendAwaiting? && messages != [] ==>
            messages[|messages| - 1] == Exchange(awaiting.value.userQuestion, None, []))
    }

    /** The send button's `disabled` condition. */
    predicate SendDisabled()
      reads this
    {
      loading || Text.JsTrim(question) == ""
    }

    /** The index button's `disabled` condition. */
    predicate IndexDisabled()
      reads this
    {
      loading
    }

    /** The initial `useState` values. */
    constructor ()
      ensures Valid()
      ensures question == "" && messages == [] && !loading && url == "" && indexingMessage == ""
      ensures !showIndexing && !showDeleteModal && awaiting == None && pendingClears == 0
    {
      question, messages, loading, url, indexingMessage := "", [], false, "", "";
      showIndexing, showDeleteModal, awaiting, pendingClears := false, false, None, 0;
    }

    /** Typing in the question box, a suggestion button, or the box's clear button. */
    method SetQuestion(text: string)
      requires Valid()
      modifies this
      ensures Valid() && question == text
      ensures messages == old(messages) && loading == old(loading) && url == old(url)
      ensures indexingMessage == old(indexingMessage) && showIndexing == old(showIndexing)
      ensures showDeleteModal == old(showDeleteModal) && awaiting == old(awaiting) && pendingClears == old(pendingClears)
    {
      question := text;
    }

    /** Typing in the URL box of the indexing panel. */
    method SetUrl(text: string)
      requires Valid()
      modifies this
      ensures Valid() && url == text
      ensures question == old(question) && messages == old(messages) && loading == old(loading)
      ensures indexingMessage == old(indexingMessage) && showIndexing == old(showIndexing)
      ensures showDeleteModal == old(showDeleteModal) && awaiting == old(awaiting) && pendingClears == old(pendingClears)
    {
      url := text;
    }

    /**
     * `handleSend` up to its `await`. A blank question or a busy page changes nothing;
     * otherwise the typed text, untrimmed, is appended as an unanswered exchange,
     * the box is cleared and the page is busy until the reply arrives.
     */
    method HandleSend() returns (accepted: bool)
      requires Valid()
      modifies this
      ensures Valid()
      ensures accepted <==> !old(SendDisabled())
      ensures !accepted ==> unchanged(this)
      ensures accepted ==> messages == old(messages) + [Exchange(old(question), None, [])]
      ensures accepted ==> question == "" && loading && awaiting == Some(SendAwaiting(old(question)))
      ensures accepted ==> url == old(url) && indexingMessage == old(indexingMessage) && showIndexing == old(showIndexing)
      ensures accepted ==> showDeleteModal == old(showDeleteModal) && pendingClears == old(pendingClears)
    {
      if Text.JsTrim(question) == "" || loading {
        return false;
      }
      // nothing is pending, so every exchange so far is answered
      assert forall i :: 0 <= i < |messages| ==> messages[i].answer.Some?;
      var userQuestion := question;
      question := "";
      messages := messages + [Exchange(userQuestion, None, [])];
      loading := true;
      awaiting := Some(SendAwaiting(userQuestion));
      accepted := true;
    }

    /**
     * The continuation of `handleSend` when the request succeeds: the last exchange becomes
     * the reply (nothing visible changes if the chat was cleared meanwhile), and the page is idle.
     */
    method CompleteSendOk(reply: ChatReply)
      requires Valid() && awaiting.Some? && awaiting.value.SendAwaiting?
      modifies this
      ensures Valid()
      ensures messages == ReplaceLast(old(messages), Exchange(reply.question, Some(reply.answer), reply.docs))
      ensures !loading && awaiting == None
      ensures question == old(question) && url == old(url) && indexingMessage == old(indexingMessage)
      ensures showIndexing == old(showIndexing) && showDeleteModal == old(showDeleteModal) && pendingClears == old(pendingClears)
    {
      var resolved := Exchange(reply.question, Some(reply.answer), reply.docs);
      if |messages| > 0 {
        messages := messages[|messages| - 1 := resolved];
      }
      loading := false;
      awaiting := None;
    }

    /**
     * The continuation of `handleSend` when the request fails: the last exchange gets the
     * original question, the fixed apology and no documents, and the page is idle.
     */
    method CompleteSendErr()
      requires Valid() && awaiting.Some? && awaiting.value.SendAwaiting?
      modifies this
      ensures Valid()
      ensures messages == ReplaceLast(old(messages), Exchange(old(awaiting).value.userQuestion, Some(SendFailedAnswer), []))
      ensures !loading && awaiting == None
      ensures question == old(question) && url == old(url) && indexingMessage == old(indexingMessage)
      ensures showIndexing == old(showIndexing) && showDeleteModal == old(showDeleteModal) && pendingClears == old(pendingClears)
    {
      var userQuestion := awaiting.value.userQuestion;
      var failed := Exchange(userQuestion, Some(SendFailedAnswer), []);
      if |messages| > 0 {
        messages := messages[|messages| - 1 := failed];
      }
      loading := false;
      awaiting := None;
    }

    /** The header's clear button: opens the confirmation dialog. */
    method OpenDeleteModal()
      requires Valid()
      modifies this
      ensures Valid() && showDeleteModal
      ensures question == old(question) && messages == old(messages) && loading == old(loading) && url == old(url)
      ensures indexingMessage == old(indexingMessage) && showIndexing == old(showIndexing)
      ensures awaiting == old(awaiting) && pendingClears == old(pendingClears)
    {
      showDeleteModal := true;
    }

    /** The dialog's cancel button. */
    method CancelDelete()
      requires Valid()
      modifies this
      ensures Valid() && !showDeleteModal
      ensures question == old(question) && messages == old(messages) && loading == old(loading) && url == old(url)
      ensures indexingMessage == old(indexingMessage) && showIndexing == old(showIndexing)
      ensures awaiting == old(awaiting) && pendingClears == old(pendingClears)
    {
      showDeleteModal := false;
    }

    /**
     * `clearChat`: empties the conversation and closes the dialog, whatever its size and
     * whether a reply is still awaited (the page stays busy until that reply arrives).
     */
    method ClearChat()
      requires Valid()
      modifies this
      ensures Valid() && messages == [] && !showDeleteModal
      ensures question == old(question) && loading == old(loading) && url == old(url)
      ensures indexingMessage == old(indexingMessage) && showIndexing == old(showIndexing)
      ensures awaiting == old(awaiting) && pendingClears == old(pendingClears)
    {
      messages := [];
      showDeleteModal := false;
    }

    /** The header's "Index Website" / "Close" button. */
    method ToggleIndexing()
      requires Valid()
      modifies this
      ensures Valid() && showIndexing == !old(showIndexing)
      ensures question == old(question) && messages == old(messages) && loading == old(loading) && url == old(url)
      ensures indexingMessage == old(indexingMessage) && showDeleteModal == old(showDeleteModal)
      ensures awaiting == old(awaiting) && pendingClears == old(pendingClears)
    {
      showIndexing := !showIndexing;
    }

    /**
     * `handleIndex` up to its `await`. A blank URL or a busy page changes nothing (the index
     * button is enabled for a blank URL, and pressing it does nothing); otherwise the page is
     * busy and shows the progress message.
     */
    method HandleIndex() returns (accepted: bool)
      requires Valid()
      modifies this
      ensures Valid()
      ensures accepted <==> Text.JsTrim(old(url)) != "" && !old(loading)
      ensures accepted ==> !old(IndexDisabled())
      ensures !accepted ==> unchanged(this)
      ensures accepted ==> loading && indexingMessage == IndexingInProgress && awaiting == Some(IndexAwaiting)
      ensures accepted ==> question == old(question) && messages == old(messages) && url == old(url)
      ensures accepted ==> showIndexing == old(showIndexing) && showDeleteModal == old(showDeleteModal)
      ensures accepted ==> pendingClears == old(pendingClears)
    {
      if Text.JsTrim(url) == "" || loading {
        return false;
      }
      loading := true;
      indexingMessage := IndexingInProgress;
      awaiting := Some(IndexAwaiting);
      accepted := true;
    }

    /**
     * The continuation of `handleIndex` on success: the server's message behind a check mark,
     * an empty URL box, the panel hidden, one more clear scheduled, and the page idle.
     */
    method CompleteIndexOk(message: string)
      requires Valid() && awaiting == Some(IndexAwaiting)
      modifies this
      ensures Valid()
      ensures indexingMessage == SuccessPrefix + message && url == "" && !showIndexing
      ensures pendingClears == old(pendingClears) + 1 && !loading && awaiting == None
      ensures question == old(question) && messages == old(messages) && showDeleteModal == old(showDeleteModal)
    {
      indexingMessage := SuccessPrefix + message;
      url := "";
      showIndexing := false;
      pendingClears := pendingClears + 1;
      loading := false;
      awaiting := None;
    }

    /**
     * The continuation of `handleIndex` on failure: the fixed failure text, the URL kept for
     * a retry, one more clear scheduled, and the page idle.
     */
    method CompleteIndexErr()
      requires Valid() && awaiting == Some(IndexAwaiting)
      modifies this
      ensures Valid()
      ensures indexingMessage == IndexingFailed && url == old(url) && showIndexing == old(showIndexing)
      ensures pendingClears == old(pendingClears) + 1 && !loading && awaiting == None
      ensures question == old(question) && messages == old(messages) && showDeleteModal == old(showDeleteModal)
    {
      indexingMessage := IndexingFailed;
      pendingClears := pendingClears + 1;
      loading := false;
      awaiting := None;
    }

    /**
     * One scheduled clear runs: it blanks whatever message is shown now, even one set by a
     * later request, since nothing ties the timer to the request that scheduled it.
     */
    method FireClearTimer()
      requires Valid() && pendingClears > 0
      modifies this
      ensures Valid()
      ensures indexingMessage == "" && pendingClears == old(pendingClears) - 1
      ensures question == old(question) && messages == old(messages) && loading == old(loading) && url == old(url)
      ensures showIndexing == old(showIndexing) && showDeleteModal == old(showDeleteModal) && awaiting == old(awaiting)
    {
      indexingMessage := "";
      pendingClears := pendingClears - 1;
    }
  }

  /**
   * Ask "hello"; the reply lists the same source twice and a document without metadata.
   * The exchange is answered with the reply and shows that source once.
   */
  method AnsweredExchangeScenario() returns (count: nat, answer: Option<string>, shown: seq<string>, busy: bool)
    ensures count == 1 && answer == Some("world") && shown == ["http://a"] && !busy
  {
    var page := new ChatPage();
    page.SetQuestion("hello");
    var accepted := page.HandleSend();
    var meta := map["source_url" := "http://a"];
    var a := Doc(Some(meta));
    page.CompleteSendOk(ChatReply("hello", "world", [a, a, Doc(None)]));
    count := |page.messages|;
    answer := page.messages[0].answer;
    DuplicateAndMissingSources("http://a", meta);
    shown := UniqueSources(page.messages[0].docs);
    busy := page.loading;
  }

  /** A second question while the first is pending is ignored: one exchange, still pending. */
  method SendWhilePendingScenario() returns (accepted: bool, count: nat, pending: bool)
    ensures !accepted && count == 1 && pending
  {
    var page := new ChatPage();
    page.SetQuestion("first");
    accepted := page.HandleSend();
    page.SetQuestion("second");
    accepted := page.HandleSend();
    count := |page.messages|;
    pending := page.messages[0].answer.None?;
  }

  /** Clearing while a reply is awaited: the late reply adds no visible exchange. */
  method CompleteAfterClearScenario() returns (count: nat, busy: bool)
    ensures count == 0 && !busy
  {
    var page := new ChatPage();
    page.SetQuestion("hello");
    var accepted := page.HandleSend();
    page.OpenDeleteModal();
    page.ClearChat();
    page.CompleteSendOk(ChatReply("hello", "world", []));
    count := |page.messages|;
    busy := page.loading;
  }

  /**
   * A failed indexing schedules a clear; a retry starts before it runs; the stale timer
   * then blanks the retry's progress message while the retry is still in flight.
   */
  method StaleClearTimerScenario() returns (message: string, busy: bool)
    ensures message == "" && busy
  {
    var page := new ChatPage();
    page.ToggleIndexing();
    page.SetUrl("http://site");
    var accepted := page.HandleIndex();
    page.CompleteIndexErr();
    accepted := page.HandleIndex();
    page.FireClearTimer();
    message := page.indexingMessage;
    busy := page.loading;
  }
}
