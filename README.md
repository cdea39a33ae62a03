# RAG ChatBot: verified model of the controllers and the indexing path

This Dafny project models the stateful and decision-making core of a small
retrieval-augmented chat application:

- the two React screens of the client:
  - the chat screen (`ChatPage`) holds the conversation, the send handler, the
    clear-chat dialog and an indexing panel, all sharing one `loading` flag;
  - the landing screen (`IndexPage`) submits a URL for indexing and then moves
    to the chat screen;
- the two FastAPI endpoints of the backend, `POST /indexing` and `POST /chat`;
- the vector-store side of the backend:
  - the OpenRouter embeddings client (`_call`, `embed_documents`,
    `embed_query`, `__call__`);
  - the tolerant creation of the Qdrant collection;
  - the indexing of one web page, which tags every chunk with its `source_url`.

Each `async` handler is split at its `await`. The synchronous part is a
`Handle…` method. The continuation is a `Complete…Ok` or `Complete…Err` method
that the event loop may run at any later point. A `setTimeout` callback is a
pending event that a `Fire…` method runs. The screens are classes whose fields
are the `useState` cells. Their methods state the whole new state, and they
keep a `Valid()` invariant:

- on the chat screen, `loading` is set exactly while a handler is suspended,
  and only the last exchange can be unanswered;
- on the landing screen, at most one navigation is ever scheduled.

Foreign calls are parameters:

- the embeddings endpoint is a `Transport`, a function from the ordinal of a
  request within one operation and its texts to the response or failure;
- the loader, the splitter, the collection creation, the vector store and the
  retrieval chain are the outcomes they produced.

Files:

| file | module | models |
|---|---|---|
| `wrappers.dfy` | `Wrappers` | `Option`, `Result`, `Outcome` |
| `text.dfy` | `Text` | JavaScript `trim` and Python `strip` white space, `startswith`, `in` on strings, ASCII `lower` |
| `sources.dfy` | `Sources` | the list of sources shown under an answer |
| `chat_page.dfy` | `Chat` | the chat screen's controller |
| `index_page.dfy` | `IndexScreen` | the landing screen's controller |
| `app.dfy` | `App` | the `/indexing` and `/chat` endpoints |
| `qdrant.dfy` | `Qdrant` | the embeddings client, collection creation, page upload |

Three behaviours a reader might expect of the screens do not hold in the
code, and the model follows the code:

- **Message-clearing timers.** One might expect a newer submission to cancel
  or supersede the timer that clears a status message. The code schedules
  plain `setTimeout` callbacks, so a stale timer blanks a newer message. Both
  `StaleClearTimerScenario` members prove this.
- **The chat screen's two controllers.** Asking a question and indexing a
  site look independent, but they share one `loading` flag, so a pending
  question blocks indexing and the other way round.
- **A completion after the chat was cleared.** One might expect every
  submission to fill in exactly one exchange. When the chat was cleared while
  a reply was pending, the code's write to index -1 adds no visible exchange
  (`CompleteAfterClearScenario`).

## Model

| member | source | states |
|---|---|---|
| Text.TrimEmptyIffBlank | frontend/src/pages/ChatPage.jsx:26 | a trimmed text is empty exactly when every character of it is white space, for any white-space set |
| Sources.DistinctMembers | frontend/src/pages/ChatPage.jsx:293 | `[...new Set(s)]` keeps exactly the values of `s` |
| Sources.DistinctNoDuplicates | frontend/src/pages/ChatPage.jsx:293 | `[...new Set(s)]` lists no value twice |
| Sources.DistinctFirstOccurrenceOrder | frontend/src/pages/ChatPage.jsx:293 | when value i precedes value j in the set's order, every occurrence of j in the input comes after an occurrence of i (insertion order) |
| Sources.UrlsMembers | frontend/src/pages/ChatPage.jsx:293 | `map(source_url).filter(Boolean)` keeps a URL exactly when some document carries it, present and non-empty |
| Sources.UrlsPrefix | frontend/src/pages/ChatPage.jsx:293 | filtering a prefix of the documents gives a prefix of the filtered list |
| Sources.UniqueSourcesMembers | frontend/src/pages/ChatPage.jsx:293 | a source is shown iff some returned document carries it as a non-empty `source_url`: nothing missing, nothing invented |
| Sources.UniqueSourcesNoDuplicates | frontend/src/pages/ChatPage.jsx:293 | the shown sources contain no duplicate |
| Sources.UniqueSourcesOrder | frontend/src/pages/ChatPage.jsx:293 | shown sources keep first-occurrence order over the documents |
| Sources.DuplicateAndMissingSources | frontend/src/pages/ChatPage.jsx:293 | two documents from one page and a third with no metadata, or with empty metadata, show that page once |
| Chat.ReplaceLast | frontend/src/pages/ChatPage.jsx:36-44 | overwriting the last slot keeps the length and every earlier exchange; on an empty list nothing visible is added |
| Chat.ChatPage.constructor | frontend/src/pages/ChatPage.jsx:5-11 | the initial state: empty buffers, no messages, nothing pending, no timer |
| Chat.ChatPage.SetQuestion | frontend/src/pages/ChatPage.jsx:339 | setting the question buffer (typing; the same setter is called by the suggestion buttons at lines 221 and 237 and by the clear button at line 347) changes nothing else |
| Chat.ChatPage.SetUrl | frontend/src/pages/ChatPage.jsx:176 | typing changes only the URL buffer |
| Chat.ChatPage.HandleSend | frontend/src/pages/ChatPage.jsx:24-31 | accepted iff the trimmed question is non-empty and nothing is pending; rejected means nothing changes; accepted appends exactly one unanswered exchange with the untrimmed text, clears the buffer and sets `loading` |
| Chat.ChatPage.CompleteSendOk | frontend/src/pages/ChatPage.jsx:33-59 | only the last exchange is overwritten, with the reply's question, answer and docs; length and earlier exchanges kept; `loading` cleared |
| Chat.ChatPage.CompleteSendErr | frontend/src/pages/ChatPage.jsx:45-59 | only the last exchange is overwritten, with the original question, the fixed apology and no docs; `loading` cleared as on success |
| Chat.ChatPage.OpenDeleteModal | frontend/src/pages/ChatPage.jsx:142-144 | opens the dialog and changes nothing else, even while a reply is pending |
| Chat.ChatPage.CancelDelete | frontend/src/pages/ChatPage.jsx:108 | closes the dialog, conversation kept |
| Chat.ChatPage.ClearChat | frontend/src/pages/ChatPage.jsx:62-65 | the conversation is empty and the dialog closed whatever the prior size or pending state; the invariant still holds with a reply pending |
| Chat.ChatPage.ToggleIndexing | frontend/src/pages/ChatPage.jsx:155 | flips the panel and nothing else |
| Chat.ChatPage.HandleIndex | frontend/src/pages/ChatPage.jsx:67-70 | accepted iff the trimmed URL is non-empty and nothing (send or index) is pending; rejected means nothing changes; accepted sets `loading` and the progress message |
| Chat.ChatPage.CompleteIndexOk | frontend/src/pages/ChatPage.jsx:71-83 | message is the check mark plus the server's text, URL cleared, panel hidden, one more clear scheduled, `loading` cleared |
| Chat.ChatPage.CompleteIndexErr | frontend/src/pages/ChatPage.jsx:77-83 | the fixed failure text, URL kept, one more clear scheduled, `loading` cleared |
| Chat.ChatPage.FireClearTimer | frontend/src/pages/ChatPage.jsx:76-80 | a scheduled clear blanks whatever message is shown now; nothing ties it to the request that scheduled it |
| Chat.AnsweredExchangeScenario | frontend/src/pages/ChatPage.jsx:24-44 | asking "hello", answered "world" with a duplicated source and a document without metadata: one exchange, that answer, the source shown once, page idle |
| Chat.SendWhilePendingScenario | frontend/src/pages/ChatPage.jsx:26 | a second question while the first is pending is ignored: one exchange, still unanswered |
| Chat.CompleteAfterClearScenario | frontend/src/pages/ChatPage.jsx:36-65 | clearing while a reply is pending, then the reply: no visible exchange and the page idle |
| Chat.StaleClearTimerScenario | frontend/src/pages/ChatPage.jsx:67-83 | a failed indexing's clear timer blanks the progress message of a retry still in flight |
| IndexScreen.Navigations | frontend/src/pages/IndexPage.jsx:19-21 | the number of pending navigations is zero exactly when none is pending |
| IndexScreen.NavigationsRemove | frontend/src/pages/IndexPage.jsx:19-25 | running one pending callback removes its navigation, if it is one |
| IndexScreen.NavigationsAppend | frontend/src/pages/IndexPage.jsx:19-25 | scheduling a callback adds its navigation, if it is one |
| IndexScreen.IndexPage.constructor | frontend/src/pages/IndexPage.jsx:6-9 | the initial state: empty URL and message, idle, nothing scheduled |
| IndexScreen.IndexPage.SetUrl | frontend/src/pages/IndexPage.jsx:54 | typing changes only the URL |
| IndexScreen.IndexPage.HandleIndex | frontend/src/pages/IndexPage.jsx:11-14 | accepted exactly when the button is enabled (`loading` unset and a non-blank URL), so guard and `disabled` agree; rejected means nothing changes; accepted sets `loading` and the progress message before the request |
| IndexScreen.IndexPage.CompleteOk | frontend/src/pages/IndexPage.jsx:17-21 | message is the check mark plus the server's text, URL cleared, exactly one navigation to `/chat` pending, `loading` left set so every later submission is rejected |
| IndexScreen.IndexPage.CompleteErr | frontend/src/pages/IndexPage.jsx:22-27 | the fixed failure text, URL kept, a clear scheduled, no navigation pending, `loading` cleared |
| IndexScreen.IndexPage.FireTimer | frontend/src/pages/IndexPage.jsx:19-25 | any pending callback may run: a clear blanks the current message, a navigation moves to `/chat`; at most one navigation is ever scheduled |
| IndexScreen.IndexPage.SkipToChat | frontend/src/pages/IndexPage.jsx:93 | the skip button navigates to `/chat` and changes nothing else |
| IndexScreen.ResubmitAfterSuccessScenario | frontend/src/pages/IndexPage.jsx:12-21 | after a success a new URL is rejected, and exactly one navigation happens |
| IndexScreen.StaleClearTimerScenario | frontend/src/pages/IndexPage.jsx:12-26 | a failed request's clear timer blanks a retry's progress message while the retry is in flight |
| App.Indexing | backend/app/app.py:51-70 | blank URL: 400 "URL cannot be empty"; else no http(s) scheme: 400 scheme message; else 200 with the fixed text whatever the upload returned, or 500 "Error indexing website: " plus the error |
| App.IndexingRefusalIgnoresUpload | backend/app/app.py:57-63 | a refused URL gets the same answer whatever the upload would do: the upload is never reached |
| App.IndexingStatus | backend/app/app.py:57-65 | status 400 iff blank or no scheme, so the blank check comes first; status 200 iff valid and the upload succeeded |
| App.LeadingSpaceFailsSchemeCheck | backend/app/app.py:60-61 | the scheme test is on the untrimmed URL: any non-blank URL that starts with white space gets the scheme error, whatever scheme follows |
| App.Chat | backend/app/app.py:41-49 | the question echoes the input message, the answer is the chain's, docs have the context's length and order; a chain exception leaves the endpoint |
| App.ShownSourcesWereIndexed | backend/app/app.py:41-49 | when indexing tagged every retrieved document with an indexed URL, every source the chat screen shows was indexed |
| Qdrant.NormaliseItemsSpec | backend/app/qdrant.py:77-89 | succeeds iff every item is an accepted shape; then one vector per item in order; else the error names the first rejected item |
| Qdrant.Call | backend/app/qdrant.py:65-92 | the loop's result is the normalised response: transport failure, missing or non-list `data`, or a bad item raise; otherwise the vectors in item order |
| Qdrant.EmbeddingKeyWins | backend/app/qdrant.py:80-83 | a dict with both keys gives its `"embedding"` |
| Qdrant.CallAccepted | backend/app/qdrant.py:78-91 | a request succeeds iff the response has a `data` list whose items are all accepted shapes |
| Qdrant.BatchesBounded | backend/app/qdrant.py:100-101 | every batch holds between 1 and `batch_size` texts |
| Qdrant.BatchesFlatten | backend/app/qdrant.py:100-102 | the batches cover the texts exactly, in order |
| Qdrant.BatchesCount | backend/app/qdrant.py:100 | no texts give no batch; otherwise the k batches satisfy (k-1)·size < n ≤ k·size, that is k = ⌈n / size⌉ requests |
| Qdrant.BatchesFull | backend/app/qdrant.py:100-101 | every batch but the last holds exactly `batch_size` texts |
| Qdrant.DefaultBatchSizeSplit | backend/app/qdrant.py:48 | with the default batch size of 16, 17 texts take two requests, of 16 texts and then 1 |
| Qdrant.BatchAt | backend/app/qdrant.py:100-101 | batch k is the consecutive slice `texts[k*size : (k+1)*size]` |
| Qdrant.EmbedDocuments | backend/app/qdrant.py:94-106 | the loop returns the in-order concatenation of the per-batch results, or the first failing request's error; batch size 0 raises, a negative one sends nothing and returns an empty list; the texts of the requests it makes are the batches up to and including the first failure |
| Qdrant.EmbedDocumentsRequests | backend/app/qdrant.py:100-103 | the requests made are a prefix of the batches: all of them when the operation succeeds, and otherwise ending with the request whose failure is the error returned |
| Qdrant.SentIsPrefix | backend/app/qdrant.py:100-102 | the requests are made for consecutive batches from the first one |
| Qdrant.SentOutcome | backend/app/qdrant.py:100-103 | every batch is requested on success; on failure at least one request was made and the last one made failed with the returned error |
| Qdrant.SentAfterSuccesses | backend/app/qdrant.py:100-103 | after requests that all succeeded, the requests made are those, then the ones made for the remaining batches |
| Qdrant.EmbedBatchesAppend | backend/app/qdrant.py:102-103 | one more request after successful ones: its failure is the result, or its vectors are appended after the earlier ones |
| Qdrant.EmbedBatchesFailedPrefix | backend/app/qdrant.py:102 | once a request has failed, later batches do not change the result |
| Qdrant.EmbedBatchesLength | backend/app/qdrant.py:103 | with one vector per text from every request, the concatenation has one vector per text sent |
| Qdrant.EmbedDocumentsLength | backend/app/qdrant.py:99-106 | with one vector per text from every request, `embed_documents` returns `len(texts)` vectors |
| Qdrant.EmbedQuery | backend/app/qdrant.py:108-116 | succeeds iff the single request succeeded with a non-empty list, and then returns its first vector; an empty list is the empty-embedding error; a failed request's error is passed on unchanged |
| Qdrant.EmbedQueryFirstItem | backend/app/qdrant.py:113-116 | for any reply with a `data` list of accepted items, whatever its other keys: an empty list raises the empty-embedding error; otherwise exactly the first item's vector is returned |
| Qdrant.Dispatch | backend/app/qdrant.py:118-133 | a string goes to `embed_query` and yields its vector or its error unchanged; a list or tuple goes to `embed_documents` with its result or error unchanged; anything else is listed first and embedded as documents; a failure to list it, or of `embed_documents` on that path, is an unsupported-input error wrapping the cause |
| Qdrant.ListAndTupleAgree | backend/app/qdrant.py:126-127 | a list and a tuple of the same texts are embedded alike |
| Qdrant.AlreadyExistsTests | backend/app/qdrant.py:158-159 | an error is tolerated iff its lower-cased text contains "already exists" or "409"; the middle test is subsumed |
| Qdrant.CreateCollectionIfNotExists | backend/app/qdrant.py:145-162 | passes iff creation succeeded or the error says it already exists; any other error is re-raised unchanged |
| Qdrant.Tagged | backend/app/qdrant.py:208-209 | the new metadata maps `source_url` to the URL and keeps every other key and value; it adds no other key |
| Qdrant.TaggedIdempotent | backend/app/qdrant.py:207-210 | tagging twice with one URL equals tagging once |
| Qdrant.TagSourceUrl | backend/app/qdrant.py:207-210 | every listed document, even one listed twice, ends with its old metadata tagged with the URL; page contents untouched |
| Qdrant.UploadSteps | backend/app/qdrant.py:166-213 | the `try` body: success iff creation passes, load and split are non-empty and the store accepts, with the count message; otherwise the text of the first exception: creation's, the loader's, the empty-load message, the splitter's, the empty-split message or the store's; chunks tagged exactly when tagging is reached, page contents untouched |
| Qdrant.UploadWebsite | backend/app/qdrant.py:164-215 | the same outcome with every exception re-raised as "Failed to index {url}: " followed by its text, stated case by case; chunks tagged exactly when tagging is reached |

## Left out

- JSX rendering, CSS, icons, scrolling and input focus (`scrollToBottom`, `inputRef.focus`) are presentation only.
- Render-gated buttons are not preconditions. The clear button is shown only when messages exist, the indexing panel only when toggled, and the suggestion buttons only on an empty chat; the model accepts any order of these events, a superset of what the screen allows.
- React's batching is not modelled: each handler sees the state left by the previous event, as it does between discrete user events.
- Timer delays (1500 ms and 5000 ms) are not modelled; a pending callback may run at any later step.
- What happens after navigation: the landing screen is unmounted, and React drops its later state updates. `IndexPage.FireTimer` keeps updating the model's fields.
- Chat.ChatPage.CompleteSendOk: the reply is taken as well formed (string answer, list of documents); a malformed body, or `res.data.message` missing in `CompleteIndexOk`, is not modelled.
- Sources.SourceUrl: a non-string `source_url` (a number or object in the JSON) is not modelled; metadata values are strings.
- Text.IsJsSpace and Text.IsPySpace list the white-space characters of the Basic Multilingual Plane; Text.Lower folds ASCII letters only, which suffices for the three ASCII patterns searched for in error texts but not Python's full Unicode `lower`.
- App.Chat: FastAPI's own handling is not modelled: a missing query parameter gives 422 before either endpoint runs, and an exception leaving `/chat` gives a 500.
- Python exception classes are left out; an exception is its message text, and `str(e)` of an embeddings error is not rendered.
- Qdrant.CallSpec: the endpoint is a deterministic function of the request's ordinal and texts. Headers, the model name, the timeout and the HTTP session are not modelled.
- Qdrant.CreateCollectionIfNotExists: the sample query that detects the vector size and the creation request are one outcome parameter.
- The Qdrant client, `WebBaseLoader`, the text splitter and `vector_store.add_documents` are outcome parameters. Loader headers and request options, chunk size and overlap, and the vectors written are not modelled.
- `time.sleep(0.05)` between batches, `print` and `console.error` logging, `load_dotenv`, environment lookups, CORS and the startup hook are left out as timing, I/O and configuration.
- backend/app/rag.py (the retrieval chain), frontend/src/App.jsx (routing) and backend/main.py (the server entry point) are not part of this model; the chain is the `rag` outcome of `App.Chat`.
- Embedding vectors are opaque JSON values; their floats are not modelled.
