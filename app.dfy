/**
 * The two HTTP endpoints of the backend as functions from their input to the
 * JSON response they build. The work they delegate (indexing a site, running
 * the retrieval chain) is an outcome parameter: the value returned or the
 * text of the exception raised.
 */
module App {
  import opened Wrappers
  import Text
  import Sources

  /** A `JSONResponse` whose content is `{"message": message}`. */
  datatype Response = Response(status: int, message: string)

  /** A retrieved document as `doc.dict()` renders it. */
  datatype DocRecord = DocRecord(pageContent: string, metadata: map<string, string>)

  /** What `get_answer_and_docs` returns: the answer and the documents it was built from. */
  datatype RagAnswer = RagAnswer(answer: string, context: seq<DocRecord>)

  /** The content of the `/chat` response. */
  datatype ChatBody = ChatBody(question: string, answer: string, docs: seq<DocRecord>)

  const EmptyUrl := "URL cannot be empty"
  const BadScheme := "URL must start with http:// or https://"
  const Indexed := "Website indexed successfully"
  const IndexErrorPrefix := "Error indexing website: "

  /** The scheme test of `/indexing`, on the URL exactly as received. */
  predicate HasHttpScheme(url: string) {
    Text.StartsWith(url, "http://") || Text.StartsWith(url, "https://")
  }

  /**
   * `POST /indexing`: a blank URL is refused first, then a URL without an http(s) scheme;
   * only then is the site indexed (`upload` is that call's outcome). Success is reported
   * with a fixed message whatever the upload returned; an exception becomes a 500 with its text.
   */
  function Indexing(url: string, upload: Result<string, string>): (r: Response)
    ensures Text.IsBlank(url, Text.IsPySpace) ==> r == Response(400, EmptyUrl)
    ensures !Text.IsBlank(url, Text.IsPySpace) && !HasHttpScheme(url) ==> r == Response(400, BadScheme)
    ensures !Text.IsBlank(url, Text.IsPySpace) && HasHttpScheme(url) && upload.Success? ==> r == Response(200, Indexed)
    ensures !Text.IsBlank(url, Text.IsPySpace) && HasHttpScheme(url) && upload.Failure? ==>
              r == Response(500, IndexErrorPrefix + upload.error)
  {
    Text.TrimEmptyIffBlank(url, Text.IsPySpace);
    if url == "" || Text.PyStrip(url) == "" then
      Response(400, EmptyUrl)
    else if !(Text.StartsWith(url, "http://") || Text.StartsWith(url, "https://")) then
      Response(400, BadScheme)
    else
      match upload
      case Success(_) => Response(200, Indexed)
      case Failure(e) => Response(500, IndexErrorPrefix + e)
  }

  /** A refused URL gets the same answer whatever indexing would have done: the upload is never reached. */
  lemma IndexingRefusalIgnoresUpload(url: string, upload1: Result<string, string>, upload2: Result<string, string>)
    requires Indexing(url, upload1).status == 400
    ensures Indexing(url, upload2) == Indexing(url, upload1)
  {
  }

  /** The status is 400 exactly for a blank URL or one without an http(s) scheme. */
  lemma IndexingStatus(url: string, upload: Result<string, string>)
    ensures Indexing(url, upload).status == 400 <==> Text.IsBlank(url, Text.IsPySpace) || !HasHttpScheme(url)
    ensures Indexing(url, upload).status == 200 <==> !Text.IsBlank(url, Text.IsPySpace) && HasHttpScheme(url) && upload.Success?
  {
  }

  /**
   * The scheme test is made before any trimming: a URL that starts with white space but is
   * not blank is refused with the scheme message, whatever scheme follows the white space.
   */
  lemma LeadingSpaceFailsSchemeCheck(url: string, upload: Result<string, string>)
    requires url != [] && Text.IsPySpace(url[0]) && !Text.IsBlank(url, Text.IsPySpace)
    ensures Indexing(url, upload) == Response(400, BadScheme)
  {
    assert !HasHttpScheme(url) by {
      assert url[0] != 'h';
    }
  }

  /**
   * `POST /chat`: the question echoed as received, the chain's answer, and one record per
   * retrieved document in retrieval order. An exception from the chain is not caught here:
   * it leaves the endpoint (`Failure`), and the framework answers with an error status.
   */
  function Chat(message: string, rag: Result<RagAnswer, string>): (r: Result<ChatBody, string>)
    ensures rag.Failure? <==> r.Failure?
    ensures rag.Failure? ==> r.error == rag.error
    ensures rag.Success? ==> r.value.question == message && r.value.answer == rag.value.answer
    ensures rag.Success? ==> |r.value.docs| == |rag.value.context|
    ensures rag.Success? ==> forall i :: 0 <= i < |rag.value.context| ==> r.value.docs[i] == rag.value.context[i]
  {
    match rag
    case Failure(e) => Failure(e)
    case Success(response) => Success(ChatBody(message, response.answer, response.context))
  }

  /** A document record as the chat screen receives it. */
  function ToClientDoc(d: DocRecord): Sources.Doc {
    Sources.Doc(Wrappers.Some(d.metadata))
  }

  /**
   * End to end: when every retrieved document was tagged by indexing with one of the
   * `indexed` URLs, every source the chat screen shows is one of those URLs.
   */
  lemma ShownSourcesWereIndexed(message: string, answer: RagAnswer, indexed: set<string>, u: string)
    requires forall d :: d in answer.context ==> "source_url" in d.metadata && d.metadata["source_url"] in indexed
    requires u in Sources.UniqueSources(ClientDocs(Chat(message, Success(answer)).value.docs))
    ensures u in indexed
  {
    var docs := ClientDocs(Chat(message, Success(answer)).value.docs);
    Sources.UniqueSourcesMembers(docs, u);
    var k :| 0 <= k < |docs| && Sources.SourceUrl(docs[k]) == Some(u) && u != "";
    assert answer.context[k] in answer.context;
  }

  /** The `docs` array of the chat response as the client decodes it. */
  function ClientDocs(records: seq<DocRecord>): (r: seq<Sources.Doc>)
    ensures |r| == |records|
    ensures forall i :: 0 <= i < |records| ==> r[i] == ToClientDoc(records[i])
  {
    seq(|records|, i requires 0 <= i < |records| => ToClientDoc(records[i]))
  }
}
