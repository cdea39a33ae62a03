/**
 * The vector-store side of the backend: the embeddings client for the
 * OpenRouter endpoint (`OpenRouterEmbeddings`), the tolerant creation of the
 * collection, and the indexing of one web page.
 *
 * Every foreign call is a parameter. The embeddings endpoint is a `Transport`
 * that maps the ordinal of a request within one operation and the texts it
 * carries to what came back; the loader, the splitter, the collection
 * creation and the vector store are the outcomes they produced. Embedding
 * vectors are opaque JSON values.
 */
module Qdrant {
  import opened Wrappers
  import Text

  /** A decoded JSON value. */
  datatype Json =
    | JNull
    | JBool(b: bool)
    | JNum(n: real)
    | JStr(s: string)
    | JArr(items: seq<Json>)
    | JObj(fields: map<string, Json>)

  /**
   * One POST to the embeddings endpoint: the decoded body, or the failure raised by the
   * transport, by `raise_for_status` or by JSON decoding.
   */
  datatype HttpOutcome = Received(body: Json) | HttpFailed(reason: string)

  /** The endpoint: request number `n` of an operation, sent with `inputs`, gives this outcome. */
  type Transport = (nat, seq<string>) -> HttpOutcome

  /** The exceptions the embeddings client raises. */
  datatype EmbedError =
    | RequestFailed(reason: string)
    | UnexpectedStructure(body: Json)
    | UnexpectedItem(item: Json)
    | EmptyQueryEmbedding
    | ZeroBatchSize
    | UnsupportedInput(cause: Option<EmbedError>)

  /** The `batch_size` the client is constructed with unless told otherwise. */
  const DefaultBatchSize: nat := 16

  // ---------------------------------------------------------------------------
  // `_call`: one request, its response normalised to a list of vectors
  // ---------------------------------------------------------------------------

  /**
   * The vector an item of `data["data"]` stands for: a dict's `"embedding"`, else a dict's
   * `"vector"`, else the item itself when it is a list; nothing for any other item.
   */
  function ItemVector(item: Json): Option<Json> {
    if item.JObj? && "embedding" in item.fields then Some(item.fields["embedding"])
    else if item.JObj? && "vector" in item.fields then Some(item.fields["vector"])
    else if item.JArr? then Some(item)
    else None
  }

  /** `xs` in front of a list result; an error stays as it is. */
  function Prepend(xs: seq<Json>, r: Result<seq<Json>, EmbedError>): Result<seq<Json>, EmbedError> {
    match r
    case Success(ys) => Success(xs + ys)
    case Failure(e) => Failure(e)
  }

  /**
   * The items mapped in order to their vectors; the first item of no accepted shape
   * makes the whole call fail.
   */
  function NormaliseItems(items: seq<Json>): Result<seq<Json>, EmbedError> {
    if items == [] then Success([])
    else
      match ItemVector(items[0])
      case None => Failure(UnexpectedItem(items[0]))
      case Some(v) => Prepend([v], NormaliseItems(items[1..]))
  }

  /**
   * The items are accepted exactly when each has an accepted shape; then there is one vector
   * per item, in order, and otherwise the error names the first rejected item.
   */
  lemma {:induction false} NormaliseItemsSpec(items: seq<Json>)
    ensures NormaliseItems(items).Success? <==> forall i :: 0 <= i < |items| ==> ItemVector(items[i]).Some?
    ensures NormaliseItems(items).Success? ==> |NormaliseItems(items).value| == |items|
    ensures NormaliseItems(items).Success? ==>
              forall i :: 0 <= i < |items| ==> NormaliseItems(items).value[i] == ItemVector(items[i]).value
    ensures NormaliseItems(items).Failure? ==>
              exists k :: 0 <= k < |items| && ItemVector(items[k]).None? && NormaliseItems(items).error == UnexpectedItem(items[k])
                          && forall i :: 0 <= i < k ==> ItemVector(items[i]).Some?
  {
    if items != [] {
      NormaliseItemsSpec(items[1..]);
      assert forall i :: 1 <= i < |items| ==> items[i] == items[1..][i - 1];
      if ItemVector(items[0]).Some? && NormaliseItems(items[1..]).Failure? {
        var k :| 0 <= k < |items[1..]| && ItemVector(items[1..][k]).None?
                 && NormaliseItems(items[1..]).error == UnexpectedItem(items[1..][k])
                 && forall i :: 0 <= i < k ==> ItemVector(items[1..][i]).Some?;
        assert ItemVector(items[k + 1]).None?;
      }
    }
  }

  /** The response carries a list under `"data"`. */
  predicate HasDataList(body: Json) {
    body.JObj? && "data" in body.fields && body.fields["data"].JArr?
  }

  /** What request `n` of an operation, sent with `inputs`, yields. */
  function CallSpec(post: Transport, n: nat, inputs: seq<string>): Result<seq<Json>, EmbedError> {
    match post(n, inputs)
    case HttpFailed(reason) => Failure(RequestFailed(reason))
    case Received(body) =>
      if HasDataList(body) then NormaliseItems(body.fields["data"].items) else Failure(UnexpectedStructure(body))
  }

  /** `_call`: post the inputs, then collect one vector per item of `data["data"]`. */
  method Call(post: Transport, n: nat, inputs: seq<string>) returns (r: Result<seq<Json>, EmbedError>)
    ensures r == CallSpec(post, n, inputs)
  {
    var resp := post(n, inputs);
    if resp.HttpFailed? {
      return Failure(RequestFailed(resp.reason));
    }
    var data := resp.body;
    if !(data.JObj? && "data" in data.fields && data.fields["data"].JArr?) {
      return Failure(UnexpectedStructure(data));
    }
    var items := data.fields["data"].items;
    var embeddings: seq<Json> := [];
    var i := 0;
    assert items[0..] == items;
    PrependNil(NormaliseItems(items));
    while i < |items|
      invariant 0 <= i <= |items|
      invariant NormaliseItems(items) == Prepend(embeddings, NormaliseItems(items[i..]))
    {
      var item := items[i];
      NormaliseStep(embeddings, items, i);
      if item.JObj? && "embedding" in item.fields {
        embeddings := embeddings + [item.fields["embedding"]];
      } else if item.JObj? && "vector" in item.fields {
        embeddings := embeddings + [item.fields["vector"]];
      } else if item.JArr? {
        embeddings := embeddings + [item];
      } else {
        return Failure(UnexpectedItem(item));
      }
      i := i + 1;
    }
    assert embeddings + [] == embeddings;
    r := Success(embeddings);
  }

  /** One item of the loop in `_call`: a rejected item ends it, an accepted one appends its vector. */
  lemma NormaliseStep(done: seq<Json>, items: seq<Json>, i: nat)
    requires i < |items|
    ensures ItemVector(items[i]).None? ==>
              Prepend(done, NormaliseItems(items[i..])) == Failure(UnexpectedItem(items[i]))
    ensures ItemVector(items[i]).Some? ==>
              Prepend(done, NormaliseItems(items[i..]))
              == Prepend(done + [ItemVector(items[i]).value], NormaliseItems(items[i + 1..]))
  {
    assert items[i..][0] == items[i] && items[i..][1..] == items[i + 1..];
    if ItemVector(items[i]).Some? {
      PrependAssoc(done, [ItemVector(items[i]).value], NormaliseItems(items[i + 1..]));
    }
  }

  lemma PrependNil(r: Result<seq<Json>, EmbedError>)
    ensures Prepend([], r) == r
  {
    if r.Success? {
      assert [] + r.value == r.value;
    }
  }

  /** A dict carrying both keys gives its `"embedding"`: that key wins over `"vector"`. */
  lemma EmbeddingKeyWins(fields: map<string, Json>)
    requires "embedding" in fields && "vector" in fields
    ensures ItemVector(JObj(fields)) == Some(fields["embedding"])
  {
  }

  /**
   * A response whose `data` list has only accepted items yields their vectors in order;
   * any other response makes the call fail.
   */
  lemma CallAccepted(post: Transport, n: nat, inputs: seq<string>)
    ensures CallSpec(post, n, inputs).Success? <==>
              post(n, inputs).Received? && HasDataList(post(n, inputs).body)
              && forall i :: 0 <= i < |post(n, inputs).body.fields["data"].items| ==>
                               ItemVector(post(n, inputs).body.fields["data"].items[i]).Some?
  {
    if post(n, inputs).Received? && HasDataList(post(n, inputs).body) {
      NormaliseItemsSpec(post(n, inputs).body.fields["data"].items);
    }
  }

  // ---------------------------------------------------------------------------
  // `embed_documents`: the texts in consecutive batches, the results concatenated
  // ---------------------------------------------------------------------------

  /** The consecutive slices of at most `size` texts that `range(0, len(texts), size)` cuts. */
  function Batches(texts: seq<string>, size: nat): seq<seq<string>>
    requires size > 0
    decreases |texts|
  {
    if texts == [] then []
    else if |texts| <= size then [texts]
    else [texts[..size]] + Batches(texts[size..], size)
  }

  /** Every batch holds between 1 and `size` texts. */
  lemma {:induction false} BatchesBounded(texts: seq<string>, size: nat)
    requires size > 0
    ensures forall k :: 0 <= k < |Batches(texts, size)| ==> 0 < |Batches(texts, size)[k]| <= size
    decreases |texts|
  {
    if |texts| > size {
      BatchesBounded(texts[size..], size);
    }
  }

  /** The lists of `xss` one after the other. */
  function Flatten<T>(xss: seq<seq<T>>): seq<T> {
    if xss == [] then [] else xss[0] + Flatten(xss[1..])
  }

  /** Python's `texts[i:]`. */
  function Drop(texts: seq<string>, i: nat): seq<string> {
    if i <= |texts| then texts[i..] else []
  }

  function Min(a: int, b: int): int {
    if a < b then a else b
  }

  /** The batches cover the texts exactly, in order. */
  lemma {:induction false} BatchesFlatten(texts: seq<string>, size: nat)
    requires size > 0
    ensures Flatten(Batches(texts, size)) == texts
    decreases |texts|
  {
    if |texts| > size {
      BatchesFlatten(texts[size..], size);
      assert texts[..size] + texts[size..] == texts;
    } else if texts != [] {
      assert texts + [] == texts;
    }
  }

  /** There are ⌈n / size⌉ batches, so as many requests: the last one starts before the end. */
  lemma {:induction false} BatchesCount(texts: seq<string>, size: nat)
    requires size > 0
    ensures texts == [] <==> |Batches(texts, size)| == 0
    ensures texts != [] ==> (|Batches(texts, size)| - 1) * size < |texts| <= |Batches(texts, size)| * size
    decreases |texts|
  {
    if |texts| > size {
      var n := |Batches(texts[size..], size)|;
      BatchesCount(texts[size..], size);
      MulSucc(n, size);
      MulSucc(n - 1, size);
    }
  }

  lemma MulSucc(k: int, size: int)
    ensures k * size + size == (k + 1) * size
  {
  }

  /** Every batch but the last holds exactly `size` texts. */
  lemma {:induction false} BatchesFull(texts: seq<string>, size: nat, k: nat)
    requires size > 0 && k + 1 < |Batches(texts, size)|
    ensures |Batches(texts, size)[k]| == size
    decreases |texts|
  {
    if k > 0 {
      BatchesFull(texts[size..], size, k - 1);
    }
  }

  /** Batch `k` is the slice `texts[k * size : (k + 1) * size]`, cut short at the end. */
  lemma {:induction false} BatchAt(texts: seq<string>, size: nat, k: nat)
    requires size > 0 && k < |Batches(texts, size)|
    ensures k * size < |texts|
    ensures Batches(texts, size)[k] == texts[k * size..Min((k + 1) * size, |texts|)]
    decreases |texts|
  {
    if k > 0 {
      var rest := texts[size..];
      assert Batches(texts, size)[k] == Batches(rest, size)[k - 1];
      BatchAt(rest, size, k - 1);
      var lo, hi := (k - 1) * size, Min(k * size, |rest|);
      MulSucc(k - 1, size);
      MulSucc(k, size);
      SliceOfSuffix(texts, size, lo, hi);
    }
  }

  lemma SliceOfSuffix(texts: seq<string>, d: nat, lo: nat, hi: nat)
    requires d <= |texts| && lo <= hi <= |texts| - d
    ensures texts[d..][lo..hi] == texts[lo + d..hi + d]
  {
  }

  /** With the default batch size, 17 texts take two requests: 16 texts, then the last one. */
  lemma DefaultBatchSizeSplit(texts: seq<string>)
    requires |texts| == DefaultBatchSize + 1
    ensures Batches(texts, DefaultBatchSize) == [texts[..DefaultBatchSize], texts[DefaultBatchSize..]]
  {
    assert Batches(texts[DefaultBatchSize..], DefaultBatchSize) == [texts[DefaultBatchSize..]];
  }

  /** The batches from offset `i` are the slice there, then the batches from `i + size`. */
  lemma BatchesStep(texts: seq<string>, size: nat, i: nat)
    requires size > 0 && i < |texts|
    ensures Batches(Drop(texts, i), size) == [texts[i..Min(i + size, |texts|)]] + Batches(Drop(texts, i + size), size)
  {
    var s := texts[i..];
    if |s| > size {
      assert s[..size] == texts[i..i + size];
      assert s[size..] == texts[i + size..];
    } else {
      assert Drop(texts, i + size) == [];
      assert s == texts[i..|texts|];
      assert [s] + [] == [s];
    }
  }

  /** What request number `n` with `inputs` returns, as `_call` reads the response. */
  type BatchCall = (nat, seq<string>) -> Result<seq<Json>, EmbedError>

  /** The requests of `embed_documents`, each read by `_call`. */
  function CallOf(post: Transport): BatchCall {
    (n: nat, inputs: seq<string>) => CallSpec(post, n, inputs)
  }

  /** The requests for `batches`, numbered from `first`, their results concatenated; the first failure wins. */
  function EmbedBatches(call: BatchCall, first: nat, batches: seq<seq<string>>): Result<seq<Json>, EmbedError>
    decreases |batches|
  {
    if batches == [] then Success([])
    else
      match call(first, batches[0])
      case Failure(e) => Failure(e)
      case Success(v) => Prepend(v, EmbedBatches(call, first + 1, batches[1..]))
  }

  /**
   * What `embed_documents` returns. A zero batch size makes `range` raise; a negative one
   * gives an empty range, hence no request and an empty result.
   */
  function EmbedDocumentsSpec(post: Transport, texts: seq<string>, batchSize: int): Result<seq<Json>, EmbedError> {
    if batchSize == 0 then Failure(ZeroBatchSize)
    else if batchSize < 0 then Success([])
    else EmbedBatches(CallOf(post), 0, Batches(texts, batchSize))
  }

  /** The batches whose requests are made: all of them up to and including the first that fails. */
  function SentUntilFailure(call: BatchCall, first: nat, batches: seq<seq<string>>): seq<seq<string>>
    decreases |batches|
  {
    if batches == [] then []
    else if call(first, batches[0]).Failure? then [batches[0]]
    else [batches[0]] + SentUntilFailure(call, first + 1, batches[1..])
  }

  /** The requests `embed_documents` makes: none unless the batch size is positive. */
  function RequestsSpec(post: Transport, texts: seq<string>, batchSize: int): seq<seq<string>> {
    if batchSize > 0 then SentUntilFailure(CallOf(post), 0, Batches(texts, batchSize)) else []
  }

  /**
   * `embed_documents`: one request per batch, in order, each result appended to the last.
   * `sent` lists the texts of each request made.
   */
  method EmbedDocuments(post: Transport, texts: seq<string>, batchSize: int)
    returns (r: Result<seq<Json>, EmbedError>, sent: seq<seq<string>>)
    ensures r == EmbedDocumentsSpec(post, texts, batchSize)
    ensures sent == RequestsSpec(post, texts, batchSize)
  {
    if batchSize == 0 {
      return Failure(ZeroBatchSize), [];
    }
    if batchSize < 0 {
      // range(0, len(texts), batchSize) counts upwards from 0 with a negative step: it is empty
      return Success([]), [];
    }
    var size: nat := batchSize;
    ghost var call := CallOf(post);
    sent := [];
    ghost var all := Batches(texts, size);
    var allEmbs: seq<Json> := [];
    var i: nat := 0;
    assert Drop(texts, 0) == texts;
    assert sent + all == all;
    while i < |texts|
      invariant all == sent + Batches(Drop(texts, i), size)
      invariant EmbedBatches(call, 0, sent) == Success(allEmbs)
      decreases |texts| - i
    {
      var j: nat := i + size;
      var batch := texts[i..Min(j, |texts|)];
      ghost var next := Batches(Drop(texts, j), size);
      assert all == (sent + [batch]) + next by {
        SentStep(texts, size, i, sent);
      }
      var embs := Call(post, |sent|, batch);
      assert embs == call(|sent|, batch);
      if embs.Failure? {
        FailedRequest(call, sent, batch, next);
        return Failure(embs.error), sent + [batch];
      }
      assert EmbedBatches(call, 0, sent + [batch]) == Success(allEmbs + embs.value) by {
        EmbedBatchesAppend(call, 0, sent, batch);
      }
      sent := sent + [batch];
      allEmbs := allEmbs + embs.value;
      i := j;
    }
    assert Batches(Drop(texts, i), size) == [];
    assert all == sent + [] == sent;
    SentAfterSuccesses(call, 0, sent, []);
    assert sent + [] == sent;
    r := Success(allEmbs);
  }

  /** After requests that all succeeded, the requests made are those, then the ones for the rest. */
  lemma {:induction false} SentAfterSuccesses(call: BatchCall, first: nat, done: seq<seq<string>>, rest: seq<seq<string>>)
    requires EmbedBatches(call, first, done).Success?
    ensures SentUntilFailure(call, first, done + rest) == done + SentUntilFailure(call, first + |done|, rest)
    decreases |done|
  {
    if done == [] {
      assert done + rest == rest;
    } else {
      var all, tail := done + rest, done[1..];
      assert all[0] == done[0] && all[1..] == tail + rest;
      assert call(first, done[0]).Success?;
      assert EmbedBatches(call, first + 1, tail).Success?;
      SentAfterSuccesses(call, first + 1, tail, rest);
      var later := SentUntilFailure(call, first + |done|, rest);
      assert SentUntilFailure(call, first, all) == [done[0]] + (tail + later);
      assert [done[0]] + (tail + later) == ([done[0]] + tail) + later;
      assert [done[0]] + tail == done;
    }
  }

  /**
   * A request that fails after requests that all succeeded: the operation fails with its
   * error, and it is the last request made.
   */
  lemma FailedRequest(call: BatchCall, done: seq<seq<string>>, batch: seq<string>, rest: seq<seq<string>>)
    requires EmbedBatches(call, 0, done).Success?
    requires call(|done|, batch).Failure?
    ensures EmbedBatches(call, 0, done + [batch] + rest) == Failure(call(|done|, batch).error)
    ensures SentUntilFailure(call, 0, done + [batch] + rest) == done + [batch]
  {
    EmbedBatchesAppend(call, 0, done, batch);
    EmbedBatchesFailedPrefix(call, 0, done + [batch], rest);
    SentAfterSuccesses(call, 0, done, [batch] + rest);
    assert ([batch] + rest)[0] == batch;
    assert done + [batch] + rest == done + ([batch] + rest);
  }

  /** The requests made are consecutive batches from the first one. */
  lemma {:induction false} SentIsPrefix(call: BatchCall, first: nat, batches: seq<seq<string>>)
    ensures SentUntilFailure(call, first, batches) <= batches
    decreases |batches|
  {
    if batches != [] && call(first, batches[0]).Success? {
      SentIsPrefix(call, first + 1, batches[1..]);
      assert batches == [batches[0]] + batches[1..];
    }
  }

  /**
   * Every batch is requested when the operation succeeds; when it fails, a request was
   * made and the last one made is the one that failed, with the error returned.
   */
  lemma {:induction false} SentOutcome(call: BatchCall, first: nat, batches: seq<seq<string>>)
    ensures EmbedBatches(call, first, batches).Success? ==> SentUntilFailure(call, first, batches) == batches
    ensures EmbedBatches(call, first, batches).Failure? ==>
              var sent := SentUntilFailure(call, first, batches);
              sent != [] && call(first + |sent| - 1, sent[|sent| - 1]) == Failure(EmbedBatches(call, first, batches).error)
    decreases |batches|
  {
    if batches != [] && call(first, batches[0]).Success? {
      SentOutcome(call, first + 1, batches[1..]);
      assert batches == [batches[0]] + batches[1..];
    }
  }

  /** `embed_documents` requests every batch when it succeeds, and stops right after the request that fails. */
  lemma EmbedDocumentsRequests(post: Transport, texts: seq<string>, batchSize: int)
    requires batchSize > 0
    ensures RequestsSpec(post, texts, batchSize) <= Batches(texts, batchSize)
    ensures EmbedDocumentsSpec(post, texts, batchSize).Success? ==> RequestsSpec(post, texts, batchSize) == Batches(texts, batchSize)
    ensures EmbedDocumentsSpec(post, texts, batchSize).Failure? ==>
              var sent := RequestsSpec(post, texts, batchSize);
              sent != [] && CallSpec(post, |sent| - 1, sent[|sent| - 1]) == Failure(EmbedDocumentsSpec(post, texts, batchSize).error)
  {
    SentIsPrefix(CallOf(post), 0, Batches(texts, batchSize));
    SentOutcome(CallOf(post), 0, Batches(texts, batchSize));
  }

  /** The batches sent so far, then the batch at offset `i`, then the batches after it. */
  lemma SentStep(texts: seq<string>, size: nat, i: nat, sent: seq<seq<string>>)
    requires size > 0 && i < |texts|
    requires Batches(texts, size) == sent + Batches(Drop(texts, i), size)
    ensures Batches(texts, size) == (sent + [texts[i..Min(i + size, |texts|)]]) + Batches(Drop(texts, i + size), size)
  {
    BatchesStep(texts, size, i);
    var batch, rest := texts[i..Min(i + size, |texts|)], Batches(Drop(texts, i + size), size);
    assert sent + ([batch] + rest) == (sent + [batch]) + rest;
  }

  /** One more request after requests that all succeeded: its failure is the result, or its vectors are appended. */
  lemma {:induction false} EmbedBatchesAppend(call: BatchCall, first: nat, done: seq<seq<string>>, batch: seq<string>)
    requires EmbedBatches(call, first, done).Success?
    ensures call(first + |done|, batch).Failure? ==>
              EmbedBatches(call, first, done + [batch]) == Failure(call(first + |done|, batch).error)
    ensures call(first + |done|, batch).Success? ==>
              EmbedBatches(call, first, done + [batch])
              == Success(EmbedBatches(call, first, done).value + call(first + |done|, batch).value)
    decreases |done|
  {
    if done == [] {
      assert [batch][1..] == [];
      PrependNil(EmbedBatches(call, first, [batch]));
      var v := call(first, batch);
      if v.Success? {
        assert [] + v.value == v.value && v.value + [] == v.value;
      }
    } else {
      assert (done + [batch])[0] == done[0] && (done + [batch])[1..] == done[1..] + [batch];
      EmbedBatchesAppend(call, first + 1, done[1..], batch);
      var head := call(first, done[0]).value;
      if call(first + |done|, batch).Success? {
        PrependAssoc(head, EmbedBatches(call, first + 1, done[1..]).value, call(first + |done|, batch));
        assert head + (EmbedBatches(call, first + 1, done[1..]).value + call(first + |done|, batch).value)
            == (head + EmbedBatches(call, first + 1, done[1..]).value) + call(first + |done|, batch).value;
      }
    }
  }

  /** Once a request has failed, no later batch changes the result. */
  lemma {:induction false} EmbedBatchesFailedPrefix(call: BatchCall, first: nat, done: seq<seq<string>>, rest: seq<seq<string>>)
    requires EmbedBatches(call, first, done).Failure?
    ensures EmbedBatches(call, first, done + rest) == EmbedBatches(call, first, done)
    decreases |done|
  {
    assert (done + rest)[0] == done[0] && (done + rest)[1..] == done[1..] + rest;
    if call(first, done[0]).Success? {
      EmbedBatchesFailedPrefix(call, first + 1, done[1..], rest);
    }
  }

  lemma PrependAssoc(xs: seq<Json>, ys: seq<Json>, r: Result<seq<Json>, EmbedError>)
    ensures Prepend(xs, Prepend(ys, r)) == Prepend(xs + ys, r)
  {
    if r.Success? {
      assert xs + (ys + r.value) == (xs + ys) + r.value;
    }
  }

  /** The endpoint returns one vector per text it is sent. */
  ghost predicate OneVectorPerInput(call: BatchCall) {
    forall n: nat, inputs: seq<string> :: call(n, inputs).Success? ==> |call(n, inputs).value| == |inputs|
  }

  /** With one vector per text from every request, the concatenation has one per input text. */
  lemma {:induction false} EmbedBatchesLength(call: BatchCall, first: nat, batches: seq<seq<string>>)
    requires OneVectorPerInput(call)
    requires EmbedBatches(call, first, batches).Success?
    ensures |EmbedBatches(call, first, batches).value| == |Flatten(batches)|
    decreases |batches|
  {
    if batches != [] {
      EmbedBatchesLength(call, first + 1, batches[1..]);
    }
  }

  /** `embed_documents` returns as many vectors as texts when the endpoint returns one per text. */
  lemma EmbedDocumentsLength(post: Transport, texts: seq<string>, batchSize: int)
    requires batchSize > 0 && OneVectorPerInput(CallOf(post))
    requires EmbedDocumentsSpec(post, texts, batchSize).Success?
    ensures |EmbedDocumentsSpec(post, texts, batchSize).value| == |texts|
  {
    EmbedBatchesLength(CallOf(post), 0, Batches(texts, batchSize));
    BatchesFlatten(texts, batchSize);
  }

  // ---------------------------------------------------------------------------
  // `embed_query` and `__call__`
  // ---------------------------------------------------------------------------

  /** `embed_query`: one request with the single text; an empty result raises, else the first vector. */
  function EmbedQuery(post: Transport, text: string): (r: Result<Json, EmbedError>)
    ensures r.Success? <==> CallSpec(post, 0, [text]).Success? && CallSpec(post, 0, [text]).value != []
    ensures CallSpec(post, 0, [text]).Failure? ==> r == Failure(CallSpec(post, 0, [text]).error)
    ensures CallSpec(post, 0, [text]) == Success([]) ==> r == Failure(EmptyQueryEmbedding)
    ensures CallSpec(post, 0, [text]).Success? && CallSpec(post, 0, [text]).value != [] ==>
              r == Success(CallSpec(post, 0, [text]).value[0])
  {
    match CallSpec(post, 0, [text])
    case Failure(e) => Failure(e)
    case Success(embs) => if embs == [] then Failure(EmptyQueryEmbedding) else Success(embs[0])
  }

  /**
   * The query's vector is the first item's: when the response lists several accepted items,
   * the rest are dropped; an empty `data` list is the empty-embedding error.
   */
  lemma EmbedQueryFirstItem(post: Transport, text: string, items: seq<Json>)
    requires post(0, [text]).Received? && HasDataList(post(0, [text]).body)
    requires items == post(0, [text]).body.fields["data"].items
    requires forall i :: 0 <= i < |items| ==> ItemVector(items[i]).Some?
    ensures items == [] ==> EmbedQuery(post, text) == Failure(EmptyQueryEmbedding)
    ensures items != [] ==> EmbedQuery(post, text) == Success(ItemVector(items[0]).value)
  {
    NormaliseItemsSpec(items);
  }

  /** What `__call__` is given. */
  datatype CallInput =
    | StrInput(s: string)
    | ListInput(xs: seq<string>)
    | TupleInput(xs: seq<string>)
    | OtherInput(asList: Option<seq<string>>)  // `list(inputs)`, or None when that raises

  /** What `__call__` returns: one vector for a string, a list of vectors otherwise. */
  datatype Embedded = OneVector(vector: Json) | Vectors(vectors: seq<Json>)

  /**
   * `__call__`: a string is embedded as a query, a list or tuple as documents, and anything
   * else is turned into a list first; a failure on that last path is re-raised as a type error.
   */
  function Dispatch(post: Transport, batchSize: int, input: CallInput): (r: Result<Embedded, EmbedError>)
    ensures input.StrInput? ==> (r.Success? <==> EmbedQuery(post, input.s).Success?)
    ensures input.StrInput? && r.Success? ==> r.value == OneVector(EmbedQuery(post, input.s).value)
    ensures (input.ListInput? || input.TupleInput?) ==> (r.Success? <==> EmbedDocumentsSpec(post, input.xs, batchSize).Success?)
    ensures (input.ListInput? || input.TupleInput?) && r.Success? ==>
              r.value == Vectors(EmbedDocumentsSpec(post, input.xs, batchSize).value)
    ensures input.StrInput? && r.Failure? ==> EmbedQuery(post, input.s) == Failure(r.error)
    ensures (input.ListInput? || input.TupleInput?) && r.Failure? ==>
              EmbedDocumentsSpec(post, input.xs, batchSize) == Failure(r.error)
    ensures input.OtherInput? && input.asList.None? ==> r == Failure(UnsupportedInput(None))
    ensures input.OtherInput? && input.asList.Some? ==>
              (r.Success? <==> EmbedDocumentsSpec(post, input.asList.value, batchSize).Success?)
    ensures input.OtherInput? && input.asList.Some? && r.Success? ==>
              r.value == Vectors(EmbedDocumentsSpec(post, input.asList.value, batchSize).value)
    ensures input.OtherInput? && input.asList.Some? && r.Failure? ==>
              r.error == UnsupportedInput(Some(EmbedDocumentsSpec(post, input.asList.value, batchSize).error))
    ensures input.OtherInput? && r.Failure? ==> r.error.UnsupportedInput?
    ensures !input.StrInput? && r.Success? ==> r.value.Vectors?
  {
    match input
    case StrInput(s) =>
      (match EmbedQuery(post, s)
       case Success(v) => Success(OneVector(v))
       case Failure(e) => Failure(e))
    case ListInput(xs) => DocumentsResult(EmbedDocumentsSpec(post, xs, batchSize))
    case TupleInput(xs) => DocumentsResult(EmbedDocumentsSpec(post, xs, batchSize))
    case OtherInput(asList) =>
      if asList.None? then Failure(UnsupportedInput(None))
      else
        match EmbedDocumentsSpec(post, asList.value, batchSize)
        case Success(vs) => Success(Vectors(vs))
        case Failure(e) => Failure(UnsupportedInput(Some(e)))
  }

  function DocumentsResult(r: Result<seq<Json>, EmbedError>): Result<Embedded, EmbedError> {
    match r
    case Success(vs) => Success(Vectors(vs))
    case Failure(e) => Failure(e)
  }

  /** A list and a tuple of the same texts are embedded alike. */
  lemma ListAndTupleAgree(post: Transport, batchSize: int, xs: seq<string>)
    ensures Dispatch(post, batchSize, ListInput(xs)) == Dispatch(post, batchSize, TupleInput(xs))
  {
  }

  // ---------------------------------------------------------------------------
  // `create_collection_if_not_exists`
  // ---------------------------------------------------------------------------

  /** The error text, lower-cased, says the collection is already there. */
  predicate IsAlreadyExists(message: string) {
    var msg := Text.Lower(message);
    Text.Contains(msg, "already exists") || Text.Contains(msg, "collection already exists") || Text.Contains(msg, "409")
  }

  /**
   * The middle test adds nothing: an error is tolerated exactly when its lower-cased text
   * contains "already exists" or "409".
   */
  lemma AlreadyExistsTests(message: string)
    ensures IsAlreadyExists(message) <==>
              Text.Contains(Text.Lower(message), "already exists") || Text.Contains(Text.Lower(message), "409")
  {
    var msg := Text.Lower(message);
    if Text.Contains(msg, "collection already exists") {
      assert Text.OccursAt("collection already exists", "already exists", 11);
      Text.ContainsTransitive(msg, "collection already exists", "already exists");
    }
  }

  /**
   * Creating the collection (detecting the vector size with a sample query, then asking the
   * store; `attempt` is how that went) succeeds, or fails with an error that is swallowed
   * exactly when it says the collection already exists; any other error is re-raised as is.
   */
  function CreateCollectionIfNotExists(attempt: Outcome<string>): (r: Outcome<string>)
    ensures r.Pass? <==> attempt.Pass? || IsAlreadyExists(attempt.error)
    ensures r.Fail? ==> r == attempt
  {
    match attempt
    case Pass => Pass
    case Fail(e) => if IsAlreadyExists(e) then Pass else Fail(e)
  }

  // ---------------------------------------------------------------------------
  // `upload_website_to_collection`
  // ---------------------------------------------------------------------------

  /** A LangChain document; `metadata == None` is a missing or `None` attribute. */
  class Document {
    var pageContent: string
    var metadata: Option<map<string, string>>

    constructor (pageContent: string, metadata: Option<map<string, string>>)
      ensures this.pageContent == pageContent && this.metadata == metadata
    {
      this.pageContent := pageContent;
      this.metadata := metadata;
    }
  }

  /** A copy of the metadata (none counts as empty) with `source_url` set to `url`. */
  function Tagged(m: Option<map<string, string>>, url: string): (r: map<string, string>)
    ensures "source_url" in r && r["source_url"] == url
    ensures forall k :: k in r ==> k == "source_url" || (m.Some? && k in m.value)
    ensures m.Some? ==> forall k :: k in m.value && k != "source_url" ==> k in r && r[k] == m.value[k]
  {
    (if m.Some? then m.value else map[])["source_url" := url]
  }

  /** Tagging twice with the same URL is tagging once: repeated documents end up alike. */
  lemma TaggedIdempotent(m: Option<map<string, string>>, url: string)
    ensures Tagged(Some(Tagged(m, url)), url) == Tagged(m, url)
  {
  }

  /**
   * The metadata loop: each document ends with a copy of its metadata carrying
   * `source_url = url`; the same document listed twice is tagged once in effect.
   */
  method TagSourceUrl(docs: seq<Document>, url: string)
    modifies set d | d in docs
    ensures forall d :: d in docs ==> d.metadata == Some(Tagged(old(d.metadata), url))
    ensures forall d :: d in docs ==> d.pageContent == old(d.pageContent)
  {
    for i := 0 to |docs|
      invariant forall d :: d in docs[..i] ==> d.metadata == Some(Tagged(old(d.metadata), url))
      invariant forall d :: d in docs && d !in docs[..i] ==> d.metadata == old(d.metadata)
      invariant forall d :: d in docs ==> d.pageContent == old(d.pageContent)
    {
      var doc := docs[i];
      var metadata := if doc.metadata.Some? && doc.metadata.value != map[] then doc.metadata.value else map[];
      metadata := metadata["source_url" := url];
      if doc in docs[..i] {
        TaggedIdempotent(old(doc.metadata), url);
      }
      doc.metadata := Some(metadata);
      assert docs[..i + 1] == docs[..i] + [doc];
    }
  }

  /** The prefix every error of `upload_website_to_collection` is re-raised with. */
  function FailedPrefix(url: string): string {
    "Failed to index " + url + ": "
  }

  lemma WrappedStartsWithPrefix(url: string, e: string)
    ensures Text.StartsWith(FailedPrefix(url) + e, FailedPrefix(url))
  {
    assert (FailedPrefix(url) + e)[..|FailedPrefix(url)|] == FailedPrefix(url);
  }

  function NothingLoaded(url: string): string {
    "No content could be extracted from " + url + ". The site may be blocking scrapers or the URL may be invalid."
  }

  function NothingSplit(url: string): string {
    "No content could be split from " + url + ". The page may be empty."
  }

  /** The split succeeded and produced at least one document. */
  predicate Splits(split: Result<seq<Document>, string>) {
    split.Success? && split.value != []
  }

  /** The steps before tagging all went through. */
  predicate ReachesTagging(createAttempt: Outcome<string>, load: Result<seq<Document>, string>, split: Result<seq<Document>, string>) {
    CreateCollectionIfNotExists(createAttempt).Pass? && load.Success? && load.value != [] && Splits(split)
  }

  /**
   * What the upload leaves in the chunks: tagged with the URL when tagging was reached,
   * untouched otherwise; their page contents are never changed.
   */
  twostate predicate ChunksAfter(split: Result<seq<Document>, string>, url: string, tagged: bool)
    reads set d | split.Success? && d in split.value
  {
    split.Success? ==>
      && (forall d :: d in split.value ==> d.metadata == if tagged then Some(Tagged(old(d.metadata), url)) else old(d.metadata))
      && (forall d :: d in split.value ==> d.pageContent == old(d.pageContent))
  }

  /** The message `upload_website_to_collection` returns after storing `count` chunks. */
  function Uploaded(count: nat, collection: string): string {
    "Successfully uploaded " + Text.NatToString(count) + " documents to collection " + collection
  }

  /**
   * The body of the `try` in `upload_website_to_collection`: ensure the collection, load the
   * page, split it, tag every chunk with its URL and store the chunks. The result is the
   * success message or the text of the first exception raised; an empty load or split raises.
   */
  method UploadSteps(url: string, collection: string, createAttempt: Outcome<string>,
                     load: Result<seq<Document>, string>, split: Result<seq<Document>, string>,
                     add: Outcome<string>) returns (r: Result<string, string>)
    modifies set d | split.Success? && d in split.value
    ensures r.Success? <==> ReachesTagging(createAttempt, load, split) && add.Pass?
    ensures r.Success? ==> r.value == Uploaded(|split.value|, collection)
    ensures CreateCollectionIfNotExists(createAttempt).Fail? ==>
              r == Failure(CreateCollectionIfNotExists(createAttempt).error)
    ensures CreateCollectionIfNotExists(createAttempt).Pass? && load.Failure? ==> r == Failure(load.error)
    ensures CreateCollectionIfNotExists(createAttempt).Pass? && load.Success? && load.value == [] ==>
              r == Failure(NothingLoaded(url))
    ensures CreateCollectionIfNotExists(createAttempt).Pass? && load.Success? && load.value != [] && split.Failure? ==>
              r == Failure(split.error)
    ensures CreateCollectionIfNotExists(createAttempt).Pass? && load.Success? && load.value != []
            && split.Success? && split.value == [] ==>
              r == Failure(NothingSplit(url))
    ensures ReachesTagging(createAttempt, load, split) && add.Fail? ==> r == Failure(add.error)
    ensures ChunksAfter(split, url, ReachesTagging(createAttempt, load, split))
  {
    var created := CreateCollectionIfNotExists(createAttempt);
    if created.Fail? {
      return Failure(created.error);
    }
    if load.Failure? {
      return Failure(load.error);
    }
    if load.value == [] {
      return Failure(NothingLoaded(url));
    }
    if split.Failure? {
      return Failure(split.error);
    }
    var splitDocuments := split.value;
    if splitDocuments == [] {
      return Failure(NothingSplit(url));
    }
    TagSourceUrl(splitDocuments, url);
    if add.Fail? {
      return Failure(add.error);
    }
    r := Success(Uploaded(|splitDocuments|, collection));
  }

  /**
   * `upload_website_to_collection`: the steps above, with every exception they raise
   * re-raised as "Failed to index {url}: " followed by its text.
   */
  method UploadWebsite(url: string, collection: string, createAttempt: Outcome<string>,
                       load: Result<seq<Document>, string>, split: Result<seq<Document>, string>,
                       add: Outcome<string>) returns (r: Result<string, string>)
    modifies set d | split.Success? && d in split.value
    ensures r.Success? <==> ReachesTagging(createAttempt, load, split) && add.Pass?
    ensures r.Success? ==> r.value == Uploaded(|split.value|, collection)
    ensures r.Failure? ==> Text.StartsWith(r.error, FailedPrefix(url))
    ensures CreateCollectionIfNotExists(createAttempt).Fail? ==>
              r == Failure(FailedPrefix(url) + CreateCollectionIfNotExists(createAttempt).error)
    ensures CreateCollectionIfNotExists(createAttempt).Pass? && load.Failure? ==>
              r == Failure(FailedPrefix(url) + load.error)
    ensures CreateCollectionIfNotExists(createAttempt).Pass? && load.Success? && load.value == [] ==>
              r == Failure(FailedPrefix(url) + NothingLoaded(url))
    ensures CreateCollectionIfNotExists(createAttempt).Pass? && load.Success? && load.value != [] && split.Failure? ==>
              r == Failure(FailedPrefix(url) + split.error)
    ensures CreateCollectionIfNotExists(createAttempt).Pass? && load.Success? && load.value != []
            && split.Success? && split.value == [] ==>
              r == Failure(FailedPrefix(url) + NothingSplit(url))
    ensures ReachesTagging(createAttempt, load, split) && add.Fail? ==> r == Failure(FailedPrefix(url) + add.error)
    ensures ChunksAfter(split, url, ReachesTagging(createAttempt, load, split))
  {
    r := UploadSteps(url, collection, createAttempt, load, split, add);
    if r.Failure? {
      // the `except`: the URL goes in front of the exception's text
      WrappedStartsWithPrefix(url, r.error);
      r := Failure(FailedPrefix(url) + r.error);
    }
  }
}
