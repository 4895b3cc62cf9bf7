/** The two request handlers of the service (main.py, `upload_document` and
    `ask`) over the single process-wide vector store.

    The store is a value of an opaque type `S`; building it, querying it and
    calling the language model happen in foreign libraries and arrive here as
    inputs. The global variable becomes an explicit `Option<S>` that each
    handler takes and, for an upload, returns. */
module Service {
  import opened Wrappers

  /** A retrieved document: its text and its metadata dictionary. */
  datatype Doc = Doc(pageContent: string, metadata: map<string, string>)

  /** What the retrieval-QA chain returns: the answer text (`result`) and the
      documents it retrieved (`source_documents`). */
  datatype QaResponse = QaResponse(result: string, sourceDocuments: seq<Doc>)

  /** The dictionary `ask` returns: a bare message, or an answer with its
      sources. */
  datatype AskReply =
    | AskMessage(message: string)
    | Answer(answer: string, sources: seq<string>)

  /** The dictionary `upload_document` returns. */
  datatype UploadReply =
    | Indexed(message: string, indexName: string)
    | UploadFailed(message: string)

  const NoDocumentsMessage: string := "No documents available. Please upload a document first."
  const QueryMissingMessage: string := "Query not provided in the request."
  const IndexedMessage: string := "File uploaded & indexed successfully!"
  const UploadFailurePrefix: string := "Failed to upload document: "
  const IndexSuffix: string := ".index"
  const SourceKey: string := "source"
  const UnknownSource: string := "Unknown"

  /** The fixed sentence the query is wrapped in before it reaches the chain
      (rag_bot.py, `ask_question`). */
  const PromptPrefix: string := "Please provide a detailed and comprehensive answer to the following question: "

  /** The name under which an upload's index is stored and reported. */
  function IndexName(filename: string): string
  {
    filename + IndexSuffix
  }

  /** Distinct index names come from distinct file names, and the file name
      is the index name without its suffix. */
  lemma IndexNameInjective(f1: string, f2: string)
    requires IndexName(f1) == IndexName(f2)
    ensures f1 == f2
    ensures IndexName(f1)[..|f1|] == f1
  {
  }

  /** The source of a document: the `source` metadata entry, or "Unknown". */
  function SourceOf(d: Doc): string
  {
    if SourceKey in d.metadata then d.metadata[SourceKey] else UnknownSource
  }

  /** No value occurs twice. */
  ghost predicate Distinct<T>(s: seq<T>)
  {
    forall i, j :: 0 <= i < j < |s| ==> s[i] != s[j]
  }

  /** The elements of `s`, each once, in order of first occurrence. Python's
      `list(set(...))` promises no order; this is one admissible order. */
  function Dedup(s: seq<string>): (r: seq<string>)
    ensures Distinct(r)
    ensures forall x :: x in r <==> x in s
  {
    if |s| == 0 then []
    else
      var rest := Dedup(s[1..]);
      if s[0] in rest then rest else [s[0]] + rest
  }

  /** Some retrieved document names `x` as its source: it carries `x` under
      `source`, or it carries no `source` and `x` is "Unknown". */
  ghost predicate Cites(docs: seq<Doc>, x: string)
  {
    exists i :: 0 <= i < |docs| &&
      ((SourceKey in docs[i].metadata && docs[i].metadata[SourceKey] == x) ||
       (SourceKey !in docs[i].metadata && x == UnknownSource))
  }

  /** The source of each retrieved document, in retrieval order. */
  function SourcesOf(docs: seq<Doc>): seq<string>
  {
    seq(|docs|, i requires 0 <= i < |docs| => SourceOf(docs[i]))
  }

  /** The `sources` list of an answer: every cited source exactly once. */
  function UniqueSources(docs: seq<Doc>): (r: seq<string>)
    ensures Distinct(r)
    ensures forall x :: x in r <==> Cites(docs, x)
  {
    var all := SourcesOf(docs);
    assert forall x :: x in all <==> Cites(docs, x) by {
      forall x
        ensures x in all <==> Cites(docs, x)
      {
        if x in all {
          var i :| 0 <= i < |all| && all[i] == x;
          assert SourceOf(docs[i]) == x;
        }
        if Cites(docs, x) {
          var i :| 0 <= i < |docs| &&
            ((SourceKey in docs[i].metadata && docs[i].metadata[SourceKey] == x) ||
             (SourceKey !in docs[i].metadata && x == UnknownSource));
          assert all[i] == x;
        }
      }
    }
    Dedup(all)
  }

  /** The query is absent or empty, which Python's `not query` rejects. */
  predicate QueryMissing(query: Option<string>)
  {
    query.None? || query.value == ""
  }

  /** The `ask` handler. `chain(store, prompt)` is the retrieval-QA chain
      built over `store` and run on `prompt`; a `Failure` is an exception it
      raised, which `ask` does not catch and which therefore leaves the
      handler. */
  function Ask<S>(store: Option<S>, query: Option<string>,
                  chain: (S, string) -> Result<QaResponse, string>): (r: Result<AskReply, string>)
    // The no-store check comes first, whatever the query.
    ensures store.None? ==> r == Success(AskMessage(NoDocumentsMessage))
    ensures store.Some? && QueryMissing(query) ==> r == Success(AskMessage(QueryMissingMessage))
    ensures store.Some? && !QueryMissing(query) ==>
      match chain(store.value, PromptPrefix + query.value)
      case Failure(e) => r == Failure(e)
      case Success(resp) =>
        && r.Success? && r.value.Answer?
        && r.value.answer == resp.result
        && Distinct(r.value.sources)
        && forall x :: x in r.value.sources <==> Cites(resp.sourceDocuments, x)
  {
    if store.None? then Success(AskMessage(NoDocumentsMessage))
    else if QueryMissing(query) then Success(AskMessage(QueryMissingMessage))
    else
      match chain(store.value, PromptPrefix + query.value)
      case Failure(e) => Failure(e)
      case Success(resp) => Success(Answer(resp.result, UniqueSources(resp.sourceDocuments)))
  }

  /** The language model is consulted only when there is a store and a query:
      otherwise the reply does not depend on the chain at all. */
  lemma AskWithoutStoreOrQueryIgnoresChain<S>(store: Option<S>, query: Option<string>,
      c1: (S, string) -> Result<QaResponse, string>, c2: (S, string) -> Result<QaResponse, string>)
    requires store.None? || QueryMissing(query)
    ensures Ask(store, query, c1) == Ask(store, query, c2)
    ensures Ask(store, query, c1).Success? && Ask(store, query, c1).value.AskMessage?
  {
  }

  /** The result of an upload: the new global store and the reply. */
  datatype UploadStep<S> = UploadStep(store: Option<S>, reply: UploadReply)

  /** The `upload_document` handler, as a state transition. `built` is what
      storing, loading, chunking and indexing the file produced: the store, or
      the text of the exception that any of those steps raised. */
  function Upload<S>(store: Option<S>, filename: string, built: Result<S, string>): (r: UploadStep<S>)
    // Success replaces the store wholesale; nothing of the old store is kept.
    ensures built.Success? ==> r.store == Some(built.value)
    ensures built.Success? ==> r.reply.Indexed? && r.reply.message == IndexedMessage
                               && |r.reply.indexName| == |filename| + 6
                               && r.reply.indexName[..|filename|] == filename
                               && r.reply.indexName[|filename|..] == ".index"
    // Failure keeps the old store and reports the exception's text.
    ensures built.Failure? ==> r.store == store
    ensures built.Failure? ==> r.reply.UploadFailed?
                               && |r.reply.message| == |UploadFailurePrefix| + |built.error|
                               && r.reply.message[..|UploadFailurePrefix|] == UploadFailurePrefix
                               && r.reply.message[|UploadFailurePrefix|..] == built.error
  {
    match built
    case Success(s) => UploadStep(Some(s), Indexed(IndexedMessage, IndexName(filename)))
    case Failure(e) => UploadStep(store, UploadFailed(UploadFailurePrefix + e))
  }

  /** A request to the service, with the foreign results it will meet. */
  datatype Request<!S> =
    | UploadRequest(filename: string, built: Result<S, string>)
    | AskRequest(query: Option<string>, chain: (S, string) -> Result<QaResponse, string>)

  /** A handler's reply. */
  datatype Reply = UploadReplied(upload: UploadReply) | AskReplied(ask: Result<AskReply, string>)

  /** One request against the global store: the store afterwards and the reply. */
  datatype Step<S> = Step(store: Option<S>, reply: Reply)

  function Handle<S>(store: Option<S>, req: Request<S>): (r: Step<S>)
    // `ask` never changes the global store.
    ensures req.AskRequest? ==> r.store == store
  {
    match req
    case UploadRequest(f, b) =>
      var u := Upload(store, f, b);
      Step(u.store, UploadReplied(u.reply))
    case AskRequest(q, c) => Step(store, AskReplied(Ask(store, q, c)))
  }

  /** The global store after serving `reqs` one after another. */
  function Serve<S>(store: Option<S>, reqs: seq<Request<S>>): Option<S>
    decreases |reqs|
  {
    if |reqs| == 0 then store else Serve(Handle(store, reqs[0]).store, reqs[1..])
  }

  /** The store built by the last successful upload in `reqs`, or `store`
      when no upload in `reqs` succeeded. */
  function LastBuilt<S>(store: Option<S>, reqs: seq<Request<S>>): Option<S>
    decreases |reqs|
  {
    if |reqs| == 0 then store
    else
      var last := reqs[|reqs| - 1];
      if last.UploadRequest? && last.built.Success? then Some(last.built.value)
      else LastBuilt(store, reqs[..|reqs| - 1])
  }

  /** After any sequence of requests the global store is the one built by the
      last successful upload: asks and failed uploads never change it, and
      uploads replace rather than merge. */
  lemma {:induction false} ServeKeepsLastBuilt<S>(store: Option<S>, reqs: seq<Request<S>>)
    ensures Serve(store, reqs) == LastBuilt(store, reqs)
    decreases |reqs|
  {
    if |reqs| > 0 {
      var next := Handle(store, reqs[0]).store;
      ServeKeepsLastBuilt(next, reqs[1..]);
      LastBuiltSplit(store, reqs);
    }
  }

  /** Peeling the first request off: the last successful upload of `reqs` is
      that of its tail, started from the store the first request leaves. */
  lemma {:induction false} LastBuiltSplit<S>(store: Option<S>, reqs: seq<Request<S>>)
    requires |reqs| > 0
    ensures LastBuilt(store, reqs) == LastBuilt(Handle(store, reqs[0]).store, reqs[1..])
    decreases |reqs|
  {
    if |reqs| > 1 {
      var front := reqs[..|reqs| - 1];
      assert front[0] == reqs[0];
      assert front[1..] == reqs[1..][..|reqs[1..]| - 1];
      LastBuiltSplit(store, front);
    }
  }

  /** Once an upload succeeds, every following `ask` is answered from the
      freshly built store, whatever was there before. */
  lemma AskAfterUpload<S>(store: Option<S>, filename: string, s: S, query: Option<string>,
      chain: (S, string) -> Result<QaResponse, string>)
    ensures Ask(Upload(store, filename, Success(s)).store, query, chain) == Ask(Some(s), query, chain)
    ensures !QueryMissing(query) && chain(s, PromptPrefix + query.value).Success? ==>
      Ask(Upload(store, filename, Success(s)).store, query, chain).value.Answer?
  {
  }
}
