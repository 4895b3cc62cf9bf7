/** The upload handler as main.py writes it, for comparison with
    `Service.Upload`.

    On success, main.py assigns to the global store the value returned by
    `create_vector_store` (ingest.py), and that value is not the store but the
    summary dictionary `{"message": ..., "index_name": ...}`. The global is
    then not `None`, so a later `ask` with a query goes past both of its checks
    and calls `as_retriever()` on the dictionary, which raises. */
module UploadAsWritten {
  import opened Wrappers
  import Service

  /** What the global `vector_store` can hold under the code as written. */
  datatype Global<S> =
    | Unset                                           // `None`
    | FaissStore(store: S)                            // a loaded or built store
    | Summary(message: string, indexName: string)     // the dictionary of ingest.py

  /** The message in the dictionary `create_vector_store` returns. */
  const SummaryMessage: string := "Vector store created successfully and uploaded to S3"

  /** What `dict.as_retriever()` raises. */
  const NoRetrieverError: string := "'dict' object has no attribute 'as_retriever'"

  /** `upload_document` as written: the built store is discarded and the
      summary dictionary takes its place. */
  function UploadAsWritten<S>(g: Global<S>, filename: string, built: Result<S, string>): (r: (Global<S>, Service.UploadReply))
    ensures built.Success? ==> r.0.Summary? && r.0.indexName == Service.IndexName(filename)
    ensures built.Success? ==> r.1 == Service.Upload(None, filename, built).reply
    ensures built.Failure? ==> r.0 == g && r.1 == Service.Upload(None, filename, built).reply
  {
    match built
    case Success(_) =>
      (Summary(SummaryMessage, Service.IndexName(filename)),
       Service.Indexed(Service.IndexedMessage, Service.IndexName(filename)))
    case Failure(e) => (g, Service.UploadFailed(Service.UploadFailurePrefix + e))
  }

  /** `ask` over whatever the global holds: a store or `None` behave as in
      `Service.Ask`; the dictionary passes the `None` check and, given a
      query, fails when the chain is built over it. */
  function AskAsWritten<S>(g: Global<S>, query: Option<string>,
                           chain: (S, string) -> Result<Service.QaResponse, string>): (r: Result<Service.AskReply, string>)
    ensures g.Unset? ==> r == Service.Ask(None, query, chain)
    ensures g.FaissStore? ==> r == Service.Ask(Some(g.store), query, chain)
    ensures g.Summary? && Service.QueryMissing(query) ==> r == Success(Service.AskMessage(Service.QueryMissingMessage))
    ensures g.Summary? && !Service.QueryMissing(query) ==> r == Failure(NoRetrieverError)
  {
    match g
    case Unset => Service.Ask(None, query, chain)
    case FaissStore(s) => Service.Ask(Some(s), query, chain)
    case Summary(_, _) =>
      if Service.QueryMissing(query) then Success(Service.AskMessage(Service.QueryMissingMessage))
      else Failure(NoRetrieverError)
  }

  /** As written, every question asked after a successful upload raises,
      whatever the chain would have answered and whatever was loaded before. */
  lemma AskAfterUploadRaisesAsWritten<S>(g: Global<S>, filename: string, s: S, query: Option<string>,
      chain: (S, string) -> Result<Service.QaResponse, string>)
    requires !Service.QueryMissing(query)
    ensures AskAsWritten(UploadAsWritten(g, filename, Success(s)).0, query, chain) == Failure(NoRetrieverError)
  {
  }

  /** One concrete instance: upload "report.pdf" into an empty service, then
      ask a question the chain answers. As written the ask raises; with the
      corrected upload it returns the chain's answer and its one source. */
  lemma ReportPdfCounterexample()
    ensures var chain := (s: int, p: string) =>
              Success(Service.QaResponse("It is about ponds.", [Service.Doc("text", map["source" := "report.pdf"])]));
            var q := Some("What is the main topic?");
            && AskAsWritten(UploadAsWritten(Unset, "report.pdf", Success(7)).0, q, chain) == Failure(NoRetrieverError)
            && Service.Ask(Service.Upload(None, "report.pdf", Success(7)).store, q, chain)
               == Success(Service.Answer("It is about ponds.", ["report.pdf"]))
  {
    var docs := [Service.Doc("text", map["source" := "report.pdf"])];
    assert Service.SourcesOf(docs) == ["report.pdf"];
    assert Service.Dedup(["report.pdf"]) == ["report.pdf"];
  }
}
