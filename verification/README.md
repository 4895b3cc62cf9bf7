# Retry policy and request handlers of a document question-answering service

The service accepts PDF uploads, chunks and embeds them into a FAISS vector
store, and answers questions by retrieving chunks and asking a language model.
Almost all of that happens inside foreign libraries (LangChain, FAISS, the
OpenAI client, boto3, FastAPI). This project models the two pieces of logic
the repository itself owns:

- **`Retry`** (`retry.dfy`): `create_vector_store_with_retry` in ingest.py.
  The foreign "embed and build" call is a script `nat -> Attempt<S>` giving
  the outcome of attempt `k`: a built store, an `OpenAIError`, or another
  exception. `time.sleep` becomes a recorded list of wait durations. The
  method `CreateVectorStoreWithRetry` follows the loop statement for statement.
  The ghost predicate `IsRun` characterises its run completely: attempt count,
  wait schedule and outcome. The lemmas derive the policy's promises from it.
- **`Service`** (`service.dfy`): the `upload_document` and `ask` handlers of
  main.py over the one global store. The store is an opaque type parameter `S`
  and the global is an explicit `Option<S>`. What storing, parsing, chunking
  and indexing an upload produced is an input: a store, or the text of the
  exception raised. The retrieval-QA chain is also an input, a function from
  (store, prompt) to a response or an exception. The prompt is the query
  behind the fixed sentence of rag_bot.py. `Handle` and `Serve` run a sequence
  of requests against the global store.
- **`UploadAsWritten`** (`upload_as_written.dfy`): the upload handler exactly
  as main.py writes it, which stores the wrong value (see Findings).
- **`Wrappers`** (`wrappers.dfy`): `Option` and `Result`.

Points where the code is followed literally:

- Every `OpenAIError` is retried, authentication failures included. Only other
  exceptions escape at once.
- A wait of `2 ** k` follows the `k`-th caught failure, the last one included.
  So exhaustion sleeps `2 ** (max_retries + 1) - 2` in total before raising
  "Max retries exceeded. Please try again later."
- `upload_document` calls `create_vector_store`, not the retrying variant. The
  retry policy therefore governs `process_document` and upload.py, not this
  handler.
- An upload replaces the store wholesale; nothing of the previous store is kept.
- `list(set(...))` promises no order. The model returns sources in order of
  first occurrence, and the contracts promise only "each cited source exactly
  once".

## Model

| member | source | states |
|---|---|---|
| Retry.CreateVectorStoreWithRetry | ingest.py:40-52 | The run satisfies `IsRun`. The first `n` attempts raised `OpenAIError` and the `k`-th was followed by a wait of `2 ** k`. Then attempt `n` returned a store, which is the result, or raised another error, which escapes; either way within `max_retries` attempts. Otherwise all `max(max_retries, 0)` attempts failed and the loop raised the exhaustion error. |
| Retry.RunIsUnique | ingest.py:40-52 | The script and the bound determine the run: any two runs satisfying `IsRun` are equal, so `IsRun` is a complete description of the loop. |
| Retry.AttemptsWithinBudget | ingest.py:41-42 | At most `max_retries` attempts are made. There is one wait per attempt on exhaustion, and one fewer when a return or an uncaught exception ends the loop. |
| Retry.TotalBackoff | ingest.py:48-51 | Waits following the backoff schedule for `n` failures add up to `2 ** (n + 1) - 2`. |
| Retry.SuccessAfterFailures | ingest.py:43-51 | After `n < max_retries` caught failures, a successful attempt `n` returns its store after exactly `n + 1` attempts, with `n` waits totalling `2 ** (n + 1) - 2`, and nothing further. |
| Retry.OtherErrorPropagates | ingest.py:43-47 | A non-`OpenAIError` exception at attempt `n` is the outcome. It comes after exactly `n + 1` attempts and no wait follows it. |
| Retry.LengthOfRun | ingest.py:42-48 | If attempt `n` is the first, within the budget, not to raise `OpenAIError`, the loop slept exactly `n` times and did not exhaust. |
| Retry.ExhaustedAfterRetryableFailures | ingest.py:42-52 | `max_retries` consecutive `OpenAIError`s end in the exhaustion error after exactly `max_retries` attempts. Because a wait follows the last failure too, the total wait is `2 ** (max_retries + 1) - 2`. |
| Retry.DefaultExhaustionWaits62 | ingest.py:40-52 | With the default `max_retries=5`, exhaustion takes 5 attempts and 62 time units of waiting. |
| Retry.NoAttemptsWithoutBudget | ingest.py:41-52 | With `max_retries <= 0` no attempt and no wait is made; the exhaustion error comes at once. |
| Service.Dedup | main.py:144 | The result has no duplicates and holds exactly the values of its input. |
| Service.UniqueSources | main.py:144 | The `sources` list has no duplicates. A value is in it iff some retrieved document has it as `source` metadata, or it is "Unknown" and some retrieved document has no `source`. |
| Service.Ask | main.py:127-146 | No store gives "No documents available. Please upload a document first." whatever the query, so this check comes first. A store with an absent or empty query gives "Query not provided in the request.". Otherwise the chain runs on the store and the prefixed prompt. Its exception escapes; its answer is returned with the unique sources of its documents. |
| Service.AskWithoutStoreOrQueryIgnoresChain | main.py:131-137 | Without a store or a query the reply is a message that does not depend on the chain, so the language model is not consulted. |
| Service.Upload | main.py:65-88 | Success replaces the store with the built one and replies "File uploaded & indexed successfully!" with index name = file name followed by ".index". Failure keeps the store and replies "Failed to upload document: " followed by the exception's text. |
| Service.IndexNameInjective | main.py:83-85 | Distinct file names give distinct index names, and the file name is the index name without its suffix. |
| Service.Handle | main.py:127-146 | An `ask` request never changes the global store. |
| Service.ServeKeepsLastBuilt | main.py:83-88 | After any sequence of requests, the global store is the one built by the last successful upload, or the initial store if no upload succeeded. |
| Service.AskAfterUpload | main.py:83-141 | After a successful upload, `ask` behaves exactly as over the freshly built store, whatever was there before. With a query the chain answers, the reply is an answer. |
| UploadAsWritten.UploadAsWritten | main.py:65-88 | As written, success puts the summary dictionary, holding the index name, into the global instead of the store. The reply equals the corrected handler's, and failure keeps the global. |
| UploadAsWritten.AskAsWritten | main.py:127-141 | Over `None` or a real store, `ask` is `Service.Ask`. Over the dictionary with a query it raises "'dict' object has no attribute 'as_retriever'". |
| UploadAsWritten.AskAfterUploadRaisesAsWritten | main.py:83-140 | As written, every question asked after a successful upload raises, whatever the chain would answer. |
| UploadAsWritten.ReportPdfCounterexample | main.py:83-146 | Uploading "report.pdf" and asking "What is the main topic?" raises as written. The corrected handler answers with sources `["report.pdf"]`. |

## Findings

| source | as written | input that shows it | evidently intended | confidence | as-written member | corrected member |
|---|---|---|---|---|---|---|
| main.py:83 | The global `vector_store` is assigned the return value of `create_vector_store`. That value is the dictionary `{"message": ..., "index_name": ...}` (ingest.py:70), not the store. | Upload "report.pdf" successfully, then ask "What is the main topic?". The global is not `None`, so `ask` calls `as_retriever()` on the dictionary and raises. | The global holds the built FAISS store, so the question is answered from it. | high; not executed | UploadAsWritten.AskAfterUploadRaisesAsWritten | Service.AskAfterUpload |

## Left out

- FAISS index construction, search and (de)serialisation, and embedding: these are foreign library code. The store is an opaque type, and the chain's retrieval and answer are inputs.
- PDF loading and chunking (`ingest_documents`): both are delegated to LangChain loaders and splitters. Their failures enter `Upload` as the exception text.
- S3 uploads and downloads, temporary files, environment checks and startup loading of a persisted index: these are I/O. The initial global store is a parameter.
- The raw-file upload to S3 before indexing is left out. A failed upload may already have stored the raw file; the model tracks only the global store.
- Logging, including the "Rate limit reached" warning before each wait.
- Real sleeping: waits are recorded, not slept.
- FastAPI request handling, `asyncio.to_thread` and concurrency: handlers are modelled as sequential state transitions.
- Request-body parsing: a body that is not JSON raises before the query check. `query` is modelled as an optional string; other JSON values, which Python tests for truthiness, are left out.
- The commented-out alternative handlers and functions are dead code.
