# simple-rag core in Dafny

A model of the two pieces of the simple-rag service that carry behaviour of
their own, with the third-party clients (Chroma, OpenAI) reduced to the values
they hand back.

- **Question answering** (`QA`, `qa_engine.dfy`). `QAEngine` holds its two
  collaborators as functions: the store's retrieval `query(question, n)` and the
  model's reply `complete(prompt)`, given as the list of tool calls with their
  `answer` argument already decoded. `AnswerQuestion` retrieves up to
  `nDocuments` texts (5 by default) and returns `None` at once when none come
  back. Otherwise it joins the texts with `"\n----- DOCUMENT SEPARATOR -----\n"`
  and fills `PROMPT_TEMPLATE` with them and the question. It returns `None` when
  the reply has no tool call or when the first call answers `DONT_KNOW`.
  In every other case it returns the answer together with the retrieved texts,
  unchanged. The Python built-ins the prompt is made with (`str.join` and
  `str.format` with named fields) are modelled in `Builtins`
  (`builtins.dfy`), together with `zip`, which `get_all_documents` uses.
- **Document store** (`Store`, `document_store.dfy`, over `Chroma`,
  `chroma.dfy`). `Collection` stands for the Chroma collection: a class whose
  state is the sequence of `(id, text)` entries. `DocumentStore` holds the
  collection and has four operations:
  - `AddDocuments` validates the whole batch first, then stores one entry per
    text under a fresh id;
  - `Query` unwraps the first row of the search reply;
  - `GetAllDocuments` pairs the ids with the texts;
  - `DeleteDocument` removes the entry with that id and ignores an unknown id.

  `Scenarios` (`scenarios.dfy`) wires the engine to a store and replays the
  situations of the program's test suite as client code.

Collaborators that are parameters rather than code:
- `uuid4` is the parameter `uuid: nat -> string`, the id drawn for the i-th
  text. The caller promises what `uuid4` gives: ids distinct within the batch
  and new to the collection.
- Chroma's similarity search is the parameter `search: Search`.
  `Chroma.Answers` states what a reply may contain: at most `n` texts per row,
  each one stored in the collection.
- The model is the function `complete`.

Modelling choices:
- Python exceptions become values: `ValueError` is `Fail(StoreError)` and `KeyError` is `Err(name)`.
- `tool_calls` being `None` and being an empty list are both an empty sequence.

## Model

| member | source | states |
|---|---|---|
| `QA.QAEngine.AnswerQuestion` | src/easy_cs/qa_engine.py:48-81 | an empty retrieval gives `None`; a returned answer is never `DONT_KNOW`, is the first tool call's answer to the prompt built from the retrieved texts, and carries exactly the retrieved sequence; a `None` after a non-empty retrieval means no tool call or the sentinel |
| `QA.AnswerIffGrounded` | src/easy_cs/qa_engine.py:53-81 | the result is `Some` exactly when documents came back, the model made a tool call, and its answer is not the sentinel |
| `QA.NoDocumentsNoModelCall` | src/easy_cs/qa_engine.py:51-54 | with an empty retrieval the result is `None` whatever the model would reply, so the model is not consulted |
| `QA.QueryOnlyWithQuestionAndCount` | src/easy_cs/qa_engine.py:48-51 | the store is asked only `(question, n_documents)`: a retriever that agrees on that request gives the same result |
| `QA.ModelSeesOnlyThePrompt` | src/easy_cs/qa_engine.py:56-70 | the model is asked only the built prompt: a model that agrees on that prompt gives the same result |
| `QA.BuildPrompt` | src/easy_cs/qa_engine.py:57 | the prompt is the template with the documents string right after the `DOCUMENT LIST START` line and before the `DOCUMENT LIST END` line, and the question between the `QUESTION START` and `QUESTION END` lines |
| `QA.PromptTemplate` | src/easy_cs/qa_engine.py:7-22 | `PROMPT_TEMPLATE` divided at its two fields: lead text, `{documents}`, middle text, `{question}`, trailing text; its fields in `PromptTemplateFields`, its filling in `PromptLayout` |
| `QA.PromptLayout` | src/easy_cs/qa_engine.py:7-22 | formatting the template with both arguments succeeds and yields lead text, documents, middle text, question, trailing text |
| `QA.PromptTemplateFields` | src/easy_cs/qa_engine.py:7-22 | the template's replacement fields are exactly `documents` and `question`, so its `format` call never raises |
| `QA.DocumentsString` | src/easy_cs/qa_engine.py:56 | the retrieved texts joined with the document separator; its layout in `DocumentsInOrder` and `SingleDocumentString` |
| `QA.SingleDocumentString` | src/easy_cs/qa_engine.py:56 | one retrieved document is passed on as it is, with no separator |
| `QA.DocumentsInOrder` | src/easy_cs/qa_engine.py:56 | in the documents string, document `i` appears verbatim at its offset and is followed by the separator unless it is last, and the string is exactly as long as the documents and the separators between them |
| `QA.SingleDocumentAnswer` | tests/test_qa_engine.py:33-49 | one retrieved document and a non-sentinel answer give that answer with a one-element document list equal to that document |
| `QA.SentinelAnswerIsNone` | tests/test_qa_engine.py:64-74 | a retrieved document with a `DONT_KNOW` reply gives `None` |
| `Builtins.Join` | src/easy_cs/qa_engine.py:56 | `sep.join(parts)`: the parts in order with `sep` between neighbours; its layout in `JoinLayout`, `JoinPartAt`, `JoinSeparatorAfter`, `JoinLength` and `JoinSnoc` |
| `Builtins.JoinPartAt` | src/easy_cs/qa_engine.py:56 | `sep.join(parts)` holds part `i` verbatim at the sum of the earlier parts' and separators' lengths |
| `Builtins.JoinSeparatorAfter` | src/easy_cs/qa_engine.py:56 | exactly one separator stands between consecutive parts of `sep.join(parts)` |
| `Builtins.JoinLength` | src/easy_cs/qa_engine.py:56 | the joined string is as long as the parts plus one separator between each pair of neighbours |
| `Builtins.JoinLayout` | src/easy_cs/qa_engine.py:56 | the length, part-at-offset and separator-between facts of `sep.join(parts)` together, for any separator |
| `Builtins.JoinSnoc` | src/easy_cs/qa_engine.py:56 | joining one more part appends a separator and that part |
| `Builtins.Format` | src/easy_cs/qa_engine.py:57 | `template.format(**args)`: literals kept, each field replaced by its argument, `KeyError` for the leftmost field without one; stated in `FormatSucceeds`, `FormatConcat` and `FormatTwoFields` |
| `Builtins.FormatSucceeds` | src/easy_cs/qa_engine.py:57 | `str.format` succeeds exactly when every field has an argument; a `KeyError` names a field without one |
| `Builtins.FormatConcat` | src/easy_cs/qa_engine.py:57 | formatting a concatenated template formats each part in turn, the first failure winning |
| `Builtins.FormatTwoFields` | src/easy_cs/qa_engine.py:57 | a two-field template with both arguments formats to the literals with the arguments in place |
| `Builtins.Zip` | src/simple_rag/document_store.py:43 | `zip` gives as many pairs as the shorter list, pair `i` being the two `i`-th elements |
| `Store.ValidateDocuments` | src/simple_rag/document_store.py:14-19 | an empty batch fails with the first `ValueError`; a non-empty batch containing an empty text fails with the second; otherwise it passes |
| `Store.DocumentStore.AddDocuments` | src/simple_rag/document_store.py:13-22 | a failing batch raises and leaves the collection unchanged, so nothing is partly inserted; a passing batch appends one entry per text, in order, under the i-th fresh id; the size grows by the batch length and every text is stored; ids stay unique |
| `Store.FirstRow` | src/simple_rag/document_store.py:27-35 | no reply or no documents gives an empty list; a reply with a first row gives that row, and a non-empty result is that row |
| `Store.Listing` | src/simple_rag/document_store.py:40-43 | no reply or no texts gives an empty list; otherwise pair `i` is the `i`-th id with the `i`-th text, as many pairs as the shorter list |
| `Store.DocumentStore.Query` | src/simple_rag/document_store.py:24-35 | the reply's first row when it has one, otherwise nothing; for any reply Chroma may give, at most `n_results` texts, each a stored one |
| `Store.DocumentStore.GetAllDocuments` | src/simple_rag/document_store.py:37-43 | one `(id, text)` pair per stored entry, in the model's collection order (insertion order, see Left out) |
| `Store.DocumentStore.DeleteDocument` | src/simple_rag/document_store.py:45-46 | the new entries are the old ones without the id, in their order; an unknown id leaves the collection unchanged; a known id removes its one entry: size drops by one, the id is gone, every other entry remains; ids stay unique |
| `Store.DocumentStore.constructor` | src/simple_rag/document_store.py:10-11 | the store wraps the given collection |
| `Chroma.Collection.Add` | src/simple_rag/document_store.py:22 | the new entries follow the old ones, text `i` under id `i`; ids stay unique |
| `Chroma.Collection.Delete` | src/simple_rag/document_store.py:46 | the entries become those of the old collection without the id |
| `Chroma.Collection.Get` | src/simple_rag/document_store.py:38 | a reply with ids and texts, one of each per entry, entry `i`'s id and text at position `i` |
| `Chroma.Without` | src/simple_rag/document_store.py:46 | the entries left after deleting an id, in their order; stated in `WithoutMembers`, `WithoutUnknown` and `WithoutKnown` |
| `Chroma.WithoutMembers` | src/simple_rag/document_store.py:46 | deletion keeps exactly the entries with another id and never grows the collection |
| `Chroma.WithoutUnknown` | src/simple_rag/document_store.py:46 | deleting an id that no entry carries changes nothing |
| `Chroma.WithoutKnown` | src/simple_rag/document_store.py:46 | with unique ids, deleting entry `k`'s id removes exactly entry `k` |
| `Scenarios.AnswerFromStore` | src/easy_cs/qa_engine.py:51 | an engine over an empty collection answers `None`; an answer carries exactly the store's query result |
| `Scenarios.AddTwo` | tests/test_document_store.py:8-18 | adding two texts gives a listing of two entries in which each text occurs |
| `Scenarios.AddNone` | tests/test_document_store.py:21-25 | an empty batch is refused and nothing is stored |
| `Scenarios.AddWithEmptyText` | src/simple_rag/document_store.py:17-22 | a batch with an empty text is refused as a whole, including the valid text before it |
| `Scenarios.DeleteListed` | tests/test_document_store.py:55-61 | deleting the first listed id of three leaves the other two and not the deleted one |
| `Scenarios.DeleteUnknown` | tests/test_document_store.py:63-69 | deleting `non_existent` leaves the listing exactly as it was |
| `Scenarios.ListTwice` | src/simple_rag/document_store.py:37-43 | listing twice with no change in between gives the same pairs |

## Left out

- OpenAI call parameters (model name, temperature, token limit, tool schema and tool choice): a foreign client call; only its list of tool calls is modelled.
- JSON decoding of the tool-call arguments: a library call. `ToolCall` carries the decoded `answer` string. Bad JSON or a missing `answer` key is a propagated fault and is not modelled, because a fault is not a result value.
- Transport, quota and authentication faults of either client: they propagate in the program and are not values of the model.
- Chroma's similarity ranking: embedding numerics inside a third-party library. It is the `search` oracle, constrained only by `Chroma.Answers`. Hence a text added and then searched for is not proved to come back.
- `uuid4`: randomness. It is a parameter, and freshness and distinctness are preconditions on it.
- The parse of `PROMPT_TEMPLATE` by `str.format` is not modelled. The template is written already divided at `{documents}` and `{question}`. The constants `Lead`, `Middle` and `Trail` hold its literal text, and `PromptTemplateFields` shows these are its only fields.
- `Chroma.Collection.Get`: lists entries in insertion order, an order Chroma does not promise; the program and its tests rely only on membership, and `Scenarios.AddTwo` states membership only.
- `Chroma.Collection.Add`: adding an id the collection already holds is excluded by its precondition, so Chroma's handling of duplicate ids is not modelled.
- `Chroma.Collection.Delete`: takes one id, which is the only way the store calls Chroma's list-of-ids delete.
- `get_document_store` and `get_document_store_for_testing`: client construction and persistence configuration.
- src/simple_rag/api.py: HTTP routing and response shaping. It also calls a store factory that the store module does not define.
- src/simple_rag/config.py: constants only.
- tests/base.py: a test fixture. A fresh collection is `Chroma.Collection`'s constructor.
- Both test files import `easy_cs.document_store`, which is not part of this model. The tests cited for `Scenarios` members (tests/test_document_store.py, tests/test_qa_engine.py) therefore exercise that module's store; the scenarios replay them against `src/simple_rag/document_store.py`'s store, and `Scenarios.AnswerFromStore` links the engine to it.
- The "documents field is `None`" branch of `get_all_documents` is modelled in `Store.Listing`. `Collection.Get` always returns the texts, so that branch is not reached through `GetAllDocuments`.
