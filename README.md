# Quotes RAG worker: a Dafny model

The worker is a Hono application on Cloudflare Workers that stores quotes and answers questions with one of them. It has two request handlers:

- `POST /quotes` takes a body `{ text }`. It inserts the quote into D1 and embeds the text with Workers AI. It then upserts the embedding into the Vectorize index under the new row's id, rendered as a string.
- `GET /` takes an optional query parameter `text`, the question. It embeds the question and asks Vectorize for the 8 nearest quote ids. It fetches those rows from D1 above the seed-row floor (`id > 100000`) and renders them into a context message. It then asks the chat model for one quote.

The model is split into five modules:

- `Wrappers` holds `Option`.
- `Text` holds JavaScript's `join` and integer `toString`. Beside them are a splitter and a decimal parser, with round-trip lemmas.
- `Services` holds the entities and the bindings. It also holds the index upsert, over a `map<string, Entry>`.
- `Prompt` holds the pure builders of the question path. These are the match-id list, the SQL text, the context message and the message list. The SQL text and the context message each have a reader and a round-trip lemma. The rows the SQL text asks for have a reference filter. The id list and the message list are specified element by element.
- `Worker` holds the class `QuoteWorker`. Its mutable state is the Vectorize index, and a ghost log records every binding request in order. `CreateQuote` and `Ask` are the two handlers, written as methods.

Each binding (D1 `run`/`all`, Workers AI embedding and chat, Vectorize `query`) is a function-typed field of an injected `Env`. Each one is asked once per request, so each stands for the answer the service gave.

## Model

| member | source | states |
|---|---|---|
| `Worker.QuoteWorker.CreateQuote` | src/index.js:6-42 | Missing or empty `text` gives 400 "Missing text", with no binding called and the index unchanged. If the insert returns no row, the result is 500 "Failed to create quote": only the insert was called and the index is unchanged. If the embedding has no first vector, the result is 500 "Failed to generate vector embedding": only the insert and the embedding were called and the index is unchanged. On success, exactly one entry is written, holding the first vector with no metadata, under `id.toString()`. That key reads back to the row's id. The response is 200 `{id, text, inserted}` with the row's id and the original text. The key invariant is preserved. |
| `Worker.QuoteWorker.Upsert` | src/index.js:34-39 | Given keys rendered by `toString()`, as every call site passes, the key invariant is kept. The index becomes the old index with the batch upserted. The call is logged. The receipt counts and names the ids written. |
| `Worker.QuoteWorker.Ask` | src/index.js:45-86 | A question over 500 characters gives 500 with the rejection JSON, and no binding is called. Otherwise exactly four requests are made, in order. The question is embedded. The first vector is queried with topK 8. The SQL built from the match ids is run with the question as its one bound parameter. The chat model gets the message list. The answer is returned as 200 JSON. With no match, the chat model gets only the system prompt and the question. |
| `Worker.Question` | src/index.js:47 | The question is never empty. It is the query parameter when that is present and non-empty, and otherwise "What is the square root of 9?". |
| `Services.UpsertAll` | src/index.js:34-39 | The keys are the old keys plus the batch's ids. Each key named by the batch holds the entry of the last record with that id. Every other key keeps its old entry. |
| `Services.UpsertIdempotent` | src/index.js:34-39 | Upserting the same batch twice leaves the index as upserting it once. |
| `Services.UpsertOne` | src/index.js:34-39 | Upserting one record overwrites that key and no other. |
| `Text.IntToString` | src/index.js:36 | `id.toString()` is an integer literal: digits, optionally after a minus sign. |
| `Text.IntRoundTrip` | src/index.js:36 | Every id reads back from its rendered key. |
| `Text.IntToStringInjective` | src/index.js:36 | Two ids render to the same key exactly when they are equal, so distinct quotes never share an index entry. |
| `Text.SplitJoin` | src/index.js:68 | Splitting a `join` at its separator gives the parts back, provided each part is non-empty and separator-free. |
| `Prompt.MatchIds` | src/index.js:65 | The id list has one element per match, in match order, and each element is that match's id. |
| `Prompt.SelectSql` | src/index.js:68 | The statement starts with `SELECT * FROM quotes where id IN (` and always ends with the `id > 100000` floor. |
| `Prompt.SelectSqlRoundTrip` | src/index.js:68 | The statement's `IN` list is exactly the match ids, in match order and joined by ", ". This needs every id to be non-empty and comma-free. |
| `Prompt.IntKeysHaveNoComma` | src/index.js:36 | Keys written by the write path are non-empty and comma-free, so the round trip above applies to them. |
| `Prompt.Surfaced` | src/index.js:68 | Reference filter: a row is kept exactly when its id is in the listed ids and above 100000. |
| `Prompt.ContextMessage` | src/index.js:71 | The message always starts with the fixed preamble. With no rows it is just the preamble. |
| `Prompt.Lines` | src/index.js:71 | There is one `<id>- <quote>` line per row, in row order. |
| `Prompt.ParseLineOf` | src/index.js:71 | Each rendered line reads back to its row's id and its `quote` column. |
| `Prompt.ContextRoundTrip` | src/index.js:71 | The context message cites every returned row, in row order, with the row's id and the text of its `quote` column (not `text`). This needs no quote to contain a newline. |
| `Prompt.ContextCitesOnlyMatches` | src/index.js:65-71 | When every returned row is one the reference filter keeps, the context message parses back, and every quote it cites has an id above 100000 and among the match ids. |
| `Prompt.Conversation` | src/index.js:75-81 | The messages are the context (present exactly when there was a match), then system "You are a helpful assistant", then the user's question. |
| `Prompt.MatchesWithoutRowsSendPreamble` | src/index.js:71-77 | With at least one match but no rows returned, the context message is still sent, and it is the bare preamble. |

## Left out

- Hono routing, `c.req.json()`/`c.req.query()` parsing, response shaping and `app.onError` are framework plumbing. A request body that is not JSON, or a binding that throws, ends in `onError`; none of this is modelled.
- CreateQuote: the body's `text` is modelled as an optional string. JSON values that are not strings (numbers, booleans) are not modelled.
- Ask and CreateQuote: each binding is a function of its request, so two identical requests get identical answers. The real models are non-deterministic, and their values (embeddings as floating point, the chat text) are opaque.
- Ask: `question.length` counts UTF-16 code units, and the model counts Dafny characters. A question containing characters outside the Basic Multilingual Plane counts shorter in the model.
- Ask: when the embedding returns no vector, the source passes `undefined` to the index query without checking it. The model passes `None` to the query binding, and what the binding does with it belongs to the binding.
- Vectorize similarity ranking and scores are external. The matches come from the query binding and are not tied to the index contents, which Vectorize updates asynchronously.
- D1 evaluation is external. The selected rows come from the `all` binding. `Surfaced` is a reference filter for `IN` and the floor, and it does not include `id <> ( ? )`: that exclusion compares the integer id with the bound question text, and its outcome depends on SQLite's type affinity rules, which are not modelled.
- Text.IntToString: renders plain decimal for every integer. JavaScript switches to exponent form at 1e21, and D1 ids above 2^53 lose precision as JavaScript numbers.
- Worker.QuoteWorker.Upsert: the receipt is modelled as the count and the ids written. Any mutation id the service returns is not modelled.
- Services.UpsertAll: within one batch, a later record with the same id wins. The worker only ever sends one-record batches.
- `/populate` (src/index.js:92-111) is left out. It loops over a page of rows, embedding and upserting each with `{author, quote}` metadata, and has no logic of its own. `Entry` keeps a metadata slot for it.
- `console.log` calls are left out.

## Notes on the code

- A created quote is answered with `c.json(...)` and no status, which is 200 (src/index.js:41).
- A D1 failure in `GET /` is not caught and reaches `onError` (src/index.js:69, 88-90). The model therefore always uses the rows the `all` binding returns.
- The exclusion parameter of the question path's statement is the question string, not a quote id. The model keeps this exactly: the logged `DbAll` call binds the question.
