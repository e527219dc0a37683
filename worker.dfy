/**
 * The two request handlers of the quotes worker: `POST /quotes`, which stores a
 * quote and indexes its embedding, and `GET /`, which answers a question from
 * the quotes most similar to it. The Vectorize index is the worker's mutable
 * state; every binding request is appended to a ghost log.
 */
module Worker {
  import opened Wrappers
  import opened Text
  import opened Services
  import opened Prompt

  const EmbeddingModel: string := "@cf/baai/bge-large-en-v1.5"
  const ChatModel: string := "@cf/meta/llama-3.1-8b-instruct"
  const InsertSql: string := "INSERT INTO quotes (text) VALUES (?) RETURNING *"

  const TopK: nat := 8
  const MaxQuestionLength: nat := 500
  const DefaultQuestion: string := "What is the square root of 9?"

  const MissingText: string := "Missing text"
  const InsertFailed: string := "Failed to create quote"
  const EmbeddingFailed: string := "Failed to generate vector embedding"
  const Rejected: string := "Rejected. Your query is too long..."

  /** A JSON response body. */
  datatype Json = JString(s: string) | JCreated(id: int, text: string, inserted: Receipt)

  /** `c.text(body, status)` or `c.json(body, status)`; `c.json` without a status is 200. */
  datatype Response = TextResponse(status: nat, text: string) | JsonResponse(status: nat, json: Json)

  /** `!text` for the `text` field of the request body: absent, null or empty. */
  predicate Missing(text: Option<string>)
  {
    text == None || text == Some("")
  }

  /** `c.req.query("text") || "What is the square root of 9?"`. */
  function Question(param: Option<string>): (q: string)
    ensures q != ""
    ensures q == DefaultQuestion <==> param == None || param == Some("") || param == Some(DefaultQuestion)
    ensures param.Some? && param.value != "" ==> q == param.value
  {
    if param.Some? && param.value != "" then param.value else DefaultQuestion
  }

  /** `data[0]`: the first vector, `undefined` when there is none. */
  function First(vectors: seq<Vector>): Option<Vector>
  {
    if vectors == [] then None else Some(vectors[0])
  }

  class QuoteWorker {
    /** The Vectorize index: entries by id. */
    var index: map<string, Entry>
    /** Every binding request made so far, oldest first. */
    ghost var log: seq<Call>

    /** Every index key is a quote id rendered by `toString()`, so it reads back to that id. */
    ghost predicate Valid()
      reads this
    {
      forall key :: key in index ==> IsIntLiteral(key)
    }

    constructor (initial: map<string, Entry>)
      requires forall key :: key in initial ==> IsIntLiteral(key)
      ensures Valid() && index == initial && log == []
    {
      index := initial;
      log := [];
    }

    /** `VECTORIZE_INDEX.upsert(records)`: each record overwrites the entry under its id. */
    method Upsert(records: seq<Record>) returns (receipt: Receipt)
      requires Valid()
      requires forall k :: 0 <= k < |records| ==> IsIntLiteral(records[k].id)
      modifies this
      ensures Valid()
      ensures index == UpsertAll(old(index), records)
      ensures log == old(log) + [IndexUpsert(records)]
      ensures receipt == Receipt(|records|, RecordIds(records))
    {
      index := UpsertAll(index, records);
      log := log + [IndexUpsert(records)];
      receipt := Receipt(|records|, RecordIds(records));
    }

    /**
     * `POST /quotes` with request body field `text`: insert the quote, embed
     * it, index the embedding under the new row's id. Each step that fails
     * ends the request; nothing done before it is undone.
     */
    method CreateQuote(env: Env, text: Option<string>) returns (resp: Response)
      requires Valid()
      modifies this
      ensures Valid()
      // no text: 400, and no binding is called
      ensures Missing(text) ==>
        resp == TextResponse(400, MissingText) && log == old(log) && index == old(index)
      // the insert returned no row: 500, nothing embedded or indexed
      ensures !Missing(text) && env.run(InsertSql, text.value) == [] ==>
        && resp == TextResponse(500, InsertFailed)
        && log == old(log) + [DbRun(InsertSql, text.value)]
        && index == old(index)
      // no embedding came back: 500, the row stays inserted, the index is unchanged
      ensures (!Missing(text) && env.run(InsertSql, text.value) != []
               && env.embed(EmbeddingModel, Batch([text.value])) == []) ==>
        && resp == TextResponse(500, EmbeddingFailed)
        && log == old(log) + [DbRun(InsertSql, text.value), AiEmbed(EmbeddingModel, Batch([text.value]))]
        && index == old(index)
      // success: the index holds the first vector, without metadata, under the id's string
      ensures (!Missing(text) && env.run(InsertSql, text.value) != []
               && env.embed(EmbeddingModel, Batch([text.value])) != []) ==>
        var id := env.run(InsertSql, text.value)[0].id;
        var values := env.embed(EmbeddingModel, Batch([text.value]))[0];
        var key := IntToString(id);
        && ParseInt(key) == Some(id)
        && index == old(index)[key := Entry(values, None)]
        && log == old(log) + [DbRun(InsertSql, text.value), AiEmbed(EmbeddingModel, Batch([text.value])),
                              IndexUpsert([Record(key, values, None)])]
        && resp == JsonResponse(200, JCreated(id, text.value, Receipt(1, [key])))
    {
      if Missing(text) {
        return TextResponse(400, MissingText);
      }
      var t := text.value;

      var results := env.run(InsertSql, t);
      log := log + [DbRun(InsertSql, t)];
      if results == [] {
        return TextResponse(500, InsertFailed);
      }
      var record := results[0];

      var data := env.embed(EmbeddingModel, Batch([t]));
      log := log + [AiEmbed(EmbeddingModel, Batch([t]))];
      var values := First(data);
      if values.None? {
        return TextResponse(500, EmbeddingFailed);
      }

      var id := record.id;
      var key := IntToString(id);
      IntRoundTrip(id);
      var rec := Record(key, values.value, None);
      UpsertOne(index, rec);
      var inserted := Upsert([rec]);
      assert inserted.ids == [key];
      resp := JsonResponse(200, JCreated(id, t, inserted));
    }

    /**
     * `GET /` with query parameter `text`: embed the question, look up the 8
     * nearest quotes, fetch their rows above the seed floor, and ask the chat
     * model for one quote. Questions over 500 characters are rejected before
     * any binding is called. The index is only read.
     */
    method Ask(env: Env, param: Option<string>) returns (resp: Response)
      modifies this`log
      ensures |Question(param)| > MaxQuestionLength ==>
        resp == JsonResponse(500, JString(Rejected)) && log == old(log)
      ensures |Question(param)| <= MaxQuestionLength ==>
        var q := Question(param);
        var v := First(env.embed(EmbeddingModel, Single(q)));
        var ids := MatchIds(env.query(v, TopK));
        var sql := SelectSql(ids);
        var msgs := Conversation(ids, ContextMessage(env.all(sql, q)), q);
        && log == old(log) + [AiEmbed(EmbeddingModel, Single(q)), IndexQuery(v, TopK), DbAll(sql, q), AiChat(ChatModel, msgs)]
        && resp == JsonResponse(200, JString(env.chat(ChatModel, msgs)))
      // with no match, the chat model sees only the system prompt and the question
      ensures (|Question(param)| <= MaxQuestionLength
               && env.query(First(env.embed(EmbeddingModel, Single(Question(param)))), TopK) == []) ==>
        log[|log| - 1] == AiChat(ChatModel, [Message(System, SystemPrompt), Message(User, Question(param))])
    {
      var question := Question(param);
      if |question| > MaxQuestionLength {
        return JsonResponse(500, JString(Rejected));
      }

      var vectors := env.embed(EmbeddingModel, Single(question));
      log := log + [AiEmbed(EmbeddingModel, Single(question))];
      var vector := First(vectors);
      var matches := env.query(vector, TopK);
      log := log + [IndexQuery(vector, TopK)];

      var quotes := MatchIds(matches);
      var sql := SelectSql(quotes);
      var rows := env.all(sql, question);
      log := log + [DbAll(sql, question)];
      var contextMessage := ContextMessage(rows);

      var messages := Conversation(quotes, contextMessage, question);
      var answer := env.chat(ChatModel, messages);
      log := log + [AiChat(ChatModel, messages)];
      resp := JsonResponse(200, JString(answer));
    }
  }
}
