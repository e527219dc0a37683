/**
 * The worker's entities and the Cloudflare bindings it talks to (D1, Workers AI,
 * Vectorize). The bindings are an injected environment of functions: each
 * answers one kind of request and is otherwise unconstrained. Every request the
 * handlers make is recorded as a `Call`, so that a handler's contract can say
 * exactly which requests it made, in order (none at all on an early exit).
 */
module Services {
  import opened Wrappers

  /** An embedding as Workers AI returns it; its floating-point values stay opaque. */
  type Vector = seq<real>

  /** One column value of a D1 row. */
  datatype Cell = TextCell(s: string) | NullCell

  /** A row of the `quotes` table: its integer primary key and the other columns by name. */
  datatype Row = Row(id: int, columns: map<string, Cell>)

  /** What Vectorize stores under one id. */
  datatype Entry = Entry(values: Vector, metadata: Option<map<string, string>>)

  /** One element of the array given to `VECTORIZE_INDEX.upsert`. */
  datatype Record = Record(id: string, values: Vector, metadata: Option<map<string, string>>)

  /** One element of `vectorQuery.matches`, best first. */
  datatype Match = Match(id: string, score: real)

  datatype Role = System | User

  /** One element of the `messages` array sent to the chat model. */
  datatype Message = Message(role: Role, content: string)

  /** The `text` input of an embedding request: one string, or an array of them. */
  datatype EmbedInput = Single(text: string) | Batch(texts: seq<string>)

  /** The value `upsert` resolves to: how many vectors were written, and their ids. */
  datatype Receipt = Receipt(count: nat, ids: seq<string>)

  /** One request sent to a binding, with its arguments. */
  datatype Call =
    | DbRun(sql: string, param: string)          // DB.prepare(sql).bind(param).run()
    | DbAll(sql: string, param: string)          // DB.prepare(sql).bind(param).all()
    | AiEmbed(model: string, input: EmbedInput)  // AI.run(embedding model, { text })
    | AiChat(model: string, messages: seq<Message>) // AI.run(chat model, { messages })
    | IndexUpsert(records: seq<Record>)          // VECTORIZE_INDEX.upsert(records)
    | IndexQuery(vector: Option<Vector>, topK: nat) // VECTORIZE_INDEX.query(vector, { topK })

  /**
   * The bindings, as the answers they give: `run` and `all` return the result
   * rows of a statement bound to one parameter, `embed` the `data` array of
   * vectors, `chat` the `response` string, `query` the `matches` array.
   */
  datatype Env = Env(
    run: (string, string) -> seq<Row>,
    all: (string, string) -> seq<Row>,
    embed: (string, EmbedInput) -> seq<Vector>,
    chat: (string, seq<Message>) -> string,
    query: (Option<Vector>, nat) -> seq<Match>)

  // ---------------------------------------------------------------------------
  // The vector index
  // ---------------------------------------------------------------------------

  function EntryOf(r: Record): Entry
  {
    Entry(r.values, r.metadata)
  }

  function RecordIds(records: seq<Record>): (ids: seq<string>)
    ensures |ids| == |records|
    ensures forall k :: 0 <= k < |records| ==> ids[k] == records[k].id
  {
    if records == [] then [] else [records[0].id] + RecordIds(records[1..])
  }

  /** The last record of the batch with id `key`, if there is one. */
  function Latest(records: seq<Record>, key: string): (r: Option<Record>)
    ensures r.Some? ==> r.value.id == key && r.value in records
    ensures r.None? <==> forall k :: 0 <= k < |records| ==> records[k].id != key
  {
    if records == [] then None
    else if records[|records| - 1].id == key then Some(records[|records| - 1])
    else Latest(records[..|records| - 1], key)
  }

  /**
   * The index after upserting `records` one after the other. Each key ends
   * up holding the latest record written under it; keys no record names keep
   * their entries.
   */
  function UpsertAll(index: map<string, Entry>, records: seq<Record>): (r: map<string, Entry>)
    ensures r.Keys == index.Keys + set k | 0 <= k < |records| :: records[k].id
    ensures forall key :: key in r ==>
      r[key] == match Latest(records, key) { case Some(rec) => EntryOf(rec) case None => index[key] }
    decreases |records|
  {
    if records == [] then index
    else
      var last := records[|records| - 1];
      var front := records[..|records| - 1];
      assert forall key :: Latest(records, key) == (if last.id == key then Some(last) else Latest(front, key));
      assert (set k | 0 <= k < |records| :: records[k].id) ==
        (set k | 0 <= k < |front| :: front[k].id) + {last.id};
      UpsertAll(index, front)[last.id := EntryOf(last)]
  }

  /** Upserting the same batch twice leaves the index as upserting it once. */
  lemma UpsertIdempotent(index: map<string, Entry>, records: seq<Record>)
    ensures UpsertAll(UpsertAll(index, records), records) == UpsertAll(index, records)
  {
  }

  /** Upserting one record sets that one key and leaves every other key as it was. */
  lemma UpsertOne(index: map<string, Entry>, rec: Record)
    ensures UpsertAll(index, [rec]) == index[rec.id := EntryOf(rec)]
  {
  }
}
