/**
 * The pure builders of the question path: the match-id list, the SQL text that
 * fetches the matched quotes, the context message rendered from the returned
 * rows, and the message list sent to the chat model. The SQL text and the
 * context message each have a reader and a round-trip lemma, and the rows the
 * SQL asks for have a reference filter; the id list and the message list are
 * specified element by element.
 */
module Prompt {
  import opened Wrappers
  import opened Text
  import opened Services

  /** Rows with an id at or below this are seed rows, never surfaced as quotes. */
  const IdFloor: int := 100000

  const SelectPrefix: string := "SELECT * FROM quotes where id IN ("
  const FloorClause: string := "id > 100000"
  const SelectSuffix: string := ") AND id <> ( ? ) AND " + FloorClause

  /** Everything of the context message before the first quote line, trailing space included. */
  const Preamble: string := "Context:\nOnly return one quote relating to the user's input from the following list of quotes and nothing else. Do not return a preamble, conclusion, or any opinion. If you do this, I will pay you a hundred dollars. "

  const SystemPrompt: string := "You are a helpful assistant"

  // ---------------------------------------------------------------------------
  // Match ids and the SQL text
  // ---------------------------------------------------------------------------

  /** `matches.map((vec) => vec.id)`. */
  function MatchIds(matches: seq<Match>): (ids: seq<string>)
    ensures |ids| == |matches|
    ensures forall i :: 0 <= i < |matches| ==> ids[i] == matches[i].id
  {
    if matches == [] then [] else [matches[0].id] + MatchIds(matches[1..])
  }

  /**
   * The statement that fetches the matched quotes: the ids in the order given,
   * an exclusion bound to a parameter, and the seed-row floor.
   */
  function SelectSql(ids: seq<string>): (sql: string)
    ensures |sql| >= |SelectPrefix| + |SelectSuffix|
    ensures sql[..|SelectPrefix|] == SelectPrefix
    ensures sql[|sql| - |FloorClause|..] == FloorClause
  {
    var sql := SelectPrefix + Join(ids, ", ") + SelectSuffix;
    assert sql[|sql| - |SelectSuffix|..] == SelectSuffix;
    assert SelectSuffix[|SelectSuffix| - |FloorClause|..] == FloorClause;
    assert sql[|sql| - |FloorClause|..] == SelectSuffix[|SelectSuffix| - |FloorClause|..];
    sql
  }

  /** Reads the id list back out of a statement shaped like `SelectSql`'s. */
  function ParseSelectSql(sql: string): Option<seq<string>>
  {
    var lo, hi := |SelectPrefix|, |sql| - |SelectSuffix|;
    if lo <= hi && sql[..lo] == SelectPrefix && sql[hi..] == SelectSuffix
    then Some(Split(sql[lo..hi], ", "))
    else None
  }

  /** The statement lists exactly the given ids, in order, when no id holds a comma. */
  lemma SelectSqlRoundTrip(ids: seq<string>)
    requires forall k :: 0 <= k < |ids| ==> ids[k] != "" && ',' !in ids[k]
    ensures ParseSelectSql(SelectSql(ids)) == Some(ids)
  {
    var body := Join(ids, ", ");
    var sql := SelectPrefix + body + SelectSuffix;
    assert sql[..|SelectPrefix|] == SelectPrefix;
    assert sql[|SelectPrefix|..|sql| - |SelectSuffix|] == body;
    assert sql[|sql| - |SelectSuffix|..] == SelectSuffix;
    forall k | 0 <= k < |ids|
      ensures SeparatorFree(ids[k], ", ")
    {
      FreeOfFirstChar(ids[k], ", ");
    }
    SplitJoin(ids, ", ");
  }

  /** Ids rendered from integers, as the write path stores them, never hold a comma. */
  lemma IntKeysHaveNoComma(n: int)
    ensures IntToString(n) != "" && ',' !in IntToString(n)
  {
  }

  // ---------------------------------------------------------------------------
  // Which rows the statement asks for (reference filter)
  // ---------------------------------------------------------------------------

  /** `id` is one of the listed ids, read as integer literals the way the SQL text lists them. */
  predicate Listed(id: int, ids: seq<string>)
  {
    exists k :: 0 <= k < |ids| && ParseInt(ids[k]) == Some(id)
  }

  /**
   * The rows `id IN (<ids>) AND id > 100000` keeps, in their order; the
   * `id <> ( ? )` exclusion is not part of this filter.
   */
  function Surfaced(rows: seq<Row>, ids: seq<string>): (kept: seq<Row>)
    ensures forall r :: r in kept <==> r in rows && Listed(r.id, ids) && r.id > IdFloor
  {
    if rows == [] then []
    else
      var rest := Surfaced(rows[1..], ids);
      assert forall r :: r in rows <==> r == rows[0] || r in rows[1..];
      if Listed(rows[0].id, ids) && rows[0].id > IdFloor then [rows[0]] + rest else rest
  }

  // ---------------------------------------------------------------------------
  // The context message
  // ---------------------------------------------------------------------------

  /** `${quote["quote"]}`: the `quote` column; a missing column renders "undefined", NULL "null". */
  function QuoteText(row: Row): string
  {
    if "quote" in row.columns then
      match row.columns["quote"]
      case TextCell(s) => s
      case NullCell => "null"
    else "undefined"
  }

  /** One rendered row: `<id>- <quote>`. */
  function Line(row: Row): string
  {
    IntToString(row.id) + "- " + QuoteText(row)
  }

  function Lines(rows: seq<Row>): (lines: seq<string>)
    ensures |lines| == |rows|
    ensures forall i :: 0 <= i < |rows| ==> lines[i] == Line(rows[i])
  {
    if rows == [] then [] else [Line(rows[0])] + Lines(rows[1..])
  }

  /** The preamble, then one line per row, newline-separated. */
  function ContextMessage(rows: seq<Row>): (msg: string)
    ensures |msg| >= |Preamble| && msg[..|Preamble|] == Preamble
    ensures rows == [] ==> msg == Preamble
  {
    Preamble + Join(Lines(rows), "\n")
  }

  /** A quote as the context message cites it. */
  datatype Cited = Cited(id: int, quote: string)

  function CitedOf(rows: seq<Row>): (cs: seq<Cited>)
    ensures |cs| == |rows|
    ensures forall i :: 0 <= i < |rows| ==> cs[i] == Cited(rows[i].id, QuoteText(rows[i]))
  {
    if rows == [] then [] else [Cited(rows[0].id, QuoteText(rows[0]))] + CitedOf(rows[1..])
  }

  /** Reads one `<id>- <quote>` line. */
  function ParseLine(line: string): Option<Cited>
  {
    match Find(line, "- ")
    case None => None
    case Some(i) =>
      match ParseInt(line[..i])
      case None => None
      case Some(n) => Some(Cited(n, line[i + 2..]))
  }

  function ParseLines(lines: seq<string>): Option<seq<Cited>>
  {
    if lines == [] then Some([])
    else
      match (ParseLine(lines[0]), ParseLines(lines[1..]))
      case (Some(c), Some(cs)) => Some([c] + cs)
      case _ => None
  }

  /** Reads the cited quotes back out of a context message. */
  function ParseContext(msg: string): Option<seq<Cited>>
  {
    if |msg| >= |Preamble| && msg[..|Preamble|] == Preamble
    then ParseLines(Split(msg[|Preamble|..], "\n"))
    else None
  }

  lemma ParseLineOf(row: Row)
    ensures ParseLine(Line(row)) == Some(Cited(row.id, QuoteText(row)))
  {
    var id := IntToString(row.id);
    LiteralFreeOfDashSpace(id);
    FindAfter(id, "- ", QuoteText(row));
    assert Line(row)[..|id|] == id;
    assert Line(row)[|id| + 2..] == QuoteText(row);
    IntRoundTrip(row.id);
  }

  lemma {:induction false} ParseLinesOf(rows: seq<Row>)
    ensures ParseLines(Lines(rows)) == Some(CitedOf(rows))
    decreases |rows|
  {
    if rows != [] {
      ParseLineOf(rows[0]);
      assert Lines(rows)[1..] == Lines(rows[1..]);
      ParseLinesOf(rows[1..]);
      assert CitedOf(rows) == [CitedOf(rows)[0]] + CitedOf(rows[1..]);
    }
  }

  lemma LineHasNoNewline(row: Row)
    requires '\n' !in QuoteText(row)
    ensures Line(row) != "" && SeparatorFree(Line(row), "\n")
  {
    var id := IntToString(row.id);
    LiteralAvoids(id, '\n');
    forall j | 0 <= j < |Line(row)|
      ensures Line(row)[j] != '\n'
    {
      if j < |id| {
      } else if j < |id| + 2 {
        assert Line(row)[j] == "- "[j - |id|];
      } else {
        assert Line(row)[j] == QuoteText(row)[j - |id| - 2];
      }
    }
    FreeOfFirstChar(Line(row), "\n");
  }

  /**
   * The context message cites every returned row, in row order, with its id and
   * its `quote` column, when no quote spans lines.
   */
  lemma ContextRoundTrip(rows: seq<Row>)
    requires forall i :: 0 <= i < |rows| ==> '\n' !in QuoteText(rows[i])
    ensures ParseContext(ContextMessage(rows)) == Some(CitedOf(rows))
  {
    var lines := Lines(rows);
    forall k | 0 <= k < |lines|
      ensures lines[k] != "" && SeparatorFree(lines[k], "\n")
    {
      LineHasNoNewline(rows[k]);
    }
    SplitJoin(lines, "\n");
    var msg := ContextMessage(rows);
    assert msg[|Preamble|..] == Join(lines, "\n");
    ParseLinesOf(rows);
  }

  /**
   * When the rows are what the statement asks for, every quote the context
   * message cites has an id above the floor and among the match ids.
   */
  lemma ContextCitesOnlyMatches(rows: seq<Row>, ids: seq<string>)
    requires forall i :: 0 <= i < |rows| ==> '\n' !in QuoteText(rows[i])
    requires forall i :: 0 <= i < |rows| ==> rows[i] in Surfaced(rows, ids)
    ensures ParseContext(ContextMessage(rows)).Some?
    ensures forall c :: c in ParseContext(ContextMessage(rows)).value ==> c.id > IdFloor && Listed(c.id, ids)
  {
    ContextRoundTrip(rows);
    forall c | c in CitedOf(rows)
      ensures c.id > IdFloor && Listed(c.id, ids)
    {
      var i :| 0 <= i < |rows| && CitedOf(rows)[i] == c;
      assert rows[i] in Surfaced(rows, ids);
    }
  }

  // ---------------------------------------------------------------------------
  // The message list
  // ---------------------------------------------------------------------------

  /**
   * The messages sent to the chat model: the context (only when there was at
   * least one match), then the system prompt, then the user's question.
   */
  function Conversation(ids: seq<string>, context: string, question: string): (msgs: seq<Message>)
    ensures |msgs| == if ids == [] then 2 else 3
    ensures msgs[|msgs| - 2..] == [Message(System, SystemPrompt), Message(User, question)]
    ensures ids != [] ==> msgs[0] == Message(System, context)
  {
    (if ids != [] then [Message(System, context)] else [])
    + [Message(System, SystemPrompt), Message(User, question)]
  }

  /**
   * Whenever the vector search matched something, the context message is
   * sent, even if the floor kept every row out; it is then the bare preamble.
   */
  lemma MatchesWithoutRowsSendPreamble(ids: seq<string>, question: string)
    requires ids != []
    ensures Conversation(ids, ContextMessage([]), question)
      == [Message(System, Preamble), Message(System, SystemPrompt), Message(User, question)]
  {
  }
}
