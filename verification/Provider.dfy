/**
 IavAppDataProvider.fetchRandom: one query against the content provider, checked
 step by step and parsed, each try bounded by a timeout, the whole retried with backoff.

 The query itself, the clock and the JSON library are outside the model: a try is
 described by a `ProviderRun` (how long the block ran and what the query answered),
 and parsing by a function `parse` from the JSON text to a result.
 */
module Provider {
  import opened Models
  import opened Backoff

  const DataColumn := "data"
  const TimeoutMs: nat := 5000
  const FetchAttempts := 3
  const FetchBaseDelayMs := 400

  const NullCursorMessage := "Provider returned null cursor"
  const NoRowsMessage := "No rows from provider"
  const MissingColumnMessage := "'data' column missing"
  const CellReadFailure := "cell read past the end of the row"

  /** One cell of a cursor row, as `getString` reads it: a text, or an exception. */
  datatype Cell = Text(json: string) | Unreadable(error: Throwable)

  /** A snapshot of a cursor: its column names and its rows. */
  datatype Cursor = Cursor(columns: seq<string>, rows: seq<seq<Cell>>)

  /** What `resolver.query` does: throw, return null, or return a cursor. */
  datatype QueryAnswer = QueryThrew(error: Throwable) | NullCursor | Answer(cursor: Cursor)

  /** One try of the block: how long it would run (ms) and what the query answered. */
  datatype ProviderRun = ProviderRun(elapsedMs: nat, answer: QueryAnswer)

  /** `getColumnIndex(name)`: the first column with that name, or -1. */
  function ColumnIndex(columns: seq<string>, name: string): (idx: int)
    ensures -1 <= idx < |columns|
    ensures idx == -1 <==> name !in columns
    ensures idx >= 0 ==> columns[idx] == name && name !in columns[..idx]
  {
    if |columns| == 0 then -1
    else if columns[0] == name then 0
    else
      var rest := ColumnIndex(columns[1..], name);
      assert columns == [columns[0]] + columns[1..];
      if rest == -1 then -1
      else
        assert columns[..rest + 1] == [columns[0]] + columns[1..][..rest];
        rest + 1
  }

  /** `getString(idx)` on the current row; an index past the row's end throws. */
  function CellAt(row: seq<Cell>, idx: nat): Cell
  {
    if idx < |row| then row[idx] else Unreadable(Raised(CellReadFailure))
  }

  /** The cell the source reads: column "data" of the first row. */
  function DataCell(c: Cursor): Cell
    requires |c.rows| > 0 && DataColumn in c.columns
  {
    CellAt(c.rows[0], ColumnIndex(c.columns, DataColumn))
  }

  /** A cursor that passes all three checks of the chain. */
  predicate Usable(answer: QueryAnswer)
  {
    answer.Answer? && |answer.cursor.rows| > 0 && DataColumn in answer.cursor.columns
  }

  /**
   The chain of checks on the query's answer, in the order the source makes them:
   query exception, null cursor, no first row, no "data" column, unreadable cell,
   then the JSON parse.
   */
  function ReadAnswer(answer: QueryAnswer, parse: string -> Result<RandomTextResponse>)
    : (r: Result<RandomTextResponse>)
    ensures answer.QueryThrew? ==> r == Failure(answer.error)
    ensures answer.NullCursor? ==> r == Failure(IllegalState(NullCursorMessage))
    ensures answer.Answer? && |answer.cursor.rows| == 0 ==> r == Failure(IllegalState(NoRowsMessage))
    ensures answer.Answer? && |answer.cursor.rows| > 0 && DataColumn !in answer.cursor.columns
            ==> r == Failure(IllegalState(MissingColumnMessage))
    ensures Usable(answer) && DataCell(answer.cursor).Unreadable?
            ==> r == Failure(DataCell(answer.cursor).error)
    ensures Usable(answer) && DataCell(answer.cursor).Text?
            ==> r == parse(DataCell(answer.cursor).json)
    ensures r.Success? <==> Usable(answer) && DataCell(answer.cursor).Text?
                            && parse(DataCell(answer.cursor).json).Success?
  {
    match answer
    case QueryThrew(e) => Failure(e)
    case NullCursor => Failure(IllegalState(NullCursorMessage))
    case Answer(c) =>
      if |c.rows| == 0 then Failure(IllegalState(NoRowsMessage))
      else
        var idx := ColumnIndex(c.columns, DataColumn);
        if idx == -1 then Failure(IllegalState(MissingColumnMessage))
        else
          match CellAt(c.rows[0], idx)
          case Unreadable(e) => Failure(e)
          case Text(json) => parse(json)
  }

  /** One try: `withTimeout(5000) { ... }` around the chain of checks. */
  function TryFetch(run: ProviderRun, parse: string -> Result<RandomTextResponse>)
    : (r: Result<RandomTextResponse>)
    ensures run.elapsedMs > TimeoutMs ==> r == Failure(TimeoutCancellation(TimeoutMs))
    ensures run.elapsedMs <= TimeoutMs ==> r == ReadAnswer(run.answer, parse)
    ensures r.Success? ==> run.elapsedMs <= TimeoutMs && Usable(run.answer)
  {
    if run.elapsedMs > TimeoutMs then Failure(TimeoutCancellation(TimeoutMs))
    else ReadAnswer(run.answer, parse)
  }

  /** The block handed to retryWithBackoff: its i-th call is the i-th query for `maxLength`. */
  function FetchBlock(maxLength: int, provider: (int, nat) -> ProviderRun,
                      parse: string -> Result<RandomTextResponse>): nat -> Result<RandomTextResponse>
  {
    (i: nat) => TryFetch(provider(maxLength, i), parse)
  }

  /** The run of fetchRandom: three tries, backing off from 400 ms. */
  function FetchRun(maxLength: int, provider: (int, nat) -> ProviderRun,
                    parse: string -> Result<RandomTextResponse>): RetryRun<RandomTextResponse>
  {
    Retry(FetchAttempts, FetchBaseDelayMs, FetchBlock(maxLength, provider, parse))
  }

  /** With three attempts from 400 ms: one to three calls, and the delays are a prefix of 400, 800. */
  lemma FetchScheduleBounds<T>(block: nat -> Result<T>)
    ensures 1 <= Retry(FetchAttempts, FetchBaseDelayMs, block).calls <= 3
    ensures Retry(FetchAttempts, FetchBaseDelayMs, block).delays
         == [400, 800][..Retry(FetchAttempts, FetchBaseDelayMs, block).calls - 1]
  {
  }

  /** fetchRandom: retryWithBackoff(attempts = 3, baseDelayMs = 400) around one try. */
  method FetchRandom(maxLength: int, provider: (int, nat) -> ProviderRun,
                     parse: string -> Result<RandomTextResponse>)
    returns (response: Result<RandomTextResponse>, calls: nat, delays: seq<int>)
    ensures RetryRun(response, calls, delays) == FetchRun(maxLength, provider, parse)
    ensures 1 <= calls <= 3 && delays == [400, 800][..calls - 1]
    ensures response.Success? ==> response == TryFetch(provider(maxLength, calls - 1), parse)
  {
    var block := FetchBlock(maxLength, provider, parse);
    response, calls, delays := RetryWithBackoff(FetchAttempts, FetchBaseDelayMs, block);
    FetchScheduleBounds(block);
    RetryShape(FetchAttempts, FetchBaseDelayMs, block);
  }

  /** Fail, fail, succeed: waits 400 then 800 ms and returns the third try's response. */
  lemma FetchThirdTrySucceeds(maxLength: int, provider: (int, nat) -> ProviderRun,
                              parse: string -> Result<RandomTextResponse>)
    requires TryFetch(provider(maxLength, 0), parse).Failure?
    requires TryFetch(provider(maxLength, 1), parse).Failure?
    requires TryFetch(provider(maxLength, 2), parse).Success?
    ensures FetchRun(maxLength, provider, parse)
         == RetryRun(TryFetch(provider(maxLength, 2), parse), 3, [400, 800])
  {
  }

  /**
   A try that runs past the timeout is a failure like any other: it uses up one of
   the three attempts, and if the next one exists the loop backs off and goes on to it.
   */
  lemma TimeoutCountsAgainstBudget(maxLength: int, provider: (int, nat) -> ProviderRun,
                                   parse: string -> Result<RandomTextResponse>, i: nat)
    requires i < FetchAttempts
    requires forall j :: 0 <= j < i ==> TryFetch(provider(maxLength, j), parse).Failure?
    requires provider(maxLength, i).elapsedMs > TimeoutMs
    ensures FetchRun(maxLength, provider, parse).calls >= i + 1
    ensures i + 1 < FetchAttempts ==> FetchRun(maxLength, provider, parse).calls >= i + 2
    ensures i + 1 == FetchAttempts ==>
              FetchRun(maxLength, provider, parse)
              == RetryRun(Failure(TimeoutCancellation(TimeoutMs)), 3, [400, 800])
  {
  }
}
