# TataTechnoDemo fetch-and-store path, modelled in Dafny

The app fetches a random text from the IAV content provider
(`content://com.iav.contestdataprovider/text`), stores it in the Room table
`random_texts`, and lists and deletes the stored rows. This project models the three
pieces that carry logic, and proves what they promise:

- **Backoff.dfy**: `retryWithBackoff`. The retried block is a function `block: nat -> Result<T>`: its
  i-th call (0-based) either returns a value or throws. `Retry` is the reference description of a run.
  It is keyed on where the first success falls and gives the result, the number of calls and the list
  of delays. The method `RetryWithBackoff` is the source's loop: it tries, returns on success, remembers
  the failure, and waits `baseDelayMs * 2^i` unless this was the last try. It is proved to produce
  exactly `Retry`. Lemmas then state the promised behaviours:
  - stop at the first success;
  - one call and no wait when the first try succeeds;
  - `attempts` calls and `attempts - 1` waits when every try fails, with the last failure thrown;
  - "Unknown error" when `attempts <= 0`.
- **Provider.dfy**: `fetchRandom`. One try is a `ProviderRun`: how long the block ran, and what the
  query answered. The query can throw, return a null cursor, or return a cursor snapshot (column names
  and rows). `ReadAnswer` is the fixed chain of checks:
  - query exception, rethrown;
  - null cursor;
  - no rows;
  - `getColumnIndex("data") == -1`;
  - unreadable cell;
  - JSON parse.

  `TryFetch` wraps the chain in the 5000 ms timeout. `FetchRandom` retries it with `attempts = 3` and
  `baseDelayMs = 400`, so it makes one to three calls, and the delays are a prefix of 400, 800.
- **Dao.dfy**: the `random_texts` table as a class `RandomTextDao`. It holds a map from primary key to
  row and SQLite's AUTOINCREMENT counter `sequence`, the largest id ever stored. Its operations:
  - `Insert` replaces on conflict, and an id of 0 gets `sequence + 1`, which no stored row holds;
  - `Delete` removes by primary key;
  - `DeleteAll` empties the table;
  - `GetAll` lists every row, ids strictly descending. `ListingUnique` proves that such a listing is
    unique.
- **Repository.dfy**: `RandomTextRepository` over a DAO reference. `GenerateRandom` inserts a row
  exactly when the fetch succeeded and the insert did not throw. The row's `value`, `length` and
  `created` are the response's, copied verbatim, and its id is freshly generated. In every other case
  the table is unchanged, and the fetch's or the insert's failure is returned. `GetAll`, `Delete` and
  `DeleteAll` pass through to the DAO.
- **Models.dfy**: the data classes (`RandomText`, `RandomTextResponse`), `Throwable`, Kotlin's
  `Result`, and `Outcome` for a Unit call that returned or threw.

Environment inputs are parameters:
- the provider's answers: `provider(maxLength, i)` is the i-th try's run;
- the JSON decoder: `parse`;
- SQLite failures: `fault` / `insertFault`. `Some(e)` means the statement is rolled back and `e` is thrown.

`generateRandom` copies the provider's `length` unchanged
(app/src/main/java/com/pmirkelam/tatatechnodemo/data/repo/RandomTextRepository.kt:33) and never recomputes it.
The model states that the stored `length` equals the response's `length`, and makes no claim that it
equals `|value|`.

## Model

| member | source | states |
|---|---|---|
| `Backoff.Schedule` | app/src/main/java/com/pmirkelam/tatatechnodemo/data/providers/IavAppDataProvider.kt:124 | the n delays taken after n failed tries: the i-th one is `baseDelayMs * 2^i` |
| `Backoff.ScheduleDoubles` | app/src/main/java/com/pmirkelam/tatatechnodemo/data/providers/IavAppDataProvider.kt:124 | each backoff delay is twice the previous one (exponential, no jitter) |
| `Backoff.FirstSuccess` | app/src/main/java/com/pmirkelam/tatatechnodemo/data/providers/IavAppDataProvider.kt:117-120 | the least try index below n whose call succeeds, with every earlier try failed; None exactly when all n tries fail |
| `Backoff.RetryWithBackoff` | app/src/main/java/com/pmirkelam/tatatechnodemo/data/providers/IavAppDataProvider.kt:111-129 | the loop's result, call count and delay list are exactly those of the reference run `Retry` |
| `Backoff.RetryStopsAtFirstSuccess` | app/src/main/java/com/pmirkelam/tatatechnodemo/data/providers/IavAppDataProvider.kt:117-120 | if the first success is try k < attempts, the run makes k+1 calls, returns try k's value, and waited only after the k failures before it |
| `Backoff.RetryFirstTrySucceeds` | app/src/main/java/com/pmirkelam/tatatechnodemo/data/providers/IavAppDataProvider.kt:117-120 | success on the first try: one call, no delay, that value returned |
| `Backoff.RetryAllFail` | app/src/main/java/com/pmirkelam/tatatechnodemo/data/providers/IavAppDataProvider.kt:121-128 | when every try fails: `attempts` calls, `attempts - 1` delays (none after the last try), the last try's failure thrown |
| `Backoff.RetryNoAttempts` | app/src/main/java/com/pmirkelam/tatatechnodemo/data/providers/IavAppDataProvider.kt:116-128 | with `attempts <= 0` the block never runs, nothing waits, and IllegalState("Unknown error") is thrown |
| `Backoff.RetryShape` | app/src/main/java/com/pmirkelam/tatatechnodemo/data/providers/IavAppDataProvider.kt:116-128 | every run: calls within the budget, one delay between consecutive calls and none after the last, success iff some budgeted try succeeds, the outcome is the last call's |
| `Provider.ColumnIndex` | app/src/main/java/com/pmirkelam/tatatechnodemo/data/providers/IavAppDataProvider.kt:68-72 | `getColumnIndex`: -1 exactly when the column is absent, otherwise the index of its first occurrence |
| `Provider.ReadAnswer` | app/src/main/java/com/pmirkelam/tatatechnodemo/data/providers/IavAppDataProvider.kt:57-96 | checks in order: the query's exception rethrown, "Provider returned null cursor", "No rows from provider", "'data' column missing"; past them, the exception `getString` throws is rethrown as it is, and a readable cell gives exactly what the parse gives (its response, or its exception rethrown); success iff all checks pass, the cell is readable and the parse succeeds |
| `Provider.TryFetch` | app/src/main/java/com/pmirkelam/tatatechnodemo/data/providers/IavAppDataProvider.kt:44 | a try that runs past 5000 ms fails with the timeout exception; a try that ends within 5000 ms returns the chain's own result; a successful try finished in time and passed the cursor checks |
| `Provider.FetchScheduleBounds` | app/src/main/java/com/pmirkelam/tatatechnodemo/data/providers/IavAppDataProvider.kt:40-42 | with attempts 3 and base 400: one to three calls, delays a prefix of [400, 800] |
| `Provider.FetchRandom` | app/src/main/java/com/pmirkelam/tatatechnodemo/data/providers/IavAppDataProvider.kt:40-98 | equals the three-try run, with 1..3 calls and delays a prefix of [400, 800]; a success is the last try's parsed response |
| `Provider.FetchThirdTrySucceeds` | app/src/main/java/com/pmirkelam/tatatechnodemo/data/providers/IavAppDataProvider.kt:40-44 | fail, fail, succeed: waits 400 then 800 ms and returns the third try's response after three calls |
| `Provider.TimeoutCountsAgainstBudget` | app/src/main/java/com/pmirkelam/tatatechnodemo/data/providers/IavAppDataProvider.kt:40-44 | a timed-out try is caught like any failure: it uses an attempt, the next try still runs, and a timeout on the third try ends the run with the timeout exception after 3 calls and delays [400, 800] |
| `Dao.ListingUnique` | app/src/main/java/com/pmirkelam/tatatechnodemo/data/local/RandomTextDao.kt:21-22 | two id-descending listings of the same table are equal, so the ORDER BY query has one answer |
| `Dao.ListingEmptyIff` | app/src/main/java/com/pmirkelam/tatatechnodemo/data/local/RandomTextDao.kt:21-22 | a listing is empty exactly when the table is |
| `Dao.RandomTextDao.KeyFor` | app/src/main/java/com/pmirkelam/tatatechnodemo/data/model/RandomTextModels.kt:13 | an explicit id is kept; id 0 gets a generated id larger than, and distinct from, every stored id |
| `Dao.RandomTextDao.GetAll` | app/src/main/java/com/pmirkelam/tatatechnodemo/data/local/RandomTextDao.kt:19-22 | returns every stored row and only stored rows, in strictly descending id order |
| `Dao.RandomTextDao.Insert` | app/src/main/java/com/pmirkelam/tatatechnodemo/data/local/RandomTextDao.kt:24-28 | REPLACE on conflict: the row is stored under its key, other rows unchanged, the count grows by one only for a new key; on failure nothing changes and the exception is thrown |
| `Dao.RandomTextDao.DeleteAll` | app/src/main/java/com/pmirkelam/tatatechnodemo/data/local/RandomTextDao.kt:30-34 | the table is empty afterwards (the id counter is kept); on failure nothing changes |
| `Dao.RandomTextDao.Delete` | app/src/main/java/com/pmirkelam/tatatechnodemo/data/local/RandomTextDao.kt:36-40 | removes only the row with the matching primary key; an absent id is a no-op; on failure nothing changes |
| `Dao.InsertThenGetAll` | app/src/main/java/com/pmirkelam/tatatechnodemo/data/local/RandomTextDao.kt:19-28 | a row just inserted appears, under its assigned id, in the next listing |
| `Dao.DeleteAllThenGetAll` | app/src/main/java/com/pmirkelam/tatatechnodemo/data/local/RandomTextDao.kt:19-34 | after deleteAll the listing is empty |
| `Repository.RandomTextRepository.GetAll` | app/src/main/java/com/pmirkelam/tatatechnodemo/data/repo/RandomTextRepository.kt:21-24 | returns the id-descending listing of the DAO's table |
| `Repository.GetAllIsDaoListing` | app/src/main/java/com/pmirkelam/tatatechnodemo/data/repo/RandomTextRepository.kt:21-24 | the repository's listing equals the DAO's listing, unchanged |
| `Repository.RandomTextRepository.GenerateRandom` | app/src/main/java/com/pmirkelam/tatatechnodemo/data/repo/RandomTextRepository.kt:26-43 | success iff the fetch succeeded and the insert completed; then exactly one new row, under the fresh generated id `sequence + 1` (which becomes the new counter), with value, length and created copied from the response; otherwise the table is unchanged and the fetch's (or else the insert's) exception is the failure |
| `Repository.RandomTextRepository.DeleteAll` | app/src/main/java/com/pmirkelam/tatatechnodemo/data/repo/RandomTextRepository.kt:45-53 | delegates to the DAO and rethrows its failure unchanged |
| `Repository.RandomTextRepository.Delete` | app/src/main/java/com/pmirkelam/tatatechnodemo/data/repo/RandomTextRepository.kt:55-63 | delegates to the DAO and rethrows its failure unchanged |

## Left out

- The Android query is an input to the model, not modelled itself. This covers `ContentResolver.query`, the URI, the projection, the `QUERY_ARG_LIMIT` bundle and the API-level branch: they are foreign I/O. `maxLength` only selects the provider's answers.
- `getColumnIndex` is modelled as an exact, first-match name lookup. Android's `AbstractCursor` compares names ignoring case; that framework detail is not part of this model.
- Closing the cursor (`use`) is not modelled: it has no observable effect on the result.
- Gson is the abstract function `parse`: it is a library outside the model. Null values are not modelled anywhere on this path:
  - `Cell` has no NULL case, although `getString` returns null for a NULL cell;
  - `parse` always returns a response or a failure, although `gson.fromJson` returns null for null, empty or `"null"` text;
  - a response whose fields Gson leaves null is not modelled.

  In the source each of these passes the retry as a success and then fails in `generateRandom` with a null-pointer exception.
- Provider.TryFetch: assumes a try can be cut off at the 5000 ms deadline, so a try past it always fails with the timeout exception. The block inside `withTimeout` never suspends: the query, `getString` and `gson.fromJson` all block. Coroutine cancellation is cooperative, so the source cannot stop such a try at the deadline, and may return the try's own answer once it ends. The model does not capture that case, and `Provider.TimeoutCountsAgainstBudget` rests on the same assumption.
- Time is modelled only as the recorded delay amounts and a try's elapsed milliseconds. A try longer than 5000 ms is a timeout, whatever its answer; exactly 5000 ms counts as finishing in time. Coroutine suspension and cancellation propagation are left out: they are concurrency.
- `Pow2` and `Schedule` use unbounded integers and do not model `Long` overflow:
  - the product `baseDelayMs * (1L shl i)` wraps as soon as it exceeds `Long.MAX_VALUE`: from i = 55 for a base of 400, and from i = 1 for a base near `Long.MAX_VALUE`;
  - `1L shl i` on its own turns negative at i = 63, and is 1 again at i = 64, because the shift distance is taken mod 64.

  `fetchRandom` only uses i < 2 with a base of 400, where no overflow occurs.
- Kotlin `Int` id overflow and SQLite's 2^63 rowid bound are not modelled. The generated id is `sequence + 1`. The case of a table that only ever held negative ids is not distinguished.
- `generateRandom` catches `Exception`, not every `Throwable`. Non-`Exception` throwables (JVM `Error`s) escaping it are not modelled: every failure here is an exception.
- `getAll` returns a Room `Flow` that re-emits on every change. The model gives one snapshot per call: live observation is reactive-stream glue.
- `Log` calls are left out: they are side-effect logging only.
- `RandomTextViewModel`, the Compose screens, `MainActivity`, the Hilt module, `AppDatabaseProvider` and `AppDatabase` are not part of this model. They are UI, dependency-injection and concurrency glue.
