# Marvel character pager — a Dafny model of its pure core

The program is a small command-line tool. It pages through the Marvel
character-listing HTTP API and exports one `{character_name, comic_count}`
row per character as JSON or CSV. Almost all of it is I/O glue. This project
models the deterministic core that sits between the I/O calls:

- **Pagination** (`get_characters`). The tool asks once for the record count
  (`data.total`). It computes `num_chunks = (total + limit - 1) // limit`,
  plans one `(offset, limit)` request per chunk at offsets `0, limit, 2*limit, …`,
  fetches the chunks one by one or through a process pool, and flattens
  the per-chunk lists.
- **Chunk fetch** (`fetch_characters_chunk`). A signed GET fetches one
  chunk, on a best-effort basis: a request failure is caught and yields `[]`.
  A decoded body is mapped by `build_characters`. A missing key
  (`KeyError`) is not caught and propagates.
- **Signing** (`build_request_params`). The tool copies the timestamp, public
  key and paging into the request, with `hash = md5(ts + private + public)`.
- **The command line** (`main.py`). It normalises the three raw flags,
  checks that the four configuration values are present, and sends the
  fetched list to the JSON or CSV writer.

Modules follow the program: `Common` (optional values, the escaping
exceptions, Python truthiness), `Records`, `Signing`, `Fetch`, `Pagination`,
`Flattening`, `Pool`, `Orchestrator` (`get_characters`) and `Cli`
(`main.py`).

I/O enters as parameters. An `Io` record holds:

- the count request's timestamp;
- each chunk's timestamp, as a function of the chunk's arguments (offsets
  are distinct, so any assignment of times to chunks is expressible);
- the MD5 hex digest, as an uninterpreted `string -> string`;
- the network, as a function from a request (URL plus query parameters) to
  an `HttpOutcome`;
- the moment each chunk's pool task finished, which decides which
  exception `Pool.map` re-raises when several tasks fail.

`HttpOutcome` has two cases. `RequestError` covers any
`requests.exceptions.RequestException`: a connection failure, a 4xx or 5xx
status from `raise_for_status`, or a body `.json()` cannot decode. Any
other status, 1xx and 3xx included, goes on to `.json()`. The
other case is a decoded payload in which any key may be missing.
Environment variables and raw command-line flags are `Option<string>`
inputs.

Four behaviours of the code are easy to misread. The model follows the
code:

- The last chunk asks for the full `limit`, not for the remainder
  (`LastChunkNotShortened`).
- A malformed payload or record is not caught. The `KeyError` propagates
  out of the chunk fetch and out of `get_characters`; it is not turned
  into an empty chunk (`FetchCharactersChunk`, `GetCharacters`).
  When several chunks are malformed, the pool may raise a different
  `KeyError` than the sequential loop (`PoolMayRaiseADifferentFault`).
- An invalid `--use_multiprocessing` string does not fall back to a
  default. It becomes `bool(s)`, which is true for every non-empty string.
  An invalid non-empty `--output_format` is passed through unchanged, so
  nothing is saved. An empty one is logged as invalid and then replaced by
  `'csv'`, so a CSV file is written. In every case an error is logged
  (`NormaliseMultiprocessing`, `RejectedFormatSavesNothing`).
- The result is not bounded by `total`. When every planned page honours
  its size, it is bounded by `ChunkCount * limit`; for a non-negative
  count that is less than `total + limit` (`GetCharactersSizeBound`).

## Model

| member | source | states |
|---|---|---|
| `Records.ToCharacter` | lib.py:96-98 | A record maps to a row exactly when it has `name` and `comics.available`; the row carries that name and count. Keys are read in the order `name`, `comics`, `available`, and the first missing one is the `KeyError` raised. |
| `Records.BuildCharacters` | lib.py:93-100 | Succeeds exactly when every record has `name` and `comics.available`. The result then has the input's length, and row `i` carries record `i`'s name and count. Otherwise the `KeyError` of the first malformed record propagates. |
| `Signing.BuildRequestParams` | lib.py:122-128 | `ts`, `apikey`, `limit` and `offset` are copied through unchanged; `hash` is the digest of `ts ++ private_key ++ public_key`. |
| `Signing.HashIgnoresPaging` | lib.py:122-128 | The hash does not depend on `limit` or `offset`. Two parameter sets signed at the same instant differ only in their paging fields. |
| `Fetch.FetchCharactersChunk` | lib.py:20-33 | A request failure yields `[]` and never escapes. A decoded body yields `build_characters(data.results)`. The only fault that can escape is a missing key. |
| `Fetch.ChunkRequestCarriesArgs` | lib.py:20-27 | The request goes to `url/endpoint` with the chunk's offset, limit and public key. Its `ts` parameter is the chunk's own timestamp, the same one the hash signs. |
| `Pagination.NumChunks` | lib.py:68 | `num_chunks` is the ceiling of `total / limit`. It is 0 for `total = 0` and non-positive for a non-positive total. For `total > 0`, `num_chunks * limit >= total` and `(num_chunks - 1) * limit < total`. |
| `Pagination.ChunkPlan` | lib.py:71 | The plan has `num_chunks` entries (none for a non-positive total). Entry `i` has offset `i * limit`, the full `limit` and the configured credentials and endpoint. |
| `Pagination.ChunkSpanVersusTotal` | lib.py:68 | For a positive total, the planned chunks span exactly `total` records when `limit` divides `total`, and more otherwise. |
| `Pagination.ChunkSpanBelowOnePageOver` | lib.py:68 | For a non-negative total, the planned chunks span fewer than `total + limit` records. |
| `Pagination.PlanRangesDisjoint` | lib.py:71 | Offsets strictly increase, and each range ends no later than the next begins. No record index lies in two planned ranges. |
| `Pagination.PlanCoversEachIndexOnce` | lib.py:68-71 | Every index in `[0, total)` lies in exactly one planned range, that of chunk `k / limit`. |
| `Pagination.PlanStartsInsideTotal` | lib.py:68-71 | Every chunk starts inside `[0, total)`, so no chunk lies wholly beyond the last record. |
| `Pagination.LastChunkNotShortened` | lib.py:71 | The last chunk asks for the full `limit` and ends at or after `total`. It ends strictly after `total` exactly when `limit` does not divide `total`. |
| `Flattening.Flatten` | lib.py:79 | The chunks concatenated in order; the length is the sum of the chunk lengths. |
| `Flattening.FlattenChunks` | lib.py:79 | The nested comprehension, as a loop, equals the chunks concatenated in order, and its length is the sum of the chunk sizes. |
| `Flattening.FlattenAppend` | lib.py:79 | Flattening distributes over concatenation of chunk lists. |
| `Flattening.EmptyChunkContributesNothing` | lib.py:79 | An empty chunk, such as the result of a failed fetch, can be removed without changing the flattened list. |
| `Flattening.FlattenPosition` | lib.py:79 | Element `j` of chunk `i` sits at position `(sum of the sizes of chunks before i) + j`, so order is preserved. |
| `Flattening.FlattenMembership` | lib.py:79 | An element is in the flattened list exactly when it is in some chunk. |
| `Flattening.FlattenBound` | lib.py:79 | If no chunk holds more than `limit` elements, the flattened list holds at most `chunks * limit`. |
| `Flattening.AllEmptySize` | lib.py:79 | Chunks that are all empty, as when every chunk request fails, flatten to a list of total size 0. |
| `Pool.SequentialMap` | lib.py:76 | The comprehension succeeds exactly when every call does, and then holds each call's value in input order. Otherwise it raises the fault of the first failing call, and every call before that one succeeded. |
| `Pool.RunTasks` | utils.py:18-19 | The pool runs one task per argument and returns the outcomes in input order. |
| `Pool.FirstFailure` | utils.py:19 | Picks no task exactly when none failed. Otherwise it picks a failed task that finished no later than any other failed task, with ties going to the lower index. |
| `Pool.Collect` | utils.py:19 | The join of `map`: the results in order when every outcome is a value, otherwise the exception of a failed outcome that finished no later than any other failure. |
| `Pool.PoolMap` | utils.py:18-19 | `Pool.map` succeeds exactly when every task does, and then returns each task's value in input order. Otherwise it raises the exception of the failed task that finished first. |
| `Pool.PoolAgreesWithSequential` | lib.py:73-76 | The pool branch and the sequential branch agree on success or failure, and on the whole result when they succeed. |
| `Pool.PoolMatchesSequentialInOrder` | lib.py:73-76 | When the tasks finish in input order, the two branches give exactly the same result, including the exception raised. |
| `Pool.PoolMayRaiseADifferentFault` | lib.py:73-76 | Suppose two tasks fail and the later one finishes first. Then the sequential branch raises the first task's `KeyError` and the pool raises the second task's. |
| `Orchestrator.CountRequest` | lib.py:61-63 | The count request goes to `url/endpoint` for one record at offset 0, with the public key. Its `ts` parameter is the count's timestamp, the same one the hash signs. |
| `Orchestrator.ReadTotal` | lib.py:64-65 | Yields `data.total` exactly when the request succeeded and both keys are present. A request failure propagates as `RequestFailed`. Otherwise `data` is read before `total`, and the first missing one is the `KeyError` raised. |
| `Orchestrator.GetCharacters` | lib.py:57-81 | A failed or unreadable count propagates unchanged. Otherwise the result succeeds exactly when every planned chunk fetch succeeds, and is then the planned chunks' records flattened in plan order. On failure the comprehension raises the `KeyError` of the first failing planned chunk, and the pool that of the failed planned chunk whose task finished first. `RequestFailed` arises exactly when the count request fails. |
| `Orchestrator.GetCharactersIgnoresMultiprocessing` | lib.py:73-76 | Using the pool does not change whether `get_characters` succeeds, nor the records it returns. |
| `Orchestrator.GetCharactersInOrderPoolIsSequential` | lib.py:73-76 | When the planned chunks' tasks finish in plan order, the result with and without the pool is identical. |
| `Orchestrator.GetCharactersSizeBound` | lib.py:68-79 | If every planned chunk's response holds at most its page size, the result holds at most `ChunkCount * limit` records. For a non-negative total that is fewer than `total + limit`. |
| `Orchestrator.AllChunksFailingGivesNoRecords` | lib.py:26-33 | If the count succeeds and every planned chunk request fails, the result is the empty list, not an error. |
| `Orchestrator.PlanFor250Records` | lib.py:68-71 | With 250 records and the default limit of 100, there are three chunks at offsets 0, 100 and 200, each asking for 100 records. |
| `Cli.NormaliseMultiprocessing` | main.py:75-88 | The effective flag is true exactly when the raw value is present and neither `'False'` nor empty. So `'True'` is true; absent and `'False'` are false; any other non-empty string is true. |
| `Cli.RejectedFlagFollowsTruthiness` | main.py:81-88 | A flag that is logged as invalid ends up as its Python truthiness. |
| `Cli.NormaliseOutputFormat` | main.py:84-89 | An absent or empty format becomes `'csv'`. Any other value, including a rejected one, is passed through unchanged. So `main` receives a format other than `'json'` or `'csv'` only when an error was logged for it. |
| `Cli.NormaliseFileName` | main.py:90 | An absent or empty file name becomes `'marvel_output'`; any other value is passed through unchanged. The default appears only when no name, or that very name, was given. The result is never empty. |
| `Cli.NormalisationIsIdempotent` | main.py:89-90 | Normalising an already normalised format or file name changes nothing. |
| `Cli.Dispatch` | main.py:51-62 | Nothing is saved for an empty list. For a non-empty list, `'json'` calls only the JSON writer and `'csv'` only the CSV writer, each with the whole list and the file name. Any other format calls neither. |
| `Cli.Main` | main.py:42-62 | `main` returns early exactly when a configuration value is missing or empty. A raised fault is the one `get_characters` raised. Otherwise the save step is `Dispatch` of the fetched list: only the JSON or CSV writer the format names runs, with exactly the fetched non-empty list and the given file name. |
| `Cli.Run` | main.py:87-91 | A missing configuration value ends the run early. Otherwise the run completes exactly when `get_characters` succeeds with the normalised flag, and then saves `Dispatch` of the fetched list under the normalised format and file name. A raised run carries the fault `get_characters` raised. A JSON file is written only for `--output_format json`, and a CSV file only for `csv`, an empty value, or no format. Either is written under the normalised file name. |
| `Cli.MissingConfigMakesNoRequest` | main.py:42-45 | With a missing configuration value, the outcome is an early return whatever the network would answer, so no request is made. |
| `Cli.RunIgnoresMultiprocessingFlag` | main.py:87-91 | The raw `--use_multiprocessing` value, valid or not, never changes whether the run raises. When it does not raise, the flag does not change the outcome. |
| `Cli.RunIgnoresFlagWhenPoolFinishesInOrder` | main.py:87-91 | When the pool's tasks finish in plan order, the flag does not change the outcome at all. |
| `Cli.EmptyFormatSavesCsv` | main.py:84-89 | An empty `--output_format` is logged as invalid, yet it is replaced by `'csv'`, so a non-empty fetch is saved as CSV. |
| `Cli.RejectedFormatSavesNothing` | main.py:84-89 | A rejected non-empty format is passed on, so the run saves nothing. |
| `Cli.AllChunksFailingSkipsExport` | main.py:49-62 | With complete configuration, a readable count and every planned chunk failing, the run completes and skips the export. |

## Left out

- The HTTP calls (`requests.get`, `raise_for_status`, `.json()`) are network I/O. They become the `net` field of `Io` and the two-case `HttpOutcome`.
- The MD5 digest and the UTF-8 encoding before it are a library call. They become the uninterpreted `md5` field of `Io`.
- The `time.time()` timestamps are nondeterministic floats. They enter as strings, and the execution-time log in `main` is not modelled.
- Logging is a side effect, so it is not modelled. The conditions under which an error is logged are stated as `MultiprocessingFlagRejected` and `OutputFormatRejected`. The configuration error message at main.py:44 lacks its `f` prefix and logs the literal text `{key}`; this is not modelled either.
- `load_dotenv`, `os.getenv` and `argparse` are environment access. Their values enter as `Option<string>`.
- `save_as_json` and `save_as_csv` are file I/O through the `json` and `csv` serialisers. The model records which writer is called, with which list and file name.
- `multiprocessing.Pool` and `os.cpu_count()` are about concurrency. The model keeps the pool's order-preserving map contract. Scheduling enters only as the moment each task finished, an input.
- PoolAgreesWithSequential: does not promise that the pool raises the same exception as the loop. When several chunks raise, `Pool.map` re-raises the failure that finishes first, which depends on timing (`PoolMayRaiseADifferentFault`). Equality holds when tasks finish in input order (`PoolMatchesSequentialInOrder`).
- GetCharactersIgnoresMultiprocessing: promises equal success or failure and equal records, but not an equal `KeyError`, for the same reason. Full equality is `GetCharactersInOrderPoolIsSequential`.
- RunIgnoresMultiprocessingFlag: promises the same outcome unless the run raises, and that it raises either way. The raised `KeyError` can depend on the flag through pool timing; full equality is `RunIgnoresFlagWhenPoolFinishesInOrder`.
- An undecodable body counts as a `RequestException` only from requests 2.27 on, where `.json()` raises `requests.exceptions.JSONDecodeError`. With an older requests it raises a plain `ValueError` that escapes the chunk fetch; the model assumes requests 2.27 or later.
- Exceptions other than `RequestException` and `KeyError` are not modelled. Examples are a `TypeError` on a non-object payload and a non-integer `total`. Record fields are taken as a string name and an integer count.
- Orchestrator.GetCharacters: requires `limit > 0`. The source divides by `limit`, and its only caller passes the default of 100; a zero limit raises `ZeroDivisionError`, which is not modelled.
