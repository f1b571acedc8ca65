# Esports match pipeline: collection and processing core

This project models two parts of the esports analytics pipeline in Dafny and proves properties of each.

**Match collection** is `DataCollector.fetch_riot_data` and `DataCollector.fetch_dota_data`. For every match id the fetchers run a per-id retry loop:
- Each id gets at most three attempts.
- A 200 stores the decoded body.
- A Riot 429 sleeps for the `Retry-After` header's seconds.
- Any other status gives up on that id.
- A network error backs off `2 ** attempt` seconds plus jitter.
- After each id comes a fixed pause: 1.2 s for Riot, 1 s for OpenDota.

**Match processing** is `DataProcessor.process_lol_match_data`, `process_dota_match_data` and `clean_data`. The builders turn decoded match JSON into flat rows: one per team for League of Legends, one per player for Dota 2. `clean_data` then drops incomplete rows, drops duplicates and drops games of five minutes or less.

Layout:

- `wrappers.dfy` (`Wrappers`): `Option`.
- `pyint.dfy` (`PyInt`): Python's `int()` on a string, as a character scanner. It accepts an optional sign, digits with single underscores between them, and surrounding whitespace.
- `data_collection.dfy` (`DataCollection`): the fetch loops.
  - The HTTP layer is an oracle `server(i, k)`, the response to attempt `k` for the `i`-th id.
  - `random.random()` is an oracle `jitter(i, k)` below 1000 ms.
  - Every `time.sleep` is an entry, in milliseconds, of a delay log.
  - `AttemptsFrom` and `RunOver` define what the loops must do. The methods `FetchMatch`, `FetchRiotData` and `FetchDotaData` carry the loops and are proved equal to those definitions.
- `collection_facts.dfy` (`CollectionFacts`): what the definitions imply. This covers attempt counts, which ids contribute records and in what order, and the exact delay schedule.
- `json.dfy` (`PyJson`): decoded JSON values, with Python's subscript, iteration and truthiness. A missing dict key raises `KeyError`; subscripting anything other than a dict raises `TypeError`.
- `data_processing.dfy` (`DataProcessing`): both builders, inside the nested loops of `FlattenMatches`.
  - A `Schema` says where each builder reads its fields.
  - `Flatten` defines the row list handed to `pd.DataFrame`.
  - A `KeyError` ends only its match; a `TypeError` ends the call.
- `processing_facts.dfy` (`ProcessingFacts`): rows per element, partial matches, the columns and values of every row.
- `data_cleaning.dfy` (`DataCleaning`): `clean_data` as functions on a frame, i.e. its column set and its rows in order.
  - A missing cell is an absent column or JSON null.
  - Duplicates are decided by Python equality, where `True == 1`.
  - Hashing a list or dict cell raises `TypeError`.
  - Comparing a string, list or dict with 300 raises `TypeError`.
- `cleaning_facts.dfy` (`CleaningFacts`): what the cleaning guarantees.
  - The output is an order-preserving subsequence of the input, with no missing values and no duplicates.
  - Among duplicates, the first occurrence is kept.
  - Every kept duration is above 300.
  - Exactly which inputs raise.
  - Cleaning twice is the same as cleaning once.

Two consequences of the code that are easy to overlook:
- An unparseable `Retry-After` is not defaulted. `int()` raises `ValueError`, which the `RequestException` handler does not catch, so it leaves `fetch_riot_data`. A negative value likewise makes `time.sleep` raise `ValueError`.
- A network error on the third attempt still sleeps its backoff, although no attempt follows.

## Model

| member | source | states |
|---|---|---|
| PyInt.ParseInt | data_collection.py:47 | definition of `int()` on a header string: optional padding, one optional sign, digits with single underscores between them, optional padding; anything else is `None` (ValueError). Padding is space, `\t \n \v \f \r`, U+0085 and U+00A0 |
| PyInt.ParseIntRoundTrip | data_collection.py:47 | `int()` reads back every integer of at most 4300 digits from its decimal text; the model itself has no digit limit |
| PyInt.PaddingIgnored | data_collection.py:47 | a padding character before or after the text does not change what `int()` gives |
| PyInt.SeparatorRejected | data_collection.py:47 | the ASCII separators U+001C to U+001F are no padding: `int()` raises ValueError on them |
| PyInt.HttpDateRejected | data_collection.py:47 | a `Retry-After` in HTTP-date form is not an integer, so `int()` raises ValueError |
| PyInt.MalformedRejected | data_collection.py:47 | `int()` raises ValueError on an empty string, a lone sign, a trailing underscore and a doubled underscore |
| DataCollection.InterRequestDelay | data_collection.py:56 | definition: the pause after every id, 1200 ms for Riot (line 56) and 1000 ms for OpenDota (line 79) |
| DataCollection.BackoffDelay | data_collection.py:55 | definition: `2 ** attempt` seconds plus the jitter, in milliseconds |
| DataCollection.RetryAfterSeconds | data_collection.py:47 | definition: the header's `int()`, 2 when the header is absent, `None` where `int()` raises |
| DataCollection.StepOf | data_collection.py:43-55 | definition of one attempt: 200 stores the body; a Riot 429 sleeps the Retry-After seconds, or raises ValueError on a bad or negative value; any other status abandons; a network error sleeps the backoff |
| DataCollection.AttemptsFrom | data_collection.py:40-55 | the attempts from attempt `k` on send at most `3 - k` requests and at least one while attempts are left; there are no more sleeps than requests; a record and a ValueError never come together |
| DataCollection.RunOver | data_collection.py:38-57 | a run keeps no more records than ids reached and reaches no more ids than it is given; unless a ValueError ends it, it reaches every id |
| DataCollection.OpenDotaNeverRaises | data_collection.py:67-78 | no attempt sequence of `fetch_dota_data` raises |
| DataCollection.FetchMatch | data_collection.py:40-55 | the `range(3)` loop returns exactly the record, request count, sleeps and ValueError that the attempts definition gives for that id; a ValueError comes without a record, and never from OpenDota |
| DataCollection.FetchRiotData | data_collection.py:32-58 | the Riot fetch returns the records of the batch run, or raises ValueError exactly when the run raises; the requests per id and the delay log are also the batch run's |
| DataCollection.FetchDotaData | data_collection.py:60-81 | the OpenDota fetch never raises; it returns the batch run's records, requests per id and delay log |
| CollectionFacts.AttemptsSchedule | data_collection.py:40-55 | let `m` be the first attempt that does not sleep. Attempts `k` to `m` make that many requests, the sleeps are exactly those of the attempts before `m`, and attempt `m` alone decides whether a record is kept or ValueError raised |
| CollectionFacts.OkEndsAttempts | data_collection.py:43-45 | a 200 on attempt `k` keeps that body after exactly `k + 1` requests, with no further request |
| CollectionFacts.OtherStatusAbandons | data_collection.py:50-52 | any status other than 200, or for Riot other than 429, ends the id after that request with nothing kept and nothing raised; for OpenDota this includes 429 |
| CollectionFacts.BadRetryAfterRaises | data_collection.py:46-49 | a Riot 429 whose `Retry-After` is not an integer, or is negative, raises ValueError after that request |
| CollectionFacts.RateLimitedThrice | data_collection.py:46-49 | three Riot 429s use up the three attempts, keep nothing, and sleep the three `Retry-After` waits, 2 s when the header is absent |
| CollectionFacts.RateLimitedTwiceThenOk | data_collection.py:43-49 | two 429s and then a 200 keep the record after exactly three requests and two waits |
| CollectionFacts.BackoffIncreases | data_collection.py:55 | each backoff is longer than the one before it, whatever the jitter |
| CollectionFacts.NetworkDownThrice | data_collection.py:53-55 | three network errors mean three requests, no record, and sleeps of 1 s, 2 s and 4 s plus jitter, strictly increasing and including one after the last attempt |
| CollectionFacts.RunWithoutRaise | data_collection.py:38-57 | a run in which no id raises does not raise |
| CollectionFacts.OpenDotaFetchNeverRaises | data_collection.py:60-81 | `fetch_dota_data` never raises, for any batch and any responses |
| CollectionFacts.RunAttempts | data_collection.py:38-55 | each id a run reaches gets exactly the requests of its own attempts, and only the last id reached can have raised |
| CollectionFacts.RunStopsAtRaise | data_collection.py:38-58 | a run raises exactly when the last id it reached raised; otherwise it reaches every id |
| CollectionFacts.FetchAttemptsBounded | data_collection.py:40 | every id a fetch reaches gets between 1 and 3 requests: exactly those of its attempts |
| CollectionFacts.RunRecordsInOrder | data_collection.py:37-45 | the records of a run come from the ids that kept one, in strictly increasing id order, and every id reached that kept a record is represented |
| CollectionFacts.FetchRecordsInOrder | data_collection.py:37-58 | a fetch returns the records of exactly those ids that got a 200, in input order |
| CollectionFacts.RunDelaySchedule | data_collection.py:38-56 | the delay log of a run is, id by id, that id's own sleeps followed by one inter-request delay (none after an id that raised) |
| CollectionFacts.FetchDelaySchedule | data_collection.py:56 | a fetch's delay log splits into one segment per id reached: its sleeps, then 1.2 s (Riot) or 1 s (OpenDota) |
| CollectionFacts.RecordsBounded | data_collection.py:37-58 | a fetch never returns more records than it was given ids |
| CollectionFacts.OkThenNotFound | data_collection.py:43-52 | a 200 for the first id and a 404 for the second keep only the first record, with one request each and two pauses |
| PyJson.Get | data_processing.py:28 | definition: `v[key]` gives the value when `v` is a dict holding `key`, raises KeyError when it is a dict without `key`, and raises TypeError otherwise |
| PyJson.Path | data_processing.py:28-31 | an empty chain of subscripts gives the value itself |
| PyJson.PathAppend | data_processing.py:39-43 | following a chain of subscripts in two parts is following the first part, then the second from where it led |
| PyJson.Truthy | data_processing.py:38 | definition: Python truthiness. None, `False`, 0, the empty string, the empty list and the empty dict are false, and every other value is true |
| PyJson.Iterate | data_processing.py:35 | a list iterates to its items; None, a bool or an int raises TypeError; iterating never raises KeyError; elements come only from a list |
| DataProcessing.LolMatchInfo | data_processing.py:27-32 | a LoL `match_info` has exactly the columns `match_id`, `game_duration`, `game_version`, `queue_id` |
| DataProcessing.LolTeamRow | data_processing.py:36-43 | a team row has the match columns plus exactly the seven team columns |
| DataProcessing.DotaMatchInfo | data_processing.py:59-67 | a Dota `match_info` has exactly its seven match columns |
| DataProcessing.DotaPlayerRow | data_processing.py:71-78 | a player row has the match columns plus exactly the seven player columns |
| DataProcessing.ColumnNameInjective | data_processing.py:27-43 | distinct columns have distinct names in the frame, so keying a row by column loses no field |
| DataProcessing.LolSchema | data_processing.py:20-51 | definition: `process_lol_match_data` builds the match info, iterates `match['info']['teams']` and builds one team row per entry |
| DataProcessing.DotaSchema | data_processing.py:53-86 | definition: `process_dota_match_data` builds the match info, iterates `match['players']` and builds one player row per entry |
| DataProcessing.MatchRows | data_processing.py:25-49 | definition of one pass of the outer loop: the match info, then the element list, then the inner loop, with a KeyError ending the match and a TypeError escaping |
| DataProcessing.Flatten | data_processing.py:22-49 | definition of the whole call: each match's rows in input order, or TypeError once a match raises one |
| DataProcessing.ElementRows | data_processing.py:35-45 | a match yields no more rows than elements, and one per element when none raises |
| DataProcessing.FlattenMatches | data_processing.py:22-49 | the nested `append` loops produce exactly the row list, or the TypeError, that `Flatten` defines |
| DataProcessing.ProcessLolMatchData | data_processing.py:20-51 | `process_lol_match_data` hands `pd.DataFrame` the flattened team rows, or raises TypeError |
| DataProcessing.ProcessDotaMatchData | data_processing.py:53-86 | `process_dota_match_data` hands `pd.DataFrame` the flattened player rows, or raises TypeError |
| ProcessingFacts.ElementRowsSpec | data_processing.py:35-49 | the rows of a match are the rows of its first elements, in order; the match completes exactly when every element gives a row; otherwise the first element that failed raised KeyError or TypeError, and the match ends with that error |
| ProcessingFacts.ReadableMatchRows | data_processing.py:24-45 | a well-formed match yields exactly one row per element, in element order |
| ProcessingFacts.MatchKeyErrorSkipsMatch | data_processing.py:27-49 | a missing match-level key, or a missing element list, drops the whole match and processing goes on with the next one |
| ProcessingFacts.ElementKeyErrorKeepsEarlierRows | data_processing.py:35-49 | a missing key in element `j` keeps the `j` rows of the earlier elements, skips the rest of the match, and goes on with the next match |
| ProcessingFacts.FlattenAppend | data_processing.py:24-49 | the matches are processed in input order: processing `a + b` is processing `a`, then unless it raised, `b` |
| ProcessingFacts.FlattenRaises | data_processing.py:24-49 | the call raises TypeError exactly when some match raises one |
| ProcessingFacts.LolBuildsColumns | data_processing.py:27-43 | every LoL match-info has the four match columns, and every team row adds the seven team columns |
| ProcessingFacts.DotaBuildsColumns | data_processing.py:59-78 | every Dota match-info has the seven match columns, and every player row adds the seven player columns |
| ProcessingFacts.ElementRowsColumns | data_processing.py:35-45 | every row of a match has exactly the builder's columns |
| ProcessingFacts.FlattenColumns | data_processing.py:22-51 | every row a builder returns has exactly its columns |
| ProcessingFacts.MatchRowSource | data_processing.py:24-45 | the `k`-th row of a match is the row built from its `k`-th element and its match info |
| ProcessingFacts.LolTeamRowValues | data_processing.py:36-43 | a team row holds `teamId`, the four objective fields and `win` as 1 when truthy and 0 otherwise |
| ProcessingFacts.LolTeamRowKeepsInfo | data_processing.py:36-38 | `win` is 0 or 1, and every match-level value is copied unchanged into the team row |
| ProcessingFacts.LolMatchInfoValues | data_processing.py:27-32 | a LoL match info holds `metadata.matchId` and `info.gameDuration`, `info.gameVersion`, `info.queueId` |
| ProcessingFacts.LolMatchRow | data_processing.py:24-45 | each LoL row comes from one team of its match, via that match's info, and has exactly the eleven LoL columns |
| ProcessingFacts.DotaPlayerRowValues | data_processing.py:71-78 | a player row holds the player's seven fields |
| ProcessingFacts.DotaPlayerRowKeepsInfo | data_processing.py:71 | every match-level value is copied unchanged into the player row |
| ProcessingFacts.DotaMatchInfoValues | data_processing.py:59-67 | a Dota match info holds the match's seven fields |
| ProcessingFacts.DotaMatchRow | data_processing.py:57-80 | each Dota row comes from one player of its match, via that match's info, and has exactly the fourteen Dota columns |
| DataCleaning.ColumnsOf | data_processing.py:51 | the frame's columns are exactly the keys that occur in some row |
| DataCleaning.ToFrame | data_processing.py:51 | definition of `pd.DataFrame(rows)`: the rows in order, with the union of their keys as columns |
| DataCleaning.Cell | data_processing.py:51 | definition: the value a row holds for a column, JSON null standing for the NaN that `pd.DataFrame` puts where a row lacks the column |
| DataCleaning.Complete | data_processing.py:91 | definition: the row `dropna` keeps, one with no missing value in any column of the frame |
| DataCleaning.DropNa | data_processing.py:91 | `dropna` keeps the columns, no more rows than it is given, and only rows with no missing value |
| DataCleaning.Where | data_processing.py:98 | a boolean mask keeps no more rows than it is given, and only rows it holds for |
| DataCleaning.KeyOf | data_processing.py:94 | the duplicate key of a row covers exactly the frame's columns |
| DataCleaning.Norm | data_processing.py:94 | definition: `True` compares as 1 and `False` as 0; every other value compares as itself |
| DataCleaning.Hashable | data_processing.py:94 | definition: the frame `drop_duplicates` can hash, one with no list or dict in any cell |
| DataCleaning.Dedupe | data_processing.py:94 | duplicate removal keeps no more rows than it is given; its meaning is in the `Dedupe*` lemmas |
| DataCleaning.LongerThanFiveMinutes | data_processing.py:98 | definition of the mask `game_duration > 300`: an integer above 300; a bool compares as 0 or 1; a missing value is false |
| DataCleaning.Uncomparable | data_processing.py:98 | definition: the values `> 300` raises TypeError on, a string, a list or a dict |
| DataCleaning.DropDuplicates | data_processing.py:94 | `drop_duplicates` raises no KeyError |
| DataCleaning.FilterDuration | data_processing.py:97-98 | the duration filter raises no KeyError |
| DataCleaning.Clean | data_processing.py:88-100 | `clean_data` raises no KeyError |
| CleaningFacts.WhereSpec | data_processing.py:98 | a mask keeps exactly the rows it holds for, in order |
| CleaningFacts.WhereAll | data_processing.py:91 | a mask that holds for every row keeps them all |
| CleaningFacts.DedupeUnseen | data_processing.py:94 | no row that duplicate removal keeps has the key of an earlier row |
| CleaningFacts.DedupeDistinctKeys | data_processing.py:94 | the rows duplicate removal keeps are pairwise distinct |
| CleaningFacts.DedupePicks | data_processing.py:94 | duplicate removal keeps rows of its input in order, each the first of its key |
| CleaningFacts.DedupeCovers | data_processing.py:94 | every key of the input, unless it was already seen, is the key of some row kept |
| CleaningFacts.DedupeDistinct | data_processing.py:94 | duplicate removal keeps a duplicate-free input unchanged |
| CleaningFacts.DropDuplicatesSpec | data_processing.py:94 | on a frame with rows and columns, `drop_duplicates` raises TypeError exactly when a cell holds a list or dict. Otherwise it keeps the columns and keeps, in order, the first row of every key and no other row |
| CleaningFacts.DropDuplicatesPicks | data_processing.py:94 | `drop_duplicates` keeps the columns and an order-preserving subsequence of the rows |
| CleaningFacts.FilterDurationSpec | data_processing.py:97-98 | the filter keeps the columns and a subsequence of the rows. With a `game_duration` column, it keeps exactly the rows whose duration exceeds 300 |
| CleaningFacts.CleanPicksFromDropNa | data_processing.py:91-98 | what `clean_data` returns is a subsequence of what its `dropna` returns |
| CleaningFacts.CleanPicks | data_processing.py:88-100 | `clean_data` keeps the columns, and its rows are input rows in their original order |
| CleaningFacts.CleanComplete | data_processing.py:91 | no row `clean_data` returns has a missing value |
| CleaningFacts.CleanDistinct | data_processing.py:94 | no two rows `clean_data` returns are duplicates |
| CleaningFacts.CleanDurations | data_processing.py:97-98 | with a `game_duration` column, every duration `clean_data` keeps is an integer above 300 |
| CleaningFacts.CleanTypeError | data_processing.py:88-100 | `clean_data` raises TypeError exactly when some complete row holds a list or dict, or a string duration |
| CleaningFacts.CleanIdempotent | data_processing.py:91-98 | cleaning the output of `clean_data` again gives the same frame |
| CleaningFacts.BuiltFrame | data_processing.py:51 | a builder's frame has exactly the builder's columns, and a row has a missing value exactly when it holds JSON null |
| CleaningFacts.LolFrameHasDuration | data_processing.py:51 | a non-empty LoL frame has a `game_duration` column, so the duration filter applies |
| CleaningFacts.DotaFrameHasDuration | data_processing.py:86 | a non-empty Dota frame has a `game_duration` column, so the duration filter applies |

## Left out

- HTTP, headers and timeouts are not modelled. `requests.get` is replaced by the response oracle, with a Retry-After header per reply. Headers sent and the URL are not modelled.
- `response.json()` failures are not modelled. A 200 reply carries its decoded body, and which exception a malformed body raises depends on the library version.
- Logging and error printing are not modelled. Every `print` in both files is output only.
- Sleep time is integer milliseconds. `time.sleep` and `random.random()` are replaced by a delay log in milliseconds and a jitter oracle below 1000 ms. The 1.2 s pause is exactly 1200 ms, and float rounding is not modelled.
- `PyInt.ParseInt`: header text is taken as Latin-1, so only the padding characters of that range are modelled. Digits and spaces beyond U+00FF that `int()` also accepts are not modelled. The 4300-digit limit of `int()` (Python 3.11 and later) is not modelled either. With it, a longer Retry-After raises ValueError, and the model reads it as a number.
- `DataCollector.__init__` is I/O and is not modelled: environment variables, directory creation, missing-key warnings.
  - Without a Riot key the header value is None, and `requests` drops such a header, so no `X-Riot-Token` is sent. The effect shows only in the server's replies.
- `save_data`, `load_sample_data` and `to_dataframe` in data_collection.py are file I/O, a constant and a library call, and are not modelled.
- `load_json_data` and `save_processed_data` are file I/O and are not modelled.
- `pd.DataFrame` is modelled only by the columns it creates (`DataCleaning.ToFrame`). Dtype inference and NaN filling happen inside the library and are not modelled; a missing cell reads as JSON null.
- `DataCleaning.Frame` keeps no row index and holds its columns as a set. The index labels `clean_data` keeps and the column order are not modelled, and nothing in these functions depends on either.
- JSON numbers with a fractional part are not represented. `game_duration` is compared as an integer or a boolean.
- `match_data` is taken to be a list (`seq<Json>`). Iterating over other kinds of value at the top level is not modelled.
- Iterating a non-empty dict or string as the team or player list gives strings. Subscripting a string with a string key raises TypeError, so the model raises at once and does not model dict key order.
- `PyJson.Path`: its contract states only the empty path; `PyJson.PathAppend` and the row-value lemmas state the rest.
- `DataCleaning.DropDuplicates`, `DataCleaning.FilterDuration`, `DataCleaning.Clean`: their own contracts state only that no KeyError arises. Their meaning is stated by `CleaningFacts.DropDuplicatesSpec`, `CleaningFacts.FilterDurationSpec` and the `Clean*` lemmas.
- `CleaningFacts.CleanDistinct`: it requires at least one column. A frame with rows but no columns passes through `drop_duplicates` unchanged in the model.
- Integers are unbounded. `time.sleep` raises OverflowError on an enormous `Retry-After`, and the model does not capture that.
- Concurrency is out of scope: the fetchers are sequential, and nothing else shares their state.
- src_analysis.py is not part of this model: model training and evaluation are library calls.
- src_visualization.py is not part of this model: plotting is library calls.
