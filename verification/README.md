# Fortis services: the Cassandra data-access core

This project models the data-access core of the Fortis GraphQL services in
Dafny and proves properties of it. It covers four parts of the core.

- **The Cassandra connector.** It holds one process-wide `cassandra-driver`
  client and offers three operations:
  - `executeBatchMutations` splits a list of mutations into batches of
    `MAX_OPERATIONS_PER_BATCH` and sends each one as a prepared batch;
  - `executeQuery` drains a row stream into one array;
  - `executeQueryWithPageState` fetches one page of a query.

  The driver is modelled by what it answers: the reply of each
  `client.batch` call, the events a `client.stream` emits, and the outcome
  of a `client.execute`.
- **The shared argument normalisers.** These are the pipeline key of a
  source filter, the three sorted and null-padded topic slots of a
  conjunctive query, the date range, and the list of every source.
- **The settings resolvers' row transforms.** These cover:
  - watchlist terms and their translations;
  - the case-insensitive trusted-source name filter;
  - stream rows, their `enabled` default and their parameter entries;
  - the `connector,sourceid,sourcetype` row keys;
  - the page id inside a Facebook URL;
  - blacklist filters.
- **The `event` resolver.** It guards a lookup of one event by id and maps
  the single row to a feature, whose coordinates come from the location
  service.

The modules follow the source files:

| file | module | source |
|---|---|---|
| `js.dfy` | `Js` | The JavaScript built-ins the code relies on: nullable values and truthiness, promise outcomes, `toLowerCase`, `indexOf`, `sort()` without a comparator, and the decimal form of a number. |
| `cassandra_connector.dfy` | `CassandraConnector` | `src/clients/cassandra/CassandraConnector.js` |
| `shared.dfy` | `Shared` | `src/resolvers-cassandra/shared.js` |
| `settings_queries.dfy` | `SettingsQueries` | `src/resolvers-cassandra/Settings/queries.js` |
| `messages_queries.dfy` | `MessagesQueries` | `src/resolvers-cassandra/Messages/queries.js` |

A promise is modelled by the `Outcome` it reaches once every event that can
reach it has been delivered: `Pending`, `Resolved(value)` or
`Rejected(reason)`. A rejection reason is one of three things: a string
passed to `reject`, an error raised by the driver or another client, or a
`TypeError` the runtime throws when it reads a property of `null` or
`undefined`. A missing column or argument is `None`. Code that can throw
returns a `Result`.

Three behaviours of the code are easy to miss, and the model keeps them:

- `event` with no matching row reads `pipeline` of `undefined`, so it
  rejects with a TypeError instead of returning an empty result.
- `cassandraRowToStream` throws when the row's `params` column is null,
  because `Object.keys(null)` throws.
- `facebookPageToId` takes the leftmost position where the whole pattern
  `/facebook.com\/([^/]+)/` matches. The `.` matches any character except a
  line terminator, and the match needs at least one non-slash after
  `com/`. So `facebook.com//x` does not match at that position at all.

## Model

| member | source | states |
|---|---|---|
| Js.IndexOf | src/resolvers-cassandra/Settings/queries.js:105 | `indexOf` gives -1 exactly when the needle does not occur; otherwise it gives the first index where it occurs. |
| Js.Sort | src/resolvers-cassandra/shared.js:55 | The default `sort()` returns its strings in ascending character (code-point) order, as a permutation of its input. |
| Js.NatToStringRoundTrip | src/resolvers-cassandra/Messages/queries.js:77 | The decimal text of a row count parses back to the same count. |
| CassandraConnector.BatchLimitsFrom | src/clients/cassandra/CassandraConnector.js:10-11 | The batch size defaults to 10 and the concurrency to 50; a set variable overrides its default. |
| CassandraConnector.ClientOptionsFrom | src/clients/cassandra/CassandraConnector.js:9-32 | The client options have one contact point, the keyspace, auto-paging and prepared statements. Fetch size defaults to 1000 and each core-connection count to 1. An auth provider is present exactly when both username and password are non-empty, and it carries those two values. |
| CassandraConnector.DefaultConfiguration | src/clients/cassandra/CassandraConnector.js:9-14 | With nothing set, the defaults are fetch size 1000, pooling 1/1, no auth provider, and batch limits 10/50. |
| CassandraConnector.ChunkLossless | src/clients/cassandra/CassandraConnector.js:44 | `Chunk` models lodash `chunk`: consecutive slices of `size`, none at all for a size below 1. Concatenating the chunks in order gives back the mutation list exactly. |
| CassandraConnector.ChunkCount | src/clients/cassandra/CassandraConnector.js:44 | There are ceil(n / size) chunks. |
| CassandraConnector.ChunkShape | src/clients/cassandra/CassandraConnector.js:44 | Every chunk is non-empty with at most `size` mutations, and every chunk but the last has exactly `size`. |
| CassandraConnector.NoChunksBelowSizeOne | src/clients/cassandra/CassandraConnector.js:44 | A batch size below 1 produces no chunks, so no mutation is sent. |
| CassandraConnector.TwentyFiveInTens | src/clients/cassandra/CassandraConnector.js:44 | With the default size, 25 mutations make batches of 10, 10 and 5, in order. |
| CassandraConnector.FirstFailed | src/clients/cassandra/CassandraConnector.js:46-62 | The index of the first chunk whose batch fails, or the chunk count. Every chunk before it succeeds. |
| CassandraConnector.ExecuteBatchMutations | src/clients/cassandra/CassandraConnector.js:39-64 | A missing client rejects with "No Cassandra client defined" before the mutations are examined. A null or empty list rejects with "No mutations defined". Neither case sends a batch. Otherwise every chunk is sent, in order, as a prepared batch, up to and including the first one that fails. A callback error and a thrown exception both reject with that chunk's error. A batch that never calls back leaves the call pending. When no chunk fails, the call resolves with the chunk count. |
| CassandraConnector.ChunkFailure | src/clients/cassandra/CassandraConnector.js:47-60 | A failing chunk's callback error and its thrown exception reject the call alike. A batch whose callback never runs leaves it pending, and only such a batch does. |
| CassandraConnector.BatchAllOrNothing | src/clients/cassandra/CassandraConnector.js:46-62 | The batch call resolves exactly when every chunk succeeds. It then reports ceil(n / size) batches, and the batches sent concatenate to the mutation list. |
| CassandraConnector.ExecuteQuery | src/clients/cassandra/CassandraConnector.js:72-93 | The promise settles to `Drain` of the stream's events, which models the `readable`, `error` and `end` handlers. A null client or a throwing `client.stream` rejects. The first `end` resolves with all rows read so far, in order. The first truthy error rejects. A falsy error is ignored. |
| CassandraConnector.SettledIsFinal | src/clients/cassandra/CassandraConnector.js:73-88 | Settle-once: events after the promise settles do not change its outcome. |
| CassandraConnector.EndGivesAllRows | src/clients/cassandra/CassandraConnector.js:77-88 | A stream that ends before any error resolves with every row of every `readable` event, concatenated in read order. |
| CassandraConnector.ErrorDiscardsRows | src/clients/cassandra/CassandraConnector.js:83-85 | A stream whose first settling event is an error rejects with that error, whatever rows were read before it. |
| CassandraConnector.NoRowsResolvesEmpty | src/clients/cassandra/CassandraConnector.js:75-88 | A stream that ends without rows resolves with the empty array, whatever empty `readable` events or falsy errors come before its end. |
| CassandraConnector.ExecuteQueryWithPageState | src/clients/cassandra/CassandraConnector.js:102-128 | The fetch size is the given one, or 15 when that is missing or 0. The page state is in the options only when it is truthy. The result carries exactly the driver's page state and rows. A driver rejection is passed on unchanged. |
| CassandraConnector.Initialize | src/clients/cassandra/CassandraConnector.js:135-137 | Warm-up streams `select sitename from fortis.sitesettings limit 1` with no parameters or options, and settles as that query does. |
| Shared.AllSourcesAreDistinct | src/resolvers-cassandra/shared.js:22-31 | There are eight sources, no two of them equal. |
| Shared.ToPipelineKey | src/resolvers-cassandra/shared.js:33-43 | A null or empty filter gives "all"; otherwise the key is the filter's first source. |
| Shared.PipelineKeyIgnoresRest | src/resolvers-cassandra/shared.js:38-42 | Sources after the first do not affect the key. |
| Shared.ToConjunctionTopics | src/resolvers-cassandra/shared.js:45-61 | There are always three slots. A null or empty filter list gives `[mainEdge, null, null]`. Otherwise the non-null slots lead and hold a permutation of the main edge and the first two filtered edges, in ascending order, and the nulls are trailing padding. The caller's array is not modified. |
| Shared.ParseFromToDate | src/resolvers-cassandra/shared.js:63-71 | Both dates are returned unchanged, and the period and period type are empty. |
| SettingsQueries.TransformWatchlist | src/resolvers-cassandra/Settings/queries.js:12-21 | The translated name is the topic when no language is asked for or the asked language is the row's own. Otherwise it is the stored translation into that language, which is absent when there is no translation map. The ids, the name, both languages and the asked language are copied. |
| SettingsQueries.TermEdges | src/resolvers-cassandra/Settings/queries.js:34-39 | The `terms` edges are exactly the transformed rows whose translated name is truthy. |
| SettingsQueries.TermEdgesAppend | src/resolvers-cassandra/Settings/queries.js:36-38 | The filter keeps row order: the edges of two row lists are the edges of each, in order. |
| SettingsQueries.CassandraRowToSource | src/resolvers-cassandra/Settings/queries.js:94-101 | A trusted source carries its row's id, type, pipeline key and rank. |
| SettingsQueries.TrustedSourceFilter | src/resolvers-cassandra/Settings/queries.js:103-109 | With a falsy name query every source is kept. Otherwise a source is kept exactly when its lower-cased id contains the lower-cased query. |
| SettingsQueries.TrustedSources | src/resolvers-cassandra/Settings/queries.js:73-76 | The `trustedsources` list holds only mapped rows the name query accepts, and every mapped row it accepts. Without a query, it is every row, mapped, in order. With `TrustedSourcesAppend` and `TrustedSourcesOne`, this fixes the list as the order-preserving filter of the mapped rows. |
| SettingsQueries.TrustedSourcesAppend | src/resolvers-cassandra/Settings/queries.js:73-76 | The name filter keeps row order and multiplicity: the sources of two row lists are those of each, in order. |
| SettingsQueries.TrustedSourcesOne | src/resolvers-cassandra/Settings/queries.js:73-76 | A single row gives its mapped source exactly when the name query accepts it, and nothing otherwise. |
| SettingsQueries.ParamsToParamsEntries | src/resolvers-cassandra/Settings/queries.js:111-122 | There is one `{key, value}` entry per key of the object, in key order, so there are as many entries as keys. A null object throws a TypeError. |
| SettingsQueries.EntriesRebuildParams | src/resolvers-cassandra/Settings/queries.js:111-122 | The entries lose nothing: rebuilding an object from them gives back the original keys and values. |
| SettingsQueries.CassandraRowToStream | src/resolvers-cassandra/Settings/queries.js:81-92 | A null `enabled` becomes false, in the stream and in the row itself; any other value is kept. The other columns are copied, and the parameters become entries. A null parameter map throws a TypeError. |
| SettingsQueries.RowKeyRoundTrip | src/resolvers-cassandra/Settings/queries.js:149 | When no part contains a comma, splitting a row key at its commas gives back the connector, source id and source type. A null part prints as "null". |
| SettingsQueries.RowKeyAmbiguous | src/resolvers-cassandra/Settings/queries.js:149 | A comma inside a part makes two different rows share one row key. |
| SettingsQueries.CassandraRowToTrustedTwitterAccount | src/resolvers-cassandra/Settings/queries.js:147-152 | The account's row key is the row's three-part key, and its URL is the source id. |
| SettingsQueries.CassandraRowToFacebookPage | src/resolvers-cassandra/Settings/queries.js:167-172 | The page's row key is the row's three-part key, and its URL is the source id. |
| SettingsQueries.FirstMatch | src/resolvers-cassandra/Settings/queries.js:188 | The regular-expression search gives the leftmost index where the whole pattern matches. |
| SettingsQueries.RunFrom | src/resolvers-cassandra/Settings/queries.js:188 | The greedy `([^/]+)` capture is the longest slash-free run, ending at a slash or at the end of the URL. |
| SettingsQueries.FacebookPageToId | src/resolvers-cassandra/Settings/queries.js:187-190 | There is an id exactly when the page, its URL and a match exist. The id is non-empty, and it is the maximal slash-free run after `com/` at the leftmost match. |
| SettingsQueries.FacebookUrlRoundTrip | src/resolvers-cassandra/Settings/queries.js:187-190 | Round trip: a URL `<prefix>facebook.com/<id>`, with the id followed by the end or a slash, gives back `<id>` when the pattern has no earlier match inside `<prefix>`. |
| SettingsQueries.FacebookUrlRoundTripNoF | src/resolvers-cassandra/Settings/queries.js:187-190 | In particular, the id always comes back when the text before `facebook.com/` contains no `f`. |
| SettingsQueries.CassandraRowToTermFilter | src/resolvers-cassandra/Settings/queries.js:204-209 | A term filter carries the row's id and its conjunctive filter as the filtered terms. |
| MessagesQueries.MakeEventQuery | src/resolvers-cassandra/Messages/queries.js:61-65 | The lookup is `SELECT * FROM fortis.events WHERE id = ?`, and the id is its only parameter. |
| MessagesQueries.OriginalSources | src/resolvers-cassandra/Messages/queries.js:22-23 | `originalSources` is `[pipeline]` when the pipeline is truthy; otherwise it is the falsy pipeline itself. |
| MessagesQueries.SentimentOf | src/resolvers-cassandra/Messages/queries.js:17-20 | The sentiment succeeds exactly when the analysis exists and either leans positive or has a `sentence` part. A positive lean scores its margin plus 0.6, so above 0.6; otherwise the score is the sentiment's negative average minus the sentence's positive average. Every failure is a TypeError. |
| MessagesQueries.CassandraRowToFeature | src/resolvers-cassandra/Messages/queries.js:9-29 | The feature's type, edges, message id, creation time, title, language, source and full text are copied from their columns, and its coordinates are empty. `originalSources` is `pipeline && [pipeline]`, so it is truthy exactly when the pipeline is. The conversion throws exactly when the sentiment does. |
| MessagesQueries.MoreEventsMessageNamesCountAndId | src/resolvers-cassandra/Messages/queries.js:77 | The rejection for several rows starts "Got more ", the count can be read back from it, and it ends with the event id. |
| MessagesQueries.Event | src/resolvers-cassandra/Messages/queries.js:60-91 | A missing argument or id rejects with "No event id to fetch specified" before any query is issued. Otherwise exactly the lookup is issued. More than one row rejects with the count-and-id message. No row rejects with a TypeError. One row becomes its feature, or the conversion's TypeError. The places are looked up by `detectedplaceids`, or `[]` when there are none. The feature's coordinates are the places' bounding boxes, in order. Every rejection along the way is passed on. |

## Left out

- The `cassandra-driver` client is left out: sockets, pooling, prepared statements and paging inside the store. The model reduces it to the answers it gives. A `client.batch` reply is a function of the chunk. A `client.stream` call is a finite sequence of events. A `client.execute` call is one outcome.
- The concurrency of `async/eachLimit` is not modelled. Chunks are dispatched one after another, and the error reported is the one from the first failing chunk in chunk order. With up to 50 batches in flight, the source reports whichever error arrives first, and batches already in flight may still run. The model's dispatch stops at the first failure. A chunk that never calls back leaves the model pending without sending the later chunks. In the source, the later chunks are still sent, and one of them failing would reject the call.
- CassandraConnector.ExecuteBatchMutations: does not model eachLimit's handling of a concurrency limit of 0 or less. There the source resolves with the chunk count at once, without sending any batch.
- Chunks that succeeded before a failure are not rolled back in the source or in the model: `dispatched` lists them.
- Environment variables are read as strings by the source. The model takes the numeric settings as integers (unset or empty gives the default), so non-numeric values and NaN are not modelled.
- The instrumentation wrappers are not modelled: `trackDependency`, `trackEvent`, the `console` logging and `withRunTime` (its run time comes from the clock).
- MessagesQueries.SentimentOf: computes with exact reals rather than IEEE doubles. It does not model NaN or missing numeric fields.
- `facebookAnalytics` and its Facebook client, `translate` and `translateWords` call foreign services and are not modelled. The location service's `fetchById` is a parameter of `Event`, from place ids to an outcome with a list of places.
- `sites` is not modelled, because it calls `getSiteDefintion`, which the shared module never exports. The empty `byLocation`, `byBbox` and `byEdges` stubs are not modelled either.
- The resolver wrappers that only run a fixed query and map its rows are represented by their mapping functions: `terms`, `streams`, `trustedsources`, `twitterAccounts`, `trustedTwitterAccounts`, `facebookPages` and `termBlacklist`. Their query strings are not modelled. `cassandraRowToTwitterAccount` copies five fields of a driver map and is not modelled.
- `toLowerCase` is modelled on the ASCII letters only, and strings are sequences of characters rather than UTF-16 code units.
- SettingsQueries.TrustedSourceFilter: a source whose `externalsourceid` is null would throw in the source. The model's id is always a string.
- Shared.ToConjunctionTopics: the source sorts a fresh array in place. The model sorts a sequence value. Topics that are not strings, which `sort()` would place by their string form or leave last, are not modelled.
- SettingsQueries.TransformWatchlist: translation maps are plain string maps. Keys inherited from the JavaScript object prototype are not modelled.
- The rows array that `executeQuery` resolves with is the same array that later `readable` events would still push into. The model resolves with a value and does not model that aliasing.
