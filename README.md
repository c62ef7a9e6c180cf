# Sleeper proxy and player cache: a verified model

The repository has two separate pieces. The first is a small HTTP proxy (`api/sleeper.py`). It forwards four read-only routes to the Sleeper fantasy-sports API and relays the answers. The second is a batch loader (`db/scripts/cache_sleeper_players.py`). It downloads the full NFL player dataset, flattens each player object into a fixed-column row, and upserts every row into a local SQLite `players` table in one transaction. It then records completion keys in a `meta` table.

This project models the decision logic of both pieces in Dafny and proves what they promise.

**Loader.**
- A player object is the datatype `PlayerRecord`. Each field is optional: a missing key and JSON null both read as `None`, as `dict.get` does.
- `PlayerRows.PrepareRow` derives one row from an entry. It covers the `full_name` fallback chain, the choice of `player_id`, the conditional serialisation of `fantasy_positions`, the raw-payload copy and the shared timestamp.
- The `players` table is a `map<string, PlayerRow>` keyed by primary key. `PlayersTable.Upserted` gives the documented meaning of `INSERT ... ON CONFLICT DO UPDATE` applied row by row: overwrite every column of a matching key and leave all other keys alone.
- The connection is the class `CacheSleeperPlayers.CacheDb`. It holds both tables and the state saved at `BEGIN`. Its methods execute the upsert loop (`Upsert`), `mark_cached`, `is_cached`, commit and rollback.
- `Run` is the body of `main`. The fetch result, the clock and the point at which the run fails are its parameters.

**Proxy.**
- The network call is a function from URL to an `Outcome`: a transport failure, or a response with a status, its raw text and its decoded JSON when there is one.
- `Sleeper.Classify` maps the outcome to the client's reply. `Sleeper.UpstreamPath` builds each route's upstream path.
- `Sleeper.ParseUpstreamPath` reads a route back from its path. It is the reference used to prove that each route asks for its own resource.

Two behaviours of the code are easy to misread:
- A single non-empty name is used on its own as `full_name`. The upstream `full_name` field is used only when neither name is non-empty (`db/scripts/cache_sleeper_players.py:109`, `PlayerRows.FullName`).
- A second load restamps `updated_at` only on the keys the new data writes. Players that vanished upstream keep their old row and old stamp (`CacheSleeperPlayers.RerunOnlyRestamps`).

## Model

| member | source | states |
|---|---|---|
| `PlayerRows.FullName` | db/scripts/cache_sleeper_players.py:107-109 | both names non-empty gives "first last"; exactly one non-empty gives that one alone; neither gives the upstream `full_name`, absent or not |
| `PlayerRows.RowKey` | db/scripts/cache_sleeper_players.py:115 | the key is the record's own `player_id` when present and non-empty, otherwise the mapping key; it is empty only if the mapping key is |
| `PlayerRows.PositionsJson` | db/scripts/cache_sleeper_players.py:111-112 | `fantasy_positions_json` is absent exactly when `fantasy_positions` is; otherwise it serialises that list, an empty list included |
| `PlayerRows.PrepareRow` | db/scripts/cache_sleeper_players.py:114-140 | the row's key, `full_name` and positions column follow the three rules above; `data_json` is a copy of the whole record and `updated_at` is `now` |
| `PlayerRows.PrepareRowCopiesFields` | db/scripts/cache_sleeper_players.py:117-134 | every other column is the record's field, unchanged |
| `PlayerRows.PrepareRowRestamped` | db/scripts/cache_sleeper_players.py:102-140 | the same entry prepared at two times gives rows that differ only in `updated_at` |
| `PlayerRows.PrepareRows` | db/scripts/cache_sleeper_players.py:105-140 | exactly one row per fetched entry, in order, the i-th row derived from the i-th entry |
| `PlayerRows.PreparedRowsStamped` | db/scripts/cache_sleeper_players.py:102-139 | every prepared row has the same `updated_at = now` and a non-null copy of its whole record |
| `PlayerRows.PrepareRowsRestamped` | db/scripts/cache_sleeper_players.py:102-140 | the same entries prepared at two times give row lists equal except for `updated_at` |
| `PlayersTable.ConflictUpdate` | db/scripts/cache_sleeper_players.py:156-174 | the `DO UPDATE SET` list keeps the key and, for a matching key, yields exactly the incoming row: every column is overwritten |
| `PlayersTable.InsertOrUpdate` | db/scripts/cache_sleeper_players.py:145-175 | one upsert adds the row's key, changes no other key, and on a keyed table overwrites that key with the row |
| `PlayersTable.Upserted` | db/scripts/cache_sleeper_players.py:143-177 | after the bulk upsert the keys are the old keys plus the rows' keys (nothing is deleted), and every row still sits under its own key |
| `PlayersTable.UpsertedLastWins` | db/scripts/cache_sleeper_players.py:143-177 | each written key maps to the last row carrying that key |
| `PlayersTable.UpsertedKeepsOthers` | db/scripts/cache_sleeper_players.py:143-177 | keys no row writes keep their previous row |
| `PlayersTable.UpsertedIgnoresPrior` | db/scripts/cache_sleeper_players.py:156-174 | what a written key ends up holding does not depend on what the table held before |
| `PlayersTable.UpsertIdempotent` | db/scripts/cache_sleeper_players.py:143-177 | upserting the same rows twice leaves the table as upserting them once |
| `PlayersTable.UpsertedRestamped` | db/scripts/cache_sleeper_players.py:156-174 | rows differing only in `updated_at` leave each written key with the same row, restamped |
| `PlayersTable.UpsertedSize` | db/scripts/cache_sleeper_players.py:143-177 | the table gains at most one key per row written |
| `PlayersTable.DistinctIdsKeepCount` | db/scripts/cache_sleeper_players.py:143-177 | rows with pairwise distinct keys write exactly as many keys as there are rows |
| `PlayersTable.RepeatedIdShrinksKeys` | db/scripts/cache_sleeper_players.py:143-177 | two rows with the same key write fewer keys than there are rows |
| `Decimal.DecimalText` | db/scripts/cache_sleeper_players.py:80 | `str(count)` is a non-empty string of decimal digits with no leading zero |
| `Decimal.DecimalRoundTrip` | db/scripts/cache_sleeper_players.py:80 | reading the `players_count` text back as a number gives the count |
| `MetaTable.MarkedCached` | db/scripts/cache_sleeper_players.py:66-81 | `mark_cached` sets `players_cached = "1"`, `players_cached_at` to the formatted time and `players_count` to exactly `str(count)` (`DecimalText`), which reads back as the count; every other key is unchanged; `is_cached` then holds |
| `MetaTable.IsCachedIn` | db/scripts/cache_sleeper_players.py:61-63 | `is_cached` holds exactly when writing `players_cached = "1"` would leave the meta table unchanged, that is, when the flag is already "1" |
| `MetaTable.MetaUpsert` | db/scripts/cache_sleeper_players.py:68-80 | one meta upsert adds or overwrites its key with the value and leaves every other key unchanged |
| `MetaTable.IsCachedReadsOnlyFlag` | db/scripts/cache_sleeper_players.py:61-63 | `is_cached` depends on the `players_cached` key alone |
| `CacheSleeperPlayers.CacheDb.constructor` | db/scripts/cache_sleeper_players.py:91 | a connection opens on the stored tables with no transaction in progress |
| `CacheSleeperPlayers.CacheDb.Begin` | db/scripts/cache_sleeper_players.py:142 | `BEGIN` saves both tables and changes neither |
| `CacheSleeperPlayers.CacheDb.Commit` | db/scripts/cache_sleeper_players.py:180 | commit keeps both tables as written and ends the transaction |
| `CacheSleeperPlayers.CacheDb.Rollback` | db/scripts/cache_sleeper_players.py:183-185 | rollback restores both tables saved at `BEGIN`; with no transaction open it changes nothing |
| `CacheSleeperPlayers.CacheDb.Upsert` | db/scripts/cache_sleeper_players.py:143-177 | `executemany` leaves the players table equal to `Upserted(old table, rows)` and the meta table unchanged |
| `CacheSleeperPlayers.CacheDb.SetMeta` | db/scripts/cache_sleeper_players.py:68-71 | one meta upsert sets one key's value |
| `CacheSleeperPlayers.CacheDb.MarkCached` | db/scripts/cache_sleeper_players.py:66-81 | the meta table becomes `MarkedCached(old meta, count, time)`; players are untouched |
| `CacheSleeperPlayers.CacheDb.IsCached` | db/scripts/cache_sleeper_players.py:61-63 | the `SELECT` of `players_cached` answers exactly `IsCachedIn` of the current meta table |
| `CacheSleeperPlayers.PrepareAll` | db/scripts/cache_sleeper_players.py:105-140 | the preparation loop yields `PrepareRows(entries, now)` unless preparing some entry fails |
| `CacheSleeperPlayers.CacheDb.WriteAll` | db/scripts/cache_sleeper_players.py:142-185 | the transaction commits the upserted rows and the cache marks, or, if any write or the commit fails, leaves both tables as before |
| `CacheSleeperPlayers.CacheDb.Run` | db/scripts/cache_sleeper_players.py:90-187 | a run succeeds exactly when the fetch succeeds and no step fails; then both tables hold the new state, otherwise both equal their pre-run contents |
| `CacheSleeperPlayers.RerunOnlyRestamps` | db/scripts/cache_sleeper_players.py:102-177 | a second run on the same data keeps the same keys, restamps the keys it writes and leaves stale keys as they were |
| `CacheSleeperPlayers.CountBoundsKeys` | db/scripts/cache_sleeper_players.py:179 | `players_count` (the number of entries) is at least the number of distinct keys written, and equals it exactly when no two prepared rows share a key |
| `Sleeper.UpstreamUrl` | api/sleeper.py:9 | the URL is the fixed base followed directly by the path, and the path can be read back from it |
| `Sleeper.Classify` | api/sleeper.py:11-22 | a transport failure gives 502 with the error text; status 400 or more passes through with the raw body; below 400, the decoded body; every error reply has a status of 400 or more |
| `Sleeper.SleeperGet` | api/sleeper.py:8-22 | one request to `https://api.sleeper.app/v1` followed by the path; a transport failure gives 502 with the message, status 400 or more gives that status and the raw text, below 400 gives the decoded body or, if the body is not JSON, the decoding error |
| `Sleeper.Handle` | api/sleeper.py:28-42 | on every route, an error reply has status 400 or more, and an unreachable upstream gives 502 with the transport message |
| `Sleeper.UnreachableIsBadGateway` | api/sleeper.py:14-16 | on every route, an unreachable upstream gives status 502 |
| `Sleeper.UpstreamErrorPassesThrough` | api/sleeper.py:18-20 | on every route, an upstream 4xx or 5xx reaches the client with that status and the raw body as detail |
| `Sleeper.UpstreamSuccessReturnsBody` | api/sleeper.py:22 | on every route, a status below 400 with a JSON body returns that body |
| `Sleeper.UpstreamPath` | api/sleeper.py:28-42 | each handler's path is the '/'-join of its literal segments: `user` or `league`, the id, then `leagues`, sport and season, or `rosters` |
| `Sleeper.UserLeaguesPathOrder` | api/sleeper.py:32-34 | the league-list path is `/user/{user_id}/leagues/{sport}/{season}`, sport before season although the handler declares season first; swapping two different values changes the path |
| `Sleeper.UpstreamPathRoundTrip` | api/sleeper.py:28-42 | the route and its parameters can be read back from the upstream path |
| `Sleeper.UpstreamPathInjective` | api/sleeper.py:28-42 | two different routes never build the same upstream path text |
| `Sleeper.RostersRequestUrl` | api/sleeper.py:40-42 | the rosters route requests `https://api.sleeper.app/v1/league/{league_id}/rosters` |

## Left out

- The network. The proxy's HTTP client, its 10-second timeout, async/await and the FastAPI routing machinery are not modelled. The upstream GET is a function from URL to `Outcome`, and the loader's `fetch_players` (90-second timeout, `raise_for_status`) is its `Fetch` parameter.
- The unused `params` argument of `sleeper_get`. No handler passes it, so no query string is modelled. URL percent-encoding of path parameters is not modelled either.
- How the HTTP client parses the URL text. It splits off a `?` query or a `#` fragment and removes `.` and `..` segments. A parameter such as `1#x` or `..` (which the router can deliver after percent-decoding) can therefore make two routes send the same request. `Sleeper.UpstreamPathInjective` and `Sleeper.UpstreamPathRoundTrip` are about the path text, not the request sent.
- The root route `/` (the constant greeting) and concurrent request handling. Neither involves the proxy's forwarding logic.
- Python name shadowing. Both rosters and league handlers are named `get_league`. The second definition shadows the first name, but each route is registered when its decorator runs, so the model has four routes.
- What a client receives for a body that is not JSON. The model stops at `UndecodableBody`, the decoding error that escapes the handler. The framework's generic server-error response is not modelled.
- JSON encoding and decoding. `json.dumps` output is `JsonText(value)`: the text is identified with the value it encodes. Because `PlayerRecord` merges a JSON null with a missing key and has no key order, two upstream objects that differ only in those ways get the same `data_json` in the model, but different text in the source. Field values are typed as the table schema declares them. A non-string name that is truthy makes `" ".join` raise, and a value SQLite cannot bind makes `executemany` raise. Neither is derived from JSON types. Both enter `Run` through its `Fault` parameter (`PrepareFails`, `RowWriteFails`).
- Floating-point JSON numbers. Numeric fields are `int`.
- SQLite engine details. The PRAGMAs, the `CREATE TABLE`/`CREATE INDEX` statements of `ensure_db`, column type affinity, and opening and closing the connection are not modelled. Storage failures are the `Fault` parameter.
- The clock. `now` (`int(time.time())`) and the `time.ctime` text are parameters.
- `DB_PATH`, printed output, the commented-out `force`/`is_cached` guard and the `__main__` block.
