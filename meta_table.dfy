/**
 * The `meta` key/value table and the two helpers that use it,
 * `mark_cached` and `is_cached` (db/scripts/cache_sleeper_players.py).
 */
module MetaTable {
  import opened Decimal

  type Meta = map<string, string>

  const PlayersCached: string := "players_cached"
  const PlayersCachedAt: string := "players_cached_at"
  const PlayersCount: string := "players_count"

  /** `SELECT value FROM meta WHERE key='players_cached'` followed by `row and row[0] == "1"`. */
  function IsCachedIn(meta: Meta): (cached: bool)
    ensures cached <==> meta == meta[PlayersCached := "1"]
  {
    PlayersCached in meta && meta[PlayersCached] == "1"
  }

  /** One `INSERT INTO meta ... ON CONFLICT(key) DO UPDATE SET value=excluded.value`. */
  function MetaUpsert(meta: Meta, key: string, value: string): (r: Meta)
    ensures r.Keys == meta.Keys + {key} && r[key] == value
    ensures forall k :: k in meta && k != key ==> r[k] == meta[k]
  {
    meta[key := value]
  }

  /**
   * The meta table after `mark_cached(conn, count)` with the formatted clock
   * text: the three keys are written and every other key is untouched.
   */
  function MarkedCached(meta: Meta, count: nat, formattedTime: string): (m: Meta)
    ensures m.Keys == meta.Keys + {PlayersCached, PlayersCachedAt, PlayersCount}
    ensures m[PlayersCached] == "1" && m[PlayersCachedAt] == formattedTime
    ensures m[PlayersCount] == DecimalText(count)
    ensures AllDigits(m[PlayersCount]) && DecimalValue(m[PlayersCount]) == count
    ensures forall k :: k in meta && k != PlayersCached && k != PlayersCachedAt && k != PlayersCount ==> m[k] == meta[k]
    ensures IsCachedIn(m)
  {
    DecimalRoundTrip(count);
    var m1 := MetaUpsert(meta, PlayersCached, "1");
    var m2 := MetaUpsert(m1, PlayersCachedAt, formattedTime);
    MetaUpsert(m2, PlayersCount, DecimalText(count))
  }

  /** `is_cached` looks at `players_cached` alone: no other key changes its answer. */
  lemma IsCachedReadsOnlyFlag(meta: Meta, key: string, value: string)
    requires key != PlayersCached
    ensures IsCachedIn(meta[key := value]) == IsCachedIn(meta)
  {
  }
}
