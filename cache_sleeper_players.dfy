/**
 * The loader's run (db/scripts/cache_sleeper_players.py, `main`): prepare
 * one row per fetched entry, then in one transaction upsert the rows, mark
 * the cache and commit; on any failure roll back.
 */
module CacheSleeperPlayers {
  import opened Optional
  import opened PlayerRows
  import opened PlayersTable
  import opened MetaTable

  /** What `fetch_players()` gave: the decoded mapping's items in order, or a raised error. */
  datatype Fetch = FetchFailed(reason: string) | Fetched(entries: seq<(string, PlayerRecord)>)

  /**
   * Where, if anywhere, the run raises after a successful fetch: while
   * preparing the row of entry `entry`; while `executemany` writes row
   * `row` (the rows before it are written); on meta write `write` of
   * `mark_cached` (0, 1 or 2; the writes before it are done); or at commit.
   */
  datatype Fault =
    | NoFault
    | PrepareFails(entry: nat)
    | RowWriteFails(row: nat)
    | MetaWriteFails(write: nat)
    | CommitFails

  /** Whether `fault` is reached in the write phase over `n` rows. */
  predicate StrikesWriting(fault: Fault, n: nat) {
    match fault
    case RowWriteFails(k) => k < n
    case MetaWriteFails(j) => j < 3
    case CommitFails => true
    case _ => false
  }

  /** Whether `fault` is reached in a run over `n` entries. */
  predicate Strikes(fault: Fault, n: nat) {
    (fault.PrepareFails? && fault.entry < n) || StrikesWriting(fault, n)
  }

  /** The store behind one connection: both tables, and the state saved by `BEGIN`. */
  class CacheDb {
    var players: Table
    var meta: Meta
    var inTransaction: bool
    var savedPlayers: Table
    var savedMeta: Meta

    ghost predicate Valid()
      reads this
    {
      Keyed(players) && (inTransaction ==> Keyed(savedPlayers))
    }

    /** A connection opened on a store holding `players` and `meta`, with no transaction open. */
    constructor (players: Table, meta: Meta)
      requires Keyed(players)
      ensures Valid() && !inTransaction
      ensures this.players == players && this.meta == meta
    {
      this.players := players;
      this.meta := meta;
      inTransaction := false;
      savedPlayers := players;
      savedMeta := meta;
    }

    /** `BEGIN;` */
    method Begin()
      requires Valid() && !inTransaction
      modifies this
      ensures Valid() && inTransaction
      ensures savedPlayers == players == old(players) && savedMeta == meta == old(meta)
    {
      inTransaction := true;
      savedPlayers, savedMeta := players, meta;
    }

    /** `conn.commit()`: the transaction's writes become permanent. */
    method Commit()
      requires Valid() && inTransaction
      modifies this
      ensures Valid() && !inTransaction
      ensures players == old(players) && meta == old(meta)
    {
      inTransaction := false;
    }

    /** `conn.rollback()`: back to the state at `BEGIN`; without an open transaction, nothing happens. */
    method Rollback()
      requires Valid()
      modifies this
      ensures Valid() && !inTransaction
      ensures old(inTransaction) ==> players == old(savedPlayers) && meta == old(savedMeta)
      ensures !old(inTransaction) ==> players == old(players) && meta == old(meta)
    {
      if inTransaction {
        players, meta := savedPlayers, savedMeta;
        inTransaction := false;
      }
    }

    /** `executemany` of the upsert statement over `rows`, one statement per row, in order. */
    method Upsert(rows: seq<PlayerRow>)
      requires Valid()
      modifies this
      ensures Valid()
      ensures players == Upserted(old(players), rows)
      ensures meta == old(meta) && inTransaction == old(inTransaction)
      ensures savedPlayers == old(savedPlayers) && savedMeta == old(savedMeta)
    {
      var i := 0;
      while i < |rows|
        invariant 0 <= i <= |rows|
        invariant Keyed(players)
        invariant players == Upserted(old(players), rows[..i])
        invariant meta == old(meta) && inTransaction == old(inTransaction)
        invariant savedPlayers == old(savedPlayers) && savedMeta == old(savedMeta)
      {
        assert rows[..i + 1] == rows[..i] + [rows[i]];
        players := InsertOrUpdate(players, rows[i]);
        i := i + 1;
      }
      assert rows[..i] == rows;
    }

    /** One meta upsert. */
    method SetMeta(key: string, value: string)
      requires Valid()
      modifies this
      ensures Valid()
      ensures meta == MetaUpsert(old(meta), key, value)
      ensures players == old(players) && inTransaction == old(inTransaction)
      ensures savedPlayers == old(savedPlayers) && savedMeta == old(savedMeta)
    {
      meta := MetaUpsert(meta, key, value);
    }

    /** `mark_cached(conn, count)`, with the formatted clock text given. */
    method MarkCached(count: nat, formattedTime: string)
      requires Valid()
      modifies this
      ensures Valid()
      ensures meta == MarkedCached(old(meta), count, formattedTime)
      ensures players == old(players) && inTransaction == old(inTransaction)
      ensures savedPlayers == old(savedPlayers) && savedMeta == old(savedMeta)
    {
      SetMeta(PlayersCached, "1");
      SetMeta(PlayersCachedAt, formattedTime);
      SetMeta(PlayersCount, Decimal.DecimalText(count));
    }

    /** `is_cached(conn)`. */
    method IsCached() returns (cached: bool)
      ensures cached <==> IsCachedIn(meta)
    {
      var row := if PlayersCached in meta then Some(meta[PlayersCached]) else None;
      cached := row.Some? && row.value == "1";
    }

    /**
     * The write phase of `main`: `BEGIN`, the bulk upsert, `mark_cached`
     * and `commit`, rolled back if `fault` is reached on the way.
     */
    method WriteAll(rows: seq<PlayerRow>, formattedTime: string, fault: Fault) returns (ok: bool)
      requires Valid() && !inTransaction
      modifies this
      ensures Valid() && !inTransaction
      ensures ok <==> !StrikesWriting(fault, |rows|)
      ensures ok ==> players == Upserted(old(players), rows)
      ensures ok ==> meta == MarkedCached(old(meta), |rows|, formattedTime)
      ensures !ok ==> players == old(players) && meta == old(meta)
    {
      Begin();
      if fault.RowWriteFails? && fault.row < |rows| {
        Upsert(rows[..fault.row]);
        Rollback();
        return false;
      }
      Upsert(rows);

      if fault.MetaWriteFails? && fault.write < 3 {
        if fault.write >= 1 {
          SetMeta(PlayersCached, "1");
        }
        if fault.write >= 2 {
          SetMeta(PlayersCachedAt, formattedTime);
        }
        Rollback();
        return false;
      }
      MarkCached(|rows|, formattedTime);

      if fault.CommitFails? {
        Rollback();
        return false;
      }
      Commit();
      ok := true;
    }

    /**
     * One run of `main` on an open connection, with the fetch result, the
     * clock (`now` and its formatted text) and the point of failure given.
     * It succeeds exactly when the fetch did and no fault is reached; then
     * the tables hold the upserted rows and the cache marks, otherwise
     * both tables are as they were.
     */
    method Run(fetch: Fetch, now: int, formattedTime: string, fault: Fault) returns (ok: bool)
      requires Valid() && !inTransaction
      modifies this
      ensures Valid() && !inTransaction
      ensures ok <==> fetch.Fetched? && !Strikes(fault, |fetch.entries|)
      ensures ok ==> players == Upserted(old(players), PrepareRows(fetch.entries, now))
      ensures ok ==> meta == MarkedCached(old(meta), |fetch.entries|, formattedTime)
      ensures !ok ==> players == old(players) && meta == old(meta)
    {
      if fetch.FetchFailed? {
        Rollback();
        return false;
      }
      var rows, prepared := PrepareAll(fetch.entries, now, fault);
      if !prepared {
        Rollback();
        return false;
      }
      ok := WriteAll(rows, formattedTime, fault);
    }
  }

  /**
   * The preparation loop of `main`: append one row per entry, in order,
   * unless the fault strikes while preparing an entry.
   */
  method PrepareAll(entries: seq<(string, PlayerRecord)>, now: int, fault: Fault) returns (rows: seq<PlayerRow>, prepared: bool)
    ensures prepared <==> !(fault.PrepareFails? && fault.entry < |entries|)
    ensures prepared ==> rows == PrepareRows(entries, now)
  {
    rows := [];
    var i := 0;
    while i < |entries|
      invariant 0 <= i <= |entries|
      invariant rows == PrepareRows(entries[..i], now)
      invariant fault.PrepareFails? ==> fault.entry >= i
    {
      if fault == PrepareFails(i) {
        return rows, false;
      }
      assert entries[..i + 1][..i] == entries[..i];
      rows := rows + [PrepareRow(entries[i].0, entries[i].1, now)];
      i := i + 1;
    }
    assert entries[..i] == entries;
    prepared := true;
  }

  /** The players table after a successful run over `entries` at time `now`. */
  function LoadedPlayers(t: Table, entries: seq<(string, PlayerRecord)>, now: int): Table {
    Upserted(t, PrepareRows(entries, now))
  }

  /**
   * Two successful runs over the same upstream data: the second leaves the
   * same keys, restamps every key the data writes with its own `now`, and
   * leaves stale keys exactly as they were.
   */
  lemma RerunOnlyRestamps(t: Table, entries: seq<(string, PlayerRecord)>, now1: int, now2: int)
    ensures var first := LoadedPlayers(t, entries, now1);
      var second := LoadedPlayers(first, entries, now2);
      && second.Keys == first.Keys
      && forall id :: id in first ==>
           second[id] == if id in RowIds(PrepareRows(entries, now1)) then first[id].(updatedAt := now2) else first[id]
  {
    var rows1, rows2 := PrepareRows(entries, now1), PrepareRows(entries, now2);
    var first := Upserted(t, rows1);
    var second := Upserted(first, rows2);
    PrepareRowsRestamped(entries, now1, now2);
    assert RowIds(rows2) == RowIds(rows1) by {
      forall id | id in RowIds(rows2) ensures id in RowIds(rows1) {
        var i :| 0 <= i < |rows2| && rows2[i].playerId == id;
        assert rows1[i] in rows1;
      }
      forall id | id in RowIds(rows1) ensures id in RowIds(rows2) {
        var i :| 0 <= i < |rows1| && rows1[i].playerId == id;
        assert rows2[i] in rows2;
      }
    }
    forall id | id in first
      ensures second[id] == if id in RowIds(rows1) then first[id].(updatedAt := now2) else first[id]
    {
      if id in RowIds(rows1) {
        UpsertedRestamped(first, rows1, rows2, now2, id);
        UpsertIdempotent(t, rows1);
      } else {
        UpsertedKeepsOthers(first, rows2, id);
      }
    }
  }

  /**
   * `players_count` is the number of fetched entries. It equals the number of
   * keys written exactly when no two entries produce the same key, and
   * exceeds it otherwise.
   */
  lemma CountBoundsKeys(entries: seq<(string, PlayerRecord)>, now: int)
    ensures |RowIds(PrepareRows(entries, now))| <= |entries|
    ensures |RowIds(PrepareRows(entries, now))| == |entries| <==> DistinctIds(PrepareRows(entries, now))
  {
    var rows := PrepareRows(entries, now);
    UpsertedSize(map[], rows);
    if DistinctIds(rows) {
      DistinctIdsKeepCount(rows);
    } else {
      var i, j :| 0 <= i < j < |rows| && rows[i].playerId == rows[j].playerId;
      RepeatedIdShrinksKeys(rows, i, j);
    }
  }
}
