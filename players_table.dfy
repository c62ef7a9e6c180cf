/**
 * The `players` table as a map from primary key to row, and the meaning of
 * the loader's `INSERT ... ON CONFLICT(player_id) DO UPDATE SET ...`
 * statement (db/scripts/cache_sleeper_players.py, `main`).
 */
module PlayersTable {
  import opened PlayerRows

  type Table = map<string, PlayerRow>

  /** Every stored row sits under its own `player_id`: the primary-key column. */
  ghost predicate Keyed(t: Table) {
    forall id :: id in t ==> t[id].playerId == id
  }

  /** The primary keys a list of rows writes. */
  function RowIds(rows: seq<PlayerRow>): set<string> {
    set r | r in rows :: r.playerId
  }

  /**
   * The `DO UPDATE SET` list: every non-key column of the existing row takes
   * the value of the row being inserted (`excluded`).
   */
  function ConflictUpdate(existing: PlayerRow, excluded: PlayerRow): (r: PlayerRow)
    ensures r.playerId == existing.playerId
    ensures existing.playerId == excluded.playerId ==> r == excluded
  {
    existing.(
      firstName := excluded.firstName,
      lastName := excluded.lastName,
      fullName := excluded.fullName,
      searchFullName := excluded.searchFullName,
      searchFirstName := excluded.searchFirstName,
      searchLastName := excluded.searchLastName,
      team := excluded.team,
      position := excluded.position,
      status := excluded.status,
      sport := excluded.sport,
      number := excluded.number,
      age := excluded.age,
      depthChartPosition := excluded.depthChartPosition,
      depthChartOrder := excluded.depthChartOrder,
      yearsExp := excluded.yearsExp,
      fantasyPositionsJson := excluded.fantasyPositionsJson,
      dataJson := excluded.dataJson,
      updatedAt := excluded.updatedAt)
  }

  /**
   * One execution of the upsert statement: insert the row when its key is
   * new, otherwise apply the conflict update to the existing row. On a keyed
   * table this is a plain overwrite of that key, and no other key changes.
   */
  function InsertOrUpdate(t: Table, row: PlayerRow): (r: Table)
    ensures r.Keys == t.Keys + {row.playerId}
    ensures forall id :: id in t && id != row.playerId ==> r[id] == t[id]
    ensures Keyed(t) ==> r == t[row.playerId := row] && Keyed(r)
  {
    if row.playerId in t then t[row.playerId := ConflictUpdate(t[row.playerId], row)]
    else t[row.playerId := row]
  }

  /**
   * The documented meaning of `executemany` with the upsert statement: the
   * rows are written in order, each overwriting whatever its key held.
   */
  function Upserted(t: Table, rows: seq<PlayerRow>): (r: Table)
    ensures r.Keys == t.Keys + RowIds(rows)
    ensures Keyed(t) ==> Keyed(r)
    decreases |rows|
  {
    if rows == [] then t
    else
      var front, last := rows[..|rows| - 1], rows[|rows| - 1];
      assert rows == front + [last];
      assert RowIds(rows) == RowIds(front) + {last.playerId};
      Upserted(t, front)[last.playerId := last]
  }

  /** Each key written maps to the last row carrying that key. */
  lemma {:induction false} UpsertedLastWins(t: Table, rows: seq<PlayerRow>, i: nat)
    requires i < |rows|
    requires forall j :: i < j < |rows| ==> rows[j].playerId != rows[i].playerId
    ensures rows[i].playerId in Upserted(t, rows)
    ensures Upserted(t, rows)[rows[i].playerId] == rows[i]
    decreases |rows|
  {
    if i < |rows| - 1 {
      var front := rows[..|rows| - 1];
      UpsertedLastWins(t, front, i);
    }
  }

  /** Keys no row writes keep their previous row: nothing is deleted or altered. */
  lemma {:induction false} UpsertedKeepsOthers(t: Table, rows: seq<PlayerRow>, id: string)
    requires id in t && id !in RowIds(rows)
    ensures id in Upserted(t, rows) && Upserted(t, rows)[id] == t[id]
    decreases |rows|
  {
    if rows != [] {
      var front := rows[..|rows| - 1];
      assert rows == front + [rows[|rows| - 1]];
      assert RowIds(front) <= RowIds(rows);
      UpsertedKeepsOthers(t, front, id);
    }
  }

  /** What a written key ends up holding does not depend on the table's earlier contents. */
  lemma {:induction false} UpsertedIgnoresPrior(t: Table, u: Table, rows: seq<PlayerRow>, id: string)
    requires id in RowIds(rows)
    ensures id in Upserted(t, rows) && id in Upserted(u, rows)
    ensures Upserted(t, rows)[id] == Upserted(u, rows)[id]
    decreases |rows|
  {
    var front, last := rows[..|rows| - 1], rows[|rows| - 1];
    if last.playerId != id {
      assert rows == front + [last];
      assert id in RowIds(front);
      UpsertedIgnoresPrior(t, u, front, id);
    }
  }

  /** Upserting the same rows a second time changes nothing. */
  lemma UpsertIdempotent(t: Table, rows: seq<PlayerRow>)
    ensures Upserted(Upserted(t, rows), rows) == Upserted(t, rows)
  {
    var once := Upserted(t, rows);
    var twice := Upserted(once, rows);
    forall id | id in twice
      ensures twice[id] == once[id]
    {
      if id in RowIds(rows) {
        UpsertedIgnoresPrior(once, t, rows, id);
      } else {
        UpsertedKeepsOthers(once, rows, id);
      }
    }
  }

  /**
   * Writing rows that differ from `rows` only in `updated_at` leaves every
   * written key holding what `rows` would have left, restamped.
   */
  lemma {:induction false} UpsertedRestamped(t: Table, rows: seq<PlayerRow>, rows': seq<PlayerRow>, now: int, id: string)
    requires |rows'| == |rows|
    requires forall i :: 0 <= i < |rows| ==> rows'[i] == rows[i].(updatedAt := now)
    requires id in RowIds(rows)
    ensures id in Upserted(t, rows) && id in Upserted(t, rows')
    ensures Upserted(t, rows')[id] == Upserted(t, rows)[id].(updatedAt := now)
    decreases |rows|
  {
    var n := |rows|;
    var front, last := rows[..n - 1], rows[n - 1];
    assert rows == front + [last];
    assert rows' == rows'[..n - 1] + [rows'[n - 1]];
    assert RowIds(rows') == RowIds(rows'[..n - 1]) + {rows'[n - 1].playerId};
    if last.playerId != id {
      assert id in RowIds(front);
      UpsertedRestamped(t, front, rows'[..n - 1], now, id);
    }
  }

  /** The table grows by at most one key per row written. */
  lemma {:induction false} UpsertedSize(t: Table, rows: seq<PlayerRow>)
    ensures |Upserted(t, rows)| <= |t| + |rows|
    decreases |rows|
  {
    if rows != [] {
      var front, last := rows[..|rows| - 1], rows[|rows| - 1];
      UpsertedSize(t, front);
      var before := Upserted(t, front);
      assert Upserted(t, rows).Keys == before.Keys + {last.playerId};
      assert |before.Keys + {last.playerId}| <= |before.Keys| + 1;
    }
  }

  /** No two rows carry the same key. */
  predicate DistinctIds(rows: seq<PlayerRow>) {
    forall i, j :: 0 <= i < j < |rows| ==> rows[i].playerId != rows[j].playerId
  }

  /** Rows with pairwise distinct keys write exactly one key each. */
  lemma {:induction false} DistinctIdsKeepCount(rows: seq<PlayerRow>)
    requires DistinctIds(rows)
    ensures |RowIds(rows)| == |rows|
    decreases |rows|
  {
    if rows != [] {
      var front, last := rows[..|rows| - 1], rows[|rows| - 1];
      assert rows == front + [last];
      assert RowIds(rows) == RowIds(front) + {last.playerId};
      assert last.playerId !in RowIds(front);
      DistinctIdsKeepCount(front);
    }
  }

  /** Two rows with the same key write fewer keys than there are rows. */
  lemma RepeatedIdShrinksKeys(rows: seq<PlayerRow>, i: nat, j: nat)
    requires i < j < |rows| && rows[i].playerId == rows[j].playerId
    ensures |RowIds(rows)| < |rows|
  {
    var rest := rows[..j] + rows[j + 1..];
    assert rows == rows[..j] + [rows[j]] + rows[j + 1..];
    assert RowIds(rest) == RowIds(rows) by {
      assert rows[i] in rest by { assert rest[i] == rows[i]; }
      forall id | id in RowIds(rows) ensures id in RowIds(rest) {
        var r :| r in rows && r.playerId == id;
        if r != rows[j] {
          var k :| 0 <= k < |rows| && rows[k] == r;
          if k < j { assert rest[k] == r; } else { assert k > j && rest[k - 1] == r; }
        }
      }
    }
    UpsertedSize(map[], rest);
    assert Upserted(map[], rest).Keys == RowIds(rest);
  }
}
