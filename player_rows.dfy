/**
 * Flattening one upstream player object into the fixed columns of the
 * `players` table (db/scripts/cache_sleeper_players.py, the body of the
 * preparation loop in `main`).
 */
module PlayerRows {
  import opened Optional

  /**
   * The text `json.dumps` produces for a value. JSON encoding is not
   * modelled: the text is identified with the value it encodes. For a
   * `PlayerRecord` this is coarser than the real text, which also tells a
   * JSON null from a missing key and keeps the key order.
   */
  datatype JsonText<T> = JsonText(value: T)

  /**
   * One upstream player object after JSON decoding. A key that is missing
   * and a key whose value is JSON null both read as `None`, as `dict.get`
   * does. `otherFields` holds every key the loader does not extract, with
   * its JSON text; it only reaches the row through the raw-payload copy.
   */
  datatype PlayerRecord = PlayerRecord(
    playerId: Option<string>,
    firstName: Option<string>,
    lastName: Option<string>,
    fullName: Option<string>,
    searchFullName: Option<string>,
    searchFirstName: Option<string>,
    searchLastName: Option<string>,
    team: Option<string>,
    position: Option<string>,
    status: Option<string>,
    sport: Option<string>,
    number: Option<int>,
    age: Option<int>,
    depthChartPosition: Option<int>,
    depthChartOrder: Option<int>,
    yearsExp: Option<int>,
    fantasyPositions: Option<seq<string>>,
    otherFields: map<string, string>)

  /** One row of the `players` table, column for column; `None` is SQL NULL. */
  datatype PlayerRow = PlayerRow(
    playerId: string,
    firstName: Option<string>,
    lastName: Option<string>,
    fullName: Option<string>,
    searchFullName: Option<string>,
    searchFirstName: Option<string>,
    searchLastName: Option<string>,
    team: Option<string>,
    position: Option<string>,
    status: Option<string>,
    sport: Option<string>,
    number: Option<int>,
    age: Option<int>,
    depthChartPosition: Option<int>,
    depthChartOrder: Option<int>,
    yearsExp: Option<int>,
    fantasyPositionsJson: Option<JsonText<seq<string>>>,
    dataJson: JsonText<PlayerRecord>,
    updatedAt: int)

  /** Python truthiness of an optional string: present and non-empty. */
  predicate Truthy(s: Option<string>) {
    s.Some? && s.value != ""
  }

  /** `" ".join(parts)`. */
  function JoinWithSpace(parts: seq<string>): string {
    if parts == [] then ""
    else if |parts| == 1 then parts[0]
    else parts[0] + " " + JoinWithSpace(parts[1..])
  }

  /** `[x for x in [first, last] if x]`. */
  function NameParts(first: Option<string>, last: Option<string>): seq<string> {
    (if Truthy(first) then [first.value] else []) + (if Truthy(last) then [last.value] else [])
  }

  /**
   * `" ".join(NameParts(first, last)) or upstream`: the names that are
   * non-empty, space-joined, and the upstream `full_name` (possibly absent)
   * when neither is.
   */
  function FullName(first: Option<string>, last: Option<string>, upstream: Option<string>): (r: Option<string>)
    ensures Truthy(first) && Truthy(last) ==> r == Some(first.value + " " + last.value)
    ensures Truthy(first) && !Truthy(last) ==> r == Some(first.value)
    ensures !Truthy(first) && Truthy(last) ==> r == Some(last.value)
    ensures !Truthy(first) && !Truthy(last) ==> r == upstream
  {
    var parts := NameParts(first, last);
    assert Truthy(first) && Truthy(last) ==> parts == [first.value, last.value] && parts[1..] == [last.value];
    assert Truthy(first) && Truthy(last) ==> JoinWithSpace(parts) == first.value + " " + last.value;
    var joined := JoinWithSpace(parts);
    if joined != "" then Some(joined) else upstream
  }

  /**
   * `str(p.get("player_id") or key)`: the record's own id when it is
   * present and non-empty, the mapping key otherwise.
   */
  function RowKey(key: string, recordId: Option<string>): (id: string)
    ensures Truthy(recordId) ==> id == recordId.value
    ensures !Truthy(recordId) ==> id == key
    ensures id == "" ==> key == ""
  {
    if Truthy(recordId) then recordId.value else key
  }

  /** `json.dumps(fp) if fp is not None else None`: an empty list is still serialised. */
  function PositionsJson(positions: Option<seq<string>>): (r: Option<JsonText<seq<string>>>)
    ensures r.None? <==> positions.None?
    ensures r.Some? ==> r.value.value == positions.value
  {
    if positions.Some? then Some(JsonText(positions.value)) else None
  }

  /** The row tuple built for the mapping entry `key: p`, stamped with `now`. */
  function PrepareRow(key: string, p: PlayerRecord, now: int): (r: PlayerRow)
    ensures r.playerId == RowKey(key, p.playerId)
    ensures r.fullName == FullName(p.firstName, p.lastName, p.fullName)
    ensures r.fantasyPositionsJson == PositionsJson(p.fantasyPositions)
    ensures r.dataJson.value == p && r.updatedAt == now
  {
    PlayerRow(
      RowKey(key, p.playerId),
      p.firstName,
      p.lastName,
      FullName(p.firstName, p.lastName, p.fullName),
      p.searchFullName,
      p.searchFirstName,
      p.searchLastName,
      p.team,
      p.position,
      p.status,
      p.sport,
      p.number,
      p.age,
      p.depthChartPosition,
      p.depthChartOrder,
      p.yearsExp,
      PositionsJson(p.fantasyPositions),
      JsonText(p),
      now)
  }

  /** Every column other than the derived ones is copied from the record unchanged. */
  lemma PrepareRowCopiesFields(key: string, p: PlayerRecord, now: int)
    ensures var r := PrepareRow(key, p, now);
      && r.firstName == p.firstName && r.lastName == p.lastName
      && r.searchFullName == p.searchFullName && r.searchFirstName == p.searchFirstName
      && r.searchLastName == p.searchLastName
      && r.team == p.team && r.position == p.position && r.status == p.status && r.sport == p.sport
      && r.number == p.number && r.age == p.age
      && r.depthChartPosition == p.depthChartPosition && r.depthChartOrder == p.depthChartOrder
      && r.yearsExp == p.yearsExp
  {
  }

  /** Preparing the same entry at two times gives rows that differ only in `updated_at`. */
  lemma PrepareRowRestamped(key: string, p: PlayerRecord, now1: int, now2: int)
    ensures PrepareRow(key, p, now2) == PrepareRow(key, p, now1).(updatedAt := now2)
  {
  }

  /**
   * The `rows` list after the preparation loop over `entries`, the decoded
   * mapping's items in order: one row per entry, all with the same stamp.
   */
  function PrepareRows(entries: seq<(string, PlayerRecord)>, now: int): (rows: seq<PlayerRow>)
    ensures |rows| == |entries|
    ensures forall i :: 0 <= i < |entries| ==> rows[i] == PrepareRow(entries[i].0, entries[i].1, now)
    decreases |entries|
  {
    if entries == [] then []
    else
      var last := entries[|entries| - 1];
      PrepareRows(entries[..|entries| - 1], now) + [PrepareRow(last.0, last.1, now)]
  }

  /** Every prepared row carries `now` and a copy of its whole source record. */
  lemma PreparedRowsStamped(entries: seq<(string, PlayerRecord)>, now: int, i: nat)
    requires i < |entries|
    ensures PrepareRows(entries, now)[i].updatedAt == now
    ensures PrepareRows(entries, now)[i].dataJson == JsonText(entries[i].1)
  {
  }

  /** Preparing the same entries at two times gives row lists equal up to `updated_at`. */
  lemma PrepareRowsRestamped(entries: seq<(string, PlayerRecord)>, now1: int, now2: int)
    ensures |PrepareRows(entries, now2)| == |PrepareRows(entries, now1)|
    ensures forall i :: 0 <= i < |entries| ==>
      PrepareRows(entries, now2)[i] == PrepareRows(entries, now1)[i].(updatedAt := now2)
  {
  }
}
