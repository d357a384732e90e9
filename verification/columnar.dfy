/**
 * The worker's columnar writer: `insertClickhouseLogs` and
 * `insertClickhouseMetrics`. Each maps its input records to rows, giving every
 * row a fresh id, one shared receive time and the application id, makes one
 * bulk insert, and returns the number of rows.
 *
 * The clock (`dayjs().unix()`) and `randomUUID()` are parameters: `now`, and a
 * list of ids, one per row, that are distinct and unused in the table.
 */
module Columnar {
  import opened Wrappers

  /** A row id, as `randomUUID()` produces it. */
  type Uuid = string

  /** A log record as the SDK sends it; `resources` is kept as its JSON text. */
  datatype LogPayload = LogPayload(message: string, timestamp: string, unix: int, level: string, resources: string)

  /** A row of the logs table. */
  datatype LogRow = LogRow(
    id: Uuid, message: string, timestamp: string, receiveTimestamp: int, preciseTimestamp: int,
    level: string, applicationId: string, resources: string)

  /** A row of the metrics table. */
  datatype MetricRow = MetricRow(id: Uuid, name: string, value: int, applicationId: string, timestamp: int)

  /** A failed bulk insert. */
  datatype InsertError = InsertFailed

  /** No id occurs twice. */
  ghost predicate Distinct(ids: seq<Uuid>) {
    forall i, j :: 0 <= i < j < |ids| ==> ids[i] != ids[j]
  }

  /** No id of `a` occurs in `b`. */
  ghost predicate Disjoint(a: seq<Uuid>, b: seq<Uuid>) {
    forall i, j :: 0 <= i < |a| && 0 <= j < |b| ==> a[i] != b[j]
  }

  /** Two lists without repeats and with no id in common concatenate to a list without repeats. */
  lemma DistinctConcat(a: seq<Uuid>, b: seq<Uuid>)
    requires Distinct(a) && Distinct(b) && Disjoint(a, b)
    ensures Distinct(a + b)
  {
    var c := a + b;
    forall i, j | 0 <= i < j < |c| ensures c[i] != c[j] {
      if j < |a| {
        assert c[i] == a[i] && c[j] == a[j];
      } else if i >= |a| {
        assert c[i] == b[i - |a|] && c[j] == b[j - |a|];
      } else {
        assert c[i] == a[i] && c[j] == b[j - |a|];
      }
    }
  }

  /** The ids of a sequence of rows of either table, in order, `id` reading a row's id. */
  function RowIds<R>(rows: seq<R>, id: R -> Uuid): (ids: seq<Uuid>)
    ensures |ids| == |rows|
    ensures forall i :: 0 <= i < |rows| ==> ids[i] == id(rows[i])
  {
    if rows == [] then [] else [id(rows[0])] + RowIds(rows[1..], id)
  }

  /** The ids of a concatenation are the ids of its parts. */
  lemma {:induction false} RowIdsConcat<R>(a: seq<R>, b: seq<R>, id: R -> Uuid)
    ensures RowIds(a + b, id) == RowIds(a, id) + RowIds(b, id)
    decreases |a|
  {
    if a != [] {
      assert (a + b)[1..] == a[1..] + b;
      RowIdsConcat(a[1..], b, id);
    }
  }

  // ---------------------------------------------------------------------------
  // Logs

  /** The id of a log row. */
  function LogId(row: LogRow): Uuid {
    row.id
  }

  /** The log record a row was made from: the row without the fields the writer adds. */
  function LogOf(row: LogRow): LogPayload {
    LogPayload(row.message, row.timestamp, row.preciseTimestamp, row.level, row.resources)
  }

  /** The log records of a sequence of rows, in order. */
  function Payloads(rows: seq<LogRow>): (logs: seq<LogPayload>)
    ensures |logs| == |rows|
    ensures forall i :: 0 <= i < |rows| ==> logs[i] == LogOf(rows[i])
  {
    if rows == [] then [] else [LogOf(rows[0])] + Payloads(rows[1..])
  }

  /** The row `insertClickhouseLogs` makes of one log record. */
  function MakeLogRow(log: LogPayload, id: Uuid, now: int, appId: string): LogRow {
    LogRow(id, log.message, log.timestamp, now, log.unix, log.level, appId, log.resources)
  }

  /**
   * `logs.map(...)`: one row per record, in order. Stripping the added fields
   * gives back the records; the rows carry the given ids, the same receive time
   * and the application id, and each row's precise time is its record's `unix`.
   */
  function LogRows(logs: seq<LogPayload>, ids: seq<Uuid>, now: int, appId: string): (rows: seq<LogRow>)
    requires |ids| == |logs|
    ensures Payloads(rows) == logs
    ensures RowIds(rows, LogId) == ids
    ensures forall i :: 0 <= i < |rows| ==> rows[i].receiveTimestamp == now && rows[i].applicationId == appId
    ensures forall i :: 0 <= i < |rows| ==> rows[i].preciseTimestamp == logs[i].unix
  {
    seq(|logs|, i requires 0 <= i < |logs| => MakeLogRow(logs[i], ids[i], now, appId))
  }

  /** Recovering the records distributes over concatenation. */
  lemma {:induction false} PayloadsConcat(a: seq<LogRow>, b: seq<LogRow>)
    ensures Payloads(a + b) == Payloads(a) + Payloads(b)
    decreases |a|
  {
    if a != [] {
      assert (a + b)[1..] == a[1..] + b;
      PayloadsConcat(a[1..], b);
    }
  }

  // ---------------------------------------------------------------------------
  // Metrics

  /** The id of a metric row. */
  function MetricId(row: MetricRow): Uuid {
    row.id
  }

  /** The (name, value) pair a metric row was made from. */
  function EntryOf(row: MetricRow): (string, int) {
    (row.name, row.value)
  }

  /** The (name, value) pairs of a sequence of rows, in order. */
  function Entries(rows: seq<MetricRow>): (pairs: seq<(string, int)>)
    ensures |pairs| == |rows|
    ensures forall i :: 0 <= i < |rows| ==> pairs[i] == EntryOf(rows[i])
  {
    if rows == [] then [] else [EntryOf(rows[0])] + Entries(rows[1..])
  }

  /**
   * `Object.entries(flatObject(payload)).map(...)`: one row per flattened
   * (key, value) pair, named by the key, with the given ids and the same
   * timestamp and application id on every row.
   */
  function MetricRows(pairs: seq<(string, int)>, ids: seq<Uuid>, now: int, appId: string): (rows: seq<MetricRow>)
    requires |ids| == |pairs|
    ensures Entries(rows) == pairs
    ensures RowIds(rows, MetricId) == ids
    ensures forall i :: 0 <= i < |rows| ==> rows[i].timestamp == now && rows[i].applicationId == appId
  {
    seq(|pairs|, i requires 0 <= i < |pairs| => MetricRow(ids[i], pairs[i].0, pairs[i].1, appId, now))
  }

  // ---------------------------------------------------------------------------
  // The client

  /** The two columnar tables the worker appends to. */
  class ClickhouseClient {
    var logs: seq<LogRow>
    var metrics: seq<MetricRow>

    /** Row ids are unique in each table. */
    ghost predicate Valid()
      reads this
    {
      Distinct(RowIds(logs, LogId)) && Distinct(RowIds(metrics, MetricId))
    }

    constructor ()
      ensures Valid() && logs == [] && metrics == []
    {
      logs := [];
      metrics := [];
    }

    /**
     * `insertClickhouseLogs`: appends one row per record in one bulk insert and
     * returns the number of records; a failed insert appends nothing.
     */
    method InsertClickhouseLogs(records: seq<LogPayload>, appId: string, now: int, ids: seq<Uuid>, insertFails: bool)
      returns (r: Result<nat, InsertError>)
      requires Valid()
      requires |ids| == |records| && Distinct(ids) && Disjoint(ids, RowIds(logs, LogId))
      modifies this`logs
      ensures Valid()
      ensures r.Ok? <==> !insertFails
      ensures r.Ok? ==> r.value == |records| && logs == old(logs) + LogRows(records, ids, now, appId)
      ensures r.Err? ==> logs == old(logs)
    {
      var rows := LogRows(records, ids, now, appId);
      if insertFails {
        return Err(InsertFailed);
      }
      RowIdsConcat(logs, rows, LogId);
      DistinctConcat(RowIds(logs, LogId), ids);
      logs := logs + rows;
      r := Ok(|rows|);
    }

    /**
     * `insertClickhouseMetrics`: appends one row per flattened pair in one bulk
     * insert and returns the number of rows; a failed insert appends nothing.
     */
    method InsertClickhouseMetrics(pairs: seq<(string, int)>, appId: string, now: int, ids: seq<Uuid>, insertFails: bool)
      returns (r: Result<nat, InsertError>)
      requires Valid()
      requires |ids| == |pairs| && Distinct(ids) && Disjoint(ids, RowIds(metrics, MetricId))
      modifies this`metrics
      ensures Valid()
      ensures r.Ok? <==> !insertFails
      ensures r.Ok? ==> r.value == |pairs| && metrics == old(metrics) + MetricRows(pairs, ids, now, appId)
      ensures r.Err? ==> metrics == old(metrics)
    {
      var rows := MetricRows(pairs, ids, now, appId);
      if insertFails {
        return Err(InsertFailed);
      }
      RowIdsConcat(metrics, rows, MetricId);
      DistinctConcat(RowIds(metrics, MetricId), ids);
      metrics := metrics + rows;
      r := Ok(|rows|);
    }
  }
}
