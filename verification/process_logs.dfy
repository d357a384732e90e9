/**
 * The worker's logs handler (`handleLogsEvent`): parse the message, append
 * its log records for its application in one bulk insert, and return the
 * number of rows; a parse or insert failure is rethrown.
 */
module ProcessLogsHandler {
  import opened Wrappers
  import opened Columnar

  /** A parsed logs message: the application it is for and its records. */
  datatype LogsEnvelope = LogsEnvelope(appId: string, payload: seq<LogPayload>)

  /** Why the handler threw: the message was not valid JSON, or the insert failed. */
  datatype LogsError = ParseError | StoreError(cause: InsertError)

  /**
   * `handleLogsEvent`: a message that does not parse (`None`) is rethrown and
   * writes nothing; otherwise the rows go to the logs table under the
   * envelope's application id and the handler returns their number.
   */
  method HandleLogsEvent(client: ClickhouseClient, message: Option<LogsEnvelope>, now: int, ids: seq<Uuid>, insertFails: bool)
    returns (r: Result<nat, LogsError>)
    requires client.Valid()
    requires message.Some? ==>
               |ids| == |message.value.payload| && Distinct(ids) && Disjoint(ids, RowIds(client.logs, LogId))
    modifies client`logs
    ensures client.Valid()
    ensures message.None? ==> r == Err(ParseError) && client.logs == old(client.logs)
    ensures message.Some? && insertFails ==> r.Err? && r.error.StoreError? && client.logs == old(client.logs)
    ensures message.Some? && !insertFails ==>
              && r == Ok(|message.value.payload|)
              && client.logs == old(client.logs) + LogRows(message.value.payload, ids, now, message.value.appId)
  {
    if message.None? {
      return Err(ParseError);
    }
    var payload := message.value.payload;
    var appId := message.value.appId;
    var rowsCount := client.InsertClickhouseLogs(payload, appId, now, ids, insertFails);
    if rowsCount.Err? {
      return Err(StoreError(rowsCount.error));
    }
    r := Ok(rowsCount.value);
  }

  /** Every row a handled message appends carries the message's application id, and there is one per record. */
  lemma AppendedRowsCarryAppId(before: seq<LogRow>, e: LogsEnvelope, ids: seq<Uuid>, now: int)
    requires |ids| == |e.payload|
    ensures var after := before + LogRows(e.payload, ids, now, e.appId);
            && |after| == |before| + |e.payload|
            && forall i :: |before| <= i < |after| ==> after[i].applicationId == e.appId
  {
    var rows := LogRows(e.payload, ids, now, e.appId);
    assert |rows| == |Payloads(rows)| == |e.payload|;
  }

  /**
   * There is no deduplication: handling the same message twice (with the
   * fresh ids of each run) leaves its records in the table twice, one copy per
   * run, after the rows that were there before.
   */
  lemma {:induction false} SameMessageTwiceAppendsTwice(
    before: seq<LogRow>, e: LogsEnvelope, ids1: seq<Uuid>, ids2: seq<Uuid>, now1: int, now2: int)
    requires |ids1| == |e.payload| && |ids2| == |e.payload|
    ensures var after := before + LogRows(e.payload, ids1, now1, e.appId) + LogRows(e.payload, ids2, now2, e.appId);
            && |after| == |before| + 2 * |e.payload|
            && Payloads(after) == Payloads(before) + e.payload + e.payload
  {
    var rows1 := LogRows(e.payload, ids1, now1, e.appId);
    var rows2 := LogRows(e.payload, ids2, now2, e.appId);
    PayloadsConcat(before, rows1);
    PayloadsConcat(before + rows1, rows2);
  }
}
