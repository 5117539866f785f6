/**
 * services/webhook_logger_service.go: one row per received webhook, written before the
 * request is processed and completed with the response once it is.
 */
module WebhookLogging {
  import opened Wrappers
  import opened JsonValue
  import opened GoTime
  import Rows

  /** A row of `webhook_logs`. `responseBody` is NULL until the first update. */
  datatype WebhookLogRow = WebhookLogRow(
    id: string,
    userId: string,
    timestamp: int,
    httpMethod: string,
    path: string,
    headers: map<string, string>,
    body: string,
    statusCode: int,
    responseBody: Option<Json>,
    duration: int)

  /** The columns the list query selects (WebhookLog; its UserID is left empty). */
  datatype WebhookLogSummary = WebhookLogSummary(
    id: string, timestamp: int, httpMethod: string, path: string, statusCode: int, duration: int)

  datatype LogError =
    | DuplicateLogId        // the primary-key violation of the INSERT
    | NegativeLimitOrOffset // MySQL refuses a negative LIMIT or OFFSET
    | LogNotFound           // sql.ErrNoRows
    | NullResponseBody      // Scan refuses a NULL response_body for a string field

  function Summary(r: WebhookLogRow): WebhookLogSummary {
    WebhookLogSummary(r.id, r.timestamp, r.httpMethod, r.path, r.statusCode, r.duration)
  }

  function OwnedBy(userId: string): WebhookLogRow -> bool {
    (r: WebhookLogRow) => r.userId == userId
  }

  function Stamp(r: WebhookLogRow): int { r.timestamp }

  predicate UniqueIds(rows: seq<WebhookLogRow>) {
    forall i, j | 0 <= i < j < |rows| :: rows[i].id != rows[j].id
  }

  predicate HasId(rows: seq<WebhookLogRow>, id: string) {
    exists i | 0 <= i < |rows| :: rows[i].id == id
  }

  /** The UPDATE of status, response and duration on the rows with that id. */
  function Completed(rows: seq<WebhookLogRow>, id: string, status: int, response: Json, ms: int): (r: seq<WebhookLogRow>)
    ensures |r| == |rows|
    ensures forall i | 0 <= i < |rows| ::
      r[i] == if rows[i].id == id
              then rows[i].(statusCode := status, responseBody := Some(response), duration := ms)
              else rows[i]
  {
    seq(|rows|, i requires 0 <= i < |rows| =>
      if rows[i].id == id
      then rows[i].(statusCode := status, responseBody := Some(response), duration := ms)
      else rows[i])
  }

  /**
   * The header map stored with the log: the first value under each header name. net/http
   * never gives a name without a value.
   */
  method FirstValues(header: map<string, seq<string>>) returns (m: map<string, string>)
    requires forall k | k in header :: |header[k]| > 0
    ensures m.Keys == header.Keys
    ensures forall k | k in m :: m[k] == header[k][0]
  {
    m := map[];
    var todo := header.Keys;
    while todo != {}
      invariant todo <= header.Keys
      invariant m.Keys == header.Keys - todo
      invariant forall k | k in m :: m[k] == header[k][0]
      decreases |todo|
    {
      var k :| k in todo;
      m := m[k := header[k][0]];
      todo := todo - {k};
    }
  }

  /** The summaries of some rows, in the same order. */
  function Summaries(rows: seq<WebhookLogRow>): (r: seq<WebhookLogSummary>)
    ensures |r| == |rows|
    ensures forall i | 0 <= i < |rows| :: r[i] == Summary(rows[i])
  {
    seq(|rows|, i requires 0 <= i < |rows| => Summary(rows[i]))
  }

  /**
   * What the list query answers: the page of the user's logs, newest first, and their
   * count; a negative LIMIT or OFFSET is refused.
   */
  function Listing(rows: seq<WebhookLogRow>, userId: string, limit: int, offset: int)
    : (r: Result<(seq<WebhookLogSummary>, nat), LogError>)
    ensures limit < 0 || offset < 0 <==> r == Failure(NegativeLimitOrOffset)
    ensures r.Success? ==>
      && r.value.1 == |Rows.NewestFirst(rows, OwnedBy(userId))|
      && |r.value.0| <= limit
      && (offset >= r.value.1 ==> r.value.0 == [])
      && (offset < r.value.1 ==> |r.value.0| == if offset + limit <= r.value.1 then limit else r.value.1 - offset)
      && (forall i | 0 <= i < |r.value.0| :: r.value.0[i] == Summary(Rows.NewestFirst(rows, OwnedBy(userId))[offset + i]))
  {
    if limit < 0 || offset < 0 then Failure(NegativeLimitOrOffset)
    else
      var newest := Rows.NewestFirst(rows, OwnedBy(userId));
      Success((Summaries(Rows.Page(newest, limit, offset)), |newest|))
  }

  /**
   * The detail query: the first row with that id, or ErrNoRows. A row whose response_body
   * is still NULL (the webhook is being processed) cannot be scanned into the string field,
   * so the query fails for it.
   */
  function Detail(rows: seq<WebhookLogRow>, id: string): (r: Result<WebhookLogRow, LogError>)
    ensures r == Failure(LogNotFound) <==> !HasId(rows, id)
    ensures r.Failure? ==> r.error == LogNotFound || r.error == NullResponseBody
    ensures r == Failure(NullResponseBody) ==> exists i | 0 <= i < |rows| :: rows[i].id == id && rows[i].responseBody.None?
    ensures r.Success? ==> r.value.id == id && r.value in rows && r.value.responseBody.Some?
  {
    if rows == [] then Failure(LogNotFound)
    else if rows[0].id == id then
      if rows[0].responseBody.None? then Failure(NullResponseBody) else Success(rows[0])
    else
      assert forall j | 0 < j < |rows| :: rows[1..][j - 1] == rows[j];
      Detail(rows[1..], id)
  }

  /**
   * With unique ids, the detail of a stored log is that log once it has a response, and
   * a failed scan while it has none.
   */
  lemma {:induction false} DetailOfStored(rows: seq<WebhookLogRow>, k: nat)
    requires UniqueIds(rows) && k < |rows|
    ensures Detail(rows, rows[k].id) ==
      if rows[k].responseBody.None? then Failure(NullResponseBody) else Success(rows[k])
  {
    if k > 0 {
      assert rows[0].id != rows[k].id;
      assert rows[1..][k - 1] == rows[k];
      DetailOfStored(rows[1..], k - 1);
    }
  }

  class WebhookLogger {
    var rows: seq<WebhookLogRow>

    predicate Valid()
      reads this
    {
      UniqueIds(rows)
    }

    constructor()
      ensures Valid() && rows == []
    {
      rows := [];
    }

    /**
     * CreateWebhookLog: insert the request with status 200, duration 0 and no response yet,
     * stamped `now`; the fresh id `logId` is returned. A taken id fails the INSERT.
     */
    method CreateWebhookLog(logId: string, userId: string, httpMethod: string, path: string,
                            header: map<string, seq<string>>, body: string, now: int)
      returns (r: Result<string, LogError>)
      requires Valid()
      requires forall k | k in header :: |header[k]| > 0
      modifies this
      ensures Valid()
      ensures HasId(old(rows), logId) ==> r == Failure(DuplicateLogId) && rows == old(rows)
      ensures !HasId(old(rows), logId) ==>
        && r == Success(logId)
        && |rows| == |old(rows)| + 1 && rows[..|old(rows)|] == old(rows)
        && var n := rows[|old(rows)|];
           && n.id == logId && n.userId == userId && n.timestamp == now
           && n.httpMethod == httpMethod && n.path == path && n.body == body
           && n.statusCode == 200 && n.duration == 0 && n.responseBody.None?
           && n.headers.Keys == header.Keys
           && (forall k | k in n.headers :: n.headers[k] == header[k][0])
    {
      var headers := FirstValues(header);
      if HasId(rows, logId) {
        return Failure(DuplicateLogId);
      }
      rows := rows + [WebhookLogRow(logId, userId, now, httpMethod, path, headers, body, 200, None, 0)];
      r := Success(logId);
    }

    /**
     * UpdateWebhookLog: set status code, response body and duration (whole milliseconds) of
     * the row with that id; method, path, headers, body and timestamp keep their values. No
     * row with the id is not an error.
     */
    method UpdateWebhookLog(logId: string, status: int, response: Json, duration: int)
      requires Valid()
      modifies this
      ensures Valid()
      ensures rows == Completed(old(rows), logId, status, response, Milliseconds(duration))
    {
      rows := Completed(rows, logId, status, response, Milliseconds(duration));
    }

    /**
     * GetWebhookLogs: the count of the user's logs, and the page of them, newest first,
     * `limit` long from `offset`.
     */
    method GetWebhookLogs(userId: string, limit: int, offset: int)
      returns (r: Result<(seq<WebhookLogSummary>, nat), LogError>)
      ensures r == Listing(rows, userId, limit, offset)
    {
      if limit < 0 || offset < 0 {
        return Failure(NegativeLimitOrOffset);
      }
      var newest: seq<WebhookLogRow> := [];
      var i := |rows|;
      while i > 0
        invariant 0 <= i <= |rows|
        invariant newest == Rows.NewestFirst(rows[i..], OwnedBy(userId))
      {
        Rows.NewestFirstStep(rows, OwnedBy(userId), i);
        if rows[i - 1].userId == userId {
          newest := newest + [rows[i - 1]];
        }
        i := i - 1;
      }
      var page := Rows.Page(newest, limit, offset);
      var logs: seq<WebhookLogSummary> := [];
      var j := 0;
      while j < |page|
        invariant 0 <= j <= |page|
        invariant |logs| == j && forall k | 0 <= k < j :: logs[k] == Summary(page[k])
      {
        logs := logs + [Summary(page[j])];
        j := j + 1;
      }
      assert logs == Summaries(page);
      r := Success((logs, |newest|));
    }

    /**
     * GetWebhookLogDetails (and GetWebhookLogForReplay, the same query): the stored row with
     * that id, ErrNoRows, or the scan error of a log without a response yet.
     */
    method GetWebhookLogDetails(id: string) returns (r: Result<WebhookLogRow, LogError>)
      ensures r == Detail(rows, id)
    {
      var i := 0;
      while i < |rows|
        invariant 0 <= i <= |rows|
        invariant Detail(rows[i..], id) == Detail(rows, id)
      {
        assert rows[i..][1..] == rows[i + 1..];
        if rows[i].id == id {
          if rows[i].responseBody.None? {
            return Failure(NullResponseBody);
          }
          return Success(rows[i]);
        }
        i := i + 1;
      }
      r := Failure(LogNotFound);
    }
  }

  /** Completing a log keeps its request columns, and keeps the ids unique. */
  lemma CompletionKeepsRequest(rows: seq<WebhookLogRow>, id: string, status: int, response: Json, ms: int, i: nat)
    requires UniqueIds(rows) && i < |rows|
    ensures UniqueIds(Completed(rows, id, status, response, ms))
    ensures var n := Completed(rows, id, status, response, ms)[i];
      && n.httpMethod == rows[i].httpMethod && n.path == rows[i].path && n.headers == rows[i].headers
      && n.body == rows[i].body && n.timestamp == rows[i].timestamp && n.userId == rows[i].userId
      && (rows[i].id == id ==> n.statusCode == status && n.responseBody == Some(response) && n.duration == ms)
  {
  }

  /**
   * A listing holds only the user's logs, each exactly as often as the table holds it,
   * newest first when the clock never ran back.
   */
  lemma {:induction false} ListingOrdered(rows: seq<WebhookLogRow>, userId: string)
    requires forall i, j | 0 <= i < j < |rows| :: rows[i].timestamp <= rows[j].timestamp
    ensures var newest := Rows.NewestFirst(rows, OwnedBy(userId));
      && (forall i | 0 <= i < |newest| :: newest[i].userId == userId)
      && (forall x | x in rows :: multiset(newest)[x] == if x.userId == userId then multiset(rows)[x] else 0)
      && (forall i, j | 0 <= i < j < |newest| :: newest[i].timestamp >= newest[j].timestamp)
  {
    var newest := Rows.NewestFirst(rows, OwnedBy(userId));
    Rows.NewestFirstOrdered(rows, OwnedBy(userId), Stamp);
    forall i | 0 <= i < |newest|
      ensures newest[i].userId == userId
    {
      assert OwnedBy(userId)(newest[i]);
    }
    forall x | x in rows
      ensures multiset(newest)[x] == if x.userId == userId then multiset(rows)[x] else 0
    {
      Rows.NewestFirstCount(rows, OwnedBy(userId), x);
    }
  }

  /** With unique ids in the table, no log appears twice in a listing. */
  lemma {:induction false} ListingUnique(rows: seq<WebhookLogRow>, userId: string)
    requires UniqueIds(rows)
    ensures UniqueIds(Rows.NewestFirst(rows, OwnedBy(userId)))
  {
    if rows != [] {
      var rest := rows[1..];
      assert UniqueIds(rest) by {
        forall i, j | 0 <= i < j < |rest|
          ensures rest[i].id != rest[j].id
        {
          assert rest[i] == rows[i + 1] && rest[j] == rows[j + 1];
        }
      }
      ListingUnique(rest, userId);
      var older := Rows.NewestFirst(rest, OwnedBy(userId));
      forall i | 0 <= i < |older|
        ensures older[i].id != rows[0].id
      {
        var j :| 0 <= j < |rest| && rest[j] == older[i];
        assert rest[j] == rows[j + 1];
      }
    }
  }
}
