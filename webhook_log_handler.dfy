/**
 * handlers/webhook_log_handler.go: the paginated list of a user's webhook logs and the
 * detail of one log. Both answer from the logger's table, whose rows are a parameter here.
 */
module WebhookLogHandling {
  import opened Wrappers
  import opened Numeric
  import opened Users
  import Rows
  import opened WebhookLogging

  datatype Pagination = Pagination(total: nat, limit: int, offset: int, nextOffset: int)

  /** The JSON a handler answers with. */
  datatype Body =
    | Error(error: string)                                        // gin.H{"error": ...}
    | Logs(logs: seq<WebhookLogSummary>, pagination: Pagination)  // gin.H{"logs", "pagination"}
    | Log(log: WebhookLogRow)                                     // a models.WebhookLog

  datatype Response = Response(status: int, body: Body)

  const Unauthenticated := Response(401, Error("User not authenticated"))

  /**
   * A query parameter read by strconv.Atoi with its error ignored: the default text when
   * the key is absent, 0 for text that is not a number.
   */
  function QueryInt(query: map<string, string>, key: string, default: string): (n: int)
    ensures InInt64(n)
    ensures key in query ==> n == AtoiValue(query[key])
    ensures key !in query ==> n == AtoiValue(default)
  {
    AtoiValue(if key in query then query[key] else default)
  }

  /** An absent `limit` is 10 and an absent `offset` 0. */
  lemma DefaultPaging(query: map<string, string>)
    requires "limit" !in query && "offset" !in query
    ensures QueryInt(query, "limit", "10") == 10
    ensures QueryInt(query, "offset", "0") == 0
  {
    AtoiOfPrinted(10);
    AtoiOfPrinted(0);
  }

  /**
   * A `limit` or `offset` that is not a number reads as 0, as long as its leading digits
   * stay within 2^64 - 1.
   */
  lemma GarbageIsZero(query: map<string, string>, key: string, default: string)
    requires key in query && |query[key]| > 0 && !IsDigit(query[key][|query[key]| - 1])
    requires LeadingValue(Unsigned(query[key])) <= MaxUint64
    ensures QueryInt(query, key, default) == 0
  {
    var t := query[key];
    var u := Unsigned(t);
    assert u != [] ==> u[|u| - 1] == t[|t| - 1];
    AtoiSyntaxError(t);
  }

  /**
   * A `limit` or `offset` whose leading digits exceed 2^64 - 1 reads as the int64 bound
   * of its sign, whatever text follows the digits.
   */
  lemma OverflowIsBound(query: map<string, string>, key: string, default: string, d: string, rest: string)
    requires key in query
    requires |d| > 0 && AllDigits(d) && DigitsValue(d) > MaxUint64
    requires rest == [] || !IsDigit(rest[0])
    requires Unsigned(query[key]) == d + rest
    ensures QueryInt(query, key, default) ==
      if |query[key]| > 0 && query[key][0] == '-' then MinInt64 else MaxInt64
  {
    AtoiOverflowAfterSign(query[key], d, rest);
  }

  /** A negative overflowing `limit` is MinInt64, which the list query refuses: 500. */
  lemma OverflowingLimitFails(user: User, query: map<string, string>, rows: seq<WebhookLogRow>, d: string, rest: string)
    requires "limit" in query && |query["limit"]| > 0 && query["limit"][0] == '-'
    requires |d| > 0 && AllDigits(d) && DigitsValue(d) > MaxUint64
    requires rest == [] || !IsDigit(rest[0])
    requires Unsigned(query["limit"]) == d + rest
    ensures GetLogs(Some(user), query, rows) == Response(500, Error("Failed to fetch webhook logs"))
  {
    OverflowIsBound(query, "limit", "10", d, rest);
  }

  /**
   * next_offset as written: the sum is an int64 and wraps around; a sum at or past the
   * total becomes -1.
   */
  function NextOffsetAsWritten(offset: int, limit: int, total: int): (n: int)
    ensures InInt64(n) || n == -1
    ensures InInt64(offset + limit) ==> n == (if offset + limit >= total then -1 else offset + limit)
  {
    var next := Wrap64(offset + limit);
    if next >= total then -1 else next
  }

  /**
   * next_offset as intended: where the next page starts, or -1 when this page reaches the
   * end of the list.
   */
  function NextOffset(offset: int, limit: int, total: int): (n: int)
    ensures offset + limit >= total ==> n == -1
    ensures n != -1 ==> n == offset + limit && n < total
    ensures 0 <= offset && 0 <= limit ==> n == -1 || offset <= n < total
  {
    if offset + limit >= total then -1 else offset + limit
  }

  /**
   * With an offset at the top of the int64 range the sum wraps to a large negative
   * number: past the end of the list, the answer is a negative offset other than -1.
   */
  lemma NextOffsetOverflows()
    ensures NextOffsetAsWritten(MaxInt64, 10, 0) == MinInt64 + 9
    ensures NextOffsetAsWritten(MaxInt64, 10, 0) != -1
    ensures NextOffset(MaxInt64, 10, 0) == -1
  {
    assert MaxInt64 + 10 - TwoTo64 == MinInt64 + 9;
    assert Wrap64(MaxInt64 + 10) == MinInt64 + 9 by {
      var r := Wrap64(MaxInt64 + 10);
      assert (MaxInt64 + 10 - r) % TwoTo64 == 0;
    }
  }

  /** Where no int64 overflow happens, the two readings agree. */
  lemma NextOffsetAgrees(offset: int, limit: int, total: int)
    requires InInt64(offset + limit)
    ensures NextOffsetAsWritten(offset, limit, total) == NextOffset(offset, limit, total)
  {
  }

  /**
   * GetLogs: the user's logs, `limit` at a time from `offset`, with the total count and
   * the offset of the next page, computed as written (an int64 sum). A negative limit or
   * offset makes the query fail (500).
   */
  function GetLogs(user: Option<User>, query: map<string, string>, rows: seq<WebhookLogRow>): (resp: Response)
    ensures user.None? ==> resp == Unauthenticated
    ensures user.Some? ==>
      var limit := QueryInt(query, "limit", "10");
      var offset := QueryInt(query, "offset", "0");
      && (resp.status == 500 <==> limit < 0 || offset < 0)
      && (resp.status == 500 ==> resp.body == Error("Failed to fetch webhook logs"))
      && (resp.status != 500 ==>
           && resp.status == 200 && resp.body.Logs?
           && resp.body.pagination.limit == limit
           && resp.body.pagination.offset == offset
           && resp.body.pagination.total == |Rows.NewestFirst(rows, OwnedBy(user.value.id))|
           && resp.body.pagination.nextOffset == NextOffsetAsWritten(offset, limit, resp.body.pagination.total)
           && Success((resp.body.logs, resp.body.pagination.total)) == Listing(rows, user.value.id, limit, offset))
  {
    if user.None? then Unauthenticated
    else
      var limit := QueryInt(query, "limit", "10");
      var offset := QueryInt(query, "offset", "0");
      match Listing(rows, user.value.id, limit, offset)
      case Failure(_) => Response(500, Error("Failed to fetch webhook logs"))
      case Success((logs, total)) =>
        Response(200, Logs(logs, Pagination(total, limit, offset, NextOffsetAsWritten(offset, limit, total))))
  }

  /**
   * Following next_offset walks the list without gaps while offset + limit fits an int64:
   * a page holds min(limit, total - offset) logs, a page that announces a next page is
   * full, and a last page ends exactly at the total.
   */
  lemma PagesTile(user: User, query: map<string, string>, rows: seq<WebhookLogRow>)
    requires QueryInt(query, "limit", "10") >= 0 && QueryInt(query, "offset", "0") >= 0
    ensures GetLogs(Some(user), query, rows).status == 200
    ensures var resp := GetLogs(Some(user), query, rows);
      var p := resp.body.pagination;
      && (p.offset >= p.total ==> resp.body.logs == [])
      && (p.offset < p.total ==>
            |resp.body.logs| == if p.offset + p.limit <= p.total then p.limit else p.total - p.offset)
      && (InInt64(p.offset + p.limit) ==>
            && p.nextOffset == NextOffset(p.offset, p.limit, p.total)
            && (p.nextOffset != -1 ==> |resp.body.logs| == p.limit && p.nextOffset == p.offset + |resp.body.logs|)
            && (p.nextOffset == -1 && p.offset <= p.total ==> p.offset + |resp.body.logs| == p.total))
  {
    var resp := GetLogs(Some(user), query, rows);
    var p := resp.body.pagination;
    var newest := Rows.NewestFirst(rows, OwnedBy(user.id));
    assert resp.body.logs == Summaries(Rows.Page(newest, p.limit, p.offset));
    if InInt64(p.offset + p.limit) {
      NextOffsetAgrees(p.offset, p.limit, p.total);
    }
  }

  /**
   * An offset at the top of the int64 range: the handler answers a large negative
   * next_offset instead of -1, although no page follows.
   */
  lemma GetLogsWraps(user: User, query: map<string, string>, rows: seq<WebhookLogRow>)
    requires QueryInt(query, "offset", "0") == MaxInt64
    requires QueryInt(query, "limit", "10") == 10
    ensures GetLogs(Some(user), query, rows).status == 200
    ensures GetLogs(Some(user), query, rows).body.pagination.nextOffset == MinInt64 + 9
  {
    NextOffsetOverflows();
    var total := |Rows.NewestFirst(rows, OwnedBy(user.id))|;
    assert NextOffsetAsWritten(MaxInt64, 10, total) == MinInt64 + 9 by {
      assert Wrap64(MaxInt64 + 10) == MinInt64 + 9;
    }
  }

  /**
   * GetLogDetails: the stored log, only for its owner; a log that is missing or cannot be
   * read (no response stored yet) is not found.
   */
  function GetLogDetails(user: Option<User>, id: string, rows: seq<WebhookLogRow>): (resp: Response)
    ensures user.None? ==> resp == Unauthenticated
    ensures user.Some? ==>
      && (resp.status == 404 <==> Detail(rows, id).Failure?)
      && (resp.status == 404 ==> resp.body == Error("Webhook log not found"))
      && (resp.status == 403 ==> resp.body == Error("Access denied"))
      && (resp.status == 200 ==> resp.body == Log(Detail(rows, id).value))
    ensures resp.status == 200 ==> resp.body.Log? && resp.body.log.id == id && resp.body.log in rows
    ensures resp.status == 200 ==> user.Some? && resp.body.log.userId == user.value.id
  {
    if user.None? then Unauthenticated
    else
      match Detail(rows, id)
      case Failure(_) => Response(404, Error("Webhook log not found"))
      case Success(log) =>
        if log.userId != user.value.id then Response(403, Error("Access denied"))
        else Response(200, Log(log))
  }

  /**
   * With unique ids, a completed log is shown to its owner only, and a log still waiting
   * for its response is not found, whoever asks.
   */
  lemma DetailsOnlyForOwner(user: User, rows: seq<WebhookLogRow>, k: nat)
    requires UniqueIds(rows) && k < |rows|
    ensures GetLogDetails(Some(user), rows[k].id, rows).status ==
      if rows[k].responseBody.None? then 404
      else if rows[k].userId == user.id then 200
      else 403
  {
    DetailOfStored(rows, k);
  }
}
