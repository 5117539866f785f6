/**
 * handlers/webhook_handler.go: a Ghost webhook is logged, its signature checked, its
 * payload classified into a trigger, and the owner's enabled rules with that trigger are
 * selected for execution.
 */
module WebhookHandling {
  import opened Wrappers
  import opened JsonValue
  import opened SonModel
  import SonStore
  import WebhookLogging

  /** The parts of a registered webhook the handler uses. */
  datatype Webhook = Webhook(userId: string, secret: string)

  /** An HTTP response: status code and JSON body. */
  datatype Response = Response(status: int, body: Json)

  /** hex(HMAC-SHA256(key, message)), left abstract. */
  type HmacHex = (string, string) -> string

  /** Whether `p` occurs in `s` at position i. */
  predicate OccursAt(s: string, p: string, i: nat) {
    i + |p| <= |s| && s[i..i + |p|] == p
  }

  /** The first position of `p` in `s`, if any. */
  function IndexOf(s: string, p: string, from: nat): (k: Option<nat>)
    requires |p| > 0 && from <= |s|
    ensures k.Some? ==> from <= k.value && OccursAt(s, p, k.value)
    ensures k.Some? ==> forall i | from <= i < k.value :: !OccursAt(s, p, i)
    ensures k.None? ==> forall i | from <= i <= |s| :: !OccursAt(s, p, i)
    decreases |s| - from
  {
    if from + |p| > |s| then None
    else if s[from..from + |p|] == p then Some(from)
    else IndexOf(s, p, from + 1)
  }

  /** strings.Split(s, sep) for a non-empty separator: the pieces between occurrences. */
  function Split(s: string, sep: string): (parts: seq<string>)
    requires |sep| > 0
    ensures |parts| >= 1
    decreases |s|
  {
    match IndexOf(s, sep, 0)
    case None => [s]
    case Some(k) => [s[..k]] + Split(s[k + |sep|..], sep)
  }

  /** strings.TrimPrefix. */
  function TrimPrefix(s: string, prefix: string): (r: string)
    ensures |prefix| <= |s| && s[..|prefix|] == prefix ==> prefix + r == s
    ensures !(|prefix| <= |s| && s[..|prefix|] == prefix) ==> r == s
  {
    if |prefix| <= |s| && s[..|prefix|] == prefix then s[|prefix|..] else s
  }

  /**
   * verifySignature: the header must split on ", " into exactly two parts; the first,
   * less "sha256=", must equal the hex HMAC of the body followed by the second, less "t=".
   */
  function VerifySignature(signature: string, payload: string, secret: string, hmac: HmacHex): (ok: bool)
    ensures ok ==> |Split(signature, ", ")| == 2
  {
    var parts := Split(signature, ", ");
    if |parts| != 2 then false
    else TrimPrefix(parts[0], "sha256=") == hmac(secret, payload + TrimPrefix(parts[1], "t="))
  }

  predicate NoComma(s: string) {
    forall i | 0 <= i < |s| :: s[i] != ','
  }

  lemma NoSeparator(s: string)
    requires NoComma(s)
    ensures Split(s, ", ") == [s]
  {
    forall i | 0 <= i <= |s|
      ensures !OccursAt(s, ", ", i)
    {
      if i + 2 <= |s| {
        assert s[i..i + 2][0] == s[i];
      }
    }
  }

  /** A header "<a>, <b>" with no comma in a or b splits into a and b. */
  lemma SplitTwo(a: string, b: string)
    requires NoComma(a) && NoComma(b)
    ensures Split(a + ", " + b, ", ") == [a, b]
  {
    var s := a + ", " + b;
    assert OccursAt(s, ", ", |a|);
    forall i | 0 <= i < |a|
      ensures !OccursAt(s, ", ", i)
    {
      assert s[i..i + 2][0] == s[i] == a[i];
    }
    assert IndexOf(s, ", ", 0) == Some(|a|);
    assert s[..|a|] == a;
    assert s[|a| + 2..] == b;
    NoSeparator(b);
  }

  /** A header without ", " is refused, whatever the body and the secret. */
  lemma OnePartRefused(signature: string, payload: string, secret: string, hmac: HmacHex)
    requires NoComma(signature)
    ensures !VerifySignature(signature, payload, secret, hmac)
  {
    NoSeparator(signature);
  }

  /**
   * For a header in Ghost's form "sha256=<h>, t=<ts>", the check holds exactly when h is the
   * HMAC of the body followed by ts.
   */
  lemma GhostHeader(h: string, ts: string, payload: string, secret: string, hmac: HmacHex)
    requires NoComma(h) && NoComma(ts)
    ensures VerifySignature("sha256=" + h + ", t=" + ts, payload, secret, hmac)
            <==> h == hmac(secret, payload + ts)
  {
    var a, b := "sha256=" + h, "t=" + ts;
    assert NoComma(a) && NoComma(b);
    assert "sha256=" + h + ", t=" + ts == a + ", " + b;
    SplitTwo(a, b);
    assert a[..7] == "sha256=" && b[..2] == "t=";
    assert TrimPrefix(a, "sha256=") == h;
    assert TrimPrefix(b, "t=") == ts;
  }

  /** The "status" string of the object under `key`'s "current" object, if there is one. */
  function CurrentStatus(data: map<string, Json>, key: string): Option<string> {
    match AsObj(Get(data, key))
    case None => None
    case Some(obj) =>
      match AsObj(Get(obj, "current"))
      case None => None
      case Some(current) => AsStr(Get(current, "status"))
  }

  const UnknownTrigger: string := "UnknownTriggerType: Unable to determine trigger type from webhook data"

  /** determineTriggerType: member first, then post, then page. */
  function DetermineTriggerType(data: map<string, Json>): (r: Result<TriggerType, string>)
    ensures r.Failure? ==> r.error == UnknownTrigger
  {
    match AsObj(Get(data, "member"))
    case Some(member) =>
      if AsObj(Get(member, "current")).Some? then
        var previous := AsObj(Get(member, "previous"));
        if previous.Some? && |previous.value| > 0 then Success(MemberUpdated) else Success(MemberCreated)
      else Success(MemberDeleted)
    case None =>
      var post := CurrentStatus(data, "post");
      if post == Some("published") then Success(PostPublished)
      else if post == Some("scheduled") then Success(PostScheduled)
      else if CurrentStatus(data, "page") == Some("published") then Success(PagePublished)
      else Failure(UnknownTrigger)
  }

  /** A member object decides alone: updated, created or deleted, whatever else the payload holds. */
  lemma MemberClassified(data: map<string, Json>, member: map<string, Json>)
    requires "member" in data && data["member"] == Obj(member)
    ensures DetermineTriggerType(data) ==
      if "current" in member && member["current"].Obj? then
        if "previous" in member && member["previous"].Obj? && |member["previous"].fields| > 0
        then Success(MemberUpdated) else Success(MemberCreated)
      else Success(MemberDeleted)
  {
  }

  /** Without a member object, a post published or scheduled gives the post trigger. */
  lemma PostClassified(data: map<string, Json>, status: string)
    requires AsObj(Get(data, "member")).None?
    requires CurrentStatus(data, "post") == Some(status)
    requires status == "published" || status == "scheduled"
    ensures DetermineTriggerType(data) == Success(if status == "published" then PostPublished else PostScheduled)
  {
  }

  /** Otherwise only a published page is recognised; everything else is UnknownTriggerType. */
  lemma PageOrUnknown(data: map<string, Json>)
    requires AsObj(Get(data, "member")).None?
    requires CurrentStatus(data, "post") != Some("published") && CurrentStatus(data, "post") != Some("scheduled")
    ensures CurrentStatus(data, "page") == Some("published") ==> DetermineTriggerType(data) == Success(PagePublished)
    ensures CurrentStatus(data, "page") != Some("published") ==> DetermineTriggerType(data) == Failure(UnknownTrigger)
  {
  }

  /** The rules a trigger runs: enabled, with that trigger, in list order. */
  function Matching(sons: seq<Son>, t: TriggerType): (r: seq<Son>)
    ensures |r| <= |sons|
    ensures forall i | 0 <= i < |r| :: r[i].enabled && r[i].trigger == TriggerName(t) && r[i] in sons
    ensures forall s | s in sons && s.enabled && s.trigger == TriggerName(t) :: s in r
  {
    if sons == [] then []
    else
      var last := sons[|sons| - 1];
      var before := sons[..|sons| - 1];
      assert forall s | s in before :: s in sons;
      assert sons == before + [last];
      Matching(before, t) + (if last.enabled && last.trigger == TriggerName(t) then [last] else [])
  }

  /** The matching loop of HandleWebhook: the rules to execute, and their count. */
  method SelectSons(sons: seq<Son>, t: TriggerType) returns (executed: nat, matched: seq<Son>)
    ensures matched == Matching(sons, t)
    ensures executed == |matched|
  {
    executed := 0;
    matched := [];
    var i := 0;
    while i < |sons|
      invariant 0 <= i <= |sons|
      invariant matched == Matching(sons[..i], t)
      invariant executed == |matched|
    {
      assert sons[..i + 1][..i] == sons[..i];
      if sons[i].trigger == TriggerName(t) && sons[i].enabled {
        matched := matched + [sons[i]];
        executed := executed + 1;
      }
      i := i + 1;
    }
    assert sons[..|sons|] == sons;
  }

  /** The X-Ghost-Signature header, empty when absent (gin's GetHeader). */
  function SignatureHeader(header: map<string, seq<string>>): string {
    if "X-Ghost-Signature" in header && |header["X-Ghost-Signature"]| > 0
    then header["X-Ghost-Signature"][0] else ""
  }

  /** json.Unmarshal into map[string]interface{}: an object, or null as the empty map. */
  function PayloadMap(j: Option<Json>): Option<map<string, Json>> {
    match j
    case Some(Obj(m)) => Some(m)
    case Some(Null) => Some(map[])
    case _ => None
  }

  function SuccessBody(executed: nat): Json {
    Obj(map["message" := Str("Webhook processed successfully"), "sons_executed" := Num(executed as real)])
  }

  class WebhookHandler {
    const logger: WebhookLogging.WebhookLogger
    const storage: SonStore.SonStorage

    constructor(logger: WebhookLogging.WebhookLogger, storage: SonStore.SonStorage)
      ensures this.logger == logger && this.storage == storage
    {
      this.logger := logger;
      this.storage := storage;
    }

    /**
     * HandleWebhook. `hook` is the webhook registered at the endpoint, `body` the request
     * body (None when it cannot be read), `logId` the id the new log row gets, `elapsed` the
     * time since the request arrived. `matched` are the rules handed to the executor.
     */
    method HandleWebhook(hook: Option<Webhook>, body: Option<string>, logId: string,
                         httpMethod: string, path: string, header: map<string, seq<string>>,
                         now: int, elapsed: int, parseJson: string -> Option<Json>, hmac: HmacHex)
      returns (resp: Response, matched: seq<Son>)
      requires logger.Valid()
      requires forall k | k in header :: |header[k]| > 0
      modifies logger
      ensures logger.Valid()
      // No webhook at the endpoint: 404 and no log.
      ensures hook.None? ==>
        resp == Response(404, ErrorBody("Webhook not found")) && logger.rows == old(logger.rows) && matched == []
      // Unreadable body or a failed log insert: 500 and no log.
      ensures hook.Some? && (body.None? || WebhookLogging.HasId(old(logger.rows), logId)) ==>
        resp.status == 500 && logger.rows == old(logger.rows) && matched == []
      // Otherwise exactly one new row, which records the response.
      ensures hook.Some? && body.Some? && !WebhookLogging.HasId(old(logger.rows), logId) ==>
        && |logger.rows| == |old(logger.rows)| + 1
        && logger.rows[..|old(logger.rows)|] == old(logger.rows)
        && var n := logger.rows[|old(logger.rows)|];
           && n.id == logId && n.userId == hook.value.userId && n.body == body.value
           && n.statusCode == resp.status && n.responseBody == Some(resp.body)
           && n.duration == GoTime.Milliseconds(elapsed)
      // The outcome, step by step.
      ensures hook.Some? && body.Some? && !WebhookLogging.HasId(old(logger.rows), logId) ==>
        var ok := VerifySignature(SignatureHeader(header), body.value, hook.value.secret, hmac);
        var data := PayloadMap(parseJson(body.value));
        if !ok then resp == Response(401, ErrorBody("Invalid signature")) && matched == []
        else if data.None? then resp == Response(400, ErrorBody("Invalid webhook data")) && matched == []
        else if DetermineTriggerType(data.value).Failure? then
          resp == Response(400, ErrorBody("Unable to determine trigger type")) && matched == []
        else
          && matched == Matching(SonStore.Listed(storage.rows, hook.value.userId), DetermineTriggerType(data.value).value)
          && resp == Response(200, SuccessBody(|matched|))
    {
      matched := [];
      if hook.None? {
        return Response(404, ErrorBody("Webhook not found")), [];
      }
      if body.None? {
        return Response(500, ErrorBody("Internal server error")), [];
      }
      var created := logger.CreateWebhookLog(logId, hook.value.userId, httpMethod, path, header, body.value, now);
      if created.Failure? {
        return Response(500, ErrorBody("Failed to log webhook")), [];
      }
      ghost var before := logger.rows;
      if !VerifySignature(SignatureHeader(header), body.value, hook.value.secret, hmac) {
        resp := Response(401, ErrorBody("Invalid signature"));
      } else {
        var data := PayloadMap(parseJson(body.value));
        if data.None? {
          resp := Response(400, ErrorBody("Invalid webhook data"));
        } else {
          var trigger := DetermineTriggerType(data.value);
          if trigger.Failure? {
            resp := Response(400, ErrorBody("Unable to determine trigger type"));
          } else {
            var sons := storage.List(hook.value.userId);
            var executed;
            executed, matched := SelectSons(sons, trigger.value);
            resp := Response(200, SuccessBody(executed));
          }
        }
      }
      logger.UpdateWebhookLog(logId, resp.status, resp.body, elapsed);
      assert logger.rows[|before| - 1].id == logId;
      assert forall i | 0 <= i < |before| - 1 :: before[i].id != logId;
    }
  }

  /** A disabled rule never runs; every enabled rule with the trigger does. */
  lemma DisabledNeverRuns(sons: seq<Son>, t: TriggerType, s: Son)
    requires s in sons
    ensures s in Matching(sons, t) <==> s.enabled && s.trigger == TriggerName(t)
  {
  }
}
