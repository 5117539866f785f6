/**
 * services/son_executor.go: a rule run turns each of the rule's actions into a queued task
 * (one action log each); the queue's handlers decode a task, build the Listmonk request
 * from the action parameters and the event data, call Listmonk and log the outcome.
 * Listmonk, the queue, JSON encoding and RFC 3339 parsing are parameters.
 */
module SonExecution {
  import opened Wrappers
  import opened Numeric
  import opened GoTime
  import opened JsonValue
  import SonModel
  import ExecutionLogging

  /** A queued task: its type name and its JSON payload. */
  datatype Task = Task(typeName: string, payload: string)

  /** json.Marshal of a payload: the bytes, or the encoder's error text. */
  type Marshal = Json -> Result<string, string>

  /** Enqueue with a processing delay: the task's id, or the queue's error text. */
  type Enqueue = (Task, int) -> Result<string, string>

  /** The payload of a task: the action, the event data and the run's id. */
  function PayloadJson(a: SonModel.Action, data: map<string, Json>, executionId: string): Json {
    Obj(map["action" := SonModel.ActionJson(a), "data" := Obj(data), "execution_id" := Str(executionId)])
  }

  /**
   * The rule's delay as the run uses it: the parsed delay, or 0 when it does not parse.
   * models/son.go does not define the GetParsedDelay the run calls; its outcome is a parameter.
   */
  function EffectiveDelay(parsed: Result<int, string>): (d: int)
    ensures parsed.Failure? ==> d == 0
    ensures parsed.Success? ==> d == parsed.value
  {
    match parsed
    case Success(v) => v
    case Failure(_) => 0
  }

  /** What the run does with one action: the action log it writes, and the task it queued. */
  datatype Dispatch = Dispatch(actionType: string, status: string, msg: string, task: Option<(Task, int)>)

  /**
   * One action of a run: encode the payload, pick the task type from the action kind and
   * enqueue it with the delay. Any failure is logged as "failure", a queued task as "queued".
   */
  function DispatchAction(a: SonModel.Action, data: map<string, Json>, executionId: string, delay: int,
                          marshal: Marshal, enqueue: Enqueue): (r: Dispatch)
    ensures r.actionType == a.kind
    ensures r.status == "queued" || r.status == "failure"
    ensures r.status == "queued" <==> r.task.Some?
    ensures r.task.Some? ==>
      && marshal(PayloadJson(a, data, executionId)) == Success(r.task.value.0.payload)
      && SonModel.ParseAction(a.kind).Some?
      && r.task.value == (Task(a.kind, r.task.value.0.payload), delay)
      && enqueue(r.task.value.0, delay).Success?
    ensures marshal(PayloadJson(a, data, executionId)).Failure? ==>
      r.status == "failure" && r.msg == marshal(PayloadJson(a, data, executionId)).error
    ensures marshal(PayloadJson(a, data, executionId)).Success? && SonModel.ParseAction(a.kind).None? ==>
      r.status == "failure" && r.msg == "Unknown action type"
  {
    match marshal(PayloadJson(a, data, executionId))
    case Failure(e) => Dispatch(a.kind, "failure", e, None)
    case Success(payload) =>
      match SonModel.ParseAction(a.kind)
      case None => Dispatch(a.kind, "failure", "Unknown action type", None)
      case Some(k) =>
        var task := Task(SonModel.ActionName(k), payload);
        match enqueue(task, delay)
        case Failure(e) => Dispatch(a.kind, "failure", e, None)
        case Success(_) => Dispatch(a.kind, "queued", "", Some((task, delay)))
  }

  function Dispatches(actions: seq<SonModel.Action>, data: map<string, Json>, executionId: string, delay: int,
                      marshal: Marshal, enqueue: Enqueue): (ds: seq<Dispatch>)
    ensures |ds| == |actions|
    ensures forall i | 0 <= i < |actions| :: ds[i] == DispatchAction(actions[i], data, executionId, delay, marshal, enqueue)
  {
    seq(|actions|, i requires 0 <= i < |actions| => DispatchAction(actions[i], data, executionId, delay, marshal, enqueue))
  }

  /** The action logs of a run, one per action, in the order of the actions. */
  function ActionLogs(ds: seq<Dispatch>, executionId: string, now: int): (logs: seq<ExecutionLogging.ActionRow>)
    ensures |logs| == |ds|
    ensures forall i | 0 <= i < |ds| ::
      logs[i] == ExecutionLogging.ActionRow(executionId, ds[i].actionType, ds[i].status, now, ds[i].msg)
  {
    seq(|ds|, i requires 0 <= i < |ds| =>
      ExecutionLogging.ActionRow(executionId, ds[i].actionType, ds[i].status, now, ds[i].msg))
  }

  function Outcomes(ds: seq<Dispatch>, executionId: string): (os: seq<ExecutionLogging.ActionOutcome>)
    ensures |os| == |ds|
    ensures forall i | 0 <= i < |ds| :: os[i] == ExecutionLogging.ActionOutcome(executionId, ds[i].status, ds[i].msg)
  {
    seq(|ds|, i requires 0 <= i < |ds| => ExecutionLogging.ActionOutcome(executionId, ds[i].status, ds[i].msg))
  }

  /** The tasks a run queued, in the order of the actions. */
  function Queued(ds: seq<Dispatch>): (r: seq<(Task, int)>)
    ensures |r| <= |ds|
    ensures forall x | x in r :: exists j | 0 <= j < |ds| :: ds[j].task == Some(x)
    decreases |ds|
  {
    if ds == [] then []
    else
      var before := ds[..|ds| - 1];
      var last := ds[|ds| - 1];
      assert forall j | 0 <= j < |before| :: before[j] == ds[j];
      Queued(before) + (if last.task.Some? then [last.task.value] else [])
  }

  /** The execution row a run starts with. */
  function Started(son: SonModel.Son, webhookLogId: string, executionId: string, now: int): ExecutionLogging.ExecutionRow {
    ExecutionLogging.ExecutionRow(executionId, son.id, webhookLogId, "success", now, "")
  }

  /** The fields of a task's payload a handler reads. */
  datatype TaskInput = TaskInput(executionId: string, params: map<string, Json>, data: map<string, Json>)

  /**
   * The common first steps of the three handlers: unmarshal the payload into a map (JSON
   * null gives the nil map), then take execution_id, action, its parameters and data, each
   * with its own error.
   */
  function DecodeTask(payload: string, parseJson: string -> Option<Json>): (r: Result<TaskInput, string>)
    ensures parseJson(payload).None? ==> r == Failure("failed to unmarshal payload")
    ensures r.Success? ==> parseJson(payload).Some? && (parseJson(payload).value.Obj? || parseJson(payload).value.Null?)
  {
    var top :- match parseJson(payload)
      case Some(Obj(f)) => Success(f)
      case Some(Null) => Success(map[])
      case _ => Failure("failed to unmarshal payload");
    var executionId :- AsStr(Get(top, "execution_id")).ToResult("invalid execution_id in payload");
    var action :- AsObj(Get(top, "action")).ToResult("invalid action in payload");
    var params :- AsObj(Get(action, "parameters")).ToResult("invalid parameters in action");
    var data :- AsObj(Get(top, "data")).ToResult("invalid data in payload");
    Success(TaskInput(executionId, params, data))
  }

  /** getSubscriberEmail: data.member.current.email, each step with its error. */
  function SubscriberEmail(data: map<string, Json>): (r: Result<string, string>)
    ensures r.Success? <==>
      && "member" in data && data["member"].Obj?
      && "current" in data["member"].fields && data["member"].fields["current"].Obj?
      && "email" in data["member"].fields["current"].fields
      && data["member"].fields["current"].fields["email"].Str?
    ensures r.Success? ==> r.value == data["member"].fields["current"].fields["email"].s
    ensures !("member" in data && data["member"].Obj?) ==> r == Failure("invalid member data")
  {
    var member :- AsObj(Get(data, "member")).ToResult("invalid member data");
    var current :- AsObj(Get(member, "current")).ToResult("invalid current member data");
    var email :- AsStr(Get(current, "email")).ToResult("invalid or missing email");
    Success(email)
  }

  /** One header map decoded into map[string]string: strings kept, null as the empty string. */
  function HeaderMap(v: Json): (r: Option<map<string, string>>)
    ensures v.Null? ==> r == Some(map[])
    ensures r.Some? && v.Obj? ==> r.value.Keys == v.fields.Keys
  {
    match v
    case Null => Some(map[])
    case Obj(f) =>
      if forall k | k in f :: f[k].Str? || f[k].Null?
      then Some(map k | k in f :: if f[k].Str? then f[k].s else "")
      else None
    case _ => None
  }

  function HeaderList(items: seq<Json>): (r: Option<seq<map<string, string>>>)
    ensures r.Some? ==> |r.value| == |items|
    ensures r.Some? <==> forall i | 0 <= i < |items| :: HeaderMap(items[i]).Some?
    decreases |items|
  {
    if items == [] then Some([])
    else
      var before := items[..|items| - 1];
      assert forall i | 0 <= i < |before| :: before[i] == items[i];
      match (HeaderList(before), HeaderMap(items[|items| - 1]))
      case (Some(hs), Some(h)) => Some(hs + [h])
      case _ => None
  }

  /** getHeaders: optional; present, it must decode as a list of string maps. */
  function Headers(params: map<string, Json>): (r: Result<seq<map<string, string>>, string>)
    ensures "headers" !in params ==> r == Success([])
    ensures r.Failure? ==> r.error == "error unmarshalling headers"
  {
    if "headers" !in params then Success([])
    else
      match params["headers"]
      case Null => Success([])
      case Arr(items) => HeaderList(items).ToResult("error unmarshalling headers")
      case _ => Failure("error unmarshalling headers")
  }

  /** getAdditionalData: optional; present, it must decode as an object (null as nil). */
  function AdditionalData(params: map<string, Json>): (r: Result<map<string, Json>, string>)
    ensures "data" !in params ==> r == Success(map[])
    ensures r.Success? && "data" in params ==> params["data"] == Obj(r.value) || (params["data"].Null? && r.value == map[])
    ensures r.Failure? <==> "data" in params && !params["data"].Obj? && !params["data"].Null?
  {
    if "data" !in params then Success(map[])
    else
      match params["data"]
      case Null => Success(map[])
      case Obj(f) => Success(f)
      case _ => Failure("error unmarshalling additional data")
  }

  /** mergeData's result: every key of both maps, the second map's value on a conflict. */
  function Merged(first: map<string, Json>, second: map<string, Json>): (m: map<string, Json>)
    ensures m.Keys == first.Keys + second.Keys
    ensures forall k | k in second :: m[k] == second[k]
    ensures forall k | k in first && k !in second :: m[k] == first[k]
  {
    first + second
  }

  /** One loop of mergeData: copy every entry of `top` into the result, over what is there. */
  method Overlay(base: map<string, Json>, top: map<string, Json>) returns (m: map<string, Json>)
    ensures m == base + top
  {
    m := base;
    var todo := top.Keys;
    while todo != {}
      invariant todo <= top.Keys
      invariant m.Keys == base.Keys + (top.Keys - todo)
      invariant forall k | k in m :: m[k] == if k in top && k !in todo then top[k] else base[k]
      decreases |todo|
    {
      var k :| k in todo;
      m := m[k := top[k]];
      todo := todo - {k};
    }
  }

  /** mergeData: copy the first map into an empty one, then the second over it. */
  method MergeData(first: map<string, Json>, second: map<string, Json>) returns (m: map<string, Json>)
    ensures m == Merged(first, second)
  {
    m := Overlay(map[], first);
    assert m == first;
    m := Overlay(m, second);
  }

  /** The call sendTransactionalEmail makes: template, recipient, merged data and headers. */
  datatype EmailRequest = EmailRequest(templateId: int, email: string, data: map<string, Json>, headers: seq<map<string, string>>)

  /** The request sendTransactionalEmail builds, or its first error. */
  function EmailRequestOf(params: map<string, Json>, data: map<string, Json>): (r: Result<EmailRequest, string>)
    ensures !("template_id" in params && params["template_id"].Num?) ==> r == Failure("invalid or missing template_id")
    ensures r.Success? ==>
      && r.value.templateId == Trunc(params["template_id"].n)
      && SubscriberEmail(data) == Success(r.value.email)
      && Headers(params) == Success(r.value.headers)
      && AdditionalData(params).Success? && r.value.data == Merged(data, AdditionalData(params).value)
  {
    var templateId :- AsNum(Get(params, "template_id")).ToResult("invalid or missing template_id");
    var email :- SubscriberEmail(data);
    var headers :- Headers(params);
    var additional :- AdditionalData(params);
    Success(EmailRequest(Trunc(templateId), email, Merged(data, additional), headers))
  }

  /** sendTransactionalEmail up to the Listmonk call. */
  method TransactionalEmail(params: map<string, Json>, data: map<string, Json>) returns (r: Result<EmailRequest, string>)
    ensures r == EmailRequestOf(params, data)
  {
    var templateId := AsNum(Get(params, "template_id"));
    if templateId.None? {
      return Failure("invalid or missing template_id");
    }
    var email := SubscriberEmail(data);
    if email.Failure? {
      return Failure(email.error);
    }
    var headers := Headers(params);
    if headers.Failure? {
      return Failure(headers.error);
    }
    var additional := AdditionalData(params);
    if additional.Failure? {
      return Failure(additional.error);
    }
    var merged := MergeData(data, additional.value);
    r := Success(EmailRequest(Trunc(templateId.value), email.value, merged, headers.value));
  }

  /** The call manageSubscriber makes. */
  datatype SubscriberRequest = SubscriberRequest(
    email: string, name: string, status: string, lists: seq<int>, attributes: map<string, Json>)

  /** The numeric entries of a list, converted to int, in order; others are skipped. */
  function NumericIds(items: seq<Json>): (r: seq<int>)
    ensures |r| <= |items|
    decreases |items|
  {
    if items == [] then []
    else
      var last := items[|items| - 1];
      NumericIds(items[..|items| - 1]) + (if last.Num? then [Trunc(last.n)] else [])
  }

  /** `params["lists"]` when it is a list; absent, null or of another kind it is empty. */
  function ListsParam(params: map<string, Json>): seq<Json> {
    if "lists" in params && params["lists"].Arr? then params["lists"].items else []
  }

  /** The five geolocation attributes, when the member's geolocation text decodes to an object. */
  function GeoAttributes(current: map<string, Json>, parseJson: string -> Option<Json>): (attrs: map<string, Json>)
    ensures attrs == map[] || attrs.Keys == {"city", "country", "latitude", "longitude", "timezone"}
  {
    match AsStr(Get(current, "geolocation"))
    case None => map[]
    case Some(text) =>
      match parseJson(text)
      case Some(Obj(geo)) =>
        map["city" := Get(geo, "city").GetOr(Null),
            "country" := Get(geo, "country").GetOr(Null),
            "latitude" := Get(geo, "latitude").GetOr(Null),
            "longitude" := Get(geo, "longitude").GetOr(Null),
            "timezone" := Get(geo, "timezone").GetOr(Null)]
      case _ => map[]
  }

  /** The request manageSubscriber builds, or its error. */
  function SubscriberRequestOf(params: map<string, Json>, data: map<string, Json>, parseJson: string -> Option<Json>)
    : (r: Result<SubscriberRequest, string>)
    ensures r.Success? ==> r.value.status == "enabled" && r.value.lists == NumericIds(ListsParam(params))
    ensures !("member" in data && data["member"].Obj?) ==> r == Failure("invalid member data")
  {
    var member :- AsObj(Get(data, "member")).ToResult("invalid member data");
    var current :- AsObj(Get(member, "current")).ToResult("invalid current member data");
    var email := AsStr(Get(current, "email")).GetOr("");
    var name := AsStr(Get(current, "name")).GetOr("");
    Success(SubscriberRequest(email, name, "enabled", NumericIds(ListsParam(params)), GeoAttributes(current, parseJson)))
  }

  /** manageSubscriber up to the Listmonk call. */
  method ManageSubscriber(params: map<string, Json>, data: map<string, Json>, parseJson: string -> Option<Json>)
    returns (r: Result<SubscriberRequest, string>)
    ensures r == SubscriberRequestOf(params, data, parseJson)
  {
    var member := AsObj(Get(data, "member"));
    if member.None? {
      return Failure("invalid member data");
    }
    var current := AsObj(Get(member.value, "current"));
    if current.None? {
      return Failure("invalid current member data");
    }
    var email := AsStr(Get(current.value, "email")).GetOr("");
    var name := AsStr(Get(current.value, "name")).GetOr("");
    var items := ListsParam(params);
    var lists: seq<int> := [];
    for i := 0 to |items|
      invariant lists == NumericIds(items[..i])
    {
      assert items[..i + 1][..i] == items[..i];
      if items[i].Num? {
        lists := lists + [Trunc(items[i].n)];
      }
    }
    assert items[..|items|] == items;
    r := Success(SubscriberRequest(email, name, "enabled", lists, GeoAttributes(current.value, parseJson)));
  }

  /** RFC 3339 parsing to an instant, and formatting of an instant, left abstract. */
  type TimeParser = string -> Result<int, string>
  type TimeFormatter = int -> string

  /**
   * The send time of a campaign: absent, not a string or empty means five minutes from now;
   * a text that does not parse is an error; an instant before now is moved to five minutes
   * from now; any other is kept as written.
   */
  function SendAt(v: Option<Json>, now: int, parseTime: TimeParser, formatTime: TimeFormatter): (r: Result<string, string>)
    ensures r.Failure? ==> v.Some? && v.value.Str? && parseTime(v.value.s).Failure?
    ensures r.Success? && r.value != formatTime(now + 5 * Minute) ==>
      v.Some? && v.value.Str? && r.value == v.value.s && parseTime(v.value.s).Success? && parseTime(v.value.s).value >= now
  {
    var fallback := formatTime(now + 5 * Minute);
    match AsStr(v)
    case None => Success(fallback)
    case Some(text) =>
      if text == "" then Success(fallback)
      else
        match parseTime(text)
        case Failure(e) => Failure("invalid send_at time format: " + e)
        case Success(t) => if t < now then Success(fallback) else Success(text)
  }

  /** The list ids of a campaign: every entry must be a number; the first that is not is named. */
  function ListIds(items: seq<Json>): (r: Result<seq<int>, string>)
    ensures r.Success? ==> |r.value| == |items| && forall i | 0 <= i < |items| :: items[i].Num? && r.value[i] == Trunc(items[i].n)
    decreases |items|
  {
    if items == [] then Success([])
    else
      var last := items[|items| - 1];
      var before := items[..|items| - 1];
      match ListIds(before)
      case Failure(e) => Failure(e)
      case Success(ids) =>
        if last.Num? then Success(ids + [Trunc(last.n)])
        else Failure("invalid list ID at index " + NatToString(|items| - 1))
  }

  /** Once a prefix of the list fails, the whole list fails with the same error. */
  lemma {:induction false} ListIdsFirstFailure(items: seq<Json>, n: nat)
    requires n <= |items| && ListIds(items[..n]).Failure?
    ensures ListIds(items) == ListIds(items[..n])
    decreases |items|
  {
    if n < |items| {
      var before := items[..|items| - 1];
      assert before[..n] == items[..n];
      ListIdsFirstFailure(before, n);
    } else {
      assert items[..n] == items;
    }
  }

  /** The call createCampaign makes. */
  datatype CampaignRequest = CampaignRequest(
    name: string, subject: string, lists: seq<int>, templateId: int, sendAt: string, body: string, contentType: string)

  /**
   * The request createCampaign builds, or its first error. `suffix` is the "_<time>_<random>"
   * text it appends to the name to make it unique.
   */
  function CampaignRequestOf(params: map<string, Json>, suffix: string, now: int,
                             parseTime: TimeParser, formatTime: TimeFormatter): (r: Result<CampaignRequest, string>)
    ensures r.Success? && "content_type" !in params ==> r.value.contentType == "html"
    ensures r.Success? ==>
      && "name" in params && params["name"].Str? && r.value.name == params["name"].s + suffix
      && SendAt(Get(params, "send_at"), now, parseTime, formatTime) == Success(r.value.sendAt)
      && "lists" in params && params["lists"].Arr? && ListIds(params["lists"].items) == Success(r.value.lists)
  {
    var name :- AsStr(Get(params, "name")).ToResult("invalid or missing name parameter");
    var subject :- AsStr(Get(params, "subject")).ToResult("invalid or missing subject parameter");
    var lists :- AsArr(Get(params, "lists")).ToResult("invalid or missing lists parameter");
    var templateId :- AsNum(Get(params, "template_id")).ToResult("invalid or missing template_id parameter");
    var sendAt :- SendAt(Get(params, "send_at"), now, parseTime, formatTime);
    var body :- AsStr(Get(params, "body")).ToResult("invalid or missing body parameter");
    var contentType := AsStr(Get(params, "content_type")).GetOr("html");
    var ids :- ListIds(lists);
    Success(CampaignRequest(name + suffix, subject, ids, Trunc(templateId), sendAt, body, contentType))
  }

  /** createCampaign up to the Listmonk call. */
  method CreateCampaign(params: map<string, Json>, suffix: string, now: int,
                        parseTime: TimeParser, formatTime: TimeFormatter) returns (r: Result<CampaignRequest, string>)
    ensures r == CampaignRequestOf(params, suffix, now, parseTime, formatTime)
  {
    var name := AsStr(Get(params, "name"));
    if name.None? {
      return Failure("invalid or missing name parameter");
    }
    var subject := AsStr(Get(params, "subject"));
    if subject.None? {
      return Failure("invalid or missing subject parameter");
    }
    var lists := AsArr(Get(params, "lists"));
    if lists.None? {
      return Failure("invalid or missing lists parameter");
    }
    var templateId := AsNum(Get(params, "template_id"));
    if templateId.None? {
      return Failure("invalid or missing template_id parameter");
    }
    var sendAt := SendAt(Get(params, "send_at"), now, parseTime, formatTime);
    if sendAt.Failure? {
      return Failure(sendAt.error);
    }
    var body := AsStr(Get(params, "body"));
    if body.None? {
      return Failure("invalid or missing body parameter");
    }
    var contentType := AsStr(Get(params, "content_type")).GetOr("html");
    var items := lists.value;
    var ids: seq<int> := [];
    for i := 0 to |items|
      invariant ListIds(items[..i]) == Success(ids)
    {
      assert items[..i + 1][..i] == items[..i];
      if !items[i].Num? {
        ListIdsFirstFailure(items, i + 1);
        return Failure("invalid list ID at index " + NatToString(i));
      }
      ids := ids + [Trunc(items[i].n)];
    }
    assert items[..|items|] == items;
    r := Success(CampaignRequest(name.value + suffix, subject.value, ids, Trunc(templateId.value), sendAt.value, body.value, contentType));
  }

  /**
   * The post fields the campaign template sees. The handler's unchecked type assertions
   * panic unless data.post.current is an object with a string html; the panic is None here.
   */
  function PostData(data: map<string, Json>): (r: Option<map<string, Json>>)
    ensures r.Some? ==> r.value.Keys == {"Title", "FeatureImage", "Slug", "CustomExcerpt", "Html", "PlainText", "PublishedAt"}
  {
    var post :- AsObj(Get(data, "post"));
    var current :- AsObj(Get(post, "current"));
    var html :- AsStr(Get(current, "html"));
    Some(map[
      "Title" := Get(current, "title").GetOr(Null),
      "FeatureImage" := Get(current, "feature_image").GetOr(Null),
      "Slug" := Get(current, "slug").GetOr(Null),
      "CustomExcerpt" := Get(current, "custom_excerpt").GetOr(Null),
      "Html" := Str(html),
      "PlainText" := Get(current, "plaintext").GetOr(Null),
      "PublishedAt" := Get(current, "published_at").GetOr(Null)])
  }

  /**
   * The end of a handler once its task decoded: the action log it writes (its type, and the
   * failure message when it failed) and the error it returns to the queue.
   */
  datatype HandlerEnd = HandlerEnd(actionType: string, failure: Option<string>, returned: Option<string>)

  /** The status and message of the action log a handler writes. */
  function LogStatus(failure: Option<string>): (string, string) {
    match failure
    case Some(msg) => ("failure", msg)
    case None => ("success", "")
  }

  /** handleSendTransactionalEmail after decoding: Listmonk's error is logged and returned. */
  function EmailEnd(input: TaskInput, send: EmailRequest -> Option<string>): (e: HandlerEnd)
    ensures e.actionType == "send_transactional_email" && e.failure == e.returned
  {
    var failure := match EmailRequestOf(input.params, input.data)
      case Failure(err) => Some(err)
      case Success(req) => send(req);
    HandlerEnd("send_transactional_email", failure, failure)
  }

  /** handleManageSubscriber after decoding. */
  function SubscriberEnd(input: TaskInput, parseJson: string -> Option<Json>, manage: SubscriberRequest -> Option<string>)
    : (e: HandlerEnd)
    ensures e.actionType == "manage_subscriber" && e.failure == e.returned
  {
    var failure := match SubscriberRequestOf(input.params, input.data, parseJson)
      case Failure(err) => Some(err)
      case Success(req) => manage(req);
    HandlerEnd("manage_subscriber", failure, failure)
  }

  /** The Listmonk side of a campaign: render the body, create the campaign, schedule it. */
  datatype CampaignClient = CampaignClient(
    render: (string, map<string, Json>) -> Result<string, string>,
    create: CampaignRequest -> Result<int, string>,
    schedule: int -> Option<string>)

  /**
   * handleCreateCampaign after decoding: None when it returns without a log (a body that is
   * not a string, or the panic on missing post data); otherwise how it ends. A failed
   * schedule is logged under its own action type.
   */
  function CampaignEnd(input: TaskInput, suffix: string, now: int, parseTime: TimeParser, formatTime: TimeFormatter,
                       client: CampaignClient): (e: Result<HandlerEnd, string>)
    ensures e.Success? ==> (e.value.failure.Some? <==> e.value.returned.Some?)
    ensures e.Success? && e.value.failure.None? ==> e.value.actionType == "create_campaign"
  {
    var body :- AsStr(Get(input.params, "body")).ToResult("invalid body in parameters");
    var postData :- PostData(input.data).ToResult("panic: post data missing");
    match client.render(body, postData)
    case Failure(err) => Success(HandlerEnd("create_campaign", Some("Failed to parse template: " + err), Some(err)))
    case Success(parsed) =>
      match CampaignRequestOf(input.params["body" := Str(parsed)], suffix, now, parseTime, formatTime)
      case Failure(err) => Success(HandlerEnd("create_campaign", Some(err), Some(err)))
      case Success(req) =>
        match client.create(req)
        case Failure(err) => Success(HandlerEnd("create_campaign", Some(err), Some(err)))
        case Success(campaignId) =>
          match client.schedule(campaignId)
          case Some(err) => Success(HandlerEnd("update_campaign_status", Some(err), Some(err)))
          case None => Success(HandlerEnd("create_campaign", None, None))
  }

  /** The prefixes of a run's logs, outcomes and queued tasks grow by one action at a time. */
  lemma RunStep(rows: seq<ExecutionLogging.ExecutionRow>, ds: seq<Dispatch>, i: nat, executionId: string, now: int)
    requires i < |ds|
    ensures ActionLogs(ds[..i + 1], executionId, now) ==
      ActionLogs(ds[..i], executionId, now) + [ExecutionLogging.ActionRow(executionId, ds[i].actionType, ds[i].status, now, ds[i].msg)]
    ensures ExecutionLogging.Replay(rows, Outcomes(ds[..i + 1], executionId)) ==
      ExecutionLogging.AfterActionLog(ExecutionLogging.Replay(rows, Outcomes(ds[..i], executionId)), executionId, ds[i].status, ds[i].msg)
    ensures Queued(ds[..i + 1]) == Queued(ds[..i]) + (if ds[i].task.Some? then [ds[i].task.value] else [])
  {
    assert ds[..i + 1][..i] == ds[..i];
    assert Outcomes(ds[..i + 1], executionId)[..i] == Outcomes(ds[..i], executionId);
  }

  /** The steps of the run's loop body for one action: encode, pick the task type, enqueue. */
  method DispatchOne(a: SonModel.Action, data: map<string, Json>, executionId: string, delay: int,
                     marshal: Marshal, enqueue: Enqueue) returns (d: Dispatch)
    ensures d == DispatchAction(a, data, executionId, delay, marshal, enqueue)
  {
    var payload := marshal(PayloadJson(a, data, executionId));
    if payload.Failure? {
      return Dispatch(a.kind, "failure", payload.error, None);
    }
    var kind := SonModel.ParseAction(a.kind);
    if kind.None? {
      return Dispatch(a.kind, "failure", "Unknown action type", None);
    }
    var task := Task(SonModel.ActionName(kind.value), payload.value);
    var enqueued := enqueue(task, delay);
    if enqueued.Failure? {
      return Dispatch(a.kind, "failure", enqueued.error, None);
    }
    d := Dispatch(a.kind, "queued", "", Some((task, delay)));
  }

  class SonExecutor {
    const logger: ExecutionLogging.SonExecutionLogger

    constructor(logger: ExecutionLogging.SonExecutionLogger)
      ensures this.logger == logger
    {
      this.logger := logger;
    }

    /**
     * ExecuteSon: record the run as "success" under the fresh id `executionId`; if that
     * fails nothing else happens. Otherwise each action, in order, is queued with the
     * rule's delay or logged as a failure, one action log each. Returns what was queued.
     */
    method ExecuteSon(son: SonModel.Son, data: map<string, Json>, webhookLogId: string, executionId: string,
                      now: int, parsedDelay: Result<int, string>, marshal: Marshal, enqueue: Enqueue)
      returns (queued: seq<(Task, int)>)
      requires logger.Valid()
      modifies logger
      ensures logger.Valid()
      ensures ExecutionLogging.HasId(old(logger.executions), executionId) ==>
        && logger.executions == old(logger.executions) && logger.actions == old(logger.actions)
        && queued == []
      ensures !ExecutionLogging.HasId(old(logger.executions), executionId) ==>
        var ds := Dispatches(son.actions, data, executionId, EffectiveDelay(parsedDelay), marshal, enqueue);
        && logger.actions == old(logger.actions) + ActionLogs(ds, executionId, now)
        && logger.executions == ExecutionLogging.Replay(
             old(logger.executions) + [Started(son, webhookLogId, executionId, now)], Outcomes(ds, executionId))
        && queued == Queued(ds)
    {
      var started := logger.LogSonExecution(executionId, son.id, webhookLogId, "success", "", now);
      if started.Failure? {
        return [];
      }
      queued := RunActions(son.actions, data, executionId, now, EffectiveDelay(parsedDelay), marshal, enqueue);
    }

    /** The loop of ExecuteSon over the rule's actions, once the run is recorded. */
    method RunActions(actions: seq<SonModel.Action>, data: map<string, Json>, executionId: string, now: int,
                      delay: int, marshal: Marshal, enqueue: Enqueue)
      returns (queued: seq<(Task, int)>)
      requires logger.Valid()
      modifies logger
      ensures logger.Valid()
      ensures var ds := Dispatches(actions, data, executionId, delay, marshal, enqueue);
        && logger.actions == old(logger.actions) + ActionLogs(ds, executionId, now)
        && logger.executions == ExecutionLogging.Replay(old(logger.executions), Outcomes(ds, executionId))
        && queued == Queued(ds)
    {
      ghost var actions0 := logger.actions;
      ghost var rows0 := logger.executions;
      ghost var ds := Dispatches(actions, data, executionId, delay, marshal, enqueue);
      queued := [];
      for i := 0 to |actions|
        invariant logger.Valid()
        invariant logger.actions == actions0 + ActionLogs(ds[..i], executionId, now)
        invariant logger.executions == ExecutionLogging.Replay(rows0, Outcomes(ds[..i], executionId))
        invariant queued == Queued(ds[..i])
      {
        var d := DispatchOne(actions[i], data, executionId, delay, marshal, enqueue);
        assert d == ds[i];
        RunStep(rows0, ds, i, executionId, now);
        logger.LogActionExecution(executionId, d.actionType, d.status, d.msg, now);
        if d.task.Some? {
          queued := queued + [d.task.value];
        }
      }
      assert ds[..|actions|] == ds;
    }

    /** Write the one action log that ends a handler. */
    method Record(executionId: string, actionType: string, failure: Option<string>, now: int)
      requires logger.Valid()
      modifies logger
      ensures logger.Valid()
      ensures logger.actions == old(logger.actions) +
        [ExecutionLogging.ActionRow(executionId, actionType, LogStatus(failure).0, now, LogStatus(failure).1)]
      ensures logger.executions ==
        ExecutionLogging.AfterActionLog(old(logger.executions), executionId, LogStatus(failure).0, LogStatus(failure).1)
    {
      match failure
      case Some(msg) => logger.LogActionExecution(executionId, actionType, "failure", msg, now);
      case None => logger.LogActionExecution(executionId, actionType, "success", "", now);
    }

    /** handleSendTransactionalEmail; `send` is the Listmonk call. */
    method HandleSendTransactionalEmail(payload: string, parseJson: string -> Option<Json>,
                                        send: EmailRequest -> Option<string>, now: int)
      returns (err: Option<string>)
      requires logger.Valid()
      modifies logger
      ensures logger.Valid()
      ensures DecodeTask(payload, parseJson).Failure? ==>
        && err == Some(DecodeTask(payload, parseJson).error)
        && logger.actions == old(logger.actions) && logger.executions == old(logger.executions)
      ensures DecodeTask(payload, parseJson).Success? ==>
        var input := DecodeTask(payload, parseJson).value;
        var end := EmailEnd(input, send);
        && err == end.returned
        && logger.actions == old(logger.actions) +
             [ExecutionLogging.ActionRow(input.executionId, end.actionType, LogStatus(end.failure).0, now, LogStatus(end.failure).1)]
        && logger.executions == ExecutionLogging.AfterActionLog(
             old(logger.executions), input.executionId, LogStatus(end.failure).0, LogStatus(end.failure).1)
    {
      var input := DecodeTask(payload, parseJson);
      if input.Failure? {
        return Some(input.error);
      }
      var req := TransactionalEmail(input.value.params, input.value.data);
      if req.Failure? {
        err := Some(req.error);
      } else {
        err := send(req.value);
      }
      Record(input.value.executionId, "send_transactional_email", err, now);
    }

    /** handleManageSubscriber; `manage` is the Listmonk call. */
    method HandleManageSubscriber(payload: string, parseJson: string -> Option<Json>,
                                  manage: SubscriberRequest -> Option<string>, now: int)
      returns (err: Option<string>)
      requires logger.Valid()
      modifies logger
      ensures logger.Valid()
      ensures DecodeTask(payload, parseJson).Failure? ==>
        && err == Some(DecodeTask(payload, parseJson).error)
        && logger.actions == old(logger.actions) && logger.executions == old(logger.executions)
      ensures DecodeTask(payload, parseJson).Success? ==>
        var input := DecodeTask(payload, parseJson).value;
        var end := SubscriberEnd(input, parseJson, manage);
        && err == end.returned
        && logger.actions == old(logger.actions) +
             [ExecutionLogging.ActionRow(input.executionId, end.actionType, LogStatus(end.failure).0, now, LogStatus(end.failure).1)]
        && logger.executions == ExecutionLogging.AfterActionLog(
             old(logger.executions), input.executionId, LogStatus(end.failure).0, LogStatus(end.failure).1)
    {
      var input := DecodeTask(payload, parseJson);
      if input.Failure? {
        return Some(input.error);
      }
      var req := ManageSubscriber(input.value.params, input.value.data, parseJson);
      if req.Failure? {
        err := Some(req.error);
      } else {
        err := manage(req.value);
      }
      Record(input.value.executionId, "manage_subscriber", err, now);
    }

    /** handleCreateCampaign; `client` holds the template renderer and the Listmonk calls. */
    method HandleCreateCampaign(payload: string, parseJson: string -> Option<Json>, suffix: string, now: int,
                                parseTime: TimeParser, formatTime: TimeFormatter, client: CampaignClient)
      returns (err: Option<string>)
      requires logger.Valid()
      modifies logger
      ensures logger.Valid()
      ensures DecodeTask(payload, parseJson).Failure? ==>
        && err == Some(DecodeTask(payload, parseJson).error)
        && logger.actions == old(logger.actions) && logger.executions == old(logger.executions)
      ensures DecodeTask(payload, parseJson).Success? ==>
        var input := DecodeTask(payload, parseJson).value;
        match CampaignEnd(input, suffix, now, parseTime, formatTime, client)
        case Failure(e) =>
          err == Some(e) && logger.actions == old(logger.actions) && logger.executions == old(logger.executions)
        case Success(end) =>
          && err == end.returned
          && logger.actions == old(logger.actions) +
               [ExecutionLogging.ActionRow(input.executionId, end.actionType, LogStatus(end.failure).0, now, LogStatus(end.failure).1)]
          && logger.executions == ExecutionLogging.AfterActionLog(
               old(logger.executions), input.executionId, LogStatus(end.failure).0, LogStatus(end.failure).1)
    {
      var decoded := DecodeTask(payload, parseJson);
      if decoded.Failure? {
        return Some(decoded.error);
      }
      var input := decoded.value;
      var body := AsStr(Get(input.params, "body"));
      if body.None? {
        return Some("invalid body in parameters");
      }
      var postData := PostData(input.data);
      if postData.None? {
        return Some("panic: post data missing");
      }
      var parsed := client.render(body.value, postData.value);
      if parsed.Failure? {
        Record(input.executionId, "create_campaign", Some("Failed to parse template: " + parsed.error), now);
        return Some(parsed.error);
      }
      var req := CreateCampaign(input.params["body" := Str(parsed.value)], suffix, now, parseTime, formatTime);
      if req.Failure? {
        Record(input.executionId, "create_campaign", Some(req.error), now);
        return Some(req.error);
      }
      var campaignId := client.create(req.value);
      if campaignId.Failure? {
        Record(input.executionId, "create_campaign", Some(campaignId.error), now);
        return Some(campaignId.error);
      }
      err := client.schedule(campaignId.value);
      if err.Some? {
        Record(input.executionId, "update_campaign_status", err, now);
      } else {
        Record(input.executionId, "create_campaign", None, now);
      }
    }
  }

  /**
   * A recorded run ends as "failure" exactly when one of its actions failed (to encode, to
   * name a known kind, or to enqueue), and as "success" otherwise.
   */
  lemma RunFailsIffSomeActionFails(rows: seq<ExecutionLogging.ExecutionRow>, son: SonModel.Son, webhookLogId: string,
                                   executionId: string, now: int, ds: seq<Dispatch>)
    ensures var run := ExecutionLogging.Replay(rows + [Started(son, webhookLogId, executionId, now)], Outcomes(ds, executionId))[|rows|];
      && run.id == executionId
      && (run.status == "failure" <==> exists i | 0 <= i < |ds| :: ds[i].status == "failure")
      && (run.status != "failure" ==> run.status == "success")
  {
    var start := rows + [Started(son, webhookLogId, executionId, now)];
    var os := Outcomes(ds, executionId);
    ExecutionLogging.ReplayStatus(start, os, |rows|);
    if exists i | 0 <= i < |ds| :: ds[i].status == "failure" {
      var i :| 0 <= i < |ds| && ds[i].status == "failure";
      assert os[i].status == "failure";
    }
  }

  /** Every queued task carries the run's one delay, and the type of a known action kind. */
  lemma {:induction false} QueuedShareDelay(actions: seq<SonModel.Action>, data: map<string, Json>, executionId: string,
                                           delay: int, marshal: Marshal, enqueue: Enqueue)
    ensures var ds := Dispatches(actions, data, executionId, delay, marshal, enqueue);
      forall x | x in Queued(ds) :: x.1 == delay && x.0.typeName in SonModel.ActionNames
  {
    var ds := Dispatches(actions, data, executionId, delay, marshal, enqueue);
    forall x | x in Queued(ds)
      ensures x.1 == delay && x.0.typeName in SonModel.ActionNames
    {
      var j :| 0 <= j < |ds| && ds[j].task == Some(x);
      assert ds[j] == DispatchAction(actions[j], data, executionId, delay, marshal, enqueue);
      SonModel.ActionSetIsThree(x.0.typeName);
    }
  }

  /** A handler decodes from a task's bytes exactly what the run put in, when decoding inverts encoding. */
  lemma TaskRoundTrip(a: SonModel.Action, data: map<string, Json>, executionId: string, payload: string,
                      parseJson: string -> Option<Json>)
    requires parseJson(payload) == Some(PayloadJson(a, data, executionId))
    ensures DecodeTask(payload, parseJson) == Success(TaskInput(executionId, a.parameters, data))
  {
    var top := PayloadJson(a, data, executionId).fields;
    assert Get(top, "action") == Some(SonModel.ActionJson(a));
    assert Get(SonModel.ActionJson(a).fields, "parameters") == Some(Obj(a.parameters));
  }

  /** The numeric entries of an all-numbers list are all of it, each truncated. */
  lemma {:induction false} NumericIdsAllNumbers(items: seq<Json>)
    requires forall i | 0 <= i < |items| :: items[i].Num?
    ensures |NumericIds(items)| == |items|
    ensures forall i | 0 <= i < |items| :: NumericIds(items)[i] == Trunc(items[i].n)
    decreases |items|
  {
    if items != [] {
      NumericIdsAllNumbers(items[..|items| - 1]);
    }
  }

  /** Entries that are not numbers are dropped from a subscriber's lists, and only those. */
  lemma {:induction false} NumericIdsSkip(items: seq<Json>)
    ensures |NumericIds(items)| == |items| - |set i | 0 <= i < |items| && !items[i].Num?|
    decreases |items|
  {
    if items != [] {
      var before := items[..|items| - 1];
      NumericIdsSkip(before);
      var last := |items| - 1;
      var bad := set i | 0 <= i < |items| && !items[i].Num?;
      var badBefore := set i | 0 <= i < |before| && !before[i].Num?;
      if items[last].Num? {
        assert bad == badBefore;
      } else {
        assert bad == badBefore + {last};
      }
    }
  }

  /** A list of ids fails at its first entry that is not a number, and names that index. */
  lemma ListIdsNamesFirstBad(items: seq<Json>, i: nat)
    requires i < |items| && !items[i].Num?
    requires forall j | 0 <= j < i :: items[j].Num?
    ensures ListIds(items) == Failure("invalid list ID at index " + NatToString(i))
  {
    ListIdsAllNumbers(items[..i]);
    assert items[..i + 1][..i] == items[..i];
    ListIdsFirstFailure(items, i + 1);
  }

  /** A list of numbers always converts. */
  lemma {:induction false} ListIdsAllNumbers(items: seq<Json>)
    requires forall j | 0 <= j < |items| :: items[j].Num?
    ensures ListIds(items).Success?
    decreases |items|
  {
    if items != [] {
      ListIdsAllNumbers(items[..|items| - 1]);
    }
  }

  /** The send time rule: missing, empty, or in the past means five minutes from now; a future time is kept. */
  lemma SendAtRule(v: Option<Json>, now: int, parseTime: TimeParser, formatTime: TimeFormatter)
    ensures v.None? || !v.value.Str? || v.value.s == "" ==> SendAt(v, now, parseTime, formatTime) == Success(formatTime(now + 5 * Minute))
    ensures v.Some? && v.value.Str? && v.value.s != "" ==>
      match parseTime(v.value.s)
      case Failure(e) => SendAt(v, now, parseTime, formatTime) == Failure("invalid send_at time format: " + e)
      case Success(t) =>
        SendAt(v, now, parseTime, formatTime) == Success(if t < now then formatTime(now + 5 * Minute) else v.value.s)
  {
  }

  /** createCampaign checks name, subject, lists and template_id in that order. */
  lemma CampaignErrorOrder(params: map<string, Json>, suffix: string, now: int, parseTime: TimeParser, formatTime: TimeFormatter)
    ensures var r := CampaignRequestOf(params, suffix, now, parseTime, formatTime);
      && (AsStr(Get(params, "name")).None? ==> r == Failure("invalid or missing name parameter"))
      && (AsStr(Get(params, "name")).Some? && AsStr(Get(params, "subject")).None? ==>
            r == Failure("invalid or missing subject parameter"))
      && (AsStr(Get(params, "name")).Some? && AsStr(Get(params, "subject")).Some? && AsArr(Get(params, "lists")).None? ==>
            r == Failure("invalid or missing lists parameter"))
      && (AsStr(Get(params, "name")).Some? && AsStr(Get(params, "subject")).Some? &&
          AsArr(Get(params, "lists")).Some? && AsNum(Get(params, "template_id")).None? ==>
            r == Failure("invalid or missing template_id parameter"))
  {
  }
}
