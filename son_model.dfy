/**
 * models/son.go: the rule ("son") record, its trigger and action kinds, and the JSON
 * codec of its delay, which travels as a number of minutes.
 */
module SonModel {
  import opened Wrappers
  import opened Numeric
  import opened GoTime
  import opened JsonValue
  import DurationParser

  /** The six Ghost events a rule can listen to. */
  datatype TriggerType =
    | MemberCreated
    | MemberDeleted
    | MemberUpdated
    | PagePublished
    | PostPublished
    | PostScheduled

  /** The three things a rule can do. */
  datatype ActionType =
    | SendTransactionalEmail
    | ManageSubscriber
    | CreateCampaign

  function TriggerName(t: TriggerType): string {
    match t
    case MemberCreated => "member_created"
    case MemberDeleted => "member_deleted"
    case MemberUpdated => "member_updated"
    case PagePublished => "page_published"
    case PostPublished => "post_published"
    case PostScheduled => "post_scheduled"
  }

  function ActionName(a: ActionType): string {
    match a
    case SendTransactionalEmail => "send_transactional_email"
    case ManageSubscriber => "manage_subscriber"
    case CreateCampaign => "create_campaign"
  }

  /** The trigger names, one per trigger constant. */
  const TriggerNames: seq<string> :=
    ["member_created", "member_deleted", "member_updated", "page_published", "post_published", "post_scheduled"]

  /** The action names, one per action constant. */
  const ActionNames: seq<string> :=
    ["send_transactional_email", "manage_subscriber", "create_campaign"]

  /** The trigger constant a text names, if any. */
  function ParseTrigger(s: string): (r: Option<TriggerType>)
    ensures r.Some? ==> TriggerName(r.value) == s
  {
    if s == "member_created" then Some(MemberCreated)
    else if s == "member_deleted" then Some(MemberDeleted)
    else if s == "member_updated" then Some(MemberUpdated)
    else if s == "page_published" then Some(PagePublished)
    else if s == "post_published" then Some(PostPublished)
    else if s == "post_scheduled" then Some(PostScheduled)
    else None
  }

  /** The action constant a text names, if any. */
  function ParseAction(s: string): (r: Option<ActionType>)
    ensures r.Some? ==> ActionName(r.value) == s
  {
    if s == "send_transactional_email" then Some(SendTransactionalEmail)
    else if s == "manage_subscriber" then Some(ManageSubscriber)
    else if s == "create_campaign" then Some(CreateCampaign)
    else None
  }

  /** Every trigger reads back from its name. */
  lemma TriggerNameRoundTrip(t: TriggerType)
    ensures ParseTrigger(TriggerName(t)) == Some(t)
  {
  }

  /** Exactly six distinct trigger names, page_published among them. */
  lemma TriggerSetIsSix(s: string)
    ensures ParseTrigger(s).Some? <==> s in TriggerNames
    ensures |TriggerNames| == 6
    ensures forall i, j | 0 <= i < j < |TriggerNames| :: TriggerNames[i] != TriggerNames[j]
    ensures "page_published" in TriggerNames
  {
  }

  /** Every action kind reads back from its name. */
  lemma ActionNameRoundTrip(a: ActionType)
    ensures ParseAction(ActionName(a)) == Some(a)
  {
  }

  /** Exactly three distinct action names. */
  lemma ActionSetIsThree(s: string)
    ensures ParseAction(s).Some? <==> s in ActionNames
    ensures |ActionNames| == 3
    ensures forall i, j | 0 <= i < j < |ActionNames| :: ActionNames[i] != ActionNames[j]
  {
  }

  /**
   * One action of a rule. Go's ActionType is a string type, so a stored action may carry
   * any text as its type; the executor rejects unknown ones.
   */
  datatype Action = Action(kind: string, parameters: map<string, Json>)

  /** json.Marshal of an Action: its `type` and its `parameters`. */
  function ActionJson(a: Action): Json {
    Obj(map["type" := Str(a.kind), "parameters" := Obj(a.parameters)])
  }

  /**
   * A rule. The struct in models/son.go lacks the owner and the enabled flag, which the
   * handlers and the storage read and write; they are part of the record here.
   * `delay` is in nanoseconds, the instants are nanoseconds too.
   */
  datatype Son = Son(
    id: string,
    userId: string,
    name: string,
    trigger: string,
    delay: int,
    actions: seq<Action>,
    enabled: bool,
    createdAt: int,
    updatedAt: int)

  /** Duration.MarshalJSON: the number of minutes, fraction included. */
  function MarshalDuration(d: int): (j: Json)
    ensures j.Num? && j.n * (Minute as real) == d as real
  {
    Num(d as real / Minute as real)
  }

  /**
   * Duration.UnmarshalJSON on the decoded value: a number counts whole minutes (the
   * fraction dropped, the product wrapping like int64); a string goes to Go's parser and its
   * error is passed on; any other kind is refused.
   */
  function UnmarshalDuration(j: Json, goParse: DurationParser.GoParser): (r: Result<int, string>)
    ensures r.Success? ==> InInt64(r.value) || (j.Str? && goParse(j.s) == Success(r.value))
    ensures !j.Num? && !j.Str? ==> r == Failure("invalid duration")
    ensures j.Str? ==> r == goParse(j.s)
  {
    match j
    case Num(n) => Success(Wrap64(Trunc(n) * Minute))
    case Str(s) => goParse(s)
    case _ => Failure("invalid duration")
  }

  /** A JSON number n decodes to trunc(n) minutes when that fits an int64. */
  lemma UnmarshalNumber(n: real, goParse: DurationParser.GoParser)
    requires InInt64(Trunc(n) * Minute)
    ensures UnmarshalDuration(Num(n), goParse) == Success(Trunc(n) * Minute)
    ensures n >= 0.0 ==> UnmarshalDuration(Num(n), goParse).value as real <= n * Minute as real
  {
  }

  /** Round trip: a whole number of minutes survives encoding and decoding. */
  lemma DurationRoundTrip(m: int, goParse: DurationParser.GoParser)
    requires InInt64(m * Minute)
    ensures UnmarshalDuration(MarshalDuration(m * Minute), goParse) == Success(m * Minute)
  {
    var j := MarshalDuration(m * Minute);
    assert j.n == m as real;
    assert Trunc(m as real) == m;
  }

  /** A delay that is not a whole number of minutes loses its fraction of a minute. */
  lemma DurationLosesSeconds(goParse: DurationParser.GoParser)
    ensures UnmarshalDuration(MarshalDuration(90 * Second), goParse) == Success(Minute)
  {
    var j := MarshalDuration(90 * Second);
    assert j.n == 1.5;
    assert Trunc(1.5) == 1;
  }
}
