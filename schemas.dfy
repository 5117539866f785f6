/**
 * ui/lib/schemas.ts: the zod schemas the front end checks a rule against, as predicates
 * over the JSON value of the form. An object schema ignores keys it does not name; an
 * optional field may be absent but, when present, must have its type.
 */
module Schemas {
  import opened Wrappers
  import opened JsonValue
  import SonModel

  /** The triggers the form offers: page_published is not one of them. */
  const FormTriggers: seq<string> :=
    ["member_created", "member_deleted", "member_updated", "post_published", "post_scheduled"]

  const FormActions: seq<string> :=
    ["send_transactional_email", "manage_subscriber", "create_campaign"]

  predicate OptionalString(m: map<string, Json>, k: string) {
    k in m ==> m[k].Str?
  }

  /** `z.date().optional()`: a decoded JSON value is never a Date, so only absence passes. */
  predicate OptionalDate(m: map<string, Json>, k: string) {
    k !in m
  }

  predicate NameOk(v: Json) { v.Str? && |v.s| >= 1 }

  predicate TriggerOk(v: Json) { v.Str? && v.s in FormTriggers }

  predicate DelayOk(v: Json) { v.Num? && v.n >= 0.0 }

  /**
   * The action parameters: a strict object with typed optional fields, or-ed with a record
   * of anything; together they accept every object.
   */
  predicate ParametersOk(v: Json) {
    StrictParametersOk(v) || v.Obj?
  }

  predicate NumberList(v: Json) {
    v.Arr? && forall i | 0 <= i < |v.items| :: v.items[i].Num?
  }

  predicate StrictParametersOk(v: Json) {
    && v.Obj?
    && (forall k | k in v.fields :: k in {"subject", "lists", "template_id", "tags", "send_now"})
    && OptionalString(v.fields, "subject")
    && ("lists" in v.fields ==> NumberList(v.fields["lists"]))
    && ("template_id" in v.fields ==> v.fields["template_id"].Num?)
    && OptionalString(v.fields, "tags")
    && ("send_now" in v.fields ==> v.fields["send_now"].Bool?)
  }

  predicate ActionOk(v: Json) {
    && v.Obj?
    && "type" in v.fields && v.fields["type"].Str? && v.fields["type"].s in FormActions
    && "parameters" in v.fields && ParametersOk(v.fields["parameters"])
  }

  /** The actions of editableSonSchema: parameters are a plain record. */
  predicate EditableActionOk(v: Json) {
    && v.Obj?
    && "type" in v.fields && v.fields["type"].Str? && v.fields["type"].s in FormActions
    && "parameters" in v.fields && v.fields["parameters"].Obj?
  }

  predicate ActionsOk(v: Json) {
    v.Arr? && |v.items| >= 1 && forall i | 0 <= i < |v.items| :: ActionOk(v.items[i])
  }

  /** sonSchema. */
  predicate SonSchema(v: Json) {
    && v.Obj?
    && OptionalString(v.fields, "id")
    && "name" in v.fields && NameOk(v.fields["name"])
    && "trigger" in v.fields && TriggerOk(v.fields["trigger"])
    && "delay" in v.fields && DelayOk(v.fields["delay"])
    && "actions" in v.fields && ActionsOk(v.fields["actions"])
    && OptionalDate(v.fields, "created_at")
    && OptionalDate(v.fields, "updated_at")
  }

  /** editableSonSchema: the same fields, any number of actions, parameters any record. */
  predicate EditableSonSchema(v: Json) {
    && v.Obj?
    && "name" in v.fields && NameOk(v.fields["name"])
    && "trigger" in v.fields && TriggerOk(v.fields["trigger"])
    && "delay" in v.fields && DelayOk(v.fields["delay"])
    && "actions" in v.fields && v.fields["actions"].Arr?
    && forall i | 0 <= i < |v.fields["actions"].items| :: EditableActionOk(v.fields["actions"].items[i])
  }

  /** createSonSchema: sonSchema without id, created_at and updated_at. */
  predicate CreateSonSchema(v: Json) {
    && v.Obj?
    && "name" in v.fields && NameOk(v.fields["name"])
    && "trigger" in v.fields && TriggerOk(v.fields["trigger"])
    && "delay" in v.fields && DelayOk(v.fields["delay"])
    && "actions" in v.fields && ActionsOk(v.fields["actions"])
  }

  /** updateSonSchema: every sonSchema field optional, and a required string id. */
  predicate UpdateSonSchema(v: Json) {
    && v.Obj?
    && "id" in v.fields && v.fields["id"].Str?
    && ("name" in v.fields ==> NameOk(v.fields["name"]))
    && ("trigger" in v.fields ==> TriggerOk(v.fields["trigger"]))
    && ("delay" in v.fields ==> DelayOk(v.fields["delay"]))
    && ("actions" in v.fields ==> ActionsOk(v.fields["actions"]))
    && OptionalDate(v.fields, "created_at")
    && OptionalDate(v.fields, "updated_at")
  }

  /** An empty name fails every schema that checks the name. */
  lemma EmptyNameRejected(v: Json)
    requires v.Obj? && "name" in v.fields && v.fields["name"] == Str("")
    ensures !SonSchema(v) && !EditableSonSchema(v) && !CreateSonSchema(v) && !UpdateSonSchema(v)
  {
  }

  /** The form triggers are the model's triggers less page_published. */
  lemma {:induction false} FormTriggersAreModelTriggers(s: string)
    ensures s in FormTriggers <==> SonModel.ParseTrigger(s).Some? && s != "page_published"
  {
    SonModel.TriggerSetIsSix(s);
  }

  /** A rule accepted for creation names a trigger the back end knows, never page_published. */
  lemma CreatedTriggerKnown(v: Json)
    requires CreateSonSchema(v)
    ensures SonModel.ParseTrigger(v.fields["trigger"].s).Some?
    ensures SonModel.ParseTrigger(v.fields["trigger"].s) != Some(SonModel.PagePublished)
  {
    FormTriggersAreModelTriggers(v.fields["trigger"].s);
  }

  /** A negative delay fails every schema that checks the delay. */
  lemma NegativeDelayRejected(v: Json, d: real)
    requires v.Obj? && "delay" in v.fields && v.fields["delay"] == Num(d) && d < 0.0
    ensures !SonSchema(v) && !EditableSonSchema(v) && !CreateSonSchema(v) && !UpdateSonSchema(v)
  {
  }

  /** Every action kind accepted by the form is one the back end knows. */
  lemma ActionKindKnown(v: Json)
    requires ActionOk(v) || EditableActionOk(v)
    ensures SonModel.ParseAction(v.fields["type"].s).Some?
  {
    var s := v.fields["type"].s;
    SonModel.ActionSetIsThree(s);
  }

  /** Any object passes as action parameters; nothing else does. */
  lemma ParametersAreAnyObject(v: Json)
    ensures ParametersOk(v) <==> v.Obj?
  {
  }

  /** A rule without actions is editable but not a valid rule. */
  lemma {:induction false} NoActions(v: Json)
    requires EditableSonSchema(v) && v.fields["actions"] == Arr([])
    ensures !SonSchema(v) && !CreateSonSchema(v)
  {
    assert !ActionsOk(v.fields["actions"]);
  }

  /** A valid rule is a valid creation, and, once it has an id, a valid update. */
  lemma SchemasNest(v: Json)
    requires SonSchema(v)
    ensures CreateSonSchema(v)
    ensures "id" in v.fields ==> UpdateSonSchema(v)
  {
  }

  /** An update needs its id and nothing else. */
  lemma UpdateNeedsOnlyId(id: string, v: Json)
    ensures UpdateSonSchema(Obj(map["id" := Str(id)]))
    ensures v.Obj? && "id" !in v.fields ==> !UpdateSonSchema(v)
  {
  }

  /** A valid rule with its actions relaxed passes the editable schema. */
  lemma {:induction false} ValidIsEditable(v: Json)
    requires SonSchema(v)
    ensures EditableSonSchema(v)
  {
    var acts := v.fields["actions"].items;
    forall i | 0 <= i < |acts|
      ensures EditableActionOk(acts[i])
    {
      assert ActionOk(acts[i]);
      ParametersAreAnyObject(acts[i].fields["parameters"]);
    }
  }
}
