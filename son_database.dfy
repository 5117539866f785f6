/**
 * services/database.go: an alternative SQLite store for rules, with the actions in their
 * own table (an AUTOINCREMENT row id, the rule id, the type and the parameters as JSON text)
 * and the changes made in transactions that commit all or nothing. The parameters text is
 * represented by its JSON value. The `sons` table here has no owner and no enabled column.
 */
module SonDatabase {
  import opened Wrappers
  import opened JsonValue
  import opened SonModel
  import Rows

  /** A row of `sons`. */
  datatype SonRecord = SonRecord(id: string, name: string, trigger: string, delay: int, createdAt: int, updatedAt: int)

  /** A row of `actions`. */
  datatype ActionRecord = ActionRecord(rowId: nat, sonId: string, kind: string, parameters: Json)

  datatype DbError =
    | SonNotFound           // ErrSonNotFound
    | DuplicateId           // the primary-key violation of the INSERT
    | ParametersUndecodable // json.Unmarshal of a parameters text failed

  /** json.Unmarshal into map[string]any: an object, or null for the nil map; nothing else. */
  function DecodeParameters(j: Json): (r: Option<map<string, Json>>)
    ensures r.Some? <==> j.Obj? || j.Null?
    ensures j.Obj? ==> r == Some(j.fields)
  {
    match j
    case Obj(f) => Some(f)
    case Null => Some(map[])
    case _ => None
  }

  function ForSon(sonId: string): ActionRecord -> bool {
    (a: ActionRecord) => a.sonId == sonId
  }

  function NotForSon(sonId: string): ActionRecord -> bool {
    (a: ActionRecord) => a.sonId != sonId
  }

  /** `SELECT type, parameters FROM actions WHERE son_id = ?`, in row order. */
  function ActionsOf(actions: seq<ActionRecord>, sonId: string): seq<ActionRecord> {
    Rows.Where(actions, ForSon(sonId))
  }

  /** The actions a list of action rows scans into, or the first decoding error. */
  function DecodeRows(rows: seq<ActionRecord>): (r: Result<seq<Action>, DbError>)
    ensures r.Success? ==> |r.value| == |rows| && forall i | 0 <= i < |rows| :: r.value[i].kind == rows[i].kind
    ensures r.Failure? ==> r.error == ParametersUndecodable
    decreases |rows|
  {
    if rows == [] then Success([])
    else
      var last := rows[|rows| - 1];
      var before :- DecodeRows(rows[..|rows| - 1]);
      var params :- DecodeParameters(last.parameters).ToResult(ParametersUndecodable);
      Success(before + [Action(last.kind, params)])
  }

  /** The rule a `sons` row and its actions scan into; it has no owner and is not enabled. */
  function Assemble(rec: SonRecord, acts: seq<Action>): Son {
    Son(rec.id, "", rec.name, rec.trigger, rec.delay, acts, false, rec.createdAt, rec.updatedAt)
  }

  /** The action rows INSERTed for a rule's actions, numbered on from `next`. */
  function Encoded(sonId: string, acts: seq<Action>, next: nat): (r: seq<ActionRecord>)
    ensures |r| == |acts|
    ensures forall i | 0 <= i < |acts| :: r[i] == ActionRecord(next + i, sonId, acts[i].kind, Obj(acts[i].parameters))
  {
    seq(|acts|, i requires 0 <= i < |acts| => ActionRecord(next + i, sonId, acts[i].kind, Obj(acts[i].parameters)))
  }

  /** The position of the `sons` row with this id, if any. */
  function FindRecord(sons: seq<SonRecord>, id: string): Option<nat> {
    Rows.FindBy(sons, (r: SonRecord) => r.id, id)
  }

  predicate UniqueIds(sons: seq<SonRecord>) {
    forall i, j | 0 <= i < j < |sons| :: sons[i].id != sons[j].id
  }

  /** GetSon: the rule with that id and its actions, ErrSonNotFound, or a decoding error. */
  function Lookup(sons: seq<SonRecord>, actions: seq<ActionRecord>, id: string): (r: Result<Son, DbError>)
    ensures r == Failure(SonNotFound) <==> FindRecord(sons, id).None?
    ensures r.Success? ==> r.value.id == id
  {
    match FindRecord(sons, id)
    case None => Failure(SonNotFound)
    case Some(k) =>
      var acts :- DecodeRows(ActionsOf(actions, id));
      Success(Assemble(sons[k], acts))
  }

  /** ListSons: every rule in row order, each with its actions, or the first decoding error. */
  function Listed(sons: seq<SonRecord>, actions: seq<ActionRecord>): (r: Result<seq<Son>, DbError>)
    ensures r.Success? ==> |r.value| == |sons| && forall i | 0 <= i < |sons| :: r.value[i].id == sons[i].id
    decreases |sons|
  {
    if sons == [] then Success([])
    else
      var last := sons[|sons| - 1];
      var before :- Listed(sons[..|sons| - 1], actions);
      var acts :- DecodeRows(ActionsOf(actions, last.id));
      Success(before + [Assemble(last, acts)])
  }

  /** The UPDATE of UpdateSon: name, trigger, delay and update time of the rows with that id. */
  function Revised(sons: seq<SonRecord>, son: Son, now: int): (r: seq<SonRecord>)
    ensures |r| == |sons|
    ensures forall i | 0 <= i < |sons| :: r[i].id == sons[i].id && r[i].createdAt == sons[i].createdAt
    ensures forall i | 0 <= i < |sons| && sons[i].id == son.id ::
      r[i].name == son.name && r[i].trigger == son.trigger && r[i].delay == son.delay && r[i].updatedAt == now
    ensures forall i | 0 <= i < |sons| && sons[i].id != son.id :: r[i] == sons[i]
  {
    seq(|sons|, i requires 0 <= i < |sons| =>
      if sons[i].id == son.id
      then sons[i].(name := son.name, trigger := son.trigger, delay := son.delay, updatedAt := now)
      else sons[i])
  }

  class Database {
    var sons: seq<SonRecord>
    var actions: seq<ActionRecord>
    var nextRowId: nat

    /** Rule ids are a primary key; every action row id was handed out already. */
    predicate Valid()
      reads this
    {
      && UniqueIds(sons)
      && forall i | 0 <= i < |actions| :: actions[i].rowId < nextRowId
    }

    constructor()
      ensures Valid() && sons == [] && actions == [] && nextRowId == 1
    {
      sons := [];
      actions := [];
      nextRowId := 1;
    }

    /** The INSERT loop over a rule's actions inside a transaction. */
    method InsertActions(sonId: string, acts: seq<Action>)
      requires Valid()
      modifies this
      ensures Valid() && sons == old(sons)
      ensures actions == old(actions) + Encoded(sonId, acts, old(nextRowId))
      ensures nextRowId == old(nextRowId) + |acts|
    {
      ghost var start := actions;
      ghost var next0 := nextRowId;
      for i := 0 to |acts|
        invariant sons == old(sons)
        invariant nextRowId == next0 + i
        invariant actions == start + Encoded(sonId, acts[..i], next0)
        invariant Valid()
      {
        actions := actions + [ActionRecord(nextRowId, sonId, acts[i].kind, Obj(acts[i].parameters))];
        nextRowId := nextRowId + 1;
        assert Encoded(sonId, acts[..i + 1], next0) == Encoded(sonId, acts[..i], next0) + [actions[|actions| - 1]];
      }
      assert acts[..|acts|] == acts;
    }

    /**
     * CreateSon: the rule gets the fresh id `id` and `now` as both times, and is inserted
     * with its actions; a taken id rolls the whole transaction back. The stamped rule is
     * returned, as the Go code writes it through its pointer whatever happens.
     */
    method CreateSon(son: Son, id: string, now: int) returns (stamped: Son, err: Option<DbError>)
      requires Valid()
      modifies this
      ensures Valid()
      ensures stamped == son.(id := id, createdAt := now, updatedAt := now)
      ensures FindRecord(old(sons), id).Some? ==>
        err == Some(DuplicateId) && sons == old(sons) && actions == old(actions) && nextRowId == old(nextRowId)
      ensures FindRecord(old(sons), id).None? ==>
        && err.None?
        && sons == old(sons) + [SonRecord(id, son.name, son.trigger, son.delay, now, now)]
        && actions == old(actions) + Encoded(id, son.actions, old(nextRowId))
    {
      stamped := son.(id := id, createdAt := now, updatedAt := now);
      if FindRecord(sons, id).Some? {
        return stamped, Some(DuplicateId);
      }
      sons := sons + [SonRecord(id, son.name, son.trigger, son.delay, now, now)];
      InsertActions(id, son.actions);
      err := None;
    }

    /** GetSon: the `sons` row, then the action rows, decoded one by one. */
    method GetSon(id: string) returns (r: Result<Son, DbError>)
      ensures r == Lookup(sons, actions, id)
    {
      var k := FindRecord(sons, id);
      if k.None? {
        return Failure(SonNotFound);
      }
      var acts := ScanActions(ActionsOf(actions, id));
      if acts.Failure? {
        return Failure(acts.error);
      }
      r := Success(Assemble(sons[k.value], acts.value));
    }

    /** The scan loop over the rows of one action query. */
    method ScanActions(rows: seq<ActionRecord>) returns (r: Result<seq<Action>, DbError>)
      ensures r == DecodeRows(rows)
    {
      var acts: seq<Action> := [];
      for j := 0 to |rows|
        invariant DecodeRows(rows[..j]) == Success(acts)
      {
        assert rows[..j + 1][..j] == rows[..j];
        var params := DecodeParameters(rows[j].parameters);
        if params.None? {
          DecodeRowsFirstFailure(rows, j + 1);
          return Failure(ParametersUndecodable);
        }
        acts := acts + [Action(rows[j].kind, params.value)];
      }
      assert rows[..|rows|] == rows;
      r := Success(acts);
    }

    /**
     * UpdateSon: set name, trigger, delay and `now` on the row with the rule's id (no row is
     * not an error), drop its action rows and insert the new ones.
     */
    method UpdateSon(son: Son, now: int) returns (stamped: Son)
      requires Valid()
      modifies this
      ensures Valid()
      ensures stamped == son.(updatedAt := now)
      ensures sons == Revised(old(sons), son, now)
      ensures actions == Rows.Where(old(actions), NotForSon(son.id)) + Encoded(son.id, son.actions, old(nextRowId))
    {
      stamped := son.(updatedAt := now);
      sons := Revised(sons, son, now);
      actions := Rows.Where(actions, NotForSon(son.id));
      InsertActions(son.id, son.actions);
    }

    /**
     * DeleteSon: drop the rule's action rows, then its row; when no row had the id the
     * transaction rolls back and nothing changes.
     */
    method DeleteSon(id: string) returns (err: Option<DbError>)
      requires Valid()
      modifies this
      ensures Valid() && nextRowId == old(nextRowId)
      ensures FindRecord(old(sons), id).None? ==>
        err == Some(SonNotFound) && sons == old(sons) && actions == old(actions)
      ensures FindRecord(old(sons), id).Some? ==>
        && err.None?
        && actions == Rows.Where(old(actions), NotForSon(id))
        && var k := FindRecord(old(sons), id).value;
           sons == old(sons)[..k] + old(sons)[k + 1..]
    {
      var k := FindRecord(sons, id);
      if k.None? {
        return Some(SonNotFound);
      }
      actions := Rows.Where(actions, NotForSon(id));
      sons := sons[..k.value] + sons[k.value + 1..];
      err := None;
    }

    /** ListSons: all `sons` rows, then the actions of each in turn. */
    method ListSons() returns (r: Result<seq<Son>, DbError>)
      ensures r == Listed(sons, actions)
    {
      var listed: seq<Son> := [];
      for i := 0 to |sons|
        invariant Listed(sons[..i], actions) == Success(listed)
      {
        ListedStep(sons, actions, i);
        var acts := ScanActions(ActionsOf(actions, sons[i].id));
        if acts.Failure? {
          ListedFirstFailure(sons, actions, i + 1);
          return Failure(acts.error);
        }
        listed := listed + [Assemble(sons[i], acts.value)];
      }
      assert sons[..|sons|] == sons;
      r := Success(listed);
    }
  }

  /** Once a prefix of the rows fails to decode, all of them do. */
  lemma {:induction false} DecodeRowsFirstFailure(rows: seq<ActionRecord>, n: nat)
    requires n <= |rows| && DecodeRows(rows[..n]).Failure?
    ensures DecodeRows(rows) == DecodeRows(rows[..n])
    decreases |rows|
  {
    if n < |rows| {
      var before := rows[..|rows| - 1];
      assert before[..n] == rows[..n];
      DecodeRowsFirstFailure(before, n);
    } else {
      assert rows[..n] == rows;
    }
  }

  /** Once a prefix of the rules fails to list, all of them do. */
  lemma {:induction false} ListedFirstFailure(sons: seq<SonRecord>, actions: seq<ActionRecord>, n: nat)
    requires n <= |sons| && Listed(sons[..n], actions).Failure?
    ensures Listed(sons, actions) == Listed(sons[..n], actions)
    decreases |sons|
  {
    if n < |sons| {
      var before := sons[..|sons| - 1];
      assert before[..n] == sons[..n];
      ListedFirstFailure(before, actions, n);
    } else {
      assert sons[..n] == sons;
    }
  }

  /** The action rows inserted for a rule decode back to its actions. */
  lemma {:induction false} EncodedRoundTrip(sonId: string, acts: seq<Action>, next: nat)
    ensures DecodeRows(Encoded(sonId, acts, next)) == Success(acts)
    decreases |acts|
  {
    if acts != [] {
      var before := acts[..|acts| - 1];
      assert Encoded(sonId, acts, next)[..|acts| - 1] == Encoded(sonId, before, next);
      EncodedRoundTrip(sonId, before, next);
      assert acts == before + [acts[|acts| - 1]];
    }
  }

  /**
   * A created rule reads back with its fields and its actions, provided no action rows of
   * its id were left in the table before (an UpdateSon of an unknown id leaves such rows).
   */
  lemma CreatedReadsBack(sons: seq<SonRecord>, actions: seq<ActionRecord>, next: nat, son: Son, id: string, now: int)
    requires FindRecord(sons, id).None?
    requires ActionsOf(actions, id) == []
    ensures Lookup(sons + [SonRecord(id, son.name, son.trigger, son.delay, now, now)],
                   actions + Encoded(id, son.actions, next), id)
      == Success(son.(id := id, userId := "", enabled := false, createdAt := now, updatedAt := now))
  {
    var rec := SonRecord(id, son.name, son.trigger, son.delay, now, now);
    var enc := Encoded(id, son.actions, next);
    assert FindRecord(sons + [rec], id) == Some(|sons|);
    AppendedActionsOf(actions, id, son.actions, next);
    EncodedRoundTrip(id, son.actions, next);
    assert (sons + [rec])[|sons|] == rec;
    assert Assemble(rec, son.actions) == son.(id := id, userId := "", enabled := false, createdAt := now, updatedAt := now);
  }

  /** A rule without action rows has exactly the rows inserted for it afterwards. */
  lemma AppendedActionsOf(actions: seq<ActionRecord>, id: string, acts: seq<Action>, next: nat)
    requires ActionsOf(actions, id) == []
    ensures ActionsOf(actions + Encoded(id, acts, next), id) == Encoded(id, acts, next)
  {
    var enc := Encoded(id, acts, next);
    assert forall i | 0 <= i < |enc| :: enc[i].sonId == id;
    Rows.WhereAll(enc, ForSon(id));
    Rows.WhereConcat(actions, enc, ForSon(id));
  }

  /**
   * Action rows left by an earlier UpdateSon of an unknown id are adopted by a rule created
   * later under that id: they come first in what it reads back.
   */
  lemma OrphansAdopted(sons: seq<SonRecord>, actions: seq<ActionRecord>, next: nat, son: Son, id: string, now: int)
    requires FindRecord(sons, id).None?
    ensures ActionsOf(actions + Encoded(id, son.actions, next), id) == ActionsOf(actions, id) + Encoded(id, son.actions, next)
  {
    var enc := Encoded(id, son.actions, next);
    Rows.WhereConcat(actions, enc, ForSon(id));
    Rows.WhereAll(enc, ForSon(id));
  }

  /** After an update the rule's actions are exactly the new ones, whether or not the rule exists. */
  lemma UpdateReplacesActions(actions: seq<ActionRecord>, son: Son, next: nat)
    ensures ActionsOf(Rows.Where(actions, NotForSon(son.id)) + Encoded(son.id, son.actions, next), son.id)
      == Encoded(son.id, son.actions, next)
  {
    var kept := Rows.Where(actions, NotForSon(son.id));
    var enc := Encoded(son.id, son.actions, next);
    Rows.WhereConcat(kept, enc, ForSon(son.id));
    Rows.WhereNone(kept, ForSon(son.id));
    Rows.WhereAll(enc, ForSon(son.id));
  }

  /** An update leaves the actions of every other rule as they were. */
  lemma UpdateKeepsOtherActions(actions: seq<ActionRecord>, son: Son, next: nat, other: string)
    requires other != son.id
    ensures ActionsOf(Rows.Where(actions, NotForSon(son.id)) + Encoded(son.id, son.actions, next), other)
      == ActionsOf(actions, other)
  {
    var kept := Rows.Where(actions, NotForSon(son.id));
    var enc := Encoded(son.id, son.actions, next);
    Rows.WhereConcat(kept, enc, ForSon(other));
    Rows.WhereNone(enc, ForSon(other));
    Rows.WhereNarrow(actions, NotForSon(son.id), ForSon(other));
  }

  /** An update of an id with no rule changes no rule, yet leaves action rows under that id. */
  lemma UpdateOfUnknownIdLeavesOrphans(sons: seq<SonRecord>, actions: seq<ActionRecord>, son: Son, next: nat, now: int)
    requires FindRecord(sons, son.id).None?
    ensures Revised(sons, son, now) == sons
    ensures ActionsOf(Rows.Where(actions, NotForSon(son.id)) + Encoded(son.id, son.actions, next), son.id)
      == Encoded(son.id, son.actions, next)
  {
    UpdateReplacesActions(actions, son, next);
  }

  /** Listing one more rule appends it, or fails with its decoding error. */
  lemma ListedStep(sons: seq<SonRecord>, actions: seq<ActionRecord>, i: nat)
    requires i < |sons| && Listed(sons[..i], actions).Success?
    ensures Listed(sons[..i + 1], actions) ==
      match DecodeRows(ActionsOf(actions, sons[i].id))
      case Failure(e) => Failure(e)
      case Success(acts) => Success(Listed(sons[..i], actions).value + [Assemble(sons[i], acts)])
  {
    assert sons[..i + 1][..i] == sons[..i];
  }

  /** Removing one row of a keyed table keeps every other row findable, and keeps it unique. */
  lemma FindAfterRemoval(sons: seq<SonRecord>, k: nat, other: string)
    requires UniqueIds(sons) && k < |sons| && sons[k].id != other
    ensures var after := sons[..k] + sons[k + 1..];
      && UniqueIds(after)
      && (FindRecord(after, other).None? <==> FindRecord(sons, other).None?)
      && (FindRecord(sons, other).Some? ==> after[FindRecord(after, other).value] == sons[FindRecord(sons, other).value])
  {
    var after := sons[..k] + sons[k + 1..];
    RemovalShifts(sons, k);
    forall i, j | 0 <= i < j < |after|
      ensures after[i].id != after[j].id
    {
      var i' := if i < k then i else i + 1;
      var j' := if j < k then j else j + 1;
      assert after[i] == sons[i'] && after[j] == sons[j'];
    }
    if FindRecord(sons, other).Some? {
      var j := FindRecord(sons, other).value;
      assert j != k;
      var j' := if j < k then j else j - 1;
      assert after[j'] == sons[j];
      var m := FindRecord(after, other).value;
      var m' := if m < k then m else m + 1;
      assert after[m] == sons[m'];
      assert m' == j;
    }
  }

  /** Removing the row at k shifts the later rows down by one. */
  lemma RemovalShifts(sons: seq<SonRecord>, k: nat)
    requires k < |sons|
    ensures |sons[..k] + sons[k + 1..]| == |sons| - 1
    ensures forall i | 0 <= i < |sons| - 1 :: (sons[..k] + sons[k + 1..])[i] == if i < k then sons[i] else sons[i + 1]
  {
  }


  /** After a delete the rule is gone with its actions, and every other rule reads back as before. */
  lemma DeleteRemovesOnlyIt(sons: seq<SonRecord>, actions: seq<ActionRecord>, id: string, other: string)
    requires UniqueIds(sons) && FindRecord(sons, id).Some? && other != id
    ensures var k := FindRecord(sons, id).value;
      var after := sons[..k] + sons[k + 1..];
      && Lookup(after, Rows.Where(actions, NotForSon(id)), id) == Failure(SonNotFound)
      && Lookup(after, Rows.Where(actions, NotForSon(id)), other) == Lookup(sons, actions, other)
  {
    var k := FindRecord(sons, id).value;
    var after := sons[..k] + sons[k + 1..];
    assert forall i | 0 <= i < |after| :: after[i].id != id;
    Rows.WhereNarrow(actions, NotForSon(id), ForSon(other));
    FindAfterRemoval(sons, k, other);
  }
}
