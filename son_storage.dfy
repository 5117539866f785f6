/**
 * services/son_storage.go: the rules table. A rule's actions are stored as one JSON
 * column; every operation is scoped by the rule id and, for changes, by its owner.
 */
module SonStore {
  import opened Wrappers
  import opened JsonValue
  import opened SonModel
  import Rows

  /** A row of the `sons` table. `createdAt`/`updatedAt` hold the database clock NOW(). */
  datatype SonRow = SonRow(
    id: string,
    userId: string,
    name: string,
    trigger: string,
    delay: int,
    actions: Json,
    enabled: bool,
    createdAt: int,
    updatedAt: int)

  datatype StorageError =
    | SonNotFound        // ErrSonNotFound
    | DuplicateId        // the primary-key violation the INSERT reports
    | ActionsUndecodable // json.Unmarshal of the actions column failed

  /** A row of the `recent_activity` table. */
  datatype Activity = Activity(userId: string, actionType: string, description: string)

  /** json.Marshal of a rule's actions: an array with one object per action. */
  function EncodeActions(acts: seq<Action>): (j: Json)
    ensures j.Arr? && |j.items| == |acts|
    ensures forall i | 0 <= i < |acts| :: j.items[i] == ActionJson(acts[i])
  {
    Arr(seq(|acts|, i requires 0 <= i < |acts| => ActionJson(acts[i])))
  }

  /**
   * json.Unmarshal of one array element into an Action: null leaves the zero Action; an
   * object may lack either field (left zero) and its other keys are ignored; a field of the
   * wrong kind is an error, as is any other element.
   */
  function DecodeAction(j: Json): (r: Option<Action>)
    ensures j.Obj? && "type" in j.fields && "parameters" in j.fields &&
            j.fields["type"].Str? && j.fields["parameters"].Obj? ==>
              r == Some(Action(j.fields["type"].s, j.fields["parameters"].fields))
    ensures !j.Obj? && !j.Null? ==> r.None?
  {
    match j
    case Null => Some(Action("", map[]))
    case Obj(f) =>
      var kind: Option<string> :=
        if "type" !in f || f["type"].Null? then Some("")
        else if f["type"].Str? then Some(f["type"].s)
        else None;
      var params: Option<map<string, Json>> :=
        if "parameters" !in f || f["parameters"].Null? then Some(map[])
        else if f["parameters"].Obj? then Some(f["parameters"].fields)
        else None;
      if kind.Some? && params.Some? then Some(Action(kind.value, params.value)) else None
    case _ => None
  }

  function DecodeItems(items: seq<Json>): (r: Option<seq<Action>>)
    ensures r.Some? ==> |r.value| == |items|
    ensures r.Some? <==> forall i | 0 <= i < |items| :: DecodeAction(items[i]).Some?
  {
    if items == [] then Some([])
    else
      match DecodeAction(items[0])
      case None => None
      case Some(a) =>
        match DecodeItems(items[1..])
        case None => None
        case Some(rest) => Some([a] + rest)
  }

  /** json.Unmarshal into []Action: null is the empty list, an array decodes element-wise. */
  function DecodeActions(j: Json): (r: Option<seq<Action>>)
    ensures j.Null? ==> r == Some([])
    ensures !j.Null? && !j.Arr? ==> r.None?
  {
    match j
    case Null => Some([])
    case Arr(items) => DecodeItems(items)
    case _ => None
  }

  lemma {:induction false} DecodeEncodedItems(acts: seq<Action>)
    ensures DecodeItems(EncodeActions(acts).items) == Some(acts)
  {
    if acts != [] {
      var items := EncodeActions(acts).items;
      assert items[1..] == EncodeActions(acts[1..]).items;
      DecodeEncodedItems(acts[1..]);
      assert [acts[0]] + acts[1..] == acts;
    }
  }

  /** Round trip: the stored actions column decodes to the actions that were stored. */
  lemma ActionsRoundTrip(acts: seq<Action>)
    ensures DecodeActions(EncodeActions(acts)) == Some(acts)
  {
    DecodeEncodedItems(acts);
  }

  /** The row INSERTed for a rule at database time `now`. */
  function RowOf(son: Son, now: int): SonRow {
    SonRow(son.id, son.userId, son.name, son.trigger, son.delay, EncodeActions(son.actions),
           son.enabled, now, now)
  }

  /** The rule a row scans into, once its actions column has decoded. */
  function SonOf(row: SonRow, acts: seq<Action>): Son {
    Son(row.id, row.userId, row.name, row.trigger, row.delay, acts, row.enabled,
        row.createdAt, row.updatedAt)
  }

  /** The primary key: no two rows share an id. */
  predicate UniqueIds(rows: seq<SonRow>) {
    forall i, j | 0 <= i < j < |rows| :: rows[i].id != rows[j].id
  }

  /** The position of the row with this id, if any. */
  function Find(rows: seq<SonRow>, id: string): Option<nat> {
    Rows.FindBy(rows, (r: SonRow) => r.id, id)
  }

  /** Find returns the only position of its id in a table with a primary key. */
  lemma FindUnique(rows: seq<SonRow>, id: string, i: nat)
    requires UniqueIds(rows) && i < |rows| && rows[i].id == id
    ensures Find(rows, id) == Some(i)
  {
  }

  /** `SELECT ... WHERE id = ?` and the decoding of the actions column. */
  function Lookup(rows: seq<SonRow>, id: string): (r: Result<Son, StorageError>)
    ensures Find(rows, id).None? <==> r == Failure(SonNotFound)
    ensures r.Success? ==> r.value.id == id
  {
    match Find(rows, id)
    case None => Failure(SonNotFound)
    case Some(k) =>
      match DecodeActions(rows[k].actions)
      case None => Failure(ActionsUndecodable)
      case Some(acts) => Success(SonOf(rows[k], acts))
  }

  /** The position of the row matching both id and owner, if any. */
  function FindOwned(rows: seq<SonRow>, id: string, userId: string): (k: Option<nat>)
    ensures k.Some? ==> k.value < |rows| && rows[k.value].id == id && rows[k.value].userId == userId
    ensures k.None? <==> forall i | 0 <= i < |rows| :: !(rows[i].id == id && rows[i].userId == userId)
  {
    if rows == [] then None
    else if rows[|rows| - 1].id == id && rows[|rows| - 1].userId == userId then Some(|rows| - 1)
    else FindOwned(rows[..|rows| - 1], id, userId)
  }

  /** The columns an UPDATE sets on a matching row. */
  function Updated(row: SonRow, son: Son, now: int): SonRow {
    row.(name := son.name, trigger := son.trigger, delay := son.delay,
         actions := EncodeActions(son.actions), enabled := son.enabled, updatedAt := now)
  }

  /** Rows without the one at position k. */
  function Without(rows: seq<SonRow>, k: nat): (r: seq<SonRow>)
    requires k < |rows|
    ensures |r| == |rows| - 1
    ensures forall i | 0 <= i < |r| :: r[i] == if i < k then rows[i] else rows[i + 1]
  {
    rows[..k] + rows[k + 1..]
  }

  /** List's rows, by appending: the owner's rows whose actions decode, in table order. */
  function Listed(rows: seq<SonRow>, userId: string): (r: seq<Son>)
    ensures |r| <= |rows|
    ensures forall i | 0 <= i < |r| :: r[i].userId == userId
  {
    if rows == [] then []
    else
      var last := rows[|rows| - 1];
      var before := Listed(rows[..|rows| - 1], userId);
      if last.userId == userId && DecodeActions(last.actions).Some? then
        before + [SonOf(last, DecodeActions(last.actions).value)]
      else before
  }

  /**
   * The number of changed rows MySQL reports for the UPDATE as written: a matching row
   * whose columns already hold the new values does not count. go-sql-driver reports
   * changed rows, not matched rows, unless the DSN asks for clientFoundRows, which the one
   * in database/db.go does not; NOW() has a resolution of one second.
   */
  function UpdateAsWritten(rows: seq<SonRow>, son: Son, now: int): (r: Result<seq<SonRow>, StorageError>)
    ensures r.Success? ==> FindOwned(rows, son.id, son.userId).Some?
  {
    match FindOwned(rows, son.id, son.userId)
    case None => Failure(SonNotFound)
    case Some(k) =>
      if Updated(rows[k], son, now) == rows[k] then Failure(SonNotFound)
      else Success(rows[k := Updated(rows[k], son, now)])
  }

  /**
   * Saving a rule unchanged within the second of its last save reports ErrSonNotFound,
   * although the rule exists and belongs to the caller.
   */
  lemma UnchangedSaveReportsNotFound(rows: seq<SonRow>, k: nat, acts: seq<Action>)
    requires k < |rows| && rows[k].actions == EncodeActions(acts)
    ensures FindOwned(rows, rows[k].id, rows[k].userId).Some?
    ensures UniqueIds(rows) ==>
      UpdateAsWritten(rows, SonOf(rows[k], acts), rows[k].updatedAt) == Failure(SonNotFound)
  {
    var son := SonOf(rows[k], acts);
    if UniqueIds(rows) {
      var j := FindOwned(rows, son.id, son.userId).value;
      assert rows[j].id == rows[k].id;
      assert j == k;
      assert Updated(rows[k], son, rows[k].updatedAt) == rows[k];
    }
  }

  class SonStorage {
    var rows: seq<SonRow>
    var activity: seq<Activity>

    predicate Valid()
      reads this
    {
      UniqueIds(rows)
    }

    constructor()
      ensures Valid() && rows == [] && activity == []
    {
      rows := [];
      activity := [];
    }

    /**
     * Create: INSERT the rule with created_at = updated_at = NOW(); the id must be new.
     * A failed activity insert (`activityOk` false) is only logged.
     */
    method Create(son: Son, now: int, activityOk: bool) returns (r: Result<(), StorageError>)
      requires Valid()
      modifies this
      ensures Valid()
      ensures Find(old(rows), son.id).Some? ==>
        r == Failure(DuplicateId) && rows == old(rows) && activity == old(activity)
      ensures Find(old(rows), son.id).None? ==>
        && r == Success(())
        && rows == old(rows) + [RowOf(son, now)]
        && activity == old(activity) +
             (if activityOk then [Activity(son.userId, "son_created", "Created Son: " + son.name)] else [])
    {
      if Find(rows, son.id).Some? {
        return Failure(DuplicateId);
      }
      rows := rows + [RowOf(son, now)];
      if activityOk {
        activity := activity + [Activity(son.userId, "son_created", "Created Son: " + son.name)];
      }
      r := Success(());
    }

    /** Get: the rule with this id, ErrSonNotFound when there is none. */
    method Get(id: string) returns (r: Result<Son, StorageError>)
      ensures r == Lookup(rows, id)
    {
      var k := Find(rows, id);
      if k.None? {
        return Failure(SonNotFound);
      }
      var acts := DecodeActions(rows[k.value].actions);
      if acts.None? {
        return Failure(ActionsUndecodable);
      }
      r := Success(SonOf(rows[k.value], acts.value));
    }

    /**
     * Update: overwrite name, trigger, delay, actions and enabled of the row matching both
     * id and owner, stamping updated_at; ErrSonNotFound when no row matches. (This is the
     * matched-rows reading; UpdateAsWritten is the changed-rows count the driver reports.)
     */
    method Update(son: Son, now: int, activityOk: bool) returns (r: Result<(), StorageError>)
      requires Valid()
      modifies this
      ensures Valid()
      ensures FindOwned(old(rows), son.id, son.userId).None? ==>
        r == Failure(SonNotFound) && rows == old(rows) && activity == old(activity)
      ensures FindOwned(old(rows), son.id, son.userId).Some? ==>
        var k := FindOwned(old(rows), son.id, son.userId).value;
        && r == Success(())
        && rows == old(rows)[k := Updated(old(rows)[k], son, now)]
        && activity == old(activity) +
             (if activityOk then [Activity(son.userId, "son_updated", "Updated Son: " + son.name)] else [])
    {
      var k := FindOwned(rows, son.id, son.userId);
      if k.None? {
        return Failure(SonNotFound);
      }
      rows := rows[k.value := Updated(rows[k.value], son, now)];
      if activityOk {
        activity := activity + [Activity(son.userId, "son_updated", "Updated Son: " + son.name)];
      }
      r := Success(());
    }

    /** Delete: remove the row matching both id and owner; ErrSonNotFound when none does. */
    method Delete(id: string, userId: string, activityOk: bool) returns (r: Result<(), StorageError>)
      requires Valid()
      modifies this
      ensures Valid()
      ensures FindOwned(old(rows), id, userId).None? ==>
        r == Failure(SonNotFound) && rows == old(rows) && activity == old(activity)
      ensures FindOwned(old(rows), id, userId).Some? ==>
        && r == Success(())
        && rows == Without(old(rows), FindOwned(old(rows), id, userId).value)
        && activity == old(activity) +
             (if activityOk then [Activity(userId, "son_deleted", "Deleted Son: " + id)] else [])
    {
      var k := FindOwned(rows, id, userId);
      if k.None? {
        return Failure(SonNotFound);
      }
      rows := Without(rows, k.value);
      if activityOk {
        activity := activity + [Activity(userId, "son_deleted", "Deleted Son: " + id)];
      }
      r := Success(());
    }

    /**
     * List: the owner's rules in table order; a row whose actions do not decode is skipped,
     * and no rule gives the empty list.
     */
    method List(userId: string) returns (sons: seq<Son>)
      ensures sons == Listed(rows, userId)
    {
      sons := [];
      var i := 0;
      while i < |rows|
        invariant 0 <= i <= |rows|
        invariant sons == Listed(rows[..i], userId)
      {
        assert rows[..i + 1][..i] == rows[..i];
        var acts := DecodeActions(rows[i].actions);
        if rows[i].userId == userId && acts.Some? {
          sons := sons + [SonOf(rows[i], acts.value)];
        }
        i := i + 1;
      }
      assert rows[..|rows|] == rows;
    }
  }

  /** Get after Create returns the rule as given, with both timestamps set to the insert time. */
  lemma GetAfterCreate(rows: seq<SonRow>, son: Son, now: int)
    requires Find(rows, son.id).None?
    ensures Lookup(rows + [RowOf(son, now)], son.id) == Success(son.(createdAt := now, updatedAt := now))
  {
    ActionsRoundTrip(son.actions);
  }

  /** Update changes no row but the matching one, and keeps the primary key. */
  lemma UpdateTouchesOnlyMatch(rows: seq<SonRow>, son: Son, now: int, k: nat, i: nat)
    requires UniqueIds(rows) && k < |rows| && i < |rows| && i != k
    ensures UniqueIds(rows[k := Updated(rows[k], son, now)])
    ensures rows[k := Updated(rows[k], son, now)][i] == rows[i]
  {
  }

  /** After Delete, Get of that id returns ErrSonNotFound. */
  lemma GetAfterDelete(rows: seq<SonRow>, k: nat)
    requires UniqueIds(rows) && k < |rows|
    ensures UniqueIds(Without(rows, k))
    ensures Lookup(Without(rows, k), rows[k].id) == Failure(SonNotFound)
  {
    var r := Without(rows, k);
    forall i | 0 <= i < |r|
      ensures r[i].id != rows[k].id
    {
      if i < k {
        assert r[i] == rows[i];
      } else {
        assert r[i] == rows[i + 1];
      }
    }
  }

  /** A rule of another owner can be neither updated nor deleted. */
  lemma ForeignRuleUntouchable(rows: seq<SonRow>, k: nat, userId: string)
    requires UniqueIds(rows) && k < |rows| && rows[k].userId != userId
    ensures FindOwned(rows, rows[k].id, userId).None?
  {
  }

  /** A rule stored by Create is listed for its owner and for no one else. */
  lemma {:induction false} ListedAfterCreate(rows: seq<SonRow>, son: Son, now: int, userId: string)
    ensures Listed(rows + [RowOf(son, now)], userId) ==
      Listed(rows, userId) + (if son.userId == userId then [son.(createdAt := now, updatedAt := now)] else [])
  {
    var rs := rows + [RowOf(son, now)];
    assert rs[..|rs| - 1] == rows;
    ActionsRoundTrip(son.actions);
  }
}
