/**
 * handlers/son_handlers.go: the HTTP endpoints over the rules table. Every endpoint needs
 * the authenticated user the middleware put in the request context; a rule is always
 * stored under that user, whatever the request body says.
 */
module SonHandling {
  import opened Wrappers
  import opened SonModel
  import SonStore
  import opened Users

  /** The JSON a handler answers with. */
  datatype Body =
    | Error(error: string)                     // gin.H{"error": ...}
    | StoreError(cause: SonStore.StorageError) // gin.H{"error": err.Error()}
    | Message(message: string)                 // gin.H{"message": ...}
    | One(son: Son)                            // a models.Son
    | Many(sons: seq<Son>)                     // a []models.Son

  datatype Response = Response(status: int, body: Body)

  const StatusOK := 200
  const StatusCreated := 201
  const StatusBadRequest := 400
  const StatusUnauthorized := 401
  const StatusForbidden := 403
  const StatusNotFound := 404
  const StatusInternalServerError := 500

  const Unauthenticated := Response(StatusUnauthorized, Error("User not authenticated"))
  const NotFound := Response(StatusNotFound, Error("Son not found"))

  /** The number of rules a subscription level may hold; an unknown level gets one. */
  function Quota(level: string): (n: nat)
    ensures 1 <= n <= 100
    ensures level !in {"free", "premium", "business"} ==> n == 1
  {
    if level == SubscriptionFree then 5
    else if level == SubscriptionPremium then 20
    else if level == SubscriptionBusiness then 100
    else 1
  }

  /** The quota grows with the subscription level, and every named level beats an unknown one. */
  lemma QuotaOrdered(other: string)
    requires other !in {"free", "premium", "business"}
    ensures Quota(other) < Quota("free") < Quota("premium") < Quota("business")
    ensures Quota("free") == 5 && Quota("premium") == 20 && Quota("business") == 100
  {
  }

  /** The rule Create stores: the body with a fresh id and the caller as owner. */
  function Claimed(son: Son, id: string, userId: string): (s: Son)
    ensures s.id == id && s.userId == userId
    ensures s.name == son.name && s.trigger == son.trigger && s.delay == son.delay
    ensures s.actions == son.actions && s.enabled == son.enabled
  {
    son.(id := id, userId := userId)
  }

  /**
   * Storing a rule for a user below quota leaves the user's listing within the quota, so the
   * count check of Create keeps every user within the limit.
   */
  lemma {:induction false} CreateKeepsQuota(rows: seq<SonStore.SonRow>, son: Son, now: int, level: string)
    requires |SonStore.Listed(rows, son.userId)| < Quota(level)
    ensures |SonStore.Listed(rows + [SonStore.RowOf(son, now)], son.userId)| <= Quota(level)
  {
    SonStore.ListedAfterCreate(rows, son, now, son.userId);
  }

  /** A rule stored for one user changes no other user's listing. */
  lemma {:induction false} CreateLeavesOthers(rows: seq<SonStore.SonRow>, son: Son, now: int, userId: string)
    requires userId != son.userId
    ensures SonStore.Listed(rows + [SonStore.RowOf(son, now)], userId) == SonStore.Listed(rows, userId)
  {
    SonStore.ListedAfterCreate(rows, son, now, userId);
  }

  class SonHandler {
    const storage: SonStore.SonStorage

    constructor(storage: SonStore.SonStorage)
      ensures this.storage == storage
    {
      this.storage := storage;
    }

    /**
     * POST /sons. `bound` is the body as ShouldBindJSON decoded it, or the binder's error;
     * `freshId` the UUID generated for the rule.
     */
    method Create(user: Option<User>, bound: Result<Son, string>, freshId: string, now: int, activityOk: bool)
      returns (resp: Response)
      requires storage.Valid()
      modifies storage
      ensures storage.Valid()
      ensures user.None? ==> resp == Unauthenticated && unchanged(storage)
      ensures user.Some? && bound.Failure? ==>
        resp == Response(StatusBadRequest, Error(bound.error)) && unchanged(storage)
      ensures user.Some? && bound.Success? &&
              |SonStore.Listed(old(storage.rows), user.value.id)| >= Quota(user.value.subscriptionLevel) ==>
        resp == Response(StatusForbidden, Error("Son limit reached for your subscription level")) &&
        unchanged(storage)
      ensures user.Some? && bound.Success? &&
              |SonStore.Listed(old(storage.rows), user.value.id)| < Quota(user.value.subscriptionLevel) ==>
        var son := Claimed(bound.value, freshId, user.value.id);
        if SonStore.Find(old(storage.rows), freshId).Some? then
          resp == Response(StatusInternalServerError, StoreError(SonStore.DuplicateId)) &&
          storage.rows == old(storage.rows) && storage.activity == old(storage.activity)
        else
          resp == Response(StatusCreated, One(son)) &&
          storage.rows == old(storage.rows) + [SonStore.RowOf(son, now)] &&
          storage.activity == old(storage.activity) +
            (if activityOk then [SonStore.Activity(user.value.id, "son_created", "Created Son: " + son.name)] else [])
    {
      if user.None? {
        return Unauthenticated;
      }
      if bound.Failure? {
        return Response(StatusBadRequest, Error(bound.error));
      }
      var son := Claimed(bound.value, freshId, user.value.id);
      var maxSons := Quota(user.value.subscriptionLevel);
      var existing := storage.List(user.value.id);
      if |existing| >= maxSons {
        return Response(StatusForbidden, Error("Son limit reached for your subscription level"));
      }
      var r := storage.Create(son, now, activityOk);
      if r.Failure? {
        return Response(StatusInternalServerError, StoreError(r.error));
      }
      resp := Response(StatusCreated, One(son));
    }

    /** GET /sons/:id: the rule, if it exists and belongs to the caller. */
    method Get(user: Option<User>, id: string) returns (resp: Response)
      ensures user.None? ==> resp == Unauthenticated
      ensures user.Some? ==>
        (resp == NotFound <==> SonStore.Find(storage.rows, id).None?)
      ensures user.Some? && SonStore.Lookup(storage.rows, id).Success? ==>
        var son := SonStore.Lookup(storage.rows, id).value;
        if son.userId == user.value.id then resp == Response(StatusOK, One(son))
        else resp == Response(StatusForbidden, Error("Unauthorized access to Son"))
      ensures user.Some? && SonStore.Lookup(storage.rows, id) == Failure(SonStore.ActionsUndecodable) ==>
        resp == Response(StatusInternalServerError, StoreError(SonStore.ActionsUndecodable))
      ensures resp.status == StatusOK ==> resp.body.One? && resp.body.son.userId == user.value.id
    {
      if user.None? {
        return Unauthenticated;
      }
      var r := storage.Get(id);
      if r.Failure? {
        if r.error == SonStore.SonNotFound {
          return NotFound;
        }
        return Response(StatusInternalServerError, StoreError(r.error));
      }
      if r.value.userId != user.value.id {
        return Response(StatusForbidden, Error("Unauthorized access to Son"));
      }
      resp := Response(StatusOK, One(r.value));
    }

    /** PUT /sons/:id: the id comes from the path and the owner from the context, never the body. */
    method Update(user: Option<User>, id: string, bound: Result<Son, string>, now: int, activityOk: bool)
      returns (resp: Response)
      requires storage.Valid()
      modifies storage
      ensures storage.Valid()
      ensures user.None? ==> resp == Unauthenticated && unchanged(storage)
      ensures user.Some? && bound.Failure? ==>
        resp == Response(StatusBadRequest, Error(bound.error)) && unchanged(storage)
      ensures user.Some? && bound.Success? ==>
        var son := Claimed(bound.value, id, user.value.id);
        match SonStore.FindOwned(old(storage.rows), id, user.value.id)
        case None =>
          resp == NotFound && storage.rows == old(storage.rows) && storage.activity == old(storage.activity)
        case Some(k) =>
          resp == Response(StatusOK, One(son)) &&
          storage.rows == old(storage.rows)[k := SonStore.Updated(old(storage.rows)[k], son, now)] &&
          storage.activity == old(storage.activity) +
            (if activityOk then [SonStore.Activity(user.value.id, "son_updated", "Updated Son: " + son.name)] else [])
    {
      if user.None? {
        return Unauthenticated;
      }
      if bound.Failure? {
        return Response(StatusBadRequest, Error(bound.error));
      }
      var son := Claimed(bound.value, id, user.value.id);
      var r := storage.Update(son, now, activityOk);
      if r.Failure? {
        // ErrSonNotFound is the only error the modelled store reports here; the 500 branch
        // answers database failures, which are not modelled.
        return NotFound;
      }
      resp := Response(StatusOK, One(son));
    }

    /** DELETE /sons/:id: removes the caller's rule with that id. */
    method Delete(user: Option<User>, id: string, activityOk: bool) returns (resp: Response)
      requires storage.Valid()
      modifies storage
      ensures storage.Valid()
      ensures user.None? ==> resp == Unauthenticated && unchanged(storage)
      ensures user.Some? ==>
        match SonStore.FindOwned(old(storage.rows), id, user.value.id)
        case None =>
          resp == NotFound && storage.rows == old(storage.rows) && storage.activity == old(storage.activity)
        case Some(k) =>
          resp == Response(StatusOK, Message("Son deleted successfully")) &&
          storage.rows == SonStore.Without(old(storage.rows), k) &&
          storage.activity == old(storage.activity) +
            (if activityOk then [SonStore.Activity(user.value.id, "son_deleted", "Deleted Son: " + id)] else [])
    {
      if user.None? {
        return Unauthenticated;
      }
      var r := storage.Delete(id, user.value.id, activityOk);
      if r.Failure? {
        // As in Update, ErrSonNotFound is the only modelled error.
        return NotFound;
      }
      resp := Response(StatusOK, Message("Son deleted successfully"));
    }

    /** GET /sons: the caller's rules, and only theirs. */
    method List(user: Option<User>) returns (resp: Response)
      ensures user.None? ==> resp == Unauthenticated
      ensures user.Some? ==> resp == Response(StatusOK, Many(SonStore.Listed(storage.rows, user.value.id)))
      ensures user.Some? ==> forall i | 0 <= i < |resp.body.sons| :: resp.body.sons[i].userId == user.value.id
    {
      if user.None? {
        return Unauthenticated;
      }
      var sons := storage.List(user.value.id);
      resp := Response(StatusOK, Many(sons));
    }
  }
}
