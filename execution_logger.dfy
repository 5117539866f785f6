/**
 * services/son_execution_logger.go: one row per rule run in `son_execution_logs`, one row
 * per action of the run in `son_execution_action_logs`, the per-user listings of both and
 * the per-rule statistics over a time window.
 */
module ExecutionLogging {
  import opened Wrappers
  import opened Numeric
  import Rows
  import DurationParser
  import SonStore

  /** A row of `son_execution_logs`; `executedAt` is the insert time. */
  datatype ExecutionRow = ExecutionRow(
    id: string,
    sonId: string,
    webhookLogId: string,
    status: string,
    executedAt: int,
    errorMessage: string)

  /** A row of `son_execution_action_logs` (its own fresh id is not modelled). */
  datatype ActionRow = ActionRow(
    executionId: string,
    actionType: string,
    status: string,
    executedAt: int,
    errorMessage: string)

  /** One line of the statistics: a rule's name and its runs in the window. */
  datatype SonStats = SonStats(name: string, executions: nat, success: nat, failure: nat)

  datatype ExecLogError =
    | DuplicateExecutionId                        // the primary-key violation of the INSERT
    | NegativeLimitOrOffset                       // MySQL refuses a negative LIMIT or OFFSET
    | BadTimeframe(cause: DurationParser.ParseError)

  predicate UniqueIds(rows: seq<ExecutionRow>) {
    forall i, j | 0 <= i < j < |rows| :: rows[i].id != rows[j].id
  }

  predicate HasId(rows: seq<ExecutionRow>, id: string) {
    exists i | 0 <= i < |rows| :: rows[i].id == id
  }

  /**
   * The UPDATE of UpdateSonExecutionStatus: the rows with that id take the status and the
   * message; every other column and every other row keeps its value.
   */
  function SetStatus(rows: seq<ExecutionRow>, id: string, status: string, msg: string): (r: seq<ExecutionRow>)
    ensures |r| == |rows|
    ensures forall i | 0 <= i < |rows| ::
      && r[i].id == rows[i].id && r[i].sonId == rows[i].sonId
      && r[i].webhookLogId == rows[i].webhookLogId && r[i].executedAt == rows[i].executedAt
    ensures forall i | 0 <= i < |rows| && rows[i].id == id :: r[i].status == status && r[i].errorMessage == msg
    ensures forall i | 0 <= i < |rows| && rows[i].id != id :: r[i] == rows[i]
  {
    seq(|rows|, i requires 0 <= i < |rows| =>
      if rows[i].id == id then rows[i].(status := status, errorMessage := msg) else rows[i])
  }

  /** What LogActionExecution does to the execution rows: a failing action fails its run. */
  function AfterActionLog(rows: seq<ExecutionRow>, executionId: string, status: string, msg: string): seq<ExecutionRow> {
    if status == "failure" then SetStatus(rows, executionId, "failure", msg) else rows
  }

  /** An action outcome as LogActionExecution receives it. */
  datatype ActionOutcome = ActionOutcome(executionId: string, status: string, msg: string)

  /** The execution rows after a series of LogActionExecution calls, oldest first. */
  function Replay(rows: seq<ExecutionRow>, outcomes: seq<ActionOutcome>): (r: seq<ExecutionRow>)
    ensures |r| == |rows|
    ensures forall i | 0 <= i < |rows| :: r[i].id == rows[i].id
    decreases |outcomes|
  {
    if outcomes == [] then rows
    else
      var o := outcomes[|outcomes| - 1];
      AfterActionLog(Replay(rows, outcomes[..|outcomes| - 1]), o.executionId, o.status, o.msg)
  }

  /** The user owns the rule `sonId`: the join of the execution listing with `sons`. */
  predicate OwnsSon(sons: seq<SonStore.SonRow>, userId: string, sonId: string) {
    exists k | 0 <= k < |sons| :: sons[k].id == sonId && sons[k].userId == userId
  }

  function OwnedBy(sons: seq<SonStore.SonRow>, userId: string): ExecutionRow -> bool {
    (e: ExecutionRow) => OwnsSon(sons, userId, e.sonId)
  }

  function OfExecution(executionId: string): ActionRow -> bool {
    (a: ActionRow) => a.executionId == executionId
  }

  /** The runs of rule `sonId` at or after `cutoff`. */
  function InWindow(sonId: string, cutoff: int): ExecutionRow -> bool {
    (e: ExecutionRow) => e.sonId == sonId && e.executedAt >= cutoff
  }

  function WithStatus(status: string): ExecutionRow -> bool {
    (e: ExecutionRow) => e.status == status
  }

  /** The runs of rule `sonId` at or after `cutoff` that ended with `status`. */
  function InWindowWith(sonId: string, cutoff: int, status: string): ExecutionRow -> bool {
    (e: ExecutionRow) => e.sonId == sonId && e.executedAt >= cutoff && e.status == status
  }

  /** COUNT(*) and the two SUM(CASE ...) columns over a rule's runs in the window. */
  function StatOf(name: string, window: seq<ExecutionRow>): (st: SonStats)
    ensures st.name == name && st.executions == |window|
    ensures st.success + st.failure <= st.executions
  {
    Rows.WhereDisjoint(window, WithStatus("success"), WithStatus("failure"));
    SonStats(name, |window|,
      |Rows.Where(window, WithStatus("success"))|,
      |Rows.Where(window, WithStatus("failure"))|)
  }

  /**
   * The statistics query: for each of the user's rules, in table order, its counts over
   * the runs at or after `cutoff`. The WHERE on the run's time turns the LEFT JOIN into an
   * inner join, so a rule without a run in the window has no line.
   */
  function Stats(sons: seq<SonStore.SonRow>, execs: seq<ExecutionRow>, userId: string, cutoff: int): (r: seq<SonStats>)
    ensures |r| <= |sons|
    ensures forall k | 0 <= k < |r| :: r[k].executions >= 1
    decreases |sons|
  {
    if sons == [] then []
    else
      var s := sons[|sons| - 1];
      var window := Rows.Where(execs, InWindow(s.id, cutoff));
      Stats(sons[..|sons| - 1], execs, userId, cutoff)
        + (if s.userId == userId && |window| >= 1 then [StatOf(s.name, window)] else [])
  }

  /** `now.Add(-d)`: the negation wraps like int64, so the most negative d stays negative. */
  function WindowStart(now: int, d: int): (t: int)
    ensures InInt64(d) && d != MinInt64 ==> t == now - d
    ensures d == MinInt64 ==> t == now + MinInt64
  {
    now + Wrap64(-d)
  }

  class SonExecutionLogger {
    var executions: seq<ExecutionRow>
    var actions: seq<ActionRow>

    predicate Valid()
      reads this
    {
      UniqueIds(executions)
    }

    constructor()
      ensures Valid() && executions == [] && actions == []
    {
      executions := [];
      actions := [];
    }

    /**
     * LogSonExecution: insert a run of `sonId` for `webhookLogId` with the given status and
     * message, stamped `now`, under the fresh id `executionId`, and return that id.
     */
    method LogSonExecution(executionId: string, sonId: string, webhookLogId: string,
                           status: string, msg: string, now: int)
      returns (r: Result<string, ExecLogError>)
      requires Valid()
      modifies this
      ensures Valid() && actions == old(actions)
      ensures HasId(old(executions), executionId) ==>
        r == Failure(DuplicateExecutionId) && executions == old(executions)
      ensures !HasId(old(executions), executionId) ==>
        && r == Success(executionId)
        && executions == old(executions) + [ExecutionRow(executionId, sonId, webhookLogId, status, now, msg)]
    {
      if HasId(executions, executionId) {
        return Failure(DuplicateExecutionId);
      }
      executions := executions + [ExecutionRow(executionId, sonId, webhookLogId, status, now, msg)];
      r := Success(executionId);
    }

    /**
     * LogActionExecution: record the action's outcome; a "failure" also marks its run as
     * failed with the same message.
     */
    method LogActionExecution(executionId: string, actionType: string, status: string, msg: string, now: int)
      requires Valid()
      modifies this
      ensures Valid()
      ensures actions == old(actions) + [ActionRow(executionId, actionType, status, now, msg)]
      ensures executions == AfterActionLog(old(executions), executionId, status, msg)
    {
      actions := actions + [ActionRow(executionId, actionType, status, now, msg)];
      if status == "failure" {
        UpdateSonExecutionStatus(executionId, "failure", msg);
      }
    }

    /** UpdateSonExecutionStatus: set status and message of the run with that id. */
    method UpdateSonExecutionStatus(executionId: string, status: string, msg: string)
      requires Valid()
      modifies this
      ensures Valid() && actions == old(actions)
      ensures executions == SetStatus(old(executions), executionId, status, msg)
    {
      executions := SetStatus(executions, executionId, status, msg);
    }

    /**
     * GetSonExecutionLogs: the runs of the user's rules (`sons` is the rule table), their
     * count, and the page of them `limit` long from `offset`, newest first.
     */
    method GetSonExecutionLogs(sons: seq<SonStore.SonRow>, userId: string, limit: int, offset: int)
      returns (r: Result<(seq<ExecutionRow>, nat), ExecLogError>)
      ensures limit < 0 || offset < 0 <==> r == Failure(NegativeLimitOrOffset)
      ensures r.Success? ==>
        var owned := Rows.NewestFirst(executions, OwnedBy(sons, userId));
        r.value == (Rows.Page(owned, limit, offset), |owned|)
    {
      if limit < 0 || offset < 0 {
        return Failure(NegativeLimitOrOffset);
      }
      var owned: seq<ExecutionRow> := [];
      var i := |executions|;
      while i > 0
        invariant 0 <= i <= |executions|
        invariant owned == Rows.NewestFirst(executions[i..], OwnedBy(sons, userId))
      {
        Rows.NewestFirstStep(executions, OwnedBy(sons, userId), i);
        if OwnsSon(sons, userId, executions[i - 1].sonId) {
          owned := owned + [executions[i - 1]];
        }
        i := i - 1;
      }
      r := Success((Rows.Page(owned, limit, offset), |owned|));
    }

    /** GetActionExecutionLogs: the action rows of one run, in the order they were written. */
    method GetActionExecutionLogs(executionId: string) returns (logs: seq<ActionRow>)
      ensures logs == Rows.Where(actions, OfExecution(executionId))
    {
      logs := [];
      var i := 0;
      while i < |actions|
        invariant 0 <= i <= |actions|
        invariant logs == Rows.Where(actions[..i], OfExecution(executionId))
      {
        assert actions[..i + 1] == actions[..i] + [actions[i]];
        Rows.WhereAppend(actions[..i], actions[i], OfExecution(executionId));
        if actions[i].executionId == executionId {
          logs := logs + [actions[i]];
        }
        i := i + 1;
      }
      assert actions[..|actions|] == actions;
    }

    /**
     * GetSonStats without its cache: the window starts `timeframe` before `now`
     * (`now.Add(-d)`, the negation wrapping like int64); a timeframe the parser refuses is
     * the error.
     */
    method GetSonStats(sons: seq<SonStore.SonRow>, userId: string, timeframe: string, now: int,
                       goParse: DurationParser.GoParser)
      returns (r: Result<seq<SonStats>, ExecLogError>)
      ensures DurationParser.ParseDuration(timeframe, goParse).Failure? ==>
        r == Failure(BadTimeframe(DurationParser.ParseDuration(timeframe, goParse).error))
      ensures DurationParser.ParseDuration(timeframe, goParse).Success? ==>
        r == Success(Stats(sons, executions, userId, WindowStart(now, DurationParser.ParseDuration(timeframe, goParse).value)))
    {
      var d := DurationParser.ParseDuration(timeframe, goParse);
      if d.Failure? {
        return Failure(BadTimeframe(d.error));
      }
      var stats := StatsSince(sons, userId, WindowStart(now, d.value));
      r := Success(stats);
    }

    /** The statistics query itself, over the runs at or after `cutoff`. */
    method StatsSince(sons: seq<SonStore.SonRow>, userId: string, cutoff: int) returns (stats: seq<SonStats>)
      ensures stats == Stats(sons, executions, userId, cutoff)
    {
      stats := [];
      var i := 0;
      while i < |sons|
        invariant 0 <= i <= |sons|
        invariant stats == Stats(sons[..i], executions, userId, cutoff)
      {
        assert sons[..i + 1][..i] == sons[..i];
        var s := sons[i];
        if s.userId == userId {
          // COUNT and the two SUMs are computed by the database over the rule's runs.
          var window := Rows.Where(executions, InWindow(s.id, cutoff));
          if |window| >= 1 {
            stats := stats + [StatOf(s.name, window)];
          }
        }
        i := i + 1;
      }
      assert sons[..|sons|] == sons;
    }
  }

  /**
   * LogActionExecution touches its run if and only if the action failed, and then the run
   * is a failure with the action's message; no other run changes.
   */
  lemma FailingActionFlipsParent(rows: seq<ExecutionRow>, executionId: string, status: string, msg: string)
    ensures status != "failure" ==> AfterActionLog(rows, executionId, status, msg) == rows
    ensures status == "failure" ==>
      forall i | 0 <= i < |rows| ::
        var n := AfterActionLog(rows, executionId, status, msg)[i];
        && (rows[i].id == executionId ==> n.status == "failure" && n.errorMessage == msg)
        && (rows[i].id != executionId ==> n == rows[i])
  {
  }

  /** Through action logs alone, a failed run stays failed. */
  lemma {:induction false} FailureIsAbsorbing(rows: seq<ExecutionRow>, outcomes: seq<ActionOutcome>, i: nat)
    requires i < |rows| && rows[i].status == "failure"
    ensures Replay(rows, outcomes)[i].status == "failure"
    decreases |outcomes|
  {
    if outcomes != [] {
      FailureIsAbsorbing(rows, outcomes[..|outcomes| - 1], i);
    }
  }

  /** Every line of the statistics has a run, and success and failure never exceed the runs. */
  lemma {:induction false} StatsBounded(sons: seq<SonStore.SonRow>, execs: seq<ExecutionRow>, userId: string, cutoff: int)
    ensures forall k | 0 <= k < |Stats(sons, execs, userId, cutoff)| ::
      var st := Stats(sons, execs, userId, cutoff)[k];
      st.executions >= 1 && st.success + st.failure <= st.executions
    decreases |sons|
  {
    if sons != [] {
      var s := sons[|sons| - 1];
      var window := Rows.Where(execs, InWindow(s.id, cutoff));
      StatsBounded(sons[..|sons| - 1], execs, userId, cutoff);
      Rows.WhereDisjoint(window, WithStatus("success"), WithStatus("failure"));
    }
  }

  /** The lines of the rules before the last are the first lines of the whole statistics. */
  lemma StatsPrefix(sons: seq<SonStore.SonRow>, execs: seq<ExecutionRow>, userId: string, cutoff: int, k: nat)
    requires sons != [] && k < |Stats(sons[..|sons| - 1], execs, userId, cutoff)|
    ensures k < |Stats(sons, execs, userId, cutoff)|
    ensures Stats(sons, execs, userId, cutoff)[k] == Stats(sons[..|sons| - 1], execs, userId, cutoff)[k]
  {
  }

  /**
   * Only the user's rules have lines: each line is a rule of the user with a run in the
   * window, and holds that rule's name and the counts over its runs in the window.
   */
  lemma {:induction false} StatsOnlyOwnRules(sons: seq<SonStore.SonRow>, execs: seq<ExecutionRow>, userId: string, cutoff: int)
    ensures |Stats(sons, execs, userId, cutoff)| <= |sons|
    ensures forall k | 0 <= k < |Stats(sons, execs, userId, cutoff)| ::
      exists j | 0 <= j < |sons| ::
        && sons[j].userId == userId
        && |Rows.Where(execs, InWindow(sons[j].id, cutoff))| >= 1
        && Stats(sons, execs, userId, cutoff)[k] == StatOf(sons[j].name, Rows.Where(execs, InWindow(sons[j].id, cutoff)))
    decreases |sons|
  {
    if sons != [] {
      var before := sons[..|sons| - 1];
      var all := Stats(sons, execs, userId, cutoff);
      var earlier := Stats(before, execs, userId, cutoff);
      StatsOnlyOwnRules(before, execs, userId, cutoff);
      forall k | 0 <= k < |all|
        ensures exists j | 0 <= j < |sons| ::
          && sons[j].userId == userId
          && |Rows.Where(execs, InWindow(sons[j].id, cutoff))| >= 1
          && all[k] == StatOf(sons[j].name, Rows.Where(execs, InWindow(sons[j].id, cutoff)))
      {
        if k < |earlier| {
          StatsPrefix(sons, execs, userId, cutoff, k);
          var j :| 0 <= j < |before| && before[j].userId == userId
            && |Rows.Where(execs, InWindow(before[j].id, cutoff))| >= 1
            && earlier[k] == StatOf(before[j].name, Rows.Where(execs, InWindow(before[j].id, cutoff)));
          assert sons[j] == before[j];
        } else {
          assert sons[|sons| - 1].userId == userId;
        }
      }
    }
  }

  /** Every rule of the user with a run in the window has its line. */
  lemma {:induction false} StatsCoverOwnRules(sons: seq<SonStore.SonRow>, execs: seq<ExecutionRow>, userId: string, cutoff: int, j: nat)
    requires j < |sons| && sons[j].userId == userId
    requires |Rows.Where(execs, InWindow(sons[j].id, cutoff))| >= 1
    ensures StatOf(sons[j].name, Rows.Where(execs, InWindow(sons[j].id, cutoff))) in Stats(sons, execs, userId, cutoff)
    decreases |sons|
  {
    var before := sons[..|sons| - 1];
    if j < |before| {
      assert before[j] == sons[j];
      StatsCoverOwnRules(before, execs, userId, cutoff, j);
    }
  }

  /**
   * A line counts the rule's runs in the window, and among them those that succeeded and
   * those that failed.
   */
  lemma StatOfCounts(name: string, sonId: string, execs: seq<ExecutionRow>, cutoff: int)
    ensures var st := StatOf(name, Rows.Where(execs, InWindow(sonId, cutoff)));
      && st.name == name
      && st.executions == |Rows.Where(execs, InWindow(sonId, cutoff))|
      && st.success == |Rows.Where(execs, InWindowWith(sonId, cutoff, "success"))|
      && st.failure == |Rows.Where(execs, InWindowWith(sonId, cutoff, "failure"))|
  {
    var window := Rows.Where(execs, InWindow(sonId, cutoff));
    forall status: string
      ensures Rows.Where(window, WithStatus(status)) == Rows.Where(execs, InWindowWith(sonId, cutoff, status))
    {
      Rows.WhereAgree(window, WithStatus(status), InWindowWith(sonId, cutoff, status));
      Rows.WhereNarrow(execs, InWindow(sonId, cutoff), InWindowWith(sonId, cutoff, status));
    }
  }

  /**
   * When every action outcome belongs to one run, that run ends as a failure exactly when
   * one of its actions failed, and keeps its status otherwise.
   */
  lemma {:induction false} ReplayStatus(rows: seq<ExecutionRow>, outcomes: seq<ActionOutcome>, k: nat)
    requires k < |rows|
    requires forall i | 0 <= i < |outcomes| :: outcomes[i].executionId == rows[k].id
    ensures Replay(rows, outcomes)[k].status ==
      if exists i | 0 <= i < |outcomes| :: outcomes[i].status == "failure" then "failure" else rows[k].status
    decreases |outcomes|
  {
    if outcomes != [] {
      var before := outcomes[..|outcomes| - 1];
      ReplayStatus(rows, before, k);
      var last := outcomes[|outcomes| - 1];
      if exists i | 0 <= i < |before| :: before[i].status == "failure" {
        var i :| 0 <= i < |before| && before[i].status == "failure";
        assert outcomes[i] == before[i];
      }
      if exists i | 0 <= i < |outcomes| :: outcomes[i].status == "failure" {
        var i :| 0 <= i < |outcomes| && outcomes[i].status == "failure";
        if i < |before| {
          assert before[i] == outcomes[i];
        }
      }
    }
  }
}
