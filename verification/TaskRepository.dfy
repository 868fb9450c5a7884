/**
 * Task rows and optimistic transitions (src/minion/repositories.py).
 *
 * A caller of `transition` first looks at a row, which may be a copy its database session
 * cached earlier, and then issues an update guarded by the version it saw. The two halves
 * are separate here so that other callers can act in between.
 */
module TaskRepository {
  import opened Prelude
  import opened TaskStates

  type TaskId = nat
  type EnvId = nat

  datatype Row = Row(
    status: Status,
    version: nat,
    env: Option<EnvId>,
    error: Option<string>,
    result: Option<string>)

  const NEW_ROW := Row(Created, 0, None, None, None)

  /** Arguments of one `transition` call. */
  datatype Change = Change(
    target: Status,
    env: Option<EnvId>,
    error: Option<string>,
    result: Option<string>)

  function To(target: Status): Change {
    Change(target, None, None, None)
  }

  datatype Failure = NotFound | IllegalTransition | ChangedConcurrently

  /** The updated row; `view` is what the caller saw, `row` what the table holds. */
  function Written(row: Row, view: Row, c: Change): Row {
    var retried := view.status.Failed? && c.target.Queued?;
    Row(
      c.target,
      view.version + 1,
      if c.env.Some? then c.env else row.env,
      if retried then None else if c.error.Some? then c.error else row.error,
      if retried then None else if c.result.Some? then c.result else row.result)
  }

  /** The guarded update of `transition`, given the row the caller saw. */
  function Commit(row: Row, view: Row, c: Change): Result<Row, Failure> {
    if !CanTransition(view.status, c.target) then
      Err(IllegalTransition)
    else if row.version != view.version then
      Err(ChangedConcurrently)
    else
      Ok(Written(row, view, c))
  }

  /** Both updates succeed, or both fail for the same reason. */
  predicate SameVerdict(a: Result<Row, Failure>, b: Result<Row, Failure>) {
    match (a, b)
    case (Ok(_), Ok(_)) => true
    case (Err(e), Err(f)) => e == f
    case _ => false
  }

  /** The row's version counts its committed transitions and `history` lists their targets. */
  ghost predicate HistoryOk(row: Row, history: seq<Status>) {
    && IsPath(history)
    && |history| == row.version + 1
    && history[row.version] == row.status
  }

  /** `view` is an honest, possibly old, copy of the row. */
  ghost predicate ViewOk(history: seq<Status>, view: Row) {
    view.version < |history| && history[view.version] == view.status
  }

  /** History after the row moved from `row` to `next`; only versioned updates are recorded. */
  function Recorded(history: seq<Status>, row: Row, next: Row): seq<Status> {
    if next.version == row.version then history else history + [next.status]
  }

  /**
   * Whatever stale copy the caller used, a committed update continues the path from the
   * status the table really holds and raises the version by one.
   */
  lemma CommitContinuesPath(row: Row, history: seq<Status>, view: Row, c: Change)
    requires HistoryOk(row, history) && ViewOk(history, view)
    requires Commit(row, view, c).Ok?
    ensures var next := Commit(row, view, c).value;
      && next.version == row.version + 1
      && view.status == row.status
      && CanTransition(row.status, next.status)
      && HistoryOk(next, Recorded(history, row, next))
      && ViewOk(Recorded(history, row, next), next)
  {
    ExtendPath(history, c.target);
  }

  /**
   * What was passed is in the row, what was not passed is as it was; only a retry forgets
   * how the task failed and any result.
   */
  predicate Stores(row: Row, next: Row, c: Change) {
    && next.status == c.target && next.version == row.version + 1
    && next.env == Passed(c.env, row.env)
    && if row.status == Failed && c.target == Queued then next.error == None && next.result == None
       else next.error == Passed(c.error, row.error) && next.result == Passed(c.result, row.result)
  }

  function Passed<T>(argument: Option<T>, before: Option<T>): Option<T> {
    match argument
    case Some(_) => argument
    case None => before
  }

  /** A committed update stores its arguments in the row the table holds, however old the caller's copy. */
  lemma CommitStores(row: Row, history: seq<Status>, view: Row, c: Change)
    requires HistoryOk(row, history) && ViewOk(history, view)
    requires Commit(row, view, c).Ok?
    ensures Stores(row, Commit(row, view, c).value, c)
  {
  }

  /** The table itself, with a history kept beside every row. */
  class TaskTable {
    var rows: map<TaskId, Row>
    ghost var history: map<TaskId, seq<Status>>

    ghost predicate Valid()
      reads this
    {
      && rows.Keys == history.Keys
      && forall id :: id in rows ==> HistoryOk(rows[id], history[id])
    }

    constructor ()
      ensures Valid() && rows == map[]
    {
      rows := map[];
      history := map[];
    }

    method Create(id: TaskId)
      requires Valid() && id !in rows
      modifies this
      ensures Valid()
      ensures rows == old(rows)[id := NEW_ROW]
      ensures history == old(history)[id := [Created]]
    {
      rows := rows[id := NEW_ROW];
      history := history[id := [Created]];
    }

    method Get(id: TaskId) returns (row: Option<Row>)
      ensures row == if id in rows then Some(rows[id]) else None
    {
      if id in rows {
        row := Some(rows[id]);
      } else {
        row := None;
      }
    }

    /** `cached` is the row the caller's session already holds, if any; otherwise it is read now. */
    method Transition(id: TaskId, cached: Option<Row>, c: Change) returns (r: Result<Row, Failure>)
      requires Valid()
      requires cached.Some? && id in rows ==> ViewOk(history[id], cached.value)
      modifies this
      ensures Valid()
      ensures id !in old(rows) ==> r == Err(NotFound)
      ensures id in old(rows) ==>
        r == Commit(old(rows)[id], if cached.Some? then cached.value else old(rows)[id], c)
      ensures r.Err? ==> rows == old(rows) && history == old(history)
      ensures r.Ok? ==>
        && id in old(rows)
        && CanTransition(old(rows)[id].status, c.target)
        && r.value.status == c.target && r.value.version == old(rows)[id].version + 1
        && rows == old(rows)[id := r.value]
        && history == old(history)[id := old(history)[id] + [c.target]]
      ensures r.Ok? ==> Stores(old(rows)[id], r.value, c)
    {
      if id !in rows {
        return Err(NotFound);
      }
      var view := if cached.Some? then cached.value else rows[id];
      if !CanTransition(view.status, c.target) {
        return Err(IllegalTransition);
      }
      if rows[id].version != view.version {
        return Err(ChangedConcurrently);
      }
      CommitContinuesPath(rows[id], history[id], view, c);
      CommitStores(rows[id], history[id], view, c);
      var next := Written(rows[id], view, c);
      rows := rows[id := next];
      history := history[id := history[id] + [c.target]];
      return Ok(next);
    }

    /** `list_active`: every task that was queued once and is not over. */
    method ListActive() returns (ids: set<TaskId>)
      requires Valid()
      ensures forall id :: id in ids <==> id in rows && !rows[id].status.Created? && !Terminal(rows[id].status)
    {
      ids := set id | id in rows && (Active(rows[id].status) || rows[id].status.WaitingForUser? || rows[id].status.Cancelling?);
    }

    /** `replace_environment`: an unguarded update of one column. */
    method ReplaceEnvironment(id: TaskId, env: EnvId) returns (r: Result<Row, Failure>)
      requires Valid()
      modifies this
      ensures Valid() && history == old(history)
      ensures id !in old(rows) ==> r == Err(NotFound) && rows == old(rows)
      ensures id in old(rows) ==>
        && r == Ok(old(rows)[id].(env := Some(env)))
        && rows == old(rows)[id := r.value]
      ensures id in old(rows) ==> forall view, c :: SameVerdict(Commit(rows[id], view, c), Commit(old(rows)[id], view, c))
    {
      if id !in rows {
        return Err(NotFound);
      }
      rows := rows[id := rows[id].(env := Some(env))];
      return Ok(rows[id]);
    }
  }
}
