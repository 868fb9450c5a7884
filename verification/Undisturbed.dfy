/**
 * What the orchestrator's coroutines do when nobody else acts and no await raises
 * (src/minion/orchestrator.py): the states they leave behind, said without their steps.
 */
module Undisturbed {
  import opened Prelude
  import opened TaskStates
  import opened TaskRepository
  import opened Events
  import opened Protocol
  import WorkQueue

  // ---- What undisturbed requests do ----

  lemma CancelledIs(row: Row)
    ensures row.status.Cancelling? ==>
      CanTransition(row.status, Cancelled) && Written(row, row, To(Cancelled)) == CancelledRow(row)
  {
  }

  lemma RequeuedIs(row: Row)
    ensures CanTransition(row.status, Queued) ==> Written(row, row, To(Queued)) == RequeuedRow(row)
  {
  }

  /** One more unread entry at the end of the stream. */
  function OneMore(q: WorkQueue.Stream, id: TaskId): WorkQueue.Stream {
    WorkQueue.Stream(q.next + 1, q.entries[q.next := WorkQueue.Item(id, WorkQueue.Unread)])
  }

  /** A retried task starts afresh: what it failed with and any result are forgotten. */
  function RequeuedRow(row: Row): Row {
    if row.status.Failed? then row.(status := Queued, version := row.version + 1, error := None, result := None)
    else row.(status := Queued, version := row.version + 1)
  }

  function CancellingRow(row: Row): Row {
    row.(status := Cancelling, version := row.version + 1)
  }

  /** A task that was queued once and is not over. */
  predicate Cancellable(status: Status) {
    Active(status) || status == WaitingForUser || status == Cancelling
  }

  /** What an undisturbed worker makes of an entry that is not a duplicate. */
  ghost predicate Processed(s: Task, t: Task, en: EntryId, p: Proc, x: ExecId, result: string, error: string)
    requires en in s.stream.entries
  {
    exists m :: Concluded(Receive(s, en, p, x), m, x, result, error)
      && t.row == m.row && t.log == m.log && t.places == m.places && t.execs == m.execs - {x}
  }

  lemma ConcludedSurroundings(s: Task, t: Task, x: ExecId, result: string, error: string)
    requires Concluded(s, t, x, result, error)
    ensures SameSurroundings(s, t)
  {
  }

  // ---- What an undisturbed execution does ----

  /** Actions that leave every directory where it is. */
  predicate KeepsPlaces(a: Action) {
    !a.Obtain? && !a.ReleaseWorkspace? && !a.CancelArrives? && !a.CleanupRaises? && !a.Stopped?
  }

  /** Row, places and the end of the log are these now; of all else only execution x changed. */
  ghost predicate Did(s: Task, t: Task, x: ExecId, row: Row, emit: seq<Event>, places: map<EnvId, Place>) {
    && x in s.execs && x in t.execs && t.execs == s.execs[x := t.execs[x]]
    && t.row == row && t.log == s.log + emit && t.places == places
    && SameSurroundings(s, t)
  }

  ghost predicate SameSurroundings(s: Task, t: Task) {
    && t.id == s.id && t.stream == s.stream && t.dupAcks == s.dupAcks && t.running == s.running
    && t.calls == s.calls && t.disturbed == s.disturbed
  }

  lemma DidThen(s: Task, t: Task, u: Task, x: ExecId)
    ensures forall row, places, row', more, places' ::
      Did(s, t, x, row, [], places) && Did(t, u, x, row', more, places') ==> Did(s, u, x, row', more, places')
    ensures forall row, emit, places, row', more, places' ::
      Did(s, t, x, row, emit, places) && Did(t, u, x, row', more, places') ==> Did(s, u, x, row', emit + more, places')
  {
  }

  /** The workspace of a retry or resumed task if it is there, else a new one and its event. */
  ghost predicate Provided(s: Task, t: Task, x: ExecId) {
    && x in t.execs && t.execs[x].ws.Some?
    && var env := t.execs[x].ws.value;
    && (if x in s.execs && s.execs[x].view.env.Some? && s.execs[x].view.env.value in s.places
           && s.places[s.execs[x].view.env.value].Persistent?
        then
          && s.execs[x].view.env == Some(env)
          && Did(s, t, x, s.row, [], s.places[env := InSlot(x)])
        else
          && env !in s.places
          && Did(s, t, x, s.row, [Plain(EnvironmentAllocated)], s.places[env := InSlot(x)]))
  }

  /** PROVISIONING becomes RUNNING in the workspace, a resumed task gets it, others stay. */
  function BoundRow(row: Row, ws: Option<EnvId>): Row {
    match row.status
    case Provisioning => row.(status := Running, version := row.version + 1, env := ws)
    case Running => row.(env := ws)
    case _ => row
  }

  function CompletedRow(row: Row, result: string): Row {
    row.(status := Completed, version := row.version + 1, result := Some(result))
  }

  function CancelledRow(row: Row): Row {
    row.(status := Cancelled, version := row.version + 1)
  }

  /** A held workspace is deleted when the task is over for good and kept otherwise. */
  function PutAway(places: map<EnvId, Place>, ws: Option<EnvId>, status: Status): map<EnvId, Place> {
    match ws
    case None => places
    case Some(env) => places[env := if status == Completed || status == Cancelled then Deleted else Persistent]
  }

  function FailedRow(row: Row, error: string): Row {
    row.(status := Failed, version := row.version + 1, error := Some(error))
  }

  /** Tools ran and events were appended; that is all. */
  ghost predicate OnlyWorked(s: Task, t: Task, x: ExecId) {
    && x in s.execs && x in t.execs && t.execs == s.execs[x := t.execs[x]]
    && t.execs[x].ws == s.execs[x].ws && t.execs[x].view == s.execs[x].view
    && t.row == s.row && s.log <= t.log && t.places == s.places
    && SameSurroundings(s, t)
  }

  lemma WorkedNothing(s: Task, x: ExecId)
    requires x in s.execs
    ensures OnlyWorked(s, s, x)
  {
    assert s.execs[x := s.execs[x]] == s.execs;
  }

  lemma WorkedOn(s: Task, t: Task, u: Task, x: ExecId)
    requires OnlyWorked(s, t, x) && OnlyWorked(t, u, x)
    ensures OnlyWorked(s, u, x)
  {
  }

  lemma LeftWork(s: Task, t: Task, x: ExecId)
    requires x in s.execs && x in t.execs && t.execs[x].ws == s.execs[x].ws && t.execs[x].view == s.execs[x].view
    ensures forall emit :: Did(s, t, x, s.row, emit, s.places) ==> OnlyWorked(s, t, x)
  {
  }

  /** The row once it is claimed and bound. */
  function StartedRow(row: Row, ws: Option<EnvId>): Row {
    if row.status.Queued? then row.(status := Running, version := row.version + 2, env := ws)
    else BoundRow(row, ws)
  }

  /** The execution has the workspace its row named, if that is kept, or a new one. */
  ghost predicate Equipped(s: Task, t: Task, x: ExecId) {
    && x in s.execs && x in t.execs && t.execs[x].ws.Some? && t.execs == s.execs[x := t.execs[x]]
    && SameSurroundings(s, t) && s.log <= t.log
    && if s.row.env.Some? && s.row.env.value in s.places && s.places[s.row.env.value].Persistent?
       then t.execs[x].ws == s.row.env else t.execs[x].ws.value !in s.places
  }

  /** It is in a slot, and the row is claimed and bound to it. */
  ghost predicate Ready(s: Task, t: Task, x: ExecId) {
    && Equipped(s, t, x)
    && t.places == s.places[t.execs[x].ws.value := InSlot(x)]
    && t.row == StartedRow(s.row, t.execs[x].ws)
  }

  lemma StillEquipped(s: Task, t: Task, u: Task, x: ExecId)
    requires Equipped(s, t, x) && x in u.execs && u.execs[x].ws == t.execs[x].ws
    ensures forall row, emit, places :: Did(t, u, x, row, emit, places) ==>
      Equipped(s, u, x) && u.row == row && u.log == t.log + emit && u.places == places
  {
  }

  lemma ReadyAfterBind(s: Task, claimed: Task, obtained: Task, t: Task, x: ExecId)
    requires x in s.execs && s.execs[x].view == s.row && x in claimed.execs && claimed.execs[x].view == claimed.row
    requires if s.row.status.Queued?
      then Did(s, claimed, x, s.row.(status := Provisioning, version := s.row.version + 1), [], s.places)
      else claimed == s
    requires Provided(claimed, obtained, x)
    requires Did(obtained, t, x, BoundRow(obtained.row, obtained.execs[x].ws), [], obtained.places)
    requires t.execs[x].ws == obtained.execs[x].ws
    ensures Ready(s, t, x)
  {
  }

  lemma ReadyAfterRead(s: Task, read: Task, t: Task, x: ExecId)
    requires Did(s, read, x, s.row, [], s.places) && Ready(read, t, x)
    ensures Ready(s, t, x)
  {
  }

  lemma StillReady(s: Task, t: Task, u: Task, x: ExecId)
    requires Ready(s, t, x) && OnlyWorked(t, u, x)
    ensures Ready(s, u, x)
  {
  }

  /**
   * An undisturbed attempt: with evidence in the log a task that may complete is completed
   * with its result and reported; otherwise the row is only claimed and bound.
   */
  ghost predicate Attempted(s: Task, t: Task, x: ExecId, completes: bool, result: string) {
    exists m :: Ready(s, m, x) && x in t.execs && x in m.execs && t.execs[x].ws == m.execs[x].ws &&
      if completes then
        && Evidence(m.log) && CanTransition(m.row.status, Completed)
        && Did(m, t, x, CompletedRow(m.row, result), [Event(TaskCompleted, result, "", false, "")], m.places)
      else
        && (Evidence(m.log) ==> !CanTransition(m.row.status, Completed))
        && Did(m, t, x, m.row, [], m.places)
  }

  /**
   * What an undisturbed execution leaves behind. A task that was over is left alone. Any
   * other is claimed and bound; then it is COMPLETED with its result, reported, and its
   * workspace deleted, or FAILED with the error, reported, and its workspace kept. It
   * completes exactly when both tools succeeded and it was QUEUED, PROVISIONING or RUNNING.
   */
  ghost predicate Concluded(s: Task, t: Task, x: ExecId, result: string, error: string) {
    if Terminal(s.row.status) then
      && x in s.execs && x in t.execs && t.execs == s.execs[x := t.execs[x]] && SameSurroundings(s, t)
      && t.row == s.row && t.log == s.log && t.places == s.places
    else
      && Equipped(s, t, x)
      && var env, row := t.execs[x].ws.value, StartedRow(s.row, t.execs[x].ws);
      if Active(s.row.status) && Evidence(t.log) then
        && t.row == CompletedRow(row, result) && t.places == s.places[env := Deleted]
        && s.log < t.log && t.log[|t.log| - 1] == Event(TaskCompleted, result, "", false, "")
      else if s.row.status.Created? then
        t.row == row && t.places == s.places[env := Persistent]
      else
        && t.row == FailedRow(row, error) && t.places == s.places[env := Persistent]
        && s.log < t.log && t.log[|t.log| - 1] == Event(TaskFailed, error, "", false, "")
  }

  lemma OverConcludes(s: Task, m: Task, t: Task, x: ExecId, result: string, error: string)
    requires Terminal(s.row.status) && x in s.execs && s.execs[x].ws.None?
    requires Did(s, m, x, s.row, [], s.places) && m.execs[x].ws.None?
    requires Did(m, t, x, m.row, [], PutAway(m.places, None, m.row.status))
    ensures Concluded(s, t, x, result, error)
  {
  }

  lemma AttemptedStatus(s: Task, m: Task, x: ExecId, completes: bool, result: string)
    requires !Terminal(s.row.status) && Attempted(s, m, x, completes, result)
    ensures if completes then !s.row.status.Created?
      else !Terminal(m.row.status) && (m.row.status.Created? <==> s.row.status.Created?)
  {
    hide Evidence;
  }

  lemma CompletedConcludes(s: Task, m: Task, t: Task, x: ExecId, result: string, error: string)
    requires !Terminal(s.row.status) && Attempted(s, m, x, true, result)
    requires x in t.execs && t.execs[x].ws == m.execs[x].ws
    requires Did(m, t, x, m.row, [], PutAway(m.places, m.execs[x].ws, m.row.status))
    ensures Concluded(s, t, x, result, error)
  {
    hide Evidence, Equipped, Did;
    var r :| Ready(s, r, x) && x in m.execs && x in r.execs && m.execs[x].ws == r.execs[x].ws
      && Evidence(r.log) && CanTransition(r.row.status, Completed)
      && Did(r, m, x, CompletedRow(r.row, result), [Event(TaskCompleted, result, "", false, "")], r.places);
    EvidenceGrows(r.log, [Event(TaskCompleted, result, "", false, "")]);
    StillEquipped(s, r, m, x);
    StillEquipped(s, m, t, x);
    EquippedLog(s, r, x);
    assert t.log == r.log + [Event(TaskCompleted, result, "", false, "")];
    var env := t.execs[x].ws.value;
    assert s.places[env := InSlot(x)][env := Deleted] == s.places[env := Deleted];
  }

  lemma EquippedLog(s: Task, t: Task, x: ExecId)
    requires Equipped(s, t, x)
    ensures s.log <= t.log && x in t.execs && t.execs[x].ws.Some? && t.log + [] == t.log
  {
  }

  lemma FailedConcludes(s: Task, m: Task, h: Task, t: Task, x: ExecId, result: string, error: string)
    requires !Terminal(s.row.status) && Attempted(s, m, x, false, result)
    requires x in h.execs && h.execs[x].ws == m.execs[x].ws && x in t.execs && t.execs[x].ws == h.execs[x].ws
    requires if m.row.status.Created? then Did(m, h, x, m.row, [], m.places)
      else Did(m, h, x, FailedRow(m.row, error), [Event(TaskFailed, error, "", false, "")], m.places)
    requires Did(h, t, x, h.row, [], PutAway(h.places, h.execs[x].ws, h.row.status))
    ensures Concluded(s, t, x, result, error)
  {
    hide Evidence, Equipped, Did;
    var r :| Ready(s, r, x) && x in m.execs && x in r.execs && m.execs[x].ws == r.execs[x].ws
      && (Evidence(r.log) ==> !CanTransition(r.row.status, Completed)) && Did(r, m, x, r.row, [], r.places);
    FailureIsNoEvidence(r.log, Event(TaskFailed, error, "", false, ""));
    EquippedLog(s, r, x);
    StillEquipped(s, r, m, x);
    StillEquipped(s, m, h, x);
    StillEquipped(s, h, t, x);
    assert m.log == r.log && t.log == h.log;
    var env := t.execs[x].ws.value;
    assert s.places[env := InSlot(x)][env := Persistent] == s.places[env := Persistent];
  }

  lemma FailureIsNoEvidence(log: seq<Event>, ev: Event)
    requires ev.kind.TaskFailed?
    ensures Evidence(log + [ev]) ==> Evidence(log)
  {
    forall tool | Succeeded(log + [ev], tool) ensures Succeeded(log, tool) {
      var i :| 0 <= i < |log + [ev]| && ShowsSuccess((log + [ev])[i], tool);
      assert ShowsSuccess(log[i], tool);
    }
  }

  lemma AttemptFails(s: Task, m: Task, x: ExecId, result: string)
    requires Ready(s, m, x)
    ensures !Evidence(m.log) ==> Attempted(s, m, x, false, result)
  {
    hide Evidence;
    assert m.execs[x := m.execs[x]] == m.execs && m.log + [] == m.log;
    assert Did(m, m, x, m.row, [], m.places);
  }

  lemma AttemptEnds(s: Task, m: Task, t: Task, x: ExecId, completes: bool, result: string)
    requires Ready(s, m, x) && Evidence(m.log) && x in t.execs && t.execs[x].ws == m.execs[x].ws
    requires completes <==> CanTransition(m.row.status, Completed)
    requires if completes
      then Did(m, t, x, CompletedRow(m.row, result), [Event(TaskCompleted, result, "", false, "")], m.places)
      else Did(m, t, x, m.row, [], m.places)
    ensures Attempted(s, t, x, completes, result)
  {
    hide Evidence, CanTransition;
  }
}
