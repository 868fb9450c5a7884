/**
 * What the handlers and the finally block of `_execute` come to when nobody interferes
 * (src/minion/orchestrator.py): from the first statement of a handler on, every run of an
 * execution's own steps, none of them an exception, ends with the outcome recorded, and
 * there is such a run.
 */
module OwnSteps {
  import opened Prelude
  import opened TaskStates
  import opened TaskRepository
  import opened Events
  import opened Protocol
  import opened Orchestration
  import opened Undisturbed

  /** Actions that are no exception and no interruption. */
  predicate Unexceptional(a: Action) {
    && !a.Raise? && !a.HandlerRaises? && !a.HandlerSwallows? && !a.CleanupRaises? && !a.Stopped?
    && !a.CancelArrives? && !a.CancelUnstarted? && !a.CancelSwallowed?
  }

  /** Own steps of execution x only. */
  ghost predicate Own(x: ExecId, steps: seq<Step>) {
    forall i :: 0 <= i < |steps| ==> steps[i].ExecDo? && steps[i].x == x && Unexceptional(steps[i].a)
  }

  /** The workspace in hand is put away and the execution has ended. */
  ghost predicate LeftBehind(s: Task, t: Task, x: ExecId, out: Outcome) {
    && x in s.execs && x in t.execs && t.execs[x].pc == Ended(out)
    && t.places == PutAway(s.places, s.execs[x].ws, t.row.status)
    && SameSurroundings(s, t)
  }

  /** Where the finally block stands. */
  ghost predicate Leaving(s: Task, m: Task, x: ExecId, out: Outcome, row: Row, log: seq<Event>) {
    && x in s.execs && x in m.execs && m.row == row && m.log == log && m.execs[x].ws == s.execs[x].ws
    && SameSurroundings(s, m)
    && match m.execs[x].pc
       case Cleanup(o) => o == out && m.places == s.places
       case Release(o, destroy) =>
         o == out && (destroy <==> row.status == Completed || row.status == Cancelled)
         && m.execs[x].ws.Some? && m.places == s.places
       case Ended(o) => o == out && m.places == PutAway(s.places, s.execs[x].ws, row.status)
       case _ => false
  }

  /** A step of execution x, taken apart. */
  lemma StepMeans(m: Task, x: ExecId, a: Action, n: Task)
    requires Unexceptional(a) && Apply(m, ExecDo(x, a)) == Some(n)
    ensures x in m.execs && x in n.execs && ExecStep(m.row, m.log, m.runs, m.execs[x], a).Some?
    ensures var l := ExecStep(m.row, m.log, m.runs, m.execs[x], a).value;
      n.row == l.row && n.log == m.log + l.emit && n.execs[x] == l.exec
    ensures n.places == Relocated(m.places, x, m.execs[x], a) && SameSurroundings(m, n)
  {
    hide ExecStep, Relocated;
  }

  lemma LeavingGoesOn(s: Task, m: Task, x: ExecId, out: Outcome, row: Row, log: seq<Event>, a: Action, n: Task)
    requires Leaving(s, m, x, out, row, log) && Unexceptional(a) && Apply(m, ExecDo(x, a)) == Some(n)
    ensures Leaving(s, n, x, out, row, log)
  {
    hide Apply;
    StepMeans(m, x, a, n);
    assert m.log + [] == m.log;
  }

  // ---- A cancellation ----

  /** Where the cancellation handler stands that began in `s`, on a CANCELLING row. */
  ghost predicate Cancels(s: Task, m: Task, x: ExecId) {
    && x in s.execs && x in m.execs
    && match m.execs[x].pc
       case CancelRead => m.row == s.row && m.log == s.log && AsBefore(s, m, x)
       case CancelWrite => m.row == s.row && m.log == s.log && m.execs[x].view == s.row && AsBefore(s, m, x)
       case CancelLog => m.row == CancelledRow(s.row) && m.log == s.log && AsBefore(s, m, x)
       case _ => Leaving(s, m, x, CancelRaised, CancelledRow(s.row), s.log + [Plain(TaskCancelled)])
  }

  ghost predicate AsBefore(s: Task, m: Task, x: ExecId) {
    && x in s.execs && x in m.execs && m.execs[x].ws == s.execs[x].ws
    && m.places == s.places && SameSurroundings(s, m)
  }

  lemma CancelGoesOn(s: Task, m: Task, x: ExecId, a: Action, n: Task)
    requires s.row.status.Cancelling? && Cancels(s, m, x) && Unexceptional(a) && Apply(m, ExecDo(x, a)) == Some(n)
    ensures Cancels(s, n, x)
  {
    hide Leaving, Apply;
    StepMeans(m, x, a, n);
    assert m.log + [] == m.log;
    if InFinally(m.execs[x].pc) || m.execs[x].pc.Ended? {
      LeavingGoesOn(s, m, x, CancelRaised, CancelledRow(s.row), s.log + [Plain(TaskCancelled)], a, n);
      LeavingIsLate(s, n, x, CancelRaised, CancelledRow(s.row), s.log + [Plain(TaskCancelled)]);
    } else {
      LeavingNow(s, n, x, CancelRaised, CancelledRow(s.row), s.log + [Plain(TaskCancelled)]);
      LeavingIsLate(s, m, x, CancelRaised, CancelledRow(s.row), s.log + [Plain(TaskCancelled)]);
    }
  }

  lemma LeavingIsLate(s: Task, m: Task, x: ExecId, out: Outcome, row: Row, log: seq<Event>)
    ensures Leaving(s, m, x, out, row, log) ==> x in m.execs && (InFinally(m.execs[x].pc) || m.execs[x].pc.Ended?)
  {
  }

  lemma LeavingNow(s: Task, m: Task, x: ExecId, out: Outcome, row: Row, log: seq<Event>)
    ensures AsBefore(s, m, x) && m.execs[x].pc == Cleanup(out) && m.row == row && m.log == log ==>
      Leaving(s, m, x, out, row, log)
  {
  }

  lemma {:induction false} CancelRuns(s: Task, x: ExecId, steps: seq<Step>, t: Task)
    requires s.row.status.Cancelling? && x in s.execs && s.execs[x].pc.CancelRead?
    requires Own(x, steps) && Leads(s, steps, t)
    ensures Cancels(s, t, x)
    decreases |steps|
  {
    hide Apply, Cancels;
    if steps == [] {
      CancelBegins(s, x);
    } else {
      var n := |steps| - 1;
      var m :| Leads(s, steps[..n], m) && Apply(m, steps[n]) == Some(t);
      CancelRuns(s, x, steps[..n], m);
      CancelGoesOn(s, m, x, steps[n].a, t);
    }
  }

  lemma CancelBegins(s: Task, x: ExecId)
    requires x in s.execs && s.execs[x].pc.CancelRead?
    ensures Cancels(s, s, x)
  {
  }

  /**
   * Every uninterrupted run of the cancellation handler on a CANCELLING row ends with the
   * row CANCELLED, TASK_CANCELLED logged, the workspace deleted and the cancellation raised.
   */
  lemma CancellationIsRecorded(s: Task, x: ExecId, steps: seq<Step>, t: Task)
    requires s.row.status.Cancelling? && x in s.execs && s.execs[x].pc.CancelRead?
    requires Own(x, steps) && Leads(s, steps, t) && x in t.execs && t.execs[x].pc.Ended?
    ensures t.row == CancelledRow(s.row) && t.log == s.log + [Plain(TaskCancelled)]
    ensures LeftBehind(s, t, x, CancelRaised)
    ensures s.execs[x].ws.Some? ==> t.places == s.places[s.execs[x].ws.value := Deleted]
  {
    hide Leads, Own;
    CancelRuns(s, x, steps, t);
  }

  // ---- A failure ----

  /** The row has been failed with some error, and the log says so. */
  ghost predicate FailureLogged(s: Task, row: Row, log: seq<Event>) {
    exists error, json :: row == FailedRow(s.row, error) && log == s.log + [Event(TaskFailed, json, "", false, "")]
  }

  /** Where the failure handler stands that began in `s`, on a row that can still be failed. */
  ghost predicate Fails(s: Task, m: Task, x: ExecId) {
    && x in s.execs && x in m.execs
    && match m.execs[x].pc
       case FailRead => m.row == s.row && m.log == s.log && AsBefore(s, m, x)
       case FailWrite => m.row == s.row && m.log == s.log && m.execs[x].view == s.row && AsBefore(s, m, x)
       case FailLog => (exists error :: m.row == FailedRow(s.row, error)) && m.log == s.log && AsBefore(s, m, x)
       case _ => FailureLogged(s, m.row, m.log) && Leaving(s, m, x, Returned, m.row, m.log)
  }

  /** The row can be failed: it is neither over nor still CREATED. */
  predicate Failable(row: Row) {
    !Terminal(row.status) && !row.status.Created?
  }

  lemma FailGoesOn(s: Task, m: Task, x: ExecId, a: Action, n: Task)
    requires Failable(s.row) && Fails(s, m, x) && Unexceptional(a) && Apply(m, ExecDo(x, a)) == Some(n)
    ensures Fails(s, n, x)
  {
    hide Leaving, Apply;
    StepMeans(m, x, a, n);
    assert m.log + [] == m.log;
    if InFinally(m.execs[x].pc) || m.execs[x].pc.Ended? {
      LeavingGoesOn(s, m, x, Returned, m.row, m.log, a, n);
      LeavingIsLate(s, n, x, Returned, m.row, m.log);
      assert n.row == m.row && n.log == m.log;
    } else {
      LeavingNow(s, n, x, Returned, n.row, n.log);
      LeavingIsLate(s, m, x, Returned, m.row, m.log);
      if a.FailTask? {
        assert n.row == FailedRow(s.row, a.error);
      } else if a.LogFailed? {
        assert n.row == m.row && n.log == s.log + [Event(TaskFailed, a.json, "", false, "")];
      }
    }
  }

  lemma {:induction false} FailRuns(s: Task, x: ExecId, steps: seq<Step>, t: Task)
    requires Failable(s.row) && x in s.execs && s.execs[x].pc.FailRead?
    requires Own(x, steps) && Leads(s, steps, t)
    ensures Fails(s, t, x)
    decreases |steps|
  {
    hide Apply, Fails;
    if steps == [] {
      FailBegins(s, x);
    } else {
      var n := |steps| - 1;
      var m :| Leads(s, steps[..n], m) && Apply(m, steps[n]) == Some(t);
      FailRuns(s, x, steps[..n], m);
      FailGoesOn(s, m, x, steps[n].a, t);
    }
  }

  lemma FailBegins(s: Task, x: ExecId)
    requires x in s.execs && s.execs[x].pc.FailRead?
    ensures Fails(s, s, x)
  {
  }

  /**
   * Every uninterrupted run of the failure handler, on a task that is not over, ends with the
   * row FAILED and an error in it, TASK_FAILED logged, the workspace kept and no exception.
   */
  lemma FailureIsRecorded(s: Task, x: ExecId, steps: seq<Step>, t: Task)
    requires Failable(s.row) && x in s.execs && s.execs[x].pc.FailRead?
    requires Own(x, steps) && Leads(s, steps, t) && x in t.execs && t.execs[x].pc.Ended?
    ensures t.row.status.Failed? && t.row.error.Some? && t.row.env == s.row.env && FailureLogged(s, t.row, t.log)
    ensures LeftBehind(s, t, x, Returned)
    ensures s.execs[x].ws.Some? ==> t.places == s.places[s.execs[x].ws.value := Persistent]
  {
    hide Leads, Own;
    FailRuns(s, x, steps, t);
  }

  // ---- A completion ----

  ghost predicate CompletionLogged(s: Task, row: Row, log: seq<Event>) {
    exists result, json :: row == CompletedRow(s.row, result) && log == s.log + [Event(TaskCompleted, json, "", false, "")]
  }

  /** Where an execution stands whose agent had returned in `s`. */
  ghost predicate Completes(s: Task, m: Task, x: ExecId) {
    && x in s.execs && x in m.execs
    && match m.execs[x].pc
       case Finish => m.row == s.row && m.log == s.log && m.execs[x].view == s.row && AsBefore(s, m, x)
       case Report => (exists result :: m.row == CompletedRow(s.row, result)) && m.log == s.log && AsBefore(s, m, x)
       case _ => CompletionLogged(s, m.row, m.log) && Leaving(s, m, x, Returned, m.row, m.log)
  }

  lemma CompletionGoesOn(s: Task, m: Task, x: ExecId, a: Action, n: Task)
    requires s.row.status.Running? && Completes(s, m, x) && Unexceptional(a) && Apply(m, ExecDo(x, a)) == Some(n)
    ensures Completes(s, n, x)
  {
    hide Leaving, Apply;
    StepMeans(m, x, a, n);
    assert m.log + [] == m.log;
    if InFinally(m.execs[x].pc) || m.execs[x].pc.Ended? {
      LeavingGoesOn(s, m, x, Returned, m.row, m.log, a, n);
      LeavingIsLate(s, n, x, Returned, m.row, m.log);
      assert n.row == m.row && n.log == m.log;
    } else {
      LeavingNow(s, n, x, Returned, n.row, n.log);
      LeavingIsLate(s, m, x, Returned, m.row, m.log);
      if a.CompleteTask? {
        assert n.row == CompletedRow(s.row, a.result);
      } else if a.LogCompleted? {
        assert n.row == m.row && n.log == s.log + [Event(TaskCompleted, a.json, "", false, "")];
      }
    }
  }

  lemma {:induction false} CompletionRuns(s: Task, x: ExecId, steps: seq<Step>, t: Task)
    requires s.row.status.Running? && x in s.execs && s.execs[x].pc.Finish? && s.execs[x].view == s.row
    requires Own(x, steps) && Leads(s, steps, t)
    ensures Completes(s, t, x)
    decreases |steps|
  {
    hide Apply, Completes;
    if steps == [] {
      CompletionBegins(s, x);
    } else {
      var n := |steps| - 1;
      var m :| Leads(s, steps[..n], m) && Apply(m, steps[n]) == Some(t);
      CompletionRuns(s, x, steps[..n], m);
      CompletionGoesOn(s, m, x, steps[n].a, t);
    }
  }

  lemma CompletionBegins(s: Task, x: ExecId)
    requires x in s.execs && s.execs[x].pc.Finish? && s.execs[x].view == s.row
    ensures Completes(s, s, x)
  {
  }

  /**
   * Every uninterrupted run after the agent's return on a RUNNING task ends with the row
   * COMPLETED and a result in it, TASK_COMPLETED logged and the workspace deleted.
   */
  lemma CompletionIsRecorded(s: Task, x: ExecId, steps: seq<Step>, t: Task)
    requires s.row.status.Running? && x in s.execs && s.execs[x].pc.Finish? && s.execs[x].view == s.row
    requires Own(x, steps) && Leads(s, steps, t) && x in t.execs && t.execs[x].pc.Ended?
    ensures t.row.status.Completed? && t.row.result.Some? && t.row.env == s.row.env && CompletionLogged(s, t.row, t.log)
    ensures LeftBehind(s, t, x, Returned)
    ensures s.execs[x].ws.Some? ==> t.places == s.places[s.execs[x].ws.value := Deleted]
  {
    hide Leads, Own;
    CompletionRuns(s, x, steps, t);
  }

  // ---- Such runs exist ----

  /** The next step of a handler or of the finally block. */
  function NextOwn(e: Exec): Action {
    match e.pc
    case CancelRead => CancelReads
    case CancelWrite => CancelTask
    case CancelLog => LogCancelled
    case FailRead => FailReads
    case FailWrite => FailTask("")
    case FailLog => LogFailed("{}")
    case Finish => CompleteTask("{}")
    case Report => LogCompleted("{}")
    case Cleanup(_) => FinalRead
    case _ => ReleaseWorkspace
  }

  function OwnLeft(e: Exec): nat {
    match e.pc
    case CancelRead => 5
    case FailRead => 5
    case CancelWrite => 4
    case FailWrite => 4
    case Finish => 6
    case CancelLog => 3
    case FailLog => 3
    case Report => 3
    case Cleanup(_) => 2
    case Release(_, _) => 1
    case _ => 0
  }

  lemma NextOwnGoes(s: Task, x: ExecId)
    requires x in s.execs && OwnLeft(s.execs[x]) > 0
    ensures var a := NextOwn(s.execs[x]);
      && Unexceptional(a) && Apply(s, ExecDo(x, a)).Some?
      && x in Apply(s, ExecDo(x, a)).value.execs
      && var e := Apply(s, ExecDo(x, a)).value.execs[x];
      OwnLeft(e) < OwnLeft(s.execs[x]) && (OwnLeft(e) == 0 ==> e.pc.Ended?)
  {
    hide ExecStep, OwnLeft, NextOwn;
    NextLocal(s.row, s.log, s.runs, s.execs[x]);
  }

  lemma NextLocal(row: Row, log: seq<Event>, runs: seq<ToolRun>, e: Exec)
    requires OwnLeft(e) > 0
    ensures var a := NextOwn(e);
      && Unexceptional(a) && !a.Obtain? && ExecStep(row, log, runs, e, a).Some?
      && var f := ExecStep(row, log, runs, e, a).value.exec;
      OwnLeft(f) < OwnLeft(e) && (OwnLeft(f) == 0 ==> f.pc.Ended?)
  {
    hide Commit;
  }

  /** From a handler or the finally block an execution can always end by its own steps. */
  lemma {:induction false} HandlersFinish(s: Task, x: ExecId) returns (steps: seq<Step>, t: Task)
    requires x in s.execs && OwnLeft(s.execs[x]) > 0
    ensures Own(x, steps) && Leads(s, steps, t) && x in t.execs && t.execs[x].pc.Ended?
    decreases OwnLeft(s.execs[x])
  {
    hide Apply, OwnLeft, NextOwn, Leads;
    NextOwnGoes(s, x);
    var a := ExecDo(x, NextOwn(s.execs[x]));
    var m := Apply(s, a).value;
    if OwnLeft(m.execs[x]) == 0 {
      steps, t := [a], m;
      LeadsNowhere(m);
      LeadsFirst(s, a, m, [], m);
      assert [a] + [] == [a];
    } else {
      steps, t := HandlersFinish(m, x);
      LeadsFirst(s, a, m, steps, t);
      steps := [a] + steps;
    }
  }

  lemma LeadsNowhere(s: Task)
    ensures Leads(s, [], s)
  {
  }

  lemma {:induction false} LeadsFirst(s: Task, a: Step, m: Task, steps: seq<Step>, t: Task)
    requires Apply(s, a) == Some(m) && Leads(m, steps, t)
    ensures Leads(s, [a] + steps, t)
    decreases |steps|
  {
    hide Apply;
    if steps == [] {
      assert Leads(s, [], s);
      LeadsFurther(s, [], s, a, m);
      assert [] + [a] == [a] + steps;
    } else {
      var n := |steps| - 1;
      var k :| Leads(m, steps[..n], k) && Apply(k, steps[n]) == Some(t);
      LeadsFirst(s, a, m, steps[..n], k);
      LeadsFurther(s, [a] + steps[..n], k, steps[n], t);
      assert [a] + steps[..n] + [steps[n]] == [a] + steps;
    }
  }
}
