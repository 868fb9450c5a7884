/**
 * The failure handler's lost race (src/minion/orchestrator.py, `except Exception`): the
 * rejected transition raises InvalidStateTransition, which `except (KeyError, RuntimeError)`
 * does not catch, so the worker dies and the entry stays pending.
 */
module FailureHandler {
  import opened Prelude
  import opened TaskStates
  import opened TaskRepository
  import opened Events
  import opened Protocol
  import opened ProtocolSafety
  import opened LifecycleRuns

  /** What an execution has seen: never a CREATED row, and about to fail only an unfinished one. */
  predicate SeenOk(e: Exec) {
    !e.view.status.Created? && (e.pc.FailWrite? ==> !Terminal(e.view.status))
  }

  /** Before the first QUEUED nothing is in the stream and nobody executes. */
  ghost predicate Begun(s: Task) {
    && (forall x :: x in s.execs ==> SeenOk(s.execs[x]))
    && (s.row.status.Created? ==>
          && s.execs.Keys == {} && s.stream.entries.Keys == {}
          && forall c :: c in s.calls ==> s.calls[c].phase.Submitting? || s.calls[c].phase.CancelRequested?)
  }

  lemma ExecStepSees(row: Row, log: seq<Event>, runs: seq<ToolRun>, e: Exec, a: Action)
    requires SeenOk(e) && !row.status.Created? && ExecStep(row, log, runs, e, a).Some?
    ensures var l := ExecStep(row, log, runs, e, a).value;
      SeenOk(l.exec) && !l.row.status.Created?
  {
    hide Evidence;
  }

  lemma CallStepSees(row: Row, phase: Phase)
    ensures var l := CallStep(row, phase);
      && (l.row.status.Created? ==> l.row == row)
      && (row.status.Created? && l.row == row && l.phase.Some? ==> phase.Signalling?)
  {
  }

  lemma StepKeepsBegun(s: Task, a: Step)
    requires Begun(s) && Apply(s, a).Some?
    ensures Begun(Apply(s, a).value)
  {
    hide AfterExec, AfterCall, CrashProcess, Receive;
    match a {
      case ExecDo(x, act) => ExecDoKeepsBegun(s, x, act);
      case CallDo(c) => CallDoKeepsBegun(s, c);
      case Deliver(en, p, x) => DeliverKeepsBegun(s, en, p, x);
      case Crash(p) => CrashKeepsBegun(s, p);
      case _ =>
    }
  }

  lemma ExecDoKeepsBegun(s: Task, x: ExecId, a: Action)
    requires Begun(s) && x in s.execs && AfterExec(s, x, a).Some?
    ensures Begun(AfterExec(s, x, a).value)
  {
    hide ExecStep, Relocated;
    ExecStepSees(s.row, s.log, s.runs, s.execs[x], a);
  }

  lemma CallDoKeepsBegun(s: Task, c: CallId)
    requires Begun(s) && c in s.calls
    ensures Begun(AfterCall(s, c))
  {
    hide CallStep, Relocated;
    CallStepSees(s.row, s.calls[c].phase);
  }

  lemma DeliverKeepsBegun(s: Task, en: EntryId, p: Proc, x: ExecId)
    requires Begun(s) && en in s.stream.entries
    ensures Begun(Receive(s, en, p, x))
  {
    assert s.stream.entries.Keys != {};
  }

  lemma CrashKeepsBegun(s: Task, p: Proc)
    requires Begun(s)
    ensures Begun(CrashProcess(s, p))
  {
    assert CrashProcess(s, p).execs.Keys <= s.execs.Keys;
  }

  ghost predicate AllBegun(s: System) {
    forall id :: id in s ==> Begun(s[id])
  }

  lemma {:induction false} RunBegun(trace: seq<System>, i: nat)
    requires IsRun(trace) && i < |trace|
    ensures AllBegun(trace[i])
  {
    hide Next, Begun;
    if i > 0 {
      RunBegun(trace, i - 1);
      assert Moves(trace[i - 1], trace[i]);
      var a :| Next(trace[i - 1], a, trace[i]);
      NextBegun(trace[i - 1], a, trace[i]);
    }
  }

  lemma NextBegun(s: System, a: SystemStep, s': System)
    requires Next(s, a, s') && AllBegun(s)
    ensures AllBegun(s')
  {
    hide Apply, Begun, NewTask;
    forall id | id in s' ensures Begun(s'[id]) {
      match a {
        case Create(t, p, c) => NewBegun(t, p, c);
        case One(t, b) => StepKeepsBegun(s[t], b);
        case CrashAll(p) => StepKeepsBegun(s[id], Crash(p));
        case ScanAll(p, c) => StepKeepsBegun(s[id], Reconcile(c, p));
      }
    }
  }

  lemma NewBegun(id: TaskId, p: Proc, c: CallId)
    ensures Begun(NewTask(id, p, c))
  {
  }

  /**
   * In every run, an execution about to record its failure is killed by that very step if and
   * only if somebody committed a transition since the handler read the row.
   */
  lemma LostRaceKillsExactly(trace: seq<System>, i: nat, id: TaskId, x: ExecId, error: string)
    requires IsRun(trace) && i < |trace| && id in trace[i]
    requires x in trace[i][id].execs && trace[i][id].execs[x].pc.FailWrite?
    ensures var s := trace[i][id];
      && AfterExec(s, x, FailTask(error)).Some?
      && (AfterExec(s, x, FailTask(error)).value.execs[x].pc == Cleanup(Fatal)
          <==> s.row.version > s.execs[x].view.version)
      && (AfterExec(s, x, FailTask(error)).value.execs[x].pc == FailLog
          <==> s.row.version == s.execs[x].view.version)
  {
    hide Next, IsRun, LogOk, CallsOk, RunningOk;
    RunBegun(trace, i);
    RunSafe(trace, i);
    var s := trace[i][id];
    assert Begun(s) && Safe(s);
    assert ExecOk(s.row, s.history, s.log, s.execs[x]);
    Unfinished(s.execs[x].view.status);
  }

  lemma Unfinished(status: Status)
    ensures !Terminal(status) && !status.Created? ==> CanTransition(status, Failed)
  {
  }

  /** The steps of an execution on its way out with an error: nothing touches row or stream. */
  lemma FatalWayOut(s: Task, x: ExecId, a: Action)
    requires x in s.execs && AfterExec(s, x, a).Some?
    requires var e := s.execs[x]; (e.pc.Cleanup? || e.pc.Release?) && e.pc.out.Fatal? && !e.signalled
    ensures var t := AfterExec(s, x, a).value;
      && t.row == s.row && t.stream == s.stream
      && (t.execs[x].pc.Cleanup? || t.execs[x].pc.Release? || t.execs[x].pc.Ended?) && t.execs[x].pc.out.Fatal?
  {
  }

  /** A killed worker acknowledges nothing: it can only die, and the entry stays in the stream. */
  lemma DeadWorkerLeavesEntry(s: Task, x: ExecId)
    requires x in s.execs && s.execs[x].pc == Ended(Fatal)
    ensures Apply(s, AckItem(x)).None? && Apply(s, AckFails(x)).None? && Apply(s, Pop(x)).None?
    ensures Apply(s, WorkerDies(x)).Some?
    ensures var t := Apply(s, WorkerDies(x)).value;
      t.stream == s.stream && t.row == s.row && x !in t.execs && t.disturbed
  {
    hide AfterExec, AfterCall;
  }
}
