/**
 * What a retry finds (src/minion/orchestrator.py, `_execute` and `retry`): once a task has
 * reached RUNNING its row names an environment for good. After the last execution of a FAILED
 * task is over, that environment is where `attach` looks if and only if no execution that
 * held it left its finally block early or crashed.
 */
module RetryWorkspace {
  import opened Prelude
  import opened TaskStates
  import opened TaskRepository
  import opened Events
  import opened Protocol
  import opened ProtocolSafety
  import opened LifecycleRuns

  /** The execution has a workspace in its hands. */
  predicate Holding(e: Exec) {
    e.ws.Some? && !e.pc.Ended? && !e.pc.Acked?
  }

  /** A workspace is obtained once, and before it is bound. */
  predicate WorkspaceOk(e: Exec) {
    && (e.pc.Announce? || e.pc.Bind? ==> e.ws.Some?)
    && (e.pc.Start? || e.pc.Claim? || e.pc.Prepare? ==> e.ws.None?)
  }

  ghost predicate Named(s: Task) {
    && (Running in s.history ==> s.row.env.Some?)
    && (s.row.env.Some? ==> s.row.env.value in s.places)
    && forall x :: x in s.execs ==> WorkspaceOk(s.execs[x])
  }

  /** Executions and slots agree. */
  ghost predicate Housed(s: Task) {
    && (forall x :: x in s.execs && Holding(s.execs[x]) ==>
          s.execs[x].ws.value in s.places && s.places[s.execs[x].ws.value] == InSlot(x))
    && forall env :: env in s.places && s.places[env].InSlot? ==>
         var x := s.places[env].x;
         x in s.execs && Holding(s.execs[x]) && s.execs[x].ws == Some(env)
  }

  ghost predicate Located(s: Task) {
    Named(s) && Housed(s)
  }

  // ---- Steps ----

  /** What one step of an execution does to the row's environment and to its workspace. */
  lemma ExecStepNames(row: Row, log: seq<Event>, runs: seq<ToolRun>, e: Exec, a: Action)
    requires WorkspaceOk(e) && ExecStep(row, log, runs, e, a).Some?
    ensures var l := ExecStep(row, log, runs, e, a).value;
      && WorkspaceOk(l.exec)
      && (l.row.env == row.env || (l.row.env == e.ws && e.ws.Some? && Holding(e)))
      && (l.row.version != row.version && l.row.status.Running? ==> l.row.env.Some?)
  {
    hide Evidence;
  }

  lemma ExecStepHolds(row: Row, log: seq<Event>, runs: seq<ToolRun>, e: Exec, a: Action)
    requires WorkspaceOk(e) && ExecStep(row, log, runs, e, a).Some?
    ensures var e' := ExecStep(row, log, runs, e, a).value.exec;
      if a.Obtain? then !Holding(e) && e'.ws == Some(a.env) && Holding(e')
      else
        && e'.ws == e.ws
        && (Holding(e') <==> Holding(e) && !LeavesEarly(e, a) && !a.ReleaseWorkspace?)
        && (LeavesEarly(e, a) || a.ReleaseWorkspace? ==> !Holding(e'))
        && (a.ReleaseWorkspace? ==> e.pc.Release?)
        && (LeavesEarly(e, a) ==> Holding(e))
  {
    hide Evidence;
  }

  lemma CallStepNames(row: Row, phase: Phase)
    ensures var l := CallStep(row, phase);
      && l.row.env == row.env
      && (l.row.version != row.version ==> !l.row.status.Running?)
  {
  }

  lemma AdvanceKeepsNamed(s: Task, row: Row, emit: seq<Event>, runs: seq<ToolRun>)
    requires Named(s)
    requires s.row.env.Some? ==> row.env.Some?
    requires row.env.Some? ==> row.env.value in s.places
    requires row.version != s.row.version && row.status.Running? ==> row.env.Some?
    ensures Named(Advance(s, row, emit, runs))
  {
  }

  lemma ExecDoKeepsLocated(s: Task, x: ExecId, a: Action)
    requires Located(s) && x in s.execs && AfterExec(s, x, a).Some?
    ensures Located(AfterExec(s, x, a).value)
  {
    hide ExecStep, Advance, LeavesEarly;
    var e := s.execs[x];
    var l := ExecStep(s.row, s.log, s.runs, e, a).value;
    ExecStepNames(s.row, s.log, s.runs, e, a);
    ExecStepHolds(s.row, s.log, s.runs, e, a);
    AdvanceKeepsNamed(s, l.row, l.emit, l.runs);
    var t := SetExec(Advance(s, l.row, l.emit, l.runs), x, l.exec);
    AdvanceFrame(s, l.row, l.emit, l.runs);
    NamedMoves(t, s.places, x, e, a);
    HousedMoves(s, x, a, l.exec, AfterExec(s, x, a).value);
  }

  lemma AdvanceFrame(s: Task, row: Row, emit: seq<Event>, runs: seq<ToolRun>)
    ensures var t := Advance(s, row, emit, runs);
      && t.execs == s.execs && t.running == s.running && t.places == s.places && t.row == row
      && t.stream == s.stream && t.calls == s.calls && t.dupAcks == s.dupAcks && t.disturbed == s.disturbed
  {
  }

  lemma NamedMoves(t: Task, places: map<EnvId, Place>, x: ExecId, e: Exec, a: Action)
    requires Named(t) && t.places == places
    ensures Named(t.(places := Relocated(places, x, e, a)))
  {
  }

  lemma HousedMoves(s: Task, x: ExecId, a: Action, e': Exec, t: Task)
    requires Housed(s) && x in s.execs
    requires t.execs == s.execs[x := e'] && t.places == Relocated(s.places, x, s.execs[x], a)
    requires var e := s.execs[x];
      if a.Obtain? then
        && !Holding(e) && e'.ws == Some(a.env) && Holding(e')
        && (a.env in s.places ==> s.places[a.env].Persistent?)
      else
        && e'.ws == e.ws
        && (Holding(e') <==> Holding(e) && !LeavesEarly(e, a) && !a.ReleaseWorkspace?)
        && (LeavesEarly(e, a) ==> Holding(e))
        && (a.ReleaseWorkspace? ==> e.pc.Release?)
    ensures Housed(t)
  {
    hide LeavesEarly;
  }

  lemma CrashKeepsLocated(s: Task, p: Proc)
    requires Located(s)
    ensures Located(CrashProcess(s, p))
  {
  }

  /** Row and places are the same, and so are the workspaces in hand. */
  ghost predicate SameHolders(s: Task, t: Task) {
    && t.row == s.row && t.history == s.history && t.places == s.places
    && (forall x :: x in s.execs && Holding(s.execs[x]) ==> x in t.execs)
    && forall x :: x in t.execs ==>
         if x in s.execs then
           && t.execs[x].ws == s.execs[x].ws && (Holding(t.execs[x]) <==> Holding(s.execs[x]))
           && (WorkspaceOk(s.execs[x]) ==> WorkspaceOk(t.execs[x]))
         else t.execs[x].ws.None? && t.execs[x].pc.Start?
  }

  lemma SameHoldersLocated(s: Task, t: Task)
    requires Located(s) && SameHolders(s, t)
    ensures Located(t)
  {
  }

  lemma CallDoKeepsLocated(s: Task, c: CallId)
    requires Located(s) && Safe(s) && c in s.calls
    ensures Located(AfterCall(s, c))
  {
    hide CallStep, Advance, Core, Located;
    var l := CallStep(s.row, s.calls[c].phase);
    if s.calls[c].phase.PutDue? || (s.calls[c].phase.Signalling? && s.calls[c].proc in s.running) {
      SameHoldersLocated(s, AfterCall(s, c));
    } else {
      AdvanceLocated(s, c);
      SameHoldersLocated(Advance(s, l.row, l.emit, []), AfterCall(s, c));
    }
  }

  lemma AdvanceLocated(s: Task, c: CallId)
    requires Located(s) && c in s.calls
    ensures var l := CallStep(s.row, s.calls[c].phase);
      var t := Advance(s, l.row, l.emit, []);
      Located(t) && t.execs == s.execs
  {
    hide CallStep, Advance;
    var l := CallStep(s.row, s.calls[c].phase);
    CallStepNames(s.row, s.calls[c].phase);
    AdvanceKeepsNamed(s, l.row, l.emit, []);
    AdvanceFrame(s, l.row, l.emit, []);
  }

  lemma StepKeepsLocated(s: Task, a: Step)
    requires Located(s) && Safe(s) && Apply(s, a).Some?
    ensures Located(Apply(s, a).value)
  {
    hide AfterExec, AfterCall, CrashProcess, Safe, Located, SameHolders;
    match a {
      case ExecDo(x, act) => ExecDoKeepsLocated(s, x, act);
      case CallDo(c) => CallDoKeepsLocated(s, c);
      case Crash(p) => CrashKeepsLocated(s, p);
      case _ =>
        OtherSameHolders(s, a);
        SameHoldersLocated(s, Apply(s, a).value);
    }
  }

  lemma OtherSameHolders(s: Task, a: Step)
    requires !a.ExecDo? && !a.CallDo? && !a.Crash? && Apply(s, a).Some?
    ensures SameHolders(s, Apply(s, a).value)
  {
    hide SameHolders, Apply;
    if a.Deliver? {
      DeliverSameHolders(s, a);
    } else if a.AckItem? || a.AckFails? || a.Pop? || a.WorkerDies? {
      WorkerSameHolders(s, a);
    } else {
      QueueSameHolders(s, a);
    }
  }

  lemma DeliverSameHolders(s: Task, a: Step)
    requires a.Deliver? && Apply(s, a).Some?
    ensures SameHolders(s, Apply(s, a).value)
  {
    hide AfterExec, AfterCall, CrashProcess;
  }

  lemma WorkerSameHolders(s: Task, a: Step)
    requires (a.AckItem? || a.AckFails? || a.Pop? || a.WorkerDies?) && Apply(s, a).Some?
    ensures SameHolders(s, Apply(s, a).value)
  {
    hide AfterExec, AfterCall, CrashProcess, Receive;
  }

  lemma QueueSameHolders(s: Task, a: Step)
    requires !a.ExecDo? && !a.CallDo? && !a.Crash? && !a.Deliver?
    requires !a.AckItem? && !a.AckFails? && !a.Pop? && !a.WorkerDies? && Apply(s, a).Some?
    ensures SameHolders(s, Apply(s, a).value)
  {
    hide AfterExec, AfterCall, CrashProcess, Receive, DropExec, SetExec;
  }

  // ---- Leaving early ----

  /** With this step the execution that holds the environment is gone without a release. */
  predicate Cuts(s: Task, a: Step, env: EnvId) {
    && env in s.places && s.places[env].InSlot? && s.places[env].x in s.execs
    && var x := s.places[env].x;
    match a
    case ExecDo(y, act) => y == x && LeavesEarly(s.execs[x], act)
    case Crash(p) => s.execs[x].proc == p
    case _ => false
  }

  /** An environment is stranded exactly by such a step, and for good. */
  lemma StrandedExactly(s: Task, a: Step, env: EnvId)
    requires Located(s) && Apply(s, a).Some?
    ensures var t := Apply(s, a).value;
      && (env in s.places ==>
            env in t.places && (t.places[env].Stranded? <==> s.places[env].Stranded? || Cuts(s, a, env)))
      && (env in t.places && env !in s.places ==> !t.places[env].Stranded?)
  {
    hide AfterExec, AfterCall, LeavesEarly;
    match a {
      case ExecDo(x, act) => ExecStrands(s, x, act, env);
      case CallDo(c) => CallLeavesPlaces(s, c);
      case _ =>
    }
  }

  lemma ExecStrands(s: Task, x: ExecId, a: Action, env: EnvId)
    requires Located(s) && x in s.execs && AfterExec(s, x, a).Some?
    ensures var t := AfterExec(s, x, a).value;
      && (env in s.places ==>
            env in t.places && (t.places[env].Stranded? <==> s.places[env].Stranded? || Cuts(s, ExecDo(x, a), env)))
      && (env in t.places && env !in s.places ==> !t.places[env].Stranded?)
  {
    hide ExecStep, LeavesEarly, Named;
    var e := s.execs[x];
    assert WorkspaceOk(e) by { NamedMeans(s, x); }
    ExecStepHolds(s.row, s.log, s.runs, e, a);
  }

  lemma NamedMeans(s: Task, x: ExecId)
    requires Named(s) && x in s.execs
    ensures WorkspaceOk(s.execs[x])
  {
  }

  lemma CallLeavesPlaces(s: Task, c: CallId)
    requires c in s.calls
    ensures AfterCall(s, c).places == s.places
  {
    hide CallStep;
  }

  // ---- Runs ----

  /** A run with its steps. */
  ghost predicate IsLabelledRun(trace: seq<System>, steps: seq<SystemStep>) {
    && |trace| == |steps| + 1
    && trace[0] == map[]
    && forall i, j :: 0 <= i < j < |trace| && j == i + 1 ==> Next(trace[i], steps[i], trace[j])
  }

  lemma LabelledIsRun(trace: seq<System>, steps: seq<SystemStep>)
    requires IsLabelledRun(trace, steps)
    ensures IsRun(trace)
  {
    hide Next;
    forall i, j | 0 <= i < j < |trace| && j == i + 1 ensures Moves(trace[i], trace[j]) {
      assert Next(trace[i], steps[i], trace[j]);
    }
  }

  /** Step `a` of the system ends the execution that holds the environment of task `id`. */
  ghost predicate CutsTask(s: System, a: SystemStep, id: TaskId, env: EnvId) {
    id in s &&
    match a
    case One(t, b) => t == id && Cuts(s[id], b, env)
    case CrashAll(p) => Cuts(s[id], Crash(p), env)
    case _ => false
  }

  ghost predicate EverCut(trace: seq<System>, steps: seq<SystemStep>, i: nat, id: TaskId, env: EnvId)
    requires i <= |steps| && |trace| == |steps| + 1
  {
    exists k :: 0 <= k < i && CutsTask(trace[k], steps[k], id, env)
  }

  lemma {:induction false} RunLocated(trace: seq<System>, steps: seq<SystemStep>, i: nat)
    requires IsLabelledRun(trace, steps) && i < |trace|
    ensures AllSafe(trace[i]) && forall id :: id in trace[i] ==> Located(trace[i][id])
  {
    hide Next, Located, IsRun, Safe;
    LabelledIsRun(trace, steps);
    RunSafe(trace, i);
    if i > 0 {
      RunLocated(trace, steps, i - 1);
      forall id | id in trace[i] ensures Located(trace[i][id]) {
        NextLocated(trace[i - 1], steps[i - 1], trace[i], id);
      }
    }
  }

  lemma NextLocated(s: System, a: SystemStep, s': System, id: TaskId)
    requires Next(s, a, s') && id in s' && AllSafe(s)
    requires forall t :: t in s ==> Located(s[t])
    ensures Located(s'[id])
  {
    hide Apply, Located, NewTask, Safe;
    match a {
      case Create(t, p, c) => NewLocated(t, p, c);
      case One(t, b) => StepKeepsLocated(s[t], b);
      case CrashAll(p) => StepKeepsLocated(s[id], Crash(p));
      case ScanAll(p, c) => StepKeepsLocated(s[id], Reconcile(c, p));
    }
  }

  lemma NewLocated(id: TaskId, p: Proc, c: CallId)
    ensures Located(NewTask(id, p, c))
  {
  }

  /** An environment is stranded exactly when some earlier step ended the execution that held it. */
  lemma {:induction false} StrandedMeansCut(trace: seq<System>, steps: seq<SystemStep>, i: nat, id: TaskId, env: EnvId)
    requires IsLabelledRun(trace, steps) && i < |trace|
    ensures if id in trace[i] && env in trace[i][id].places
      then trace[i][id].places[env].Stranded? <==> EverCut(trace, steps, i, id, env)
      else !EverCut(trace, steps, i, id, env)
  {
    hide Next, Located, Cuts, Safe;
    if i > 0 {
      StrandedMeansCut(trace, steps, i - 1, id, env);
      RunLocated(trace, steps, i - 1);
      NextStrands(trace[i - 1], steps[i - 1], trace[i], id, env);
      assert EverCut(trace, steps, i, id, env) <==>
        EverCut(trace, steps, i - 1, id, env) || CutsTask(trace[i - 1], steps[i - 1], id, env);
    }
  }

  lemma NextStrands(s: System, a: SystemStep, s': System, id: TaskId, env: EnvId)
    requires Next(s, a, s') && forall t :: t in s ==> Located(s[t])
    ensures id in s && env in s[id].places ==>
      && id in s' && env in s'[id].places
      && (s'[id].places[env].Stranded? <==> s[id].places[env].Stranded? || CutsTask(s, a, id, env))
    ensures !(id in s && env in s[id].places) ==>
      && !CutsTask(s, a, id, env)
      && (id in s' && env in s'[id].places ==> !s'[id].places[env].Stranded?)
  {
    hide Apply, Located;
    if id in s {
      match a {
        case One(t, b) => if t == id { StrandedExactly(s[id], b, env); }
        case CrashAll(p) => StrandedExactly(s[id], Crash(p), env);
        case ScanAll(p, c) => StrandedExactly(s[id], Reconcile(c, p), env);
        case Create(t, p, c) =>
      }
    } else if id in s' {
      NewPlaces(s, a, s', id);
    }
  }

  lemma NewPlaces(s: System, a: SystemStep, s': System, id: TaskId)
    requires Next(s, a, s') && id !in s && id in s'
    ensures s'[id].places == map[]
  {
    hide Apply;
  }

  /**
   * In every run: a FAILED task that was RUNNING at some time and has no execution left names
   * an environment that was never deleted. It is in the persistent root, where `attach` looks,
   * if and only if no step so far ended an execution that held it without a release.
   */
  lemma RetryFindsWorkspaceExactly(trace: seq<System>, steps: seq<SystemStep>, i: nat, id: TaskId)
    requires IsLabelledRun(trace, steps) && i < |trace| && id in trace[i]
    requires trace[i][id].row.status.Failed? && Running in trace[i][id].history
    requires trace[i][id].execs.Keys == {}
    ensures var s := trace[i][id];
      && s.row.env.Some? && s.row.env.value in s.places
      && !s.places[s.row.env.value].Deleted?
      && (s.places[s.row.env.value].Persistent? <==> !EverCut(trace, steps, i, id, s.row.env.value))
  {
    hide Next, IsRun, ExecsOk, CallsOk, RunningOk, HistoryOk, LogOk, EverCut;
    RunLocated(trace, steps, i);
    var s := trace[i][id];
    assert Located(s) && Safe(s);
    StrandedMeansCut(trace, steps, i, id, s.row.env.value);
  }

  /** While such a task can still be retried, none of its workspaces is ever deleted. */
  lemma NothingDeletedBeforeTheEnd(trace: seq<System>, i: nat, id: TaskId, env: EnvId)
    requires IsRun(trace) && i < |trace| && id in trace[i]
    requires !Absorbing(trace[i][id].row.status) && env in trace[i][id].places
    ensures !trace[i][id].places[env].Deleted?
  {
    hide Next, IsRun, ExecsOk, CallsOk, RunningOk, HistoryOk, LogOk;
    RunSafe(trace, i);
    assert Safe(trace[i][id]);
  }
}
