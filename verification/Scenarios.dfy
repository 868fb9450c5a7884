/**
 * Reachable situations: a task that completes, and the states in which a retry, a swallowed
 * error, a dropped put, a lost race or an interrupted finally block do their damage. Every
 * run here starts with a new task and takes guarded steps only.
 */
module Scenarios {
  import opened Prelude
  import opened TaskStates
  import opened TaskRepository
  import opened Events
  import opened Protocol
  import opened ProtocolSafety
  import opened NoLostWork
  import opened LossConditions
  import WorkQueue

  ghost predicate Reachable(s: Task) {
    exists steps :: Reaches(NewTask(0, 0, 0), steps, s)
  }

  lemma ReachableIsKept(s: Task)
    requires Reachable(s)
    ensures Kept(s)
  {
    hide Kept, Reaches;
    var steps :| Reaches(NewTask(0, 0, 0), steps, s);
    NewTaskKept(0, 0, 0);
    ReachesKept(NewTask(0, 0, 0), steps, s);
  }

  lemma Go(s: Task, a: Step, t: Task)
    requires Reachable(s) && Apply(s, a) == Some(t) && Guarded(s, a)
    ensures Reachable(t)
  {
    hide Reaches, Apply, Guarded;
    var steps :| Reaches(NewTask(0, 0, 0), steps, s);
    ReachesThen(NewTask(0, 0, 0), steps, s, a, t);
  }

  /** One execution, of the only entry, and nothing else but requests. */
  ghost predicate Solo(s: Task, e: Exec) {
    && Reachable(s)
    && s.execs == map[0 := e] && s.running == map[0 := 0] && e.proc == 0 && e.entry == 0
    && s.stream == WorkQueue.Stream(1, map[0 := WorkQueue.Item(0, WorkQueue.Pending)])
    && s.dupAcks == {} && !s.disturbed
  }

  /** The execution takes a step. */
  lemma ExecGoes(s: Task, e: Exec, a: Action, l: Local) returns (t: Task)
    requires Solo(s, e) && ExecStep(s.row, s.log, s.runs, e, a) == Some(l)
    requires a.Obtain? ==> CanObtain(s.places, e, a.env)
    requires a.HandlerSwallows? ==> !Active(s.row.status)
    ensures Solo(t, l.exec) && Apply(s, ExecDo(0, a)) == Some(t)
    ensures t.row == l.row && t.history == Recorded(s.history, s.row, l.row)
    ensures t.log == s.log + l.emit && t.runs == s.runs + l.runs
    ensures t.calls == s.calls && t.places == Relocated(s.places, 0, e, a)
  {
    hide ExecStep, Relocated, Reachable;
    t := SetExec(Advance(s, l.row, l.emit, l.runs), 0, l.exec).(places := Relocated(s.places, 0, e, a));
    assert s.execs[0 := l.exec] == map[0 := l.exec];
    ExecKeepsProcess(s.row, s.log, s.runs, e, a);
    Go(s, ExecDo(0, a), t);
  }

  /** A step of an execution that changes nothing but the execution. */
  lemma ExecTurns(s: Task, e: Exec, a: Action, e': Exec) returns (t: Task)
    requires Solo(s, e) && ExecStep(s.row, s.log, s.runs, e, a) == Some(Local(e', s.row, [], []))
    requires !a.Obtain? && !a.ReleaseWorkspace? && !a.HandlerSwallows? && !LeavesEarly(e, a)
    ensures Solo(t, e') && t == s.(execs := map[0 := e'])
  {
    hide ExecStep, LeavesEarly;
    t := ExecGoes(s, e, a, Local(e', s.row, [], []));
    assert s.log + [] == s.log && s.runs + [] == s.runs;
  }

  /** The database part of a request's step. */
  lemma CallGoes(s: Task, e: Exec, c: CallId, l: CallLocal) returns (t: Task)
    requires Solo(s, e) && c in s.calls && CallStep(s.row, s.calls[c].phase) == l
    requires !s.calls[c].phase.PutDue? && !s.calls[c].phase.Signalling? && !s.calls[c].phase.Retrying?
    ensures Solo(t, e)
    ensures t == SetCall(Advance(s, l.row, l.emit, []), c, s.calls[c].proc, l.phase)
  {
    hide CallStep, Reachable, ExecStep;
    t := SetCall(Advance(s, l.row, l.emit, []), c, s.calls[c].proc, l.phase);
    Go(s, CallDo(c), t);
  }

  const QUEUED_ROW := Row(Queued, 1, None, None, None)
  const PROVISIONING_ROW := Row(Provisioning, 2, None, None, None)
  const RUNNING_ROW := Row(Running, 3, Some(7), None, None)

  function Worker(pc: Pc, view: Row, ws: Option<EnvId>): Exec {
    Exec(0, 0, pc, view, ws, false, [])
  }

  // ---- From submit to work ----

  /** `submit` committed QUEUED and is about to put the entry. */
  lemma Submitted() returns (s: Task)
    ensures Reachable(s) && s.row == QUEUED_ROW && s.history == [Created, Queued] && s.calls == map[0 := Call(0, PutDue)]
    ensures s == NewTask(0, 0, 0).(row := s.row, history := s.history, calls := s.calls)
  {
    hide ExecStep;
    var n := NewTask(0, 0, 0);
    assert Reaches(n, [], n);
    s := n.(row := QUEUED_ROW, history := [Created, Queued], calls := map[0 := Call(0, PutDue)]);
    assert AfterCall(n, 0) == s by {
      assert n.log + [] == n.log && n.runs + [] == n.runs;
      assert n.calls[0 := Call(0, PutDue)] == s.calls;
      assert [Created] + [Queued] == [Created, Queued];
    }
    Go(n, CallDo(0), s);
  }

  /** The entry was put and delivered. */
  lemma Delivered() returns (s: Task)
    ensures Solo(s, Worker(Start, QUEUED_ROW, None)) && s.row == QUEUED_ROW && s.history == [Created, Queued]
    ensures s.calls == map[] && s.places == map[] && s.log == [Plain(TaskCreated)] && s.runs == []
  {
    hide ExecStep, Reachable, CallStep;
    var s0 := Submitted();
    var s1 := s0.(stream := WorkQueue.Put(s0.stream, 0), calls := map[]);
    assert AfterCall(s0, 0) == s1;
    Go(s0, CallDo(0), s1);
    s := Receive(s1, 0, 0, 0);
    assert s.stream.entries == map[0 := WorkQueue.Item(0, WorkQueue.Pending)];
    Go(s1, Deliver(0, 0, 0), s);
  }

  /** The entry is claimed. */
  lemma Claimed() returns (s: Task)
    ensures Solo(s, Worker(Prepare, PROVISIONING_ROW, None)) && s.row == PROVISIONING_ROW
    ensures s.history == [Created, Queued, Provisioning] && s.calls == map[] && s.places == map[] && s.runs == []
  {
    hide Solo;
    s := Delivered();
    s := ExecTurns(s, Worker(Start, QUEUED_ROW, None), ReadTask, Worker(Claim, QUEUED_ROW, None));
    s := ExecGoes(s, Worker(Claim, QUEUED_ROW, None), ClaimTask, Local(Worker(Prepare, PROVISIONING_ROW, None), PROVISIONING_ROW, [], []));
  }

  /** Environment 7 has been allocated and announced. */
  lemma Allocated() returns (s: Task)
    ensures Solo(s, Worker(Bind, PROVISIONING_ROW, Some(7))) && s.row == PROVISIONING_ROW
    ensures s.history == [Created, Queued, Provisioning] && s.calls == map[] && s.places == map[7 := InSlot(0)] && s.runs == []
  {
    hide Solo;
    s := Claimed();
    s := ExecGoes(s, Worker(Prepare, PROVISIONING_ROW, None), Obtain(7),
                  Local(Worker(Announce, PROVISIONING_ROW, Some(7)), PROVISIONING_ROW, [], []));
    s := ExecGoes(s, Worker(Announce, PROVISIONING_ROW, Some(7)), LogAllocated,
                  Local(Worker(Bind, PROVISIONING_ROW, Some(7)), PROVISIONING_ROW, [Plain(EnvironmentAllocated)], []));
  }

  /** The agent is at work in environment 7. */
  lemma AtWork() returns (s: Task)
    ensures Solo(s, Worker(Work, RUNNING_ROW, Some(7))) && s.row == RUNNING_ROW
    ensures s.history == [Created, Queued, Provisioning, Running] && s.calls == map[]
    ensures s.places == map[7 := InSlot(0)] && s.runs == []
  {
    hide Solo;
    s := Allocated();
    s := ExecGoes(s, Worker(Bind, PROVISIONING_ROW, Some(7)), BindTask, Local(Worker(Work, RUNNING_ROW, Some(7)), RUNNING_ROW, [], []));
  }

  // ---- Completion ----

  /** A tool runs successfully and its result is recorded. */
  lemma Uses(s: Task, e: Exec, tool: string) returns (t: Task, f: Exec)
    requires Solo(s, e) && e.pc.Work? && tool !in CONTROL_TOOLS
    ensures Solo(t, f) && f == e.(held := e.held + [|s.runs|])
    ensures t.row == s.row && t.history == s.history && t.calls == s.calls && t.places == s.places
    ensures t.log == s.log + [ToolEvent(ToolRun(tool, true), "{}", "")]
  {
    hide Solo;
    f := e.(held := e.held + [|s.runs|]);
    t := ExecGoes(s, e, RunTool(tool, true), Local(f, s.row, [], [ToolRun(tool, true)]));
    assert t.log == s.log && t.runs[|s.runs|] == ToolRun(tool, true);
    t := ExecGoes(t, f, RecordTool(|e.held|, "{}", ""), Local(f, s.row, [ToolEvent(ToolRun(tool, true), "{}", "")], []));
  }

  /** The agent has run both tools and recorded their results. */
  lemma Reviewed() returns (s: Task, e: Exec)
    ensures Solo(s, e) && e.pc.Work? && e.ws == Some(7) && !e.signalled && e.view == RUNNING_ROW == s.row
    ensures Evidence(s.log) && s.calls == map[] && s.places == map[7 := InSlot(0)]
  {
    hide Solo, Evidence;
    s := AtWork();
    EvidenceToolsAreExternal();
    var i := |s.log|;
    s, e := Uses(s, Worker(Work, RUNNING_ROW, Some(7)), "run_command");
    s, e := Uses(s, e, "git_diff");
    assert ShowsSuccess(s.log[i], "run_command") && ShowsSuccess(s.log[i + 1], "git_diff");
    BothShown(s.log, i, i + 1);
  }

  lemma BothShown(log: seq<Event>, i: nat, j: nat)
    requires i < |log| && j < |log| && ShowsSuccess(log[i], "run_command") && ShowsSuccess(log[j], "git_diff")
    ensures Evidence(log)
  {
  }

  /** The result is committed. */
  lemma ResultCommitted() returns (s: Task, e: Exec)
    ensures Solo(s, e) && e.pc == Report && e.ws == Some(7) && s.row.status.Completed?
    ensures s.calls == map[] && s.places == map[7 := InSlot(0)]
  {
    hide Solo, Evidence;
    s, e := Reviewed();
    s := ExecTurns(s, e, AgentReturns, e.(pc := Finish));
    e := e.(pc := Finish);
    var row := Row(Completed, 4, Some(7), None, Some("{}"));
    s := ExecGoes(s, e, CompleteTask("{}"), Local(e.(view := row, pc := Report), row, [], []));
    e := e.(view := row, pc := Report);
  }

  /** And reported. */
  lemma Reported() returns (s: Task, e: Exec)
    ensures Solo(s, e) && e.pc == Cleanup(Returned) && e.ws == Some(7) && s.row.status.Completed?
    ensures Logged(s.log, TaskCompleted) && s.calls == map[] && s.places == map[7 := InSlot(0)]
  {
    hide Solo, Logged;
    s, e := ResultCommitted();
    var before := s.log;
    s := ExecGoes(s, e, LogCompleted("{}"), Local(e.(pc := Cleanup(Returned)), s.row, [Event(TaskCompleted, "{}", "", false, "")], []));
    LoggedAt(s.log, |before|, TaskCompleted);
    e := e.(pc := Cleanup(Returned));
  }

  /** A task can be created, queued, run with evidence, completed, reported and cleaned up. */
  lemma TaskCanComplete() returns (s: Task)
    ensures Reachable(s) && s.row.status.Completed? && Logged(s.log, TaskCompleted)
    ensures s.execs == map[] && s.stream.entries == map[] && s.calls == map[] && !s.disturbed
    ensures s.places == map[7 := Deleted]
  {
    hide Solo, Reachable, Logged;
    var e: Exec;
    s, e := Reported();
    s := ExecTurns(s, e, FinalRead, e.(pc := Release(Returned, true)));
    e := e.(pc := Release(Returned, true));
    assert s.log + [] == s.log;
    s := ExecGoes(s, e, ReleaseWorkspace, Local(e.(pc := Ended(Returned)), s.row, [], []));
    assert s.places == map[7 := Deleted];
    SoloMeans(s, e.(pc := Ended(Returned)));
    s := EntryAcked(s, e.(pc := Ended(Returned)));
  }

  lemma LoggedAt(log: seq<Event>, i: nat, kind: EventType)
    requires i < |log| && log[i].kind == kind
    ensures forall more :: Logged(log + more, kind)
    ensures Logged(log, kind)
  {
    forall more ensures Logged(log + more, kind) {
      assert (log + more)[i].kind == kind;
    }
  }

  /** The worker acknowledges the entry of an execution that ended without an error. */
  lemma EntryAcked(s: Task, e: Exec) returns (u: Task)
    requires Solo(s, e) && e.pc.Ended? && !e.pc.out.Fatal?
    ensures Reachable(u) && u == s.(execs := map[], running := map[], stream := WorkQueue.Stream(1, map[]))
  {
    hide ExecStep, CallStep, Reachable;
    var t := s.(stream := WorkQueue.Stream(1, map[]), execs := map[0 := e.(pc := Acked)]);
    assert s.execs[0 := e.(pc := Acked)] == t.execs;
    assert WorkQueue.Ack(s.stream, 0).entries == map[];
    Go(s, AckItem(0), t);
    u := t.(execs := map[], running := map[]);
    assert t.execs - {0} == map[] && t.running - {0} == map[];
    Go(t, Pop(0), u);
  }

  // ---- Failures ----

  /** A try block raises while the row can still be failed: the handler records that. */
  lemma Fails(s: Task, e: Exec) returns (t: Task, f: Exec)
    requires Solo(s, e) && InTry(e.pc) && !Terminal(s.row.status) && CanTransition(s.row.status, Failed)
    ensures Solo(t, f) && f == e.(pc := FailLog, view := t.row)
    ensures t.row == s.row.(status := Failed, version := s.row.version + 1, error := Some("boom"))
    ensures t.history == s.history + [Failed] && t.calls == s.calls && t.places == s.places
  {
    hide Solo, InTry, CanTransition;
    t := Raises(s, e);
    t := ExecTurns(t, e.(pc := FailRead), FailReads, e.(pc := FailWrite, view := s.row));
    f := e.(pc := FailLog, view := s.row.(status := Failed, version := s.row.version + 1, error := Some("boom")));
    t := ExecGoes(t, e.(pc := FailWrite, view := s.row), FailTask("boom"), Local(f, f.view, [], []));
  }

  lemma Raises(s: Task, e: Exec) returns (t: Task)
    requires Solo(s, e) && InTry(e.pc)
    ensures Solo(t, e.(pc := FailRead)) && t == s.(execs := map[0 := e.(pc := FailRead)])
  {
    hide Solo;
    t := ExecTurns(s, e, Raise, e.(pc := FailRead));
  }

  /** And reports it. */
  lemma FailsAndReports(s: Task, e: Exec) returns (t: Task, f: Exec)
    requires Solo(s, e) && InTry(e.pc) && !Terminal(s.row.status) && CanTransition(s.row.status, Failed)
    ensures Solo(t, f) && f == e.(pc := Cleanup(Returned), view := t.row)
    ensures t.row == s.row.(status := Failed, version := s.row.version + 1, error := Some("boom"))
    ensures t.history == s.history + [Failed] && t.calls == s.calls && t.places == s.places
  {
    hide Solo, InTry, CanTransition;
    t, f := Fails(s, e);
    t := ExecGoes(t, f, LogFailed("{}"), Local(f.(pc := Cleanup(Returned)), t.row, [Event(TaskFailed, "{}", "", false, "")], []));
    f := f.(pc := Cleanup(Returned));
  }

  /** The first delivery failed and its handler is about to read the row. */
  lemma FailingReads() returns (s: Task)
    ensures Solo(s, Worker(FailRead, QUEUED_ROW, None)) && s.row == QUEUED_ROW && s.calls == map[] && s.history == [Created, Queued]
  {
    hide Solo;
    s := Delivered();
    s := Raises(s, Worker(Start, QUEUED_ROW, None));
  }

  /** A failure handler is entered while the row is active, so swallowing an error loses the task. */
  lemma SwallowHappens() returns (s: Task)
    ensures Reachable(s) && 0 in s.execs && InFailHandler(s.execs[0].pc) && Active(s.row.status)
    ensures CanBeLost(Apply(s, ExecDo(0, HandlerSwallows)).value)
  {
    hide Apply, CanBeLost, Reachable;
    s := FailingReads();
    ReachableIsKept(s);
    SwallowLosesWorkExactly(s, 0);
  }

  /** `submit` is about to put the only entry of the task, so its death loses the task. */
  lemma DroppedPutHappens() returns (s: Task)
    ensures Reachable(s) && 0 in s.calls && s.calls[0].phase.PutDue?
    ensures CanBeLost(Apply(s, CallDies(0)).value)
  {
    hide Apply, CanBeLost, Reachable, Kept;
    s := Submitted();
    ReachableIsKept(s);
    assert OnlyPut(s, 0);
    DroppedPutLosesWorkExactly(s, 0);
  }

  /** The failure is recorded and not reported yet: a retry now can lose the task. */
  lemma UnwindingHappens() returns (s: Task)
    ensures Reachable(s) && s.row.status.Failed? && 0 in s.execs && Unwinding(s.execs[0]) && s.calls == map[]
    ensures CanBeLost(Retried(s, 0, 0))
  {
    hide Solo, CanBeLost, Retried, Kept;
    s := Delivered();
    var e: Exec;
    s, e := Fails(s, Worker(Start, QUEUED_ROW, None));
    SoloMeans(s, e);
    ReachableIsKept(s);
    hide Reachable, Unwinding;
    assert !QuietForRetry(s) by { assert 0 in s.execs && Unwinding(s.execs[0]); }
    RetryLosesWorkExactly(s, 0, 0);
  }

  lemma SoloMeans(s: Task, e: Exec)
    requires Solo(s, e)
    ensures Reachable(s) && s.execs == map[0 := e]
    ensures !s.disturbed && (Unwinding(e) <==> Unwinding(s.execs[0]))
  {
  }

  const CANCELLING_ROW := Row(Cancelling, 2, None, None, None)

  /** A cancel committed CANCELLING while the execution was about to start. */
  lemma CancelCommitted() returns (s: Task)
    ensures Solo(s, Worker(Start, QUEUED_ROW, None)) && s.row == CANCELLING_ROW
    ensures s.calls == map[1 := Call(0, Signalling(CANCELLING_ROW))] && s.history == [Created, Queued, Cancelling]
  {
    hide ExecStep;
    s := Delivered();
    var t := s.(calls := map[1 := Call(0, CancelRequested(QUEUED_ROW))]);
    assert s.calls[1 := Call(0, CancelRequested(QUEUED_ROW))] == t.calls;
    Go(s, BeginCancel(1, 0), t);
    hide Reachable;
    s := CallGoes(t, Worker(Start, QUEUED_ROW, None), 1, CallLocal(Some(Signalling(CANCELLING_ROW)), CANCELLING_ROW, []));
    assert s.calls == map[1 := Call(0, Signalling(CANCELLING_ROW))];
  }

  /**
   * The execution then fails by itself, records the failure of the CANCELLING task and is
   * gone, while the cancel has still not signalled: a retry now can lose the task.
   */
  lemma SignalHappens() returns (s: Task)
    ensures Reachable(s) && s.row.status.Failed? && s.execs == map[] && s.stream.entries == map[]
    ensures 1 in s.calls && s.calls[1].phase.Signalling?
    ensures CanBeLost(Retried(s, 0, 0))
  {
    hide Solo, CanBeLost, Retried, Kept;
    s := CancelCommitted();
    var e: Exec;
    s, e := FailsAndReports(s, Worker(Start, QUEUED_ROW, None));
    s := ExecTurns(s, e, FinalRead, e.(pc := Ended(Returned)));
    s := EntryAcked(s, e.(pc := Ended(Returned)));
    ReachableIsKept(s);
    hide Reachable;
    assert !QuietForRetry(s) by { assert 1 in s.calls && s.calls[1].phase.Signalling?; }
    RetryLosesWorkExactly(s, 0, 0);
  }

  /** A cancel commits between the handler's read and its write: the worker dies, the entry stays. */
  lemma LostRaceHappens() returns (s: Task, t: Task)
    ensures Reachable(s) && 0 in s.execs && s.execs[0].pc.FailWrite? && s.row.version > s.execs[0].view.version
    ensures Reachable(t) && t.execs == map[] && t.row.status.Cancelling? && t.disturbed
    ensures t.stream.entries == map[0 := WorkQueue.Item(0, WorkQueue.Pending)]
  {
    hide Reachable, ExecStep;
    var w := Worker(FailWrite, QUEUED_ROW, None);
    var s0 := ReadThenCancelled();
    s := s0;
    RaceIsLost(s);
    t := ExecTurns(s, w, FailTask("boom"), w.(pc := Cleanup(Fatal)));
    NothingHeld(t, w.(pc := Cleanup(Fatal)));
    t := ExecTurns(t, w.(pc := Cleanup(Fatal)), FinalRead, w.(pc := Ended(Fatal)));
    var u := t.(execs := map[], running := map[], disturbed := true);
    assert t.execs - {0} == map[] && t.running - {0} == map[];
    Go(t, WorkerDies(0), u);
    t := u;
  }

  lemma RaceIsLost(s: Task)
    requires s.row == CANCELLING_ROW
    ensures var w := Worker(FailWrite, QUEUED_ROW, None);
      ExecStep(s.row, s.log, s.runs, w, FailTask("boom")) == Some(Local(w.(pc := Cleanup(Fatal)), s.row, [], []))
  {
  }

  lemma NothingHeld(s: Task, e: Exec)
    requires e.pc == Cleanup(Fatal) && e.ws.None?
    ensures ExecStep(s.row, s.log, s.runs, e, FinalRead) == Some(Local(e.(pc := Ended(Fatal)), s.row, [], []))
  {
  }

  lemma ReadThenCancelled() returns (s: Task)
    ensures Solo(s, Worker(FailWrite, QUEUED_ROW, None)) && s.row == CANCELLING_ROW
  {
    s := FailingReads();
    var w := Worker(FailWrite, QUEUED_ROW, None);
    s := ExecTurns(s, Worker(FailRead, QUEUED_ROW, None), FailReads, w);
    hide ExecStep;
    var t := s.(calls := map[1 := Call(0, CancelRequested(QUEUED_ROW))]);
    assert s.calls[1 := Call(0, CancelRequested(QUEUED_ROW))] == t.calls;
    Go(s, BeginCancel(1, 0), t);
    hide Reachable;
    s := CallGoes(t, w, 1, CallLocal(Some(Signalling(CANCELLING_ROW)), CANCELLING_ROW, []));
  }

  // ---- A workspace left behind ----

  const STOPPING_ROW := Row(Cancelling, 4, Some(7), None, None)

  /** A cancel committed CANCELLING while the agent was at work. */
  lemma WorkCancelled() returns (s: Task)
    ensures Solo(s, Worker(Work, RUNNING_ROW, Some(7))) && s.row == STOPPING_ROW
    ensures s.history == [Created, Queued, Provisioning, Running, Cancelling] && s.places == map[7 := InSlot(0)]
    ensures s.calls == map[1 := Call(0, Signalling(STOPPING_ROW))]
  {
    hide ExecStep;
    s := AtWork();
    var t := s.(calls := map[1 := Call(0, CancelRequested(RUNNING_ROW))]);
    assert s.calls[1 := Call(0, CancelRequested(RUNNING_ROW))] == t.calls;
    Go(s, BeginCancel(1, 0), t);
    hide Reachable;
    s := CallGoes(t, Worker(Work, RUNNING_ROW, Some(7)), 1, CallLocal(Some(Signalling(STOPPING_ROW)), STOPPING_ROW, []));
    assert s.calls == map[1 := Call(0, Signalling(STOPPING_ROW))];
  }

  /** The agent raised, the handler recorded the failure, and the finally block begins. */
  lemma FailedAtWork() returns (s: Task, e: Exec)
    ensures Solo(s, e) && e.pc == Cleanup(Returned) && e.ws == Some(7) && !e.signalled
    ensures s.row.status.Failed? && s.row.env == Some(7) && Running in s.history && s.places == map[7 := InSlot(0)]
    ensures s.calls == map[1 := Call(0, Signalling(STOPPING_ROW))]
  {
    hide Solo;
    s := WorkCancelled();
    assert s.history[3] == Running;
    s, e := FailsAndReports(s, Worker(Work, RUNNING_ROW, Some(7)));
    assert s.history[3] == Running;
  }

  /**
   * The late signal interrupts the finally block: the FAILED task has no execution left, and
   * the directory its row names sits in a slot that nobody will release.
   */
  lemma StrandingHappens() returns (s: Task)
    ensures Reachable(s) && s.row.status.Failed? && Running in s.history && s.execs == map[]
    ensures s.row.env == Some(7) && s.places == map[7 := Stranded]
  {
    hide Reachable;
    var e: Exec;
    s, e := FailedAtWork();
    var f := e.(signalled := true);
    var t := s.(execs := map[0 := f], calls := map[]);
    assert AfterCall(s, 1) == t by {
      assert s.execs[0 := f] == t.execs && s.calls - {1} == t.calls;
    }
    Go(s, CallDo(1), t);
    LeavesAtOnce(t, f);
    hide ExecStep;
    s := ExecGoes(t, f, CancelArrives, Local(e.(pc := Ended(CancelRaised)), t.row, [], []));
    assert s.places == map[7 := Stranded];
    s := EntryAcked(s, e.(pc := Ended(CancelRaised)));
  }

  lemma LeavesAtOnce(s: Task, f: Exec)
    requires f.pc == Cleanup(Returned) && f.signalled
    ensures ExecStep(s.row, s.log, s.runs, f, CancelArrives)
      == Some(Local(f.(signalled := false, pc := Ended(CancelRaised)), s.row, [], []))
  {
  }

  // ---- A cancelled task ----

  /** The signal reaches the execution at work, which enters its handler. */
  lemma CancelReaches() returns (s: Task)
    ensures Solo(s, Worker(CancelRead, RUNNING_ROW, Some(7))) && s.row == STOPPING_ROW
    ensures s.calls == map[] && s.places == map[7 := InSlot(0)]
    ensures s.history == [Created, Queued, Provisioning, Running, Cancelling]
  {
    s := WorkCancelled();
    var e := Worker(Work, RUNNING_ROW, Some(7));
    var f := e.(signalled := true);
    var t := s.(execs := map[0 := f], calls := map[]);
    assert AfterCall(s, 1) == t by {
      assert s.execs[0 := f] == t.execs && s.calls - {1} == t.calls;
    }
    SignalGoes(s, t, e);
    hide Solo, ExecStep;
    assert ExecStep(t.row, t.log, t.runs, f, CancelArrives) == Some(Local(e.(pc := CancelRead), t.row, [], [])) by {
      ReactsAtWork(t, f);
    }
    s := ExecTurns(t, f, CancelArrives, e.(pc := CancelRead));
  }

  lemma SignalGoes(s: Task, t: Task, e: Exec)
    requires Solo(s, e) && 1 in s.calls && s.calls[1].phase.Signalling? && t == AfterCall(s, 1)
    requires t.execs == map[0 := e.(signalled := true)]
    ensures Solo(t, e.(signalled := true))
  {
    hide ExecStep, CallStep, Reachable;
    Go(s, CallDo(1), t);
  }

  lemma ReactsAtWork(s: Task, f: Exec)
    requires f.pc.Work? && f.signalled
    ensures ExecStep(s.row, s.log, s.runs, f, CancelArrives) == Some(Local(f.(signalled := false, pc := CancelRead), s.row, [], []))
  {
  }

  const STOPPED_ROW := Row(Cancelled, 5, Some(7), None, None)

  lemma CancellationCommitted() returns (s: Task)
    ensures Solo(s, Worker(CancelLog, STOPPED_ROW, Some(7))) && s.row == STOPPED_ROW && s.calls == map[]
    ensures s.places == map[7 := InSlot(0)]
    ensures s.history == [Created, Queued, Provisioning, Running, Cancelling, Cancelled]
  {
    hide Solo;
    s := CancelReaches();
    var e := Worker(CancelWrite, STOPPING_ROW, Some(7));
    s := ExecTurns(s, Worker(CancelRead, RUNNING_ROW, Some(7)), CancelReads, e);
    s := ExecGoes(s, e, CancelTask, Local(Worker(CancelLog, STOPPED_ROW, Some(7)), STOPPED_ROW, [], []));
  }

  lemma CancellationReported() returns (s: Task)
    ensures Solo(s, Worker(Cleanup(CancelRaised), STOPPED_ROW, Some(7))) && s.row == STOPPED_ROW && s.calls == map[]
    ensures s.places == map[7 := InSlot(0)] && Running in s.history && Logged(s.log, TaskCancelled)
  {
    hide Solo, Logged;
    s := CancellationCommitted();
    assert s.history[3] == Running;
    var before := s.log;
    s := ExecGoes(s, Worker(CancelLog, STOPPED_ROW, Some(7)), LogCancelled,
                  Local(Worker(Cleanup(CancelRaised), STOPPED_ROW, Some(7)), STOPPED_ROW, [Plain(TaskCancelled)], []));
    LoggedAt(s.log, |before|, TaskCancelled);
  }

  /** A RUNNING task can be cancelled: CANCELLED, reported, its workspace deleted and its entry acknowledged. */
  lemma TaskCanBeCancelled() returns (s: Task)
    ensures Reachable(s) && s.row.status.Cancelled? && Running in s.history && Logged(s.log, TaskCancelled)
    ensures s.execs == map[] && s.stream.entries == map[] && s.calls == map[] && !s.disturbed
    ensures s.places == map[7 := Deleted]
  {
    hide Solo, Reachable, Logged;
    s := CancellationReported();
    var e := Worker(Release(CancelRaised, true), STOPPED_ROW, Some(7));
    s := ExecTurns(s, Worker(Cleanup(CancelRaised), STOPPED_ROW, Some(7)), FinalRead, e);
    assert s.log + [] == s.log;
    s := ExecGoes(s, e, ReleaseWorkspace, Local(e.(pc := Ended(CancelRaised)), s.row, [], []));
    assert s.places == map[7 := Deleted];
    SoloMeans(s, e.(pc := Ended(CancelRaised)));
    s := EntryAcked(s, e.(pc := Ended(CancelRaised)));
  }
}
