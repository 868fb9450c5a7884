/**
 * No lost work: a QUEUED, PROVISIONING or RUNNING task always has somebody who still owes
 * it an execution, provided a retry does not slip in while an earlier execution is unwinding
 * or a cancel is about to signal, no failure handler swallows an error and no request dies
 * before its put while the task is in one of these states.
 */
module NoLostWork {
  import opened Prelude
  import opened TaskStates
  import opened TaskRepository
  import opened Events
  import opened Protocol
  import opened ProtocolSafety
  import opened LifecycleRuns
  import WorkQueue

  /**
   * The execution may end, and have its entry acknowledged, without looking at the row
   * again: a cancellation is on its way to it, it is about to react to one, it has already
   * recorded its failure, or it is leaving through `finally` without an error.
   */
  predicate Unwinding(e: Exec) {
    || (e.signalled && !e.pc.Ended?)
    || e.pc.CancelRead?
    || e.pc.CancelLog?
    || e.pc.FailLog?
    || e.pc.Acked?
    || ((e.pc.Cleanup? || e.pc.Release? || e.pc.Ended?) && !e.pc.out.Fatal?)
  }

  /** An entry that will be delivered (again) unless it is acknowledged by an execution. */
  ghost predicate Outstanding(s: Task, en: EntryId) {
    en in s.stream.entries && forall p :: (p, en) !in s.dupAcks
  }

  /** Somebody will still come back, or a worker or process died since the last startup scan. */
  ghost predicate Covered(s: Task) {
    || s.disturbed
    || (exists en :: Outstanding(s, en))
    || (exists x :: x in s.execs && !Unwinding(s.execs[x]))
    || (exists c :: c in s.calls && s.calls[c].phase.PutDue?)
  }

  /** The condition on the moment a retry commits FAILED -> QUEUED. */
  ghost predicate QuietForRetry(s: Task) {
    && (forall x :: x in s.execs ==> !Unwinding(s.execs[x]))
    && (forall c :: c in s.calls ==> !s.calls[c].phase.Signalling?)
  }

  ghost predicate RetryCommits(s: Task, a: Step) {
    && a.CallDo?
    && a.c in s.calls
    && s.calls[a.c].phase.Retrying?
    && Commit(s.row, s.calls[a.c].phase.view, To(Queued)).Ok?
  }

  /** A failure handler leaves without having recorded the failure. */
  predicate Swallows(a: Step) {
    a.ExecDo? && a.a.HandlerSwallows?
  }

  /** A submit, retry or startup scan dies between its commit or read and its put. */
  predicate DropsPut(s: Task, a: Step) {
    a.CallDies? && a.c in s.calls && s.calls[a.c].phase.PutDue?
  }

  ghost predicate Guarded(s: Task, a: Step) {
    && (RetryCommits(s, a) ==> QuietForRetry(s))
    && (Swallows(a) || DropsPut(s, a) ==> !Active(s.row.status))
  }

  /** Whoever may leave without touching the row does so only when nothing is owed. */
  ghost predicate Settled(s: Task) {
    && (forall x :: x in s.execs && Unwinding(s.execs[x]) ==> !Active(s.row.status))
    && (forall c :: c in s.calls && s.calls[c].phase.Signalling? ==> !Active(s.row.status))
  }

  /** Before the first QUEUED nothing was ever put in the stream. */
  ghost predicate Untouched(s: Task) {
    s.row.status.Created? ==>
      && s.execs.Keys == {}
      && s.stream.entries.Keys == {}
      && forall c :: c in s.calls ==> s.calls[c].phase.Submitting? || s.calls[c].phase.CancelRequested?
  }

  ghost predicate StreamOk(s: Task) {
    && WorkQueue.Fresh(s.stream)
    && forall d :: d in s.dupAcks ==> d.1 < s.stream.next
  }

  ghost predicate Owed(s: Task) {
    Active(s.row.status) ==> Covered(s)
  }

  ghost predicate Kept(s: Task) {
    Safe(s) && Settled(s) && Untouched(s) && StreamOk(s) && Owed(s)
  }

  /** One execution's own step never makes a row active, and it starts unwinding only when nothing is owed. */
  lemma ExecStepSettles(row: Row, history: seq<Status>, log: seq<Event>, runs: seq<ToolRun>, e: Exec, a: Action)
    requires HistoryOk(row, history) && ExecOk(row, history, log, e)
    requires ExecStep(row, log, runs, e, a).Some?
    requires a.HandlerSwallows? ==> !Active(row.status)
    ensures var l := ExecStep(row, log, runs, e, a).value;
      && (Active(l.row.status) ==> Active(row.status))
      && (l.row.status.Created? ==> row.status.Created?)
      && (Unwinding(l.exec) && !Unwinding(e) ==> !Active(l.row.status))
  {
    hide IsPath, Evidence;
    var l := ExecStep(row, log, runs, e, a).value;
    if l.row.version != row.version {
      assert e.view.version == row.version && e.view.status == row.status;
    }
  }

  /** Moving the row without making it active leaves everybody settled. */
  lemma AdvanceKeepsKept(s: Task, row: Row, emit: seq<Event>, more: seq<ToolRun>)
    requires Kept(s)
    requires Safe(Advance(s, row, emit, more))
    requires Active(row.status) ==> Active(s.row.status)
    requires row.status.Created? ==> s.row.status.Created?
    ensures Kept(Advance(s, row, emit, more))
  {
    hide Safe;
    var s' := Advance(s, row, emit, more);
    if Active(s'.row.status) {
      CoveredSame(s, s');
    }
  }

  lemma CoveredSame(s: Task, s': Task)
    requires Covered(s)
    requires s'.disturbed == s.disturbed && s'.stream == s.stream && s'.dupAcks == s.dupAcks
    requires s'.execs == s.execs && s'.calls == s.calls
    ensures Covered(s')
  {
    if en :| Outstanding(s, en) {
      assert Outstanding(s', en);
    }
  }

  lemma SetExecKeepsKept(s: Task, x: ExecId, e: Exec)
    requires Kept(s) && x in s.execs && Safe(SetExec(s, x, e))
    requires Unwinding(e) && !Unwinding(s.execs[x]) ==> !Active(s.row.status)
    ensures Kept(SetExec(s, x, e))
  {
    hide Safe;
    var s' := SetExec(s, x, e);
    if Active(s.row.status) {
      assert !Unwinding(s'.execs[x]);
    }
  }

  lemma ExecDoKeepsKept(s: Task, x: ExecId, a: Action)
    requires Kept(s) && x in s.execs && AfterExec(s, x, a).Some?
    requires a.HandlerSwallows? ==> !Active(s.row.status)
    ensures Kept(AfterExec(s, x, a).value)
  {
    hide ExecStep, LogOk, Unwinding, Covered, ExecOk, RunningOk, IsPath, Relocated;
    var e := s.execs[x];
    assert ExecOk(s.row, s.history, s.log, e);
    var l := ExecStep(s.row, s.log, s.runs, e, a).value;
    ExecStepSound(s.row, s.history, s.log, s.runs, e, a);
    ExecStepSettles(s.row, s.history, s.log, s.runs, e, a);
    AdvanceKeepsCore(s, l.row, l.emit, l.runs);
    var t := Advance(s, l.row, l.emit, l.runs);
    assert Safe(t) by { AdvanceKeepsRunning(s, l.row, l.emit, l.runs); }
    AdvanceKeepsKept(s, l.row, l.emit, l.runs);
    ExecKeepsProcess(s.row, s.log, s.runs, e, a);
    SetExecKeepsSafe(t, x, l.exec);
    SetExecKeepsKept(t, x, l.exec);
    ExecDoKeepsSafe(s, x, a);
    PlacesKeepKept(SetExec(t, x, l.exec), AfterExec(s, x, a).value);
  }

  lemma AdvanceKeepsRunning(s: Task, row: Row, emit: seq<Event>, more: seq<ToolRun>)
    requires RunningOk(s)
    ensures RunningOk(Advance(s, row, emit, more))
  {
  }

  lemma PlacesKeepKept(s: Task, s': Task)
    requires Kept(s) && Safe(s')
    requires s' == s.(places := s'.places)
    ensures Kept(s')
  {
    hide Safe;
    if Active(s.row.status) {
      CoveredSame(s, s');
    }
  }

  /** The caller's own step: requests that finish, fail or become active only with a put due. */
  lemma CallAdvanceKeepsKept(s: Task, c: CallId)
    requires Kept(s) && c in s.calls && Guarded(s, CallDo(c))
    requires !s.calls[c].phase.PutDue?
    requires Safe(CallAdvanced(s, c))
    ensures Kept(CallAdvanced(s, c))
  {
    hide Safe;
    var phase := s.calls[c].phase;
    var l := CallStep(s.row, phase);
    CallRowStep(s, c);
    var s' := CallAdvanced(s, c);
    if l.row == s.row {
      if Active(s.row.status) {
        CoveredWithout(s, s', c);
      }
    } else if l.phase == Some(PutDue) {
      assert s'.calls[c].phase.PutDue?;
    } else {
      assert !Active(l.row.status);
    }
  }

  function CallAdvanced(s: Task, c: CallId): Task
    requires c in s.calls
  {
    var l := CallStep(s.row, s.calls[c].phase);
    SetCall(Advance(s, l.row, l.emit, []), c, s.calls[c].proc, l.phase)
  }

  /** What a request does to the row, by phase. */
  lemma CallRowStep(s: Task, c: CallId)
    requires Kept(s) && c in s.calls && Guarded(s, CallDo(c))
    ensures var l := CallStep(s.row, s.calls[c].phase);
      && (l.row != s.row && l.phase == Some(PutDue) ==>
            l.row.status.Queued? && QuietForRetry(s))
      && (l.row != s.row && l.phase != Some(PutDue) ==>
            l.row.status.Cancelling? || l.row.status.Cancelled?)
      && (l.row == s.row && l.phase.Some? ==> l.phase.value.Finalizing? && s.calls[c].phase.Signalling?)
      && (l.phase.Some? && l.phase.value.Signalling? ==> l.row != s.row)
  {
    hide LogOk, ExecOk, RunningOk, Covered, IsPath, Unwinding;
    assert CallOk(s.row, s.history, s.calls[c]);
    match s.calls[c].phase {
      case Submitting(view) =>
        if Commit(s.row, view, To(Queued)).Ok? {
          CommitContinuesPath(s.row, s.history, view, To(Queued));
          assert s.row.status.Created?;
        }
      case _ =>
    }
  }

  lemma CoveredWithout(s: Task, s': Task, c: CallId)
    requires Covered(s)
    requires s'.disturbed == s.disturbed && s'.stream == s.stream && s'.dupAcks == s.dupAcks && s'.execs == s.execs
    requires c in s.calls && !s.calls[c].phase.PutDue?
    requires forall d :: d in s.calls && d != c ==> d in s'.calls && s'.calls[d] == s.calls[d]
    ensures Covered(s')
  {
    if en :| Outstanding(s, en) {
      assert Outstanding(s', en);
    } else if d :| d in s.calls && s.calls[d].phase.PutDue? {
      assert s'.calls[d].phase.PutDue?;
    }
  }

  lemma PutKeepsKept(s: Task, c: CallId)
    requires Kept(s) && c in s.calls && s.calls[c].phase.PutDue? && Safe(AfterCall(s, c))
    ensures Kept(AfterCall(s, c))
  {
    hide Safe, CallStep, Signal;
    var s' := AfterCall(s, c);
    var en := s.stream.next;
    assert forall d :: d in s.dupAcks ==> d.1 != en;
    assert Outstanding(s', en);
  }

  lemma SignalKeepsKept(s: Task, c: CallId)
    requires Kept(s) && c in s.calls && s.calls[c].phase.Signalling?
    requires s.calls[c].proc in s.running && s.running[s.calls[c].proc] in s.execs
    requires Safe(AfterCall(s, c))
    ensures Kept(AfterCall(s, c))
  {
    hide Safe, CallStep, Covered;
    assert !Active(s.row.status);
    assert Settled(AfterCall(s, c));
  }

  lemma KeptIsSafe(s: Task)
    requires Kept(s)
    ensures Safe(s)
  {
  }

  lemma CallDoKeepsKept(s: Task, c: CallId)
    requires Kept(s) && c in s.calls && Guarded(s, CallDo(c))
    ensures Kept(AfterCall(s, c))
  {
    hide Kept, Safe, CallStep, Signal, Guarded;
    KeptIsSafe(s);
    CallDoKeepsSafe(s, c);
    var call := s.calls[c];
    if call.phase.PutDue? {
      PutKeepsKept(s, c);
    } else if call.phase.Signalling? && call.proc in s.running && s.running[call.proc] in s.execs {
      SignalKeepsKept(s, c);
    } else {
      CallAdvanceKeepsKept(s, c);
    }
  }

  lemma ReceiveKeepsKept(s: Task, en: EntryId, p: Proc, x: ExecId)
    requires Kept(s) && en in s.stream.entries && x !in s.execs
    requires Safe(Receive(s, en, p, x))
    ensures Kept(Receive(s, en, p, x))
  {
    hide Core;
    var s' := Receive(s, en, p, x);
    if p in s.running {
      var y := s.running[p];
      assert Active(s.row.status) ==> !Unwinding(s'.execs[y]);
    } else {
      assert !Unwinding(s'.execs[x]);
    }
  }

  /** Acknowledging an entry already marked as a duplicate uncovers nothing. */
  lemma DupAckKeepsKept(s: Task, p: Proc, en: EntryId)
    requires Kept(s) && (p, en) in s.dupAcks
    requires Safe(Apply(s, DupAck(p, en)).value)
    ensures Kept(Apply(s, DupAck(p, en)).value)
  {
    hide Safe, AfterExec, AfterCall;
    var s' := Apply(s, DupAck(p, en)).value;
    if Active(s.row.status) && !s.disturbed {
      if other :| Outstanding(s, other) {
        assert Outstanding(s', other);
      } else if x :| x in s.execs && !Unwinding(s.execs[x]) {
        assert !Unwinding(s'.execs[x]);
      }
    }
  }

  /** An execution that ended without killing its worker leaves a settled row behind. */
  lemma EndedSettled(s: Task, x: ExecId)
    requires Kept(s) && x in s.execs && Unwinding(s.execs[x])
    ensures !Active(s.row.status)
  {
    hide Safe;
  }

  lemma AckKeepsKept(s: Task, x: ExecId)
    requires Kept(s) && Apply(s, AckItem(x)).Some?
    requires Safe(Apply(s, AckItem(x)).value)
    ensures Kept(Apply(s, AckItem(x)).value)
  {
    hide Safe, AfterExec, AfterCall, Covered;
    EndedSettled(s, x);
  }

  lemma DropSettled(s: Task, x: ExecId)
    requires Kept(s) && x in s.execs
    ensures Settled(DropExec(s, x)) && Untouched(DropExec(s, x)) && StreamOk(DropExec(s, x))
  {
    hide Safe, Covered;
  }

  lemma WorkerKeepsKept(s: Task, a: Step)
    requires a.DupAckFails? || a.AckFails? || a.Pop? || a.WorkerDies? || a.CallDies? || a.Crash?
    requires Kept(s) && Guarded(s, a) && Apply(s, a).Some? && Safe(Apply(s, a).value)
    ensures Kept(Apply(s, a).value)
  {
    hide Safe, AfterExec, AfterCall, Unwinding, DropExec;
    match a {
      case AckFails(x) => DropSettled(s, x);
      case Pop(x) =>
        DropSettled(s, x);
        PopSettled(s, x);
      case WorkerDies(x) => DropSettled(s, x);
      case CallDies(c) => CallDiesKeepsKept(s, c);
      case _ =>
    }
  }

  lemma CallDiesKeepsKept(s: Task, c: CallId)
    requires Kept(s) && Guarded(s, CallDies(c)) && c in s.calls
    requires Safe(s.(calls := s.calls - {c}))
    ensures Kept(s.(calls := s.calls - {c}))
  {
    hide Safe, Unwinding, Covered;
    if Active(s.row.status) {
      CoveredWithout(s, s.(calls := s.calls - {c}), c);
    }
  }

  lemma PopSettled(s: Task, x: ExecId)
    requires Kept(s) && x in s.execs && s.execs[x].pc.Acked?
    ensures !Active(DropExec(s, x).row.status)
  {
    hide Safe;
    EndedSettled(s, x);
  }

  lemma BeginSettles(s: Task, a: Step)
    requires a.BeginRetry? || a.BeginCancel? || a.Reconcile? || a.OtherEvent?
    requires Settled(s) && Untouched(s) && StreamOk(s) && Apply(s, a).Some?
    ensures var s' := Apply(s, a).value;
      Settled(s') && Untouched(s') && StreamOk(s') && s'.row == s.row
  {
    hide AfterExec, AfterCall, Unwinding, CrashProcess, Receive, DropExec;
  }

  lemma BeginKeepsKept(s: Task, a: Step)
    requires a.BeginRetry? || a.BeginCancel? || a.Reconcile? || a.OtherEvent?
    requires Kept(s) && Apply(s, a).Some? && Safe(Apply(s, a).value)
    ensures Kept(Apply(s, a).value)
  {
    BeginSettles(s, a);
    hide Safe, AfterExec, AfterCall, Unwinding, CrashProcess, Receive, DropExec, Covered, Settled, Untouched, StreamOk;
    var s' := Apply(s, a).value;
    if Active(s.row.status) {
      if a.Reconcile? {
        assert s'.calls[a.c].phase.PutDue?;
        PutCovers(s', a.c);
      } else {
        CoveredMore(s, s');
      }
    }
  }

  lemma PutCovers(s: Task, c: CallId)
    requires c in s.calls && s.calls[c].phase.PutDue?
    ensures Covered(s)
  {
  }

  lemma CoveredMore(s: Task, s': Task)
    requires Covered(s)
    requires s'.disturbed == s.disturbed && s'.stream == s.stream && s'.dupAcks == s.dupAcks && s'.execs == s.execs
    requires forall d :: d in s.calls ==> d in s'.calls && s'.calls[d] == s.calls[d]
    ensures Covered(s')
  {
    if en :| Outstanding(s, en) {
      assert Outstanding(s', en);
    } else if d :| d in s.calls && s.calls[d].phase.PutDue? {
      assert s'.calls[d].phase.PutDue?;
    }
  }

  /** Every step keeps the work covered when retries are guarded. */
  lemma StepKeepsKept(s: Task, a: Step)
    requires Kept(s) && Guarded(s, a) && Apply(s, a).Some?
    ensures Kept(Apply(s, a).value)
  {
    KeptIsSafe(s);
    StepKeepsSafe(s, a);
    assert Swallows(a) ==> !Active(s.row.status);
    hide Kept, Safe, Guarded, AfterExec, AfterCall, CrashProcess, Receive, DropExec;
    match a {
      case ExecDo(x, act) => ExecDoKeepsKept(s, x, act);
      case CallDo(c) => CallDoKeepsKept(s, c);
      case Deliver(en, p, x) => ReceiveKeepsKept(s, en, p, x);
      case DupAck(p, en) => DupAckKeepsKept(s, p, en);
      case AckItem(x) => AckKeepsKept(s, x);
      case BeginRetry(_, _) => BeginKeepsKept(s, a);
      case BeginCancel(_, _) => BeginKeepsKept(s, a);
      case Reconcile(_, _) => BeginKeepsKept(s, a);
      case OtherEvent(_) => BeginKeepsKept(s, a);
      case _ => WorkerKeepsKept(s, a);
    }
  }

  /** A run of guarded steps. */
  ghost predicate GuardedNext(s: System, a: SystemStep, s': System) {
    && Next(s, a, s')
    && (a.One? ==> Guarded(s[a.id], a.a))
  }

  ghost predicate IsGuardedRun(trace: seq<System>) {
    && |trace| > 0
    && trace[0] == map[]
    && forall i, j :: 0 <= i < j < |trace| && j == i + 1 ==> exists a :: GuardedNext(trace[i], a, trace[j])
  }

  lemma NewTaskKept(id: TaskId, p: Proc, c: CallId)
    ensures Kept(NewTask(id, p, c))
  {
    NewTaskSafe(id, p, c);
  }

  ghost predicate AllKept(s: System) {
    forall t :: t in s ==> Kept(s[t])
  }

  lemma NextKeepsKept(s: System, a: SystemStep, s': System, id: TaskId)
    requires GuardedNext(s, a, s') && id in s' && AllKept(s)
    ensures Kept(s'[id])
  {
    hide Kept, Apply, NewTask, RetryCommits;
    match a {
      case Create(t, p, c) => NewTaskKept(t, p, c);
      case One(t, b) => StepKeepsKept(s[t], b);
      case CrashAll(p) => OtherStepGuarded(s[id], Crash(p)); StepKeepsKept(s[id], Crash(p));
      case ScanAll(p, c) => OtherStepGuarded(s[id], Reconcile(c, p)); StepKeepsKept(s[id], Reconcile(c, p));
    }
  }

  lemma OtherStepGuarded(s: Task, a: Step)
    requires a.Crash? || a.Reconcile?
    ensures Guarded(s, a)
  {
  }

  lemma {:induction false} GuardedRunKept(trace: seq<System>, i: nat)
    requires IsGuardedRun(trace) && i < |trace|
    ensures AllKept(trace[i])
  {
    hide GuardedNext, Kept;
    if i > 0 {
      GuardedRunKept(trace, i - 1);
      var a :| GuardedNext(trace[i - 1], a, trace[i]);
      forall t | t in trace[i] ensures Kept(trace[i][t]) {
        NextKeepsKept(trace[i - 1], a, trace[i], t);
      }
    }
  }

  /**
   * No lost work: in every state of every guarded run, a QUEUED, PROVISIONING or RUNNING
   * task has an entry still to be delivered, an execution that will look at the row again,
   * a put about to happen, or a death since the last startup scan.
   */
  lemma WorkIsNeverLost(trace: seq<System>, i: nat, id: TaskId)
    requires IsGuardedRun(trace) && i < |trace| && id in trace[i]
    ensures Active(trace[i][id].row.status) ==> Covered(trace[i][id])
  {
    hide GuardedNext, Safe, Settled, Untouched, StreamOk, Covered;
    GuardedRunKept(trace, i);
    assert Kept(trace[i][id]);
  }
}
