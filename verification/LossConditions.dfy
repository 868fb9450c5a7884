/**
 * When work can be lost: each clause of the guard of `NoLostWork` is needed. In every state
 * the guarded system keeps, a retry, a swallowed error or a request that dies before its put
 * can end in a lost task exactly under the condition given here.
 */
module LossConditions {
  import opened Prelude
  import opened TaskStates
  import opened TaskRepository
  import opened Events
  import opened Protocol
  import opened ProtocolSafety
  import opened NoLostWork
  import WorkQueue

  ghost predicate Lost(s: Task) {
    Active(s.row.status) && !Covered(s)
  }

  /** Guarded steps lead from `s` to `t`. */
  ghost predicate Reaches(s: Task, steps: seq<Step>, t: Task)
    decreases |steps|
  {
    if steps == [] then
      s == t
    else
      && Apply(s, steps[0]).Some?
      && Guarded(s, steps[0])
      && Reaches(Apply(s, steps[0]).value, steps[1..], t)
  }

  /** Some guarded continuation ends in a lost task. */
  ghost predicate CanBeLost(s: Task) {
    exists steps, t :: Reaches(s, steps, t) && Lost(t)
  }

  lemma LostNow(s: Task)
    requires Lost(s)
    ensures CanBeLost(s)
  {
    hide Lost;
    assert Reaches(s, [], s);
  }

  lemma LossAhead(s: Task, a: Step, t: Task)
    requires Apply(s, a) == Some(t) && Guarded(s, a) && CanBeLost(t)
    ensures CanBeLost(s)
  {
    hide Apply, Guarded, Lost;
    var steps, u :| Reaches(t, steps, u) && Lost(u);
    assert ([a] + steps)[1..] == steps;
    assert Reaches(s, [a] + steps, u);
  }

  lemma {:induction false} ReachesKept(s: Task, steps: seq<Step>, t: Task)
    requires Kept(s) && Reaches(s, steps, t)
    ensures Kept(t)
    decreases |steps|
  {
    hide Kept, Apply, Guarded;
    if steps != [] {
      StepKeepsKept(s, steps[0]);
      ReachesKept(Apply(s, steps[0]).value, steps[1..], t);
    }
  }

  lemma {:induction false} ReachesThen(s: Task, steps: seq<Step>, t: Task, a: Step, u: Task)
    requires Reaches(s, steps, t) && Apply(t, a) == Some(u) && Guarded(t, a)
    ensures Reaches(s, steps + [a], u)
    decreases |steps|
  {
    hide Apply, Guarded;
    if steps == [] {
      assert (steps + [a])[1..] == [];
      assert Reaches(u, [], u);
    } else {
      ReachesThen(Apply(s, steps[0]).value, steps[1..], t, a, u);
      assert (steps + [a])[1..] == steps[1..] + [a];
    }
  }

  /** From a kept state guarded steps never reach a lost one. */
  lemma KeptNeverLost(s: Task)
    requires Kept(s)
    ensures !CanBeLost(s)
  {
    hide Reaches, Safe, Settled, Untouched, StreamOk, Covered;
    forall steps, t | Reaches(s, steps, t) ensures !Lost(t) {
      ReachesKept(s, steps, t);
    }
  }

  // ---- An unwinding execution on an active task ----

  /** Only execution `x` is left, and nothing else will come back to the task. */
  ghost predicate OnlyExec(s: Task, x: ExecId) {
    && Active(s.row.status)
    && !s.disturbed
    && s.dupAcks == {}
    && s.calls.Keys == {}
    && s.execs.Keys == {x}
    && s.stream.entries.Keys == {}
  }

  /** The next step on an unwinding execution's way out. */
  function WayOut(e: Exec): Action {
    if e.pc.CancelLog? then LogCancelled
    else if e.pc.FailLog? then LogFailed("{}")
    else if e.signalled then CancelArrives
    else if e.pc.CancelRead? then CancelReads
    else if e.pc.Cleanup? then FinalRead
    else ReleaseWorkspace
  }

  function StepsLeft(e: Exec): nat {
    if e.pc.Acked? then 0
    else if e.pc.Ended? then 1
    else if e.pc.Release? then 2
    else if e.pc.Cleanup? then 3
    else if e.pc.FailLog? || e.pc.CancelLog? then 4
    else if e.pc.CancelRead? && !e.signalled then 4
    else if InTry(e.pc) then 5
    else 4
  }

  lemma WayOutStep(row: Row, log: seq<Event>, runs: seq<ToolRun>, e: Exec)
    requires Active(row.status) && Unwinding(e) && !e.pc.Ended? && !e.pc.Acked?
    ensures ExecStep(row, log, runs, e, WayOut(e)).Some?
    ensures var l := ExecStep(row, log, runs, e, WayOut(e)).value;
      l.row == row && l.runs == [] && Unwinding(l.exec) && !l.exec.pc.Acked?
      && l.exec.entry == e.entry && StepsLeft(l.exec) < StepsLeft(e)
  {
  }

  /** An unwinding execution that is alone finishes, is acknowledged and leaves a lost task. */
  lemma {:induction false} UnwindsToLoss(s: Task, x: ExecId)
    requires OnlyExec(s, x) && Unwinding(s.execs[x])
    ensures CanBeLost(s)
    decreases StepsLeft(s.execs[x])
  {
    hide ExecStep, CanBeLost, Lost, Unwinding, CallStep, AfterCall;
    var e := s.execs[x];
    if e.pc.Acked? {
      PopLoses(s, x);
    } else if e.pc.Ended? {
      var t := SetExec(s.(stream := WorkQueue.Ack(s.stream, e.entry)), x, e.(pc := Acked));
      EndedIsAcked(s, x, t);
      UnwindsToLoss(t, x);
      LossAhead(s, AckItem(x), t);
    } else {
      WayOutStep(s.row, s.log, s.runs, e);
      var t := AfterExec(s, x, WayOut(e)).value;
      assert t.execs.Keys == {x};
      UnwindsToLoss(t, x);
      LossAhead(s, ExecDo(x, WayOut(e)), t);
    }
  }

  lemma EndedIsAcked(s: Task, x: ExecId, t: Task)
    requires OnlyExec(s, x) && Unwinding(s.execs[x]) && s.execs[x].pc.Ended?
    requires t == SetExec(s.(stream := WorkQueue.Ack(s.stream, s.execs[x].entry)), x, s.execs[x].(pc := Acked))
    ensures Apply(s, AckItem(x)) == Some(t) && Guarded(s, AckItem(x))
    ensures OnlyExec(t, x) && Unwinding(t.execs[x]) && StepsLeft(t.execs[x]) == 0
  {
    hide ExecStep, CallStep;
    assert t.execs.Keys == {x};
  }

  lemma PopLoses(s: Task, x: ExecId)
    requires OnlyExec(s, x) && s.execs[x].pc.Acked?
    ensures CanBeLost(s)
  {
    hide ExecStep, CallStep, CanBeLost;
    var t := DropExec(s, x);
    assert t.execs.Keys == {};
    LostNow(t);
    LossAhead(s, Pop(x), t);
  }

  // ---- Clearing everything else away ----

  /** The task while execution `x` is on its way out. */
  ghost predicate Leaving(s: Task, x: ExecId) {
    Safe(s) && Active(s.row.status) && x in s.execs && Unwinding(s.execs[x])
  }

  /** A step that leaves the row and execution `x` alone. */
  lemma StillLeaving(s: Task, x: ExecId, a: Step, t: Task)
    requires Leaving(s, x) && Apply(s, a) == Some(t)
    requires t.row == s.row && x in t.execs && t.execs[x] == s.execs[x]
    ensures Leaving(t, x)
  {
    hide Safe, Apply, Unwinding;
    StepKeepsSafe(s, a);
  }

  /** Another execution belongs to another process, which can crash. */
  lemma CrashOther(s: Task, x: ExecId, y: ExecId) returns (t: Task)
    requires Leaving(s, x) && y in s.execs && y != x
    ensures Apply(s, Crash(s.execs[y].proc)) == Some(t) && Leaving(t, x)
    ensures Guarded(s, Crash(s.execs[y].proc))
    ensures |t.execs| < |s.execs|
  {
    hide ExecStep, CallStep, Core, Unwinding;
    var p := s.execs[y].proc;
    assert p != s.execs[x].proc;
    t := CrashProcess(s, p);
    StillLeaving(s, x, Crash(p), t);
    assert t.execs.Keys <= s.execs.Keys - {y};
    Smaller(t.execs.Keys, s.execs.Keys - {y});
  }

  lemma Smaller(a: set<nat>, b: set<nat>)
    requires a <= b
    ensures |a| <= |b|
  {
    assert b == a + (b - a);
  }

  /** A request puts its entry if that is due, and dies otherwise. */
  lemma EndRequest(s: Task, x: ExecId, c: CallId) returns (a: Step, t: Task)
    requires Leaving(s, x) && c in s.calls
    ensures Apply(s, a) == Some(t) && Guarded(s, a) && Leaving(t, x)
    ensures t.execs == s.execs && t.disturbed == s.disturbed && |t.calls| < |s.calls|
  {
    hide ExecStep, CallStep, Safe, Unwinding, Signal;
    if s.calls[c].phase.PutDue? {
      a := CallDo(c);
      t := AfterCall(s, c);
    } else {
      a := CallDies(c);
      t := s.(calls := s.calls - {c});
    }
    StillLeaving(s, x, a, t);
    assert t.calls.Keys == s.calls.Keys - {c};
  }

  /** An entry delivered to the process of `x` is a duplicate and is acknowledged. */
  lemma DropEntry(s: Task, x: ExecId, en: EntryId) returns (y: ExecId, t: Task, u: Task)
    requires Leaving(s, x) && en in s.stream.entries && s.dupAcks == {}
    ensures var p := s.execs[x].proc;
      && Apply(s, Deliver(en, p, y)) == Some(t) && Guarded(s, Deliver(en, p, y))
      && Apply(t, DupAck(p, en)) == Some(u) && Guarded(t, DupAck(p, en))
    ensures Leaving(u, x) && u.dupAcks == {} && u.execs == s.execs && u.calls == s.calls && u.disturbed == s.disturbed
    ensures |u.stream.entries| < |s.stream.entries|
  {
    hide ExecStep, CallStep, Core, Unwinding;
    var p := s.execs[x].proc;
    y := Unused(s.execs.Keys);
    t := Receive(s, en, p, y);
    StillLeaving(s, x, Deliver(en, p, y), t);
    u := t.(stream := WorkQueue.Ack(t.stream, en), dupAcks := t.dupAcks - {(p, en)});
    StillLeaving(t, x, DupAck(p, en), u);
    assert u.stream.entries.Keys == s.stream.entries.Keys - {en};
  }

  lemma Unused(used: set<nat>) returns (n: nat)
    ensures n !in used
  {
    n := 0;
    var rest := used;
    while rest != {}
      invariant rest <= used
      invariant forall m :: m in used && m !in rest ==> m < n
      decreases rest
    {
      var m :| m in rest;
      rest := rest - {m};
      n := if m < n then n else m + 1;
    }
  }

  /** The next startup scan finds the active task and puts an entry for it. */
  lemma ScanAgain(s: Task, x: ExecId) returns (t: Task)
    requires Leaving(s, x) && s.calls.Keys == {} && s.disturbed
    ensures Apply(s, Reconcile(0, 0)) == Some(t) && Guarded(s, Reconcile(0, 0)) && Leaving(t, x)
    ensures t.execs == s.execs && !t.disturbed
  {
    hide ExecStep, CallStep, Safe, Unwinding;
    t := Scan(s, 0, 0);
    StillLeaving(s, x, Reconcile(0, 0), t);
  }

  lemma DropDuplicate(s: Task, x: ExecId, p: Proc, en: EntryId) returns (t: Task)
    requires Leaving(s, x) && (p, en) in s.dupAcks
    ensures Apply(s, DupAck(p, en)) == Some(t) && Guarded(s, DupAck(p, en)) && Leaving(t, x)
    ensures t.execs == s.execs && t.calls == s.calls && t.disturbed == s.disturbed
    ensures |t.dupAcks| < |s.dupAcks|
  {
    hide ExecStep, CallStep, Safe, Unwinding;
    t := s.(stream := WorkQueue.Ack(s.stream, en), dupAcks := s.dupAcks - {(p, en)});
    StillLeaving(s, x, DupAck(p, en), t);
  }

  /**
   * While an execution unwinds on an active task, everything that would still come back to
   * the task can be used up, whatever it is: the task can be lost.
   */
  lemma {:induction false} UnwindingLosesActive(s: Task, x: ExecId)
    requires Leaving(s, x)
    ensures CanBeLost(s)
    decreases |s.execs|, s.disturbed, |s.calls|, |s.dupAcks|, |s.stream.entries|
  {
    hide CanBeLost, Apply, Guarded, Safe, Unwinding;
    if y :| y in s.execs && y != x {
      var t := CrashOther(s, x, y);
      UnwindingLosesActive(t, x);
      LossAhead(s, Crash(s.execs[y].proc), t);
    } else if c :| c in s.calls {
      var a, t := EndRequest(s, x, c);
      UnwindingLosesActive(t, x);
      LossAhead(s, a, t);
    } else if s.disturbed {
      var t := ScanAgain(s, x);
      UnwindingLosesActive(t, x);
      LossAhead(s, Reconcile(0, 0), t);
    } else if d :| d in s.dupAcks {
      var t := DropDuplicate(s, x, d.0, d.1);
      UnwindingLosesActive(t, x);
      LossAhead(s, DupAck(d.0, d.1), t);
    } else if en :| en in s.stream.entries {
      var y, t, u := DropEntry(s, x, en);
      UnwindingLosesActive(u, x);
      LossAhead(t, DupAck(s.execs[x].proc, en), u);
      LossAhead(s, Deliver(en, s.execs[x].proc, y), t);
    } else {
      assert s.execs.Keys == {x};
      UnwindsToLoss(s, x);
    }
  }

  // ---- Retries ----

  /** The state right after `retry` in process `p` read the row and committed QUEUED. */
  function Retried(s: Task, c: CallId, p: Proc): Task
    requires s.row.status.Failed?
  {
    SetCall(Advance(s, Written(s.row, s.row, To(Queued)), [], []), c, p, Some(PutDue))
  }

  /** `Retried` is what the two steps of `retry` do. */
  lemma RetriedIsRetry(s: Task, c: CallId, p: Proc)
    requires s.row.status.Failed? && c !in s.calls
    ensures Apply(s, BeginRetry(c, p)).Some?
    ensures Apply(Apply(s, BeginRetry(c, p)).value, CallDo(c)) == Some(Retried(s, c, p))
  {
    hide ExecStep;
    var s1 := Apply(s, BeginRetry(c, p)).value;
    assert s1.calls[c] == Call(p, Retrying(s.row));
    assert AfterCall(s1, c).calls == Retried(s, c, p).calls;
  }

  lemma RetriedSafe(s: Task, c: CallId, p: Proc)
    requires Safe(s) && s.row.status.Failed? && c !in s.calls
    ensures Safe(Retried(s, c, p))
  {
    hide Safe, Apply, Retried;
    RetriedIsRetry(s, c, p);
    StepKeepsSafe(s, BeginRetry(c, p));
    StepKeepsSafe(Apply(s, BeginRetry(c, p)).value, CallDo(c));
  }

  lemma RetriedKept(s: Task, c: CallId, p: Proc)
    requires Kept(s) && s.row.status.Failed? && c !in s.calls && QuietForRetry(s)
    ensures Kept(Retried(s, c, p))
  {
    hide Kept, QuietForRetry, ExecStep, Retried, CallStep;
    RetriedIsRetry(s, c, p);
    BeginRetryQuiet(s, c, p);
    StepKeepsKept(s, BeginRetry(c, p));
    StepKeepsKept(Apply(s, BeginRetry(c, p)).value, CallDo(c));
  }

  lemma BeginRetryQuiet(s: Task, c: CallId, p: Proc)
    requires QuietForRetry(s) && s.row.status.Failed? && c !in s.calls
    ensures Guarded(s, BeginRetry(c, p))
    ensures Guarded(Apply(s, BeginRetry(c, p)).value, CallDo(c))
  {
    hide ExecStep, CallStep, Unwinding;
    assert QuietForRetry(SetCall(s, c, p, Some(Retrying(s.row))));
  }

  /** The signal of request `d` reaches the execution `y` of its process, which then unwinds. */
  lemma SignalReaches(s: Task, d: CallId, y: ExecId)
    requires Safe(s) && Active(s.row.status) && d in s.calls && s.calls[d].phase.Signalling?
    requires s.calls[d].proc in s.running && s.running[s.calls[d].proc] == y
    requires y in s.execs && !s.execs[y].pc.Ended? && !s.execs[y].pc.Acked?
    ensures CanBeLost(s)
  {
    hide ExecStep, CallStep, Safe, CanBeLost;
    var t := AfterCall(s, d);
    StepKeepsSafe(s, CallDo(d));
    assert Unwinding(t.execs[y]);
    UnwindingLosesActive(t, y);
    LossAhead(s, CallDo(d), t);
  }

  /** A cancel that has not signalled yet can always hit an execution of the active task. */
  lemma {:induction false} SignallingLosesActive(s: Task, d: CallId)
    requires Safe(s) && Active(s.row.status) && d in s.calls && s.calls[d].phase.Signalling?
    ensures CanBeLost(s)
    decreases |s.execs|, s.stream.entries.Keys == {}
  {
    hide CanBeLost, Core, ExecStep, CallStep;
    var q := s.calls[d].proc;
    if q in s.running {
      var y := s.running[q];
      if Unwinding(s.execs[y]) {
        UnwindingLosesActive(s, y);
      } else if s.execs[y].pc.Ended? {
        var t := DeadWorker(s, y);
        SignallingLosesActive(t, d);
        LossAhead(s, WorkerDies(y), t);
      } else {
        SignalReaches(s, d, y);
      }
    } else if en :| en in s.stream.entries {
      var y := Unused(s.execs.Keys);
      var t := Receive(s, en, q, y);
      StepKeepsSafe(s, Deliver(en, q, y));
      SignalReaches(t, d, y);
      LossAhead(s, Deliver(en, q, y), t);
    } else {
      var c, t, u := ScanPuts(s, q);
      SignallingLosesActive(u, d);
      LossAhead(t, CallDo(c), u);
      LossAhead(s, Reconcile(c, q), t);
    }
  }

  lemma DeadWorker(s: Task, y: ExecId) returns (t: Task)
    requires Safe(s) && y in s.execs && s.execs[y].pc.Ended? && !Unwinding(s.execs[y])
    ensures Apply(s, WorkerDies(y)) == Some(t) && Guarded(s, WorkerDies(y)) && Safe(t)
    ensures t.row == s.row && t.calls == s.calls && |t.execs| < |s.execs|
  {
    hide Safe, ExecStep, CallStep;
    t := Disturb(DropExec(s, y));
    StepKeepsSafe(s, WorkerDies(y));
    assert t.execs.Keys == s.execs.Keys - {y};
  }

  lemma ScanPuts(s: Task, q: Proc) returns (c: CallId, t: Task, u: Task)
    requires Safe(s) && Active(s.row.status)
    ensures Apply(s, Reconcile(c, q)) == Some(t) && Guarded(s, Reconcile(c, q))
    ensures Apply(t, CallDo(c)) == Some(u) && Guarded(t, CallDo(c)) && Safe(u)
    ensures u.row == s.row && u.execs == s.execs && u.stream.entries.Keys != {}
    ensures forall d :: d in s.calls ==> d in u.calls && u.calls[d] == s.calls[d]
  {
    hide Safe, ExecStep, CallStep;
    c := Unused(s.calls.Keys);
    t := Scan(s, c, q);
    StepKeepsSafe(s, Reconcile(c, q));
    u := AfterCall(t, c);
    StepKeepsSafe(t, CallDo(c));
    assert s.stream.next in u.stream.entries;
  }

  /** The retry's entry reaches the process that is still unwinding and is dropped as a duplicate. */
  lemma RetryMeetsUnwinding(s: Task, x: ExecId, c: CallId, p: Proc)
    requires Safe(s) && s.row.status.Failed? && c !in s.calls
    requires x in s.execs && Unwinding(s.execs[x])
    ensures CanBeLost(Retried(s, c, p))
  {
    hide CanBeLost, Safe, Unwinding;
    RetriedSafe(s, c, p);
    UnwindingLosesActive(Retried(s, c, p), x);
  }

  /** The cancel signals an execution that the retry's own entry starts. */
  lemma RetryMeetsSignal(s: Task, d: CallId, c: CallId, p: Proc)
    requires Safe(s) && s.row.status.Failed? && c !in s.calls
    requires d in s.calls && s.calls[d].phase.Signalling?
    ensures CanBeLost(Retried(s, c, p))
  {
    hide CanBeLost, Safe;
    RetriedSafe(s, c, p);
    SignallingLosesActive(Retried(s, c, p), d);
  }

  /**
   * In every kept state of a FAILED task, retrying now can end in a lost task if and only if
   * an execution is unwinding or a cancel is about to signal.
   */
  lemma RetryLosesWorkExactly(s: Task, c: CallId, p: Proc)
    requires Kept(s) && s.row.status.Failed? && c !in s.calls
    ensures CanBeLost(Retried(s, c, p)) <==> !QuietForRetry(s)
  {
    KeptIsSafe(s);
    if QuietForRetry(s) {
      RetriedKept(s, c, p);
      KeptNeverLost(Retried(s, c, p));
    } else {
      hide CanBeLost, Unwinding, Kept, Safe, Retried;
      if x :| x in s.execs && Unwinding(s.execs[x]) {
        RetryMeetsUnwinding(s, x, c, p);
      } else {
        var d :| d in s.calls && s.calls[d].phase.Signalling?;
        RetryMeetsSignal(s, d, c, p);
      }
    }
  }

  // ---- Swallowed errors ----

  /**
   * The failure handler catches KeyError and RuntimeError and returns. In every kept state
   * the task can be lost by that if and only if its row is still QUEUED, PROVISIONING or
   * RUNNING at that moment.
   */
  lemma SwallowLosesWorkExactly(s: Task, x: ExecId)
    requires Kept(s) && x in s.execs && InFailHandler(s.execs[x].pc)
    ensures Apply(s, ExecDo(x, HandlerSwallows)).Some?
    ensures CanBeLost(Apply(s, ExecDo(x, HandlerSwallows)).value) <==> Active(s.row.status)
  {
    hide CanBeLost, Kept, Safe;
    var t := Apply(s, ExecDo(x, HandlerSwallows)).value;
    KeptIsSafe(s);
    StepKeepsSafe(s, ExecDo(x, HandlerSwallows));
    assert t.row == s.row && Unwinding(t.execs[x]);
    if Active(s.row.status) {
      UnwindingLosesActive(t, x);
    } else {
      StepKeepsKept(s, ExecDo(x, HandlerSwallows));
      KeptNeverLost(t);
    }
  }

  // ---- Requests that die before their put ----

  /** Nothing but the put of request `c` will bring anybody back to the task. */
  ghost predicate OnlyPut(s: Task, c: CallId) {
    && !s.disturbed
    && s.execs.Keys == {}
    && (forall en :: en in s.stream.entries ==> exists p :: (p, en) in s.dupAcks)
    && (forall d :: d in s.calls && d != c ==> !s.calls[d].phase.PutDue?)
  }

  /**
   * A submit, retry or scan that fails between its commit or read and its put can lose the
   * task if and only if the task is active and that put was all there was to bring it back.
   */
  lemma DroppedPutLosesWorkExactly(s: Task, c: CallId)
    requires Kept(s) && c in s.calls && s.calls[c].phase.PutDue?
    ensures Apply(s, CallDies(c)).Some?
    ensures CanBeLost(Apply(s, CallDies(c)).value) <==> Active(s.row.status) && OnlyPut(s, c)
  {
    hide CanBeLost, Safe, ExecStep, CallStep;
    var t := s.(calls := s.calls - {c});
    KeptIsSafe(s);
    StepKeepsSafe(s, CallDies(c));
    if Active(s.row.status) && OnlyPut(s, c) {
      LostNow(t);
    } else {
      if Active(s.row.status) {
        StillCovered(s, c);
      }
      KeptNeverLost(t);
    }
  }

  lemma StillCovered(s: Task, c: CallId)
    requires Settled(s) && Active(s.row.status) && !OnlyPut(s, c)
    ensures Covered(s.(calls := s.calls - {c}))
  {
    hide Unwinding;
    var t := s.(calls := s.calls - {c});
    if en :| en in s.stream.entries && forall p :: (p, en) !in s.dupAcks {
      assert Outstanding(t, en);
    } else if x :| x in s.execs {
      assert !Unwinding(t.execs[x]);
    } else if d :| d in s.calls && d != c && s.calls[d].phase.PutDue? {
      assert t.calls[d].phase.PutDue?;
    }
  }
}
