/**
 * The orchestrator's coroutines as code (src/minion/orchestrator.py): `_execute` with its
 * handlers, `_worker_loop`, `retry`, `cancel` and the startup scan, for one task. Everything
 * else may happen at each await. `Valid` says that the state reached is one the transition
 * system of `Protocol` reaches by the recorded steps, so its theorems hold of this code.
 */
module Orchestration {
  import opened Prelude
  import opened TaskStates
  import opened TaskRepository
  import opened Events
  import opened Protocol
  import opened ProtocolSafety
  import opened Undisturbed
  import LifecycleRuns
  import WorkQueue

  /** `steps` lead from `s` to `t`. */
  ghost predicate Leads(s: Task, steps: seq<Step>, t: Task)
    decreases |steps|
  {
    if steps == [] then s == t
    else
      var n := |steps| - 1;
      exists m :: Leads(s, steps[..n], m) && Apply(m, steps[n]) == Some(t)
  }

  lemma LeadsFurther(s: Task, steps: seq<Step>, t: Task, a: Step, u: Task)
    requires Leads(s, steps, t) && Apply(t, a) == Some(u)
    ensures Leads(s, steps + [a], u)
  {
    hide Apply;
    assert (steps + [a])[..|steps|] == steps;
  }

  /** What a suspended coroutine relies on. */
  datatype Focus =
    | OnExec(x: ExecId)
    | OnCall(c: CallId)
    | OnDuplicate(p: Proc, en: EntryId)

  /** A step of somebody else; a crash of the own process ends the coroutine instead. */
  predicate ByOthers(s: Task, a: Step, f: Focus) {
    match a
    case ExecDo(x, _) => f != OnExec(x)
    case AckItem(x) => f != OnExec(x)
    case AckFails(x) => f != OnExec(x)
    case Pop(x) => f != OnExec(x)
    case WorkerDies(x) => f != OnExec(x)
    case CallDo(c) => f != OnCall(c)
    case CallDies(c) => f != OnCall(c)
    case DupAck(p, en) => f != OnDuplicate(p, en)
    case DupAckFails(p, en) => f != OnDuplicate(p, en)
    case Crash(p) =>
      match f {
        case OnExec(x) => x in s.execs && s.execs[x].proc != p
        case OnCall(c) => c in s.calls && s.calls[c].proc != p
        case OnDuplicate(q, _) => q != p
      }
    case _ => true
  }

  /** The same coroutine, to which at most a cancellation has been sent. */
  predicate SameExec(e: Exec, e': Exec) {
    e' == e.(signalled := e'.signalled) && (e.signalled ==> e'.signalled)
  }

  predicate Holds(s: Task, f: Focus) {
    match f
    case OnExec(x) => x in s.execs
    case OnCall(c) => c in s.calls
    case OnDuplicate(p, en) => (p, en) in s.dupAcks
  }

  predicate Untouched(s: Task, t: Task, f: Focus)
    requires Holds(s, f)
  {
    Holds(t, f) &&
    match f
    case OnExec(x) => SameExec(s.execs[x], t.execs[x])
    case OnCall(c) => t.calls[c] == s.calls[c]
    case OnDuplicate(_, _) => true
  }

  lemma OthersLeaveAlone(s: Task, a: Step, f: Focus)
    requires Holds(s, f) && ByOthers(s, a, f) && Apply(s, a).Some?
    ensures Untouched(s, Apply(s, a).value, f)
  {
    hide Apply, Holds, ByOthers;
    match f {
      case OnExec(x) => OthersLeaveExec(s, a, x);
      case OnCall(c) => OthersLeaveCall(s, a, c);
      case OnDuplicate(p, en) => OthersLeaveDuplicate(s, a, p, en);
    }
  }

  lemma OthersLeaveExec(s: Task, a: Step, x: ExecId)
    requires Holds(s, OnExec(x)) && ByOthers(s, a, OnExec(x)) && Apply(s, a).Some?
    ensures Untouched(s, Apply(s, a).value, OnExec(x))
  {
    hide ExecStep, CallStep, Relocated, CanObtain, InSlotOf;
  }

  lemma OthersLeaveCall(s: Task, a: Step, c: CallId)
    requires Holds(s, OnCall(c)) && ByOthers(s, a, OnCall(c)) && Apply(s, a).Some?
    ensures Untouched(s, Apply(s, a).value, OnCall(c))
  {
    hide ExecStep, CallStep, Relocated, CanObtain, InSlotOf;
  }

  lemma OthersLeaveDuplicate(s: Task, a: Step, p: Proc, en: EntryId)
    requires Holds(s, OnDuplicate(p, en)) && ByOthers(s, a, OnDuplicate(p, en)) && Apply(s, a).Some?
    ensures Untouched(s, Apply(s, a).value, OnDuplicate(p, en))
  {
    hide ExecStep, CallStep, Relocated, CanObtain, InSlotOf;
  }

  /** History and log only grow. */
  ghost predicate Later(s: Task, t: Task) {
    s.history <= t.history && s.log <= t.log && s.id == t.id
  }

  lemma LaterReflexive(s: Task)
    ensures Later(s, s)
  {
  }

  lemma StepIsLater(s: Task, t: Task, a: Step)
    requires Later(s, t) && Apply(t, a).Some?
    ensures Later(s, Apply(t, a).value)
  {
    hide Apply;
    LifecycleRuns.StepGrows(t, a);
    StepKeepsId(t, a);
  }

  lemma StepKeepsId(t: Task, a: Step)
    requires Apply(t, a).Some?
    ensures Apply(t, a).value.id == t.id
  {
    hide ExecStep, CallStep, Relocated, CanObtain, InSlotOf;
  }

  /** How a stretch of code is left: to its end, by an exception or by a cancellation. */
  datatype Thrown = Nothing | Error | Cancel

  // ---- Single steps, one action at a time ----

  lemma StepFinalRead(row: Row, log: seq<Event>, runs: seq<ToolRun>, e: Exec)
    requires e.pc.Cleanup?
    ensures ExecStep(row, log, runs, e, FinalRead) == Some(Local(
      e.(pc := if e.ws.None? then Ended(e.pc.out) else Release(e.pc.out, Absorbing(row.status))), row, [], []))
  {
  }

  lemma StepRelease(row: Row, log: seq<Event>, runs: seq<ToolRun>, e: Exec)
    requires e.pc.Release?
    ensures ExecStep(row, log, runs, e, ReleaseWorkspace) == Some(Local(e.(pc := Ended(e.pc.out)), row, [], []))
    ensures e.signalled ==>
      ExecStep(row, log, runs, e, CancelArrives) == Some(Local(e.(signalled := false, pc := Ended(CancelRaised)), row, [], []))
  {
  }

  lemma StepFailReads(row: Row, log: seq<Event>, runs: seq<ToolRun>, e: Exec)
    requires e.pc.FailRead?
    ensures ExecStep(row, log, runs, e, FailReads) == Some(Local(
      e.(view := row, pc := if Terminal(row.status) then Cleanup(Returned) else FailWrite), row, [], []))
  {
  }

  lemma StepBind(row: Row, log: seq<Event>, runs: seq<ToolRun>, e: Exec)
    requires e.pc.Bind?
    ensures ExecStep(row, log, runs, e, BindTask) == Some(
      if e.view.status.Provisioning? then Update(row, e, Change(Running, e.ws, None, None), Work, FailRead)
      else if e.view.status.Running? && e.view.env != e.ws then
        Local(e.(view := e.view.(env := e.ws), pc := Work), row.(env := e.ws), [], [])
      else Local(e.(pc := Work), row, [], []))
  {
  }

  lemma BindCommits(row: Row, ws: Option<EnvId>)
    ensures ws.Some? && row.status.Provisioning? ==>
      CanTransition(row.status, Running) && Commit(row, row, Change(Running, ws, None, None)) == Ok(BoundRow(row, ws))
    ensures row.status.Running? ==> BoundRow(row, ws) == row.(env := ws) && (row.env == ws ==> BoundRow(row, ws) == row)
    ensures !row.status.Running? && !row.status.Provisioning? ==> BoundRow(row, ws) == row
    ensures forall view, next :: Commit(row, view, Change(Running, ws, None, None)) == Ok(next) && ws.Some? ==>
      next.status.Running? && next.env == ws
  {
  }

  lemma StepObtain(row: Row, log: seq<Event>, runs: seq<ToolRun>, e: Exec, env: EnvId)
    requires e.pc.Prepare?
    ensures ExecStep(row, log, runs, e, Obtain(env)) == Some(Local(
      e.(ws := Some(env), pc := if e.view.env == Some(env) then Bind else Announce), row, [], []))
    ensures ExecStep(row, log, runs, e, Raise) == Some(Local(e.(pc := FailRead), row, [], []))
  {
  }

  lemma StepWork(row: Row, log: seq<Event>, runs: seq<ToolRun>, e: Exec)
    requires e.pc.Work?
    ensures forall tool, ok :: tool !in CONTROL_TOOLS ==>
      ExecStep(row, log, runs, e, RunTool(tool, ok)) == Some(Local(e.(held := e.held + [|runs|]), row, [], [ToolRun(tool, ok)]))
    ensures forall k: nat, json, output :: k < |e.held| && e.held[k] < |runs| ==>
      ExecStep(row, log, runs, e, RecordTool(k, json, output))
      == Some(Local(e, row, [ToolEvent(runs[e.held[k]], json, output)], []))
    ensures forall name, json, output :: name in CONTROL_TOOLS ==>
      ExecStep(row, log, runs, e, RecordControl(name, json, output))
      == Some(Local(e, row, [Event(ToolCompleted, json, name, true, output)], []))
  {
  }

  lemma StepEnqueue(row: Row, phase: Phase)
    requires phase.Submitting? || phase.Retrying?
    ensures CallStep(row, phase) ==
      if CanTransition(phase.view.status, Queued) && row.version == phase.view.version
      then CallLocal(Some(PutDue), Written(row, phase.view, To(Queued)), []) else CallLocal(None, row, [])
  {
  }

  lemma StepFinalizing(row: Row, phase: Phase)
    requires phase.Finalizing?
    ensures CallStep(row, phase) ==
      if CanTransition(phase.view.status, Cancelled) && row.version == phase.view.version
      then CallLocal(Some(Reporting), Written(row, phase.view, To(Cancelled)), []) else CallLocal(None, row, [])
    ensures CallStep(row, Reporting) == CallLocal(None, row, [Plain(TaskCancelled)])
  {
  }

  class Orchestrator {
    const process: Proc
    /** Row, log, stream and coroutines of the task. */
    var task: Task
    ghost var trace: seq<Step>
    ghost const origin: Task
    /** Nobody else acts, no await raises, and a look-up finds what is there. */
    const undisturbed: bool

    ghost predicate Valid()
      reads this
    {
      Safe(task) && Leads(origin, trace, task)
    }

    /** The creating request of a new task, in this process. */
    constructor (process: Proc, id: TaskId, c: CallId, undisturbed: bool)
      ensures Valid() && this.process == process && origin == NewTask(id, process, c) && task == origin
      ensures this.undisturbed == undisturbed
    {
      this.process := process;
      this.undisturbed := undisturbed;
      task := NewTask(id, process, c);
      trace := [];
      origin := NewTask(id, process, c);
      new;
      NewTaskSafe(id, process, c);
    }

    /** The code has just done what step `a` describes. */
    ghost method Took(before: Task, a: Step)
      requires Safe(before) && Leads(origin, trace, before)
      requires Apply(before, a) == Some(task)
      modifies `trace
      ensures Valid() && trace == old(trace) + [a]
    {
      hide Apply, Safe, Leads;
      StepKeepsSafe(before, a);
      LeadsFurther(origin, trace, before, a, task);
      trace := trace + [a];
    }

    /** Anything others do while this coroutine is suspended. */
    method Suspend(f: Focus)
      requires Valid() && Holds(task, f)
      modifies this
      ensures Valid() && Holds(old(task), f) && Untouched(old(task), task, f)
      ensures Later(old(task), task)
      ensures undisturbed ==> task == old(task)
    {
      hide Apply, Safe, Leads, Untouched, ByOthers, Holds, Later;
      var steps: seq<Step> := *;
      steps := if undisturbed then [] else steps;
      UntouchedReflexive(task, f);
      LaterReflexive(task);
      for i := 0 to |steps|
        invariant Valid() && Holds(old(task), f) && Untouched(old(task), task, f) && Holds(task, f)
        invariant Later(old(task), task)
        invariant undisturbed ==> task == old(task)
      {
        if ByOthers(task, steps[i], f) {
          match Apply(task, steps[i]) {
            case None =>
            case Some(next) =>
              ghost var before := task;
              OthersLeaveAlone(task, steps[i], f);
              UntouchedTransitive(old(task), task, next, f);
              StepIsLater(old(task), task, steps[i]);
              task := next;
              Took(before, steps[i]);
          }
        }
      }
    }

    /** An await of execution x. */
    method Await(x: ExecId)
      requires Valid() && x in task.execs
      modifies this
      ensures Valid() && Onward(old(task), task, x)
      ensures SameExec(old(task.execs[x]), task.execs[x])
      ensures undisturbed ==> task == old(task)
    {
      hide Safe, Leads, Later, Relocated, CanObtain;
      Suspend(OnExec(x));
    }

    /** One stretch of execution x up to its next await: row, events, tool runs and itself move. */
    method Perform(x: ExecId, l: Local, a: Action)
      requires Valid() && x in task.execs
      requires ExecStep(task.row, task.log, task.runs, task.execs[x], a) == Some(l)
      requires a.Obtain? ==> CanObtain(task.places, task.execs[x], a.env)
      modifies this
      ensures Valid() && Onward(old(task), task, x)
      ensures task == SetExec(Advance(old(task), l.row, l.emit, l.runs), x, l.exec).(
        places := Relocated(old(task).places, x, old(task).execs[x], a))
      ensures Did(old(task), task, x, l.row, l.emit, Relocated(old(task).places, x, old(task).execs[x], a))
      ensures KeepsPlaces(a) ==> task.places == old(task).places && Did(old(task), task, x, l.row, l.emit, old(task).places)
      ensures task.execs[x] == l.exec
    {
      hide Safe, Leads, ExecStep, Later, CanObtain;
      ghost var before := task;
      ExecKeepsProcess(task.row, task.log, task.runs, task.execs[x], a);
      LaterReflexive(task);
      StepIsLater(task, task, ExecDo(x, a));
      task := SetExec(Advance(task, l.row, l.emit, l.runs), x, l.exec).(places := Relocated(task.places, x, task.execs[x], a));
      Took(before, ExecDo(x, a));
    }

    /** `tasks.transition` on the row this execution has in its session. */
    method Transition(x: ExecId, c: Change, onOk: Pc, onError: Pc, a: Action) returns (ok: bool)
      requires Valid() && x in task.execs
      requires ExecStep(task.row, task.log, task.runs, task.execs[x], a)
        == Some(Update(task.row, task.execs[x], c, onOk, onError))
      requires KeepsPlaces(a)
      modifies this
      ensures Valid() && Onward(old(task), task, x)
      ensures ok ==>
        && task.row.status == c.target && Commit(old(task.row), old(task.execs[x]).view, c) == Ok(task.row)
        && task.history == Recorded(old(task.history), old(task.row), task.row)
        && task.execs[x] == old(task.execs[x]).(view := task.row, pc := onOk)
      ensures !ok ==>
        && task.row == old(task.row) && task.history == old(task.history)
        && task.execs[x] == old(task.execs[x]).(pc := onError)
      ensures task.log == old(task.log) && task.places == old(task.places)
      ensures ok <==> CanTransition(old(task).execs[x].view.status, c.target) && old(task).row.version == old(task).execs[x].view.version
      ensures Did(old(task), task, x, task.row, [], old(task).places)
    {
      hide Safe, Leads, ExecStep, Later, Did, Relocated, CanObtain;
      var e := task.execs[x];
      ok := CanTransition(e.view.status, c.target) && task.row.version == e.view.version;
      if ok {
        var next := Written(task.row, e.view, c);
        Perform(x, Local(e.(view := next, pc := onOk), next, [], []), a);
      } else {
        Perform(x, Local(e.(pc := onError), task.row, [], []), a);
      }
    }

    /** An await inside the try block: any exception or a cancellation may come out of it. */
    method Interrupt(x: ExecId) returns (t: Thrown)
      requires Valid() && x in task.execs && InTry(task.execs[x].pc)
      modifies this
      ensures Valid() && Onward(old(task), task, x)
      ensures match t
        case Nothing => SameExec(old(task.execs[x]), task.execs[x])
        case Error => task.execs[x].pc.FailRead?
        case Cancel => task.execs[x].pc.CancelRead?
      ensures task.execs[x].ws == old(task.execs[x]).ws && task.execs[x].view == old(task.execs[x]).view
      ensures undisturbed ==> t.Nothing? && task == old(task)
    {
      hide Safe, Leads, Later, Did, Relocated, CanObtain;
      Await(x);
      ghost var seen := task;
      var e := task.execs[x];
      t := *;
      t := if undisturbed then Nothing else t;
      if t.Error? {
        Perform(x, Local(e.(pc := FailRead), task.row, [], []), Raise);
      } else if t.Cancel? && e.signalled {
        Perform(x, Local(e.(signalled := false, pc := CancelRead), task.row, [], []), CancelArrives);
      } else {
        t := Nothing;
        OnwardReflexive(task, x);
      }
      OnwardTransitive(old(task), seen, task, x);
    }

    /** The initial read: a task that is over is left alone. */
    method ReadFirst(x: ExecId) returns (t: Thrown, over: bool)
      requires Valid() && x in task.execs && task.execs[x].pc.Start?
      modifies this
      ensures Valid() && Onward(old(task), task, x) && ThrownAt(t, task.execs[x])
      ensures t.Nothing? && over ==> task.execs[x].pc == Cleanup(Returned) && EverTerminal(task.history)
      ensures t.Nothing? && !over ==> task.execs[x].pc == if task.execs[x].view.status.Queued? then Claim else Prepare
      ensures t.Nothing? ==> task.execs[x].view == task.row && (over <==> Terminal(task.row.status))
      ensures undisturbed ==>
        && t.Nothing? && task.row == old(task).row && task.execs[x].ws == old(task).execs[x].ws
        && Did(old(task), task, x, old(task).row, [], old(task).places)
    {
      hide Safe, Leads, Later, Did, Relocated, CanObtain;
      over := false;
      t := Interrupt(x);
      if t.Nothing? {
        ghost var seen := task;
        var view := task.row;
        over := Terminal(view.status);
        SeenTerminal(task);
        var next := if over then Cleanup(Returned) else if view.status.Queued? then Claim else Prepare;
        Perform(x, Local(task.execs[x].(view := view, pc := next), view, [], []), ReadTask);
        OnwardTransitive(old(task), seen, task, x);
      }
    }

    /** QUEUED -> PROVISIONING. */
    method ClaimQueued(x: ExecId) returns (t: Thrown)
      requires Valid() && x in task.execs && task.execs[x].pc.Claim?
      modifies this
      ensures Valid() && Onward(old(task), task, x) && ThrownAt(t, task.execs[x])
      ensures t.Nothing? ==>
        && task.execs[x].pc.Prepare?
        && task.row.status.Provisioning? && task.execs[x].view == task.row
      ensures undisturbed && old(task).row.status.Queued? && old(task).execs[x].view == old(task).row ==>
        && t.Nothing? && task.execs[x].ws == old(task).execs[x].ws
        && Did(old(task), task, x, old(task).row.(status := Provisioning, version := old(task).row.version + 1), [], old(task).places)
    {
      hide Safe, Leads, Later, Did, Relocated, CanObtain;
      t := Interrupt(x);
      if t.Nothing? {
        ghost var seen := task;
        var ok := Transition(x, To(Provisioning), Prepare, FailRead, ClaimTask);
        OnwardTransitive(old(task), seen, task, x);
        t := if ok then Nothing else Error;
      }
    }

    /**
     * `attach` of the environment the row names, if its directory is found and can still be
     * moved, or `allocate` under a new identifier and the event that reports it.
     */
    method GetWorkspace(x: ExecId) returns (t: Thrown)
      requires Valid() && x in task.execs && task.execs[x].pc.Prepare?
      modifies this
      ensures Valid() && Onward(old(task), task, x) && ThrownAt(t, task.execs[x])
      ensures t.Nothing? ==>
        && task.execs[x].pc.Bind? && task.execs[x].ws.Some?
        && task.execs[x].view == old(task.execs[x]).view
        && (task.execs[x].ws != task.execs[x].view.env ==>
              task.log != [] && task.log[|task.log| - 1] == Plain(EnvironmentAllocated))
      ensures undisturbed ==> t.Nothing? && Provided(old(task), task, x) && task.row == old(task).row
    {
      hide Safe, Leads, Later, Did, ExecStep;
      t := Interrupt(x);
      if t.Nothing? {
        ghost var seen := task;
        var e := task.execs[x];
        var found: bool := *;
        found := if undisturbed then e.view.env.Some? && CanObtain(task.places, e, e.view.env.value) else found;
        if e.view.env.Some? && found {
          if CanObtain(task.places, e, e.view.env.value) {
            StepObtain(task.row, task.log, task.runs, e, e.view.env.value);
            Perform(x, Local(e.(ws := e.view.env, pc := Bind), task.row, [], []), Obtain(e.view.env.value));
          } else {
            StepObtain(task.row, task.log, task.runs, e, 0);
            Perform(x, Local(e.(pc := FailRead), task.row, [], []), Raise);
            t := Error;
          }
        } else {
          t := AllocateWorkspace(x);
        }
        OnwardTransitive(old(task), seen, task, x);
      }
    }

    /** `allocate`, under an identifier never used before. */
    method AllocateWorkspace(x: ExecId) returns (t: Thrown)
      requires Valid() && x in task.execs && task.execs[x].pc.Prepare?
      modifies this
      ensures Valid() && Onward(old(task), task, x) && ThrownAt(t, task.execs[x])
      ensures task.execs[x].view == old(task.execs[x]).view
      ensures t.Nothing? ==>
        && task.execs[x].pc.Bind? && task.execs[x].ws.Some?
        && task.log != [] && task.log[|task.log| - 1] == Plain(EnvironmentAllocated)
      ensures undisturbed ==>
        && t.Nothing? && task.row == old(task).row && task.execs[x].ws.Some?
        && task.execs[x].ws.value !in old(task).places
        && Did(old(task), task, x, old(task).row, [Plain(EnvironmentAllocated)],
               old(task).places[task.execs[x].ws.value := InSlot(x)])
    {
      hide Safe, Leads, Later, Did, ExecStep;
      var e := task.execs[x];
      FreshExists(task.places, e);
      var env: EnvId :| e.view.env != Some(env) && CanObtain(task.places, e, env);
      StepObtain(task.row, task.log, task.runs, e, env);
      Perform(x, Local(e.(ws := Some(env), pc := Announce), task.row, [], []), Obtain(env));
      ghost var obtained := task;
      t := AnnounceWorkspace(x);
      OnwardTransitive(old(task), obtained, task, x);
      if undisturbed {
        DidThen(old(task), obtained, task, x);
      }
    }

    /** The append after an allocation; if it raises, the workspace is there and still to be released. */
    method AnnounceWorkspace(x: ExecId) returns (t: Thrown)
      requires Valid() && x in task.execs && task.execs[x].pc.Announce?
      modifies this
      ensures Valid() && Onward(old(task), task, x) && ThrownAt(t, task.execs[x])
      ensures task.execs[x].ws == old(task.execs[x]).ws && task.execs[x].view == old(task.execs[x]).view
      ensures t.Nothing? ==>
        && task.execs[x].pc.Bind?
        && task.log != [] && task.log[|task.log| - 1] == Plain(EnvironmentAllocated)
      ensures undisturbed ==>
        && t.Nothing? && task.row == old(task).row
        && Did(old(task), task, x, old(task).row, [Plain(EnvironmentAllocated)], old(task).places)
    {
      hide Safe, Leads, Later, Did, Relocated, CanObtain;
      t := Interrupt(x);
      if t.Nothing? {
        ghost var seen := task;
        Perform(x, Local(task.execs[x].(pc := Bind), task.row, [Plain(EnvironmentAllocated)], []), LogAllocated);
        OnwardTransitive(old(task), seen, task, x);
      }
    }

    /** PROVISIONING -> RUNNING, or a resumed task gets the new environment. */
    method BindWorkspace(x: ExecId) returns (t: Thrown)
      requires Valid() && x in task.execs && task.execs[x].pc.Bind? && task.execs[x].ws.Some?
      modifies this
      ensures Valid() && Onward(old(task), task, x) && ThrownAt(t, task.execs[x])
      ensures t.Nothing? ==> task.execs[x].pc.Work?
      ensures t.Nothing? && old(task.execs[x]).view.status.Provisioning? ==>
        task.row.status.Running? && task.row.env == task.execs[x].ws
      ensures t.Nothing? && old(task.execs[x]).view.status.Running? ==>
        task.execs[x].view.env == task.execs[x].ws
      ensures undisturbed && old(task).execs[x].view == old(task).row ==>
        && t.Nothing? && task.execs[x].view == task.row && task.execs[x].ws == old(task).execs[x].ws
        && Did(old(task), task, x, BoundRow(old(task).row, old(task).execs[x].ws), [], old(task).places)
    {
      hide Safe, Leads, Later, Did, Relocated, CanObtain, ExecStep, Commit, CanTransition, BoundRow;
      t := Interrupt(x);
      if t.Nothing? {
        ghost var seen := task;
        var e := task.execs[x];
        BindCommits(task.row, e.ws);
        StepBind(task.row, task.log, task.runs, e);
        if e.view.status.Provisioning? {
          var ok := Transition(x, Change(Running, e.ws, None, None), Work, FailRead, BindTask);
          t := if ok then Nothing else Error;
        } else if e.view.status.Running? && e.view.env != e.ws {
          Perform(x, Local(e.(view := e.view.(env := e.ws), pc := Work), task.row.(env := e.ws), [], []), BindTask);
        } else {
          Perform(x, Local(e.(pc := Work), task.row, [], []), BindTask);
        }
        OnwardTransitive(old(task), seen, task, x);
      }
    }

    /** One thing the agent does: a tool runs, or a result is recorded. */
    method AgentActs(x: ExecId, a: Action)
      requires Valid() && x in task.execs && task.execs[x].pc.Work?
      modifies this
      ensures Valid() && Onward(old(task), task, x) && task.execs[x].pc.Work?
      ensures OnlyWorked(old(task), task, x) && task.row == old(task).row && task.execs[x].view == old(task).execs[x].view
    {
      hide Safe, Leads, Later, Relocated, CanObtain, ExecStep, Did, OnlyWorked;
      var e := task.execs[x];
      WorkedNothing(task, x);
      StepWork(task.row, task.log, task.runs, e);
      var l: Option<Local> := None;
      match a {
        case RunTool(tool, ok) =>
          if tool !in CONTROL_TOOLS {
            l := Some(Local(e.(held := e.held + [|task.runs|]), task.row, [], [ToolRun(tool, ok)]));
          }
        case RecordTool(k, json, output) =>
          if k < |e.held| && e.held[k] < |task.runs| {
            l := Some(Local(e, task.row, [ToolEvent(task.runs[e.held[k]], json, output)], []));
          }
        case RecordControl(name, json, output) =>
          if name in CONTROL_TOOLS {
            l := Some(Local(e, task.row, [Event(ToolCompleted, json, name, true, output)], []));
          }
        case _ =>
      }
      if l.None? {
        OnwardReflexive(task, x);
        return;
      }
      Perform(x, l.value, a);
      LeftWork(old(task), task, x);
    }

    /** `agent.run`: it returns only with evidence in the log (`AgentLoop.CodingAgent.Run`). */
    method RunAgent(x: ExecId) returns (t: Thrown)
      requires Valid() && x in task.execs && task.execs[x].pc.Work?
      modifies this
      ensures Valid() && Onward(old(task), task, x) && ThrownAt(t, task.execs[x])
      ensures t.Nothing? ==> task.execs[x].pc.Finish? && Evidence(task.log)
      ensures undisturbed ==>
        && OnlyWorked(old(task), task, x) && task.row == old(task).row && task.execs[x].view == old(task).execs[x].view
        && (t.Nothing? <==> Evidence(task.log)) && !t.Cancel?
    {
      hide Safe, Leads, Later, Evidence, OnlyWorked, Did, Relocated, CanObtain;
      WorkedNothing(task, x);
      var actions: seq<Action> := *;
      OnwardReflexive(task, x);
      for i := 0 to |actions|
        invariant Valid() && Onward(old(task), task, x) && task.execs[x].pc.Work?
        invariant undisturbed ==> OnlyWorked(old(task), task, x) && task.row == old(task).row && task.execs[x].view == old(task).execs[x].view
      {
        ghost var seen := task;
        t := Interrupt(x);
        OnwardTransitive(old(task), seen, task, x);
        if !t.Nothing? {
          return;
        }
        seen := task;
        AgentActs(x, actions[i]);
        OnwardTransitive(old(task), seen, task, x);
        if undisturbed {
          WorkedOn(old(task), seen, task, x);
        }
      }
      ghost var seen := task;
      var e := task.execs[x];
      if Evidence(task.log) {
        Perform(x, Local(e.(pc := Finish), task.row, [], []), AgentReturns);
        assert task.log == seen.log;
        t := Nothing;
      } else {
        Perform(x, Local(e.(pc := FailRead), task.row, [], []), Raise);
        t := Error;
      }
      OnwardTransitive(old(task), seen, task, x);
      assert seen.log + [] == seen.log;
      if undisturbed {
        LeftWork(seen, task, x);
        WorkedOn(old(task), seen, task, x);
      }
    }

    /** Publishing, RUNNING -> COMPLETED and the event that reports it. */
    method Complete(x: ExecId, result: string) returns (t: Thrown)
      requires Valid() && x in task.execs && task.execs[x].pc.Finish?
      modifies this
      ensures Valid() && Onward(old(task), task, x) && ThrownAt(t, task.execs[x])
      ensures t.Nothing? ==>
        && task.execs[x].pc == Cleanup(Returned) && EverTerminal(task.history)
        && task.row.status.Completed? && Logged(task.log, TaskCompleted)
      ensures undisturbed && old(task).execs[x].view == old(task).row ==>
        && !t.Cancel? && task.execs[x].ws == old(task).execs[x].ws
        && (t.Nothing? <==> CanTransition(old(task).row.status, Completed))
        && if t.Nothing?
          then Did(old(task), task, x, CompletedRow(old(task).row, result), [Event(TaskCompleted, result, "", false, "")], old(task).places)
          else Did(old(task), task, x, old(task).row, [], old(task).places)
    {
      hide Safe, Leads, Later, Logged, Did, CanTransition, Relocated, CanObtain;
      t := Interrupt(x);
      if !t.Nothing? {
        return;
      }
      ghost var seen := task;
      var ok := Transition(x, Change(Completed, None, None, Some(result)), Report, FailRead, CompleteTask(result));
      OnwardTransitive(old(task), seen, task, x);
      if !ok {
        return Error;
      }
      SeenTerminal(task);
      assert undisturbed && old(task).execs[x].view == old(task).row ==> task.row == CompletedRow(old(task).row, result);
      seen := task;
      t := ReportCompleted(x, result);
      OnwardTransitive(old(task), seen, task, x);
      StillTerminal(seen, task);
      if undisturbed {
        DidThen(old(task), seen, task, x);
      }
    }

    method ReportCompleted(x: ExecId, result: string) returns (t: Thrown)
      requires Valid() && x in task.execs && task.execs[x].pc.Report?
      modifies this
      ensures Valid() && Onward(old(task), task, x) && ThrownAt(t, task.execs[x])
      ensures t.Nothing? ==>
        task.execs[x].pc == Cleanup(Returned) && task.row.status.Completed? && Logged(task.log, TaskCompleted)
      ensures undisturbed ==>
        && t.Nothing? && task.execs[x].ws == old(task).execs[x].ws
        && Did(old(task), task, x, old(task).row, [Event(TaskCompleted, result, "", false, "")], old(task).places)
    {
      hide Safe, Leads, Later, Logged, Did, Relocated, CanObtain;
      t := Interrupt(x);
      if t.Nothing? {
        ghost var seen := task;
        Perform(x, Local(task.execs[x].(pc := Cleanup(Returned)), task.row,
                         [Event(TaskCompleted, result, "", false, "")], []), LogCompleted(result));
        OnwardTransitive(old(task), seen, task, x);
        CompletedLast(task, seen.log, Event(TaskCompleted, result, "", false, ""));
      }
    }

    /** From the first read to the bound workspace. */
    method Provision(x: ExecId) returns (t: Thrown)
      requires Valid() && x in task.execs
      requires task.execs[x].pc == if task.execs[x].view.status.Queued? then Claim else Prepare
      modifies this
      ensures Valid() && Onward(old(task), task, x) && ThrownAt(t, task.execs[x])
      ensures t.Nothing? ==> task.execs[x].pc.Work?
      ensures undisturbed && old(task).execs[x].view == old(task).row ==>
        t.Nothing? && task.execs[x].view == task.row && Ready(old(task), task, x)
    {
      hide Safe, Leads, Later, Did, Provided, Ready, BoundRow, Relocated, CanObtain, ExecStep;
      ghost var seen := task;
      OnwardReflexive(task, x);
      if task.execs[x].pc.Claim? {
        t := ClaimQueued(x);
        OnwardTransitive(old(task), seen, task, x);
        if !t.Nothing? {
          return;
        }
        seen := task;
      }
      ghost var claimed := task;
      t := GetWorkspace(x);
      OnwardTransitive(old(task), seen, task, x);
      if !t.Nothing? {
        return;
      }
      seen := task;
      t := BindWorkspace(x);
      OnwardTransitive(old(task), seen, task, x);
      if undisturbed && old(task).execs[x].view == old(task).row {
        ReadyAfterBind(old(task), claimed, seen, task, x);
      }
    }

    /** The whole try block of `_execute`. */
    method TryBody(x: ExecId, result: string) returns (t: Thrown)
      requires Valid() && x in task.execs && task.execs[x].pc.Start?
      modifies this
      ensures Valid() && Onward(old(task), task, x) && ThrownAt(t, task.execs[x])
      ensures t.Nothing? ==> task.execs[x].pc == Cleanup(Returned) && EverTerminal(task.history)
      ensures undisturbed && Terminal(old(task).row.status) ==>
        && t.Nothing? && task.execs[x].ws == old(task).execs[x].ws
        && Did(old(task), task, x, old(task).row, [], old(task).places)
      ensures undisturbed && !Terminal(old(task).row.status) ==>
        !t.Cancel? && Attempted(old(task), task, x, t.Nothing?, result)
    {
      hide Safe, Leads, Later, EverTerminal, Did, OnlyWorked, Ready, CanTransition, Relocated, CanObtain, ExecStep;
      var over: bool;
      t, over := ReadFirst(x);
      if !t.Nothing? || over {
        return;
      }
      ghost var seen := task;
      t := Provision(x);
      OnwardTransitive(old(task), seen, task, x);
      if !t.Nothing? {
        return;
      }
      if undisturbed {
        ReadyAfterRead(old(task), seen, task, x);
      }
      seen := task;
      t := RunAgent(x);
      OnwardTransitive(old(task), seen, task, x);
      if undisturbed {
        StillReady(old(task), seen, task, x);
        AttemptFails(old(task), task, x, result);
      }
      if !t.Nothing? {
        return;
      }
      seen := task;
      t := Complete(x, result);
      OnwardTransitive(old(task), seen, task, x);
      if undisturbed {
        AttemptEnds(old(task), seen, task, x, t.Nothing?, result);
      }
    }

    /**
     * An await inside a handler: what comes out of it leaves `_execute` after the finally
     * block, except that the failure handler swallows KeyError and RuntimeError.
     */
    method HandlerInterrupt(x: ExecId) returns (out: Option<Outcome>)
      requires Valid() && x in task.execs
      requires InFailHandler(task.execs[x].pc) || InCancelHandler(task.execs[x].pc)
      modifies this
      ensures Valid() && Onward(old(task), task, x)
      ensures match out
        case None => SameExec(old(task.execs[x]), task.execs[x])
        case Some(o) => task.execs[x].pc == Cleanup(o) && (o.Returned? ==> InFailHandler(old(task.execs[x]).pc))
      ensures undisturbed ==> out == None && task == old(task)
    {
      hide Safe, Leads, Later, Did, Relocated, CanObtain;
      Await(x);
      ghost var seen := task;
      var e := task.execs[x];
      out := *;
      out := if undisturbed then None else out;
      if out == Some(Fatal) {
        Perform(x, Local(e.(pc := Cleanup(Fatal)), task.row, [], []), HandlerRaises);
      } else if out == Some(CancelRaised) && e.signalled {
        Perform(x, Local(e.(signalled := false, pc := Cleanup(CancelRaised)), task.row, [], []), CancelArrives);
      } else if out == Some(Returned) && InFailHandler(e.pc) {
        Perform(x, Local(e.(pc := Cleanup(Returned)), task.row, [], []), HandlerSwallows);
      } else {
        out := None;
        OnwardReflexive(task, x);
      }
      OnwardTransitive(old(task), seen, task, x);
    }

    /**
     * `except Exception`: record the failure of a task that is not over yet. A normal return
     * means the task has been terminal, unless an error was swallowed.
     */
    method HandleFailure(x: ExecId, error: string) returns (out: Outcome, swallowed: bool)
      requires Valid() && x in task.execs && task.execs[x].pc.FailRead?
      modifies this
      ensures Valid() && Onward(old(task), task, x) && task.execs[x].pc == Cleanup(out)
      ensures out.Returned? && !swallowed ==> EverTerminal(task.history)
      ensures swallowed ==> out.Returned?
      ensures undisturbed ==>
        && !swallowed && task.execs[x].ws == old(task).execs[x].ws
        && if Terminal(old(task).row.status) then
             out.Returned? && Did(old(task), task, x, old(task).row, [], old(task).places)
           else if old(task).row.status.Created? then
             out.Fatal? && Did(old(task), task, x, old(task).row, [], old(task).places)
           else
             && out.Returned?
             && Did(old(task), task, x, FailedRow(old(task).row, error), [Event(TaskFailed, error, "", false, "")], old(task).places)
    {
      hide Safe, Leads, Later, Commit, Did, Relocated, CanObtain, ExecStep;
      swallowed := false;
      var thrown := HandlerInterrupt(x);
      if thrown.Some? {
        return thrown.value, thrown.value.Returned?;
      }
      ghost var seen := task;
      var view := task.row;
      SeenTerminal(task);
      StepFailReads(task.row, task.log, task.runs, task.execs[x]);
      Perform(x, Local(task.execs[x].(view := view, pc := if Terminal(view.status) then Cleanup(Returned) else FailWrite),
                       view, [], []), FailReads);
      OnwardTransitive(old(task), seen, task, x);
      if Terminal(view.status) {
        return Returned, false;
      }
      seen := task;
      out, swallowed := RecordFailure(x, error);
      OnwardTransitive(old(task), seen, task, x);
      if undisturbed {
        DidThen(old(task), seen, task, x);
      }
    }

    method RecordFailure(x: ExecId, error: string) returns (out: Outcome, swallowed: bool)
      requires Valid() && x in task.execs && task.execs[x].pc.FailWrite?
      modifies this
      ensures Valid() && Onward(old(task), task, x) && task.execs[x].pc == Cleanup(out)
      ensures out.Returned? && !swallowed ==> EverTerminal(task.history)
      ensures swallowed ==> out.Returned?
      ensures undisturbed && old(task).execs[x].view == old(task).row ==>
        && !swallowed && task.execs[x].ws == old(task).execs[x].ws
        && if CanTransition(old(task).row.status, Failed) then
             && out.Returned?
             && Did(old(task), task, x, FailedRow(old(task).row, error), [Event(TaskFailed, error, "", false, "")], old(task).places)
           else
             out.Fatal? && Did(old(task), task, x, old(task).row, [], old(task).places)
    {
      hide Safe, Leads, Later, Did, CanTransition, Relocated, CanObtain;
      swallowed := false;
      var thrown := HandlerInterrupt(x);
      if thrown.Some? {
        return thrown.value, thrown.value.Returned?;
      }
      ghost var seen := task;
      var ok := Transition(x, Change(Failed, None, Some(error), None), FailLog, Cleanup(Fatal), FailTask(error));
      OnwardTransitive(old(task), seen, task, x);
      if !ok {
        return Fatal, false;
      }
      SeenTerminal(task);
      seen := task;
      assert undisturbed && old(task).execs[x].view == old(task).row ==> task.row == FailedRow(old(task).row, error);
      out := ReportFailed(x, error);
      OnwardTransitive(old(task), seen, task, x);
      StillTerminal(seen, task);
      if undisturbed {
        DidThen(old(task), seen, task, x);
      }
    }

    method ReportFailed(x: ExecId, error: string) returns (out: Outcome)
      requires Valid() && x in task.execs && task.execs[x].pc.FailLog?
      modifies this
      ensures Valid() && Onward(old(task), task, x) && task.execs[x].pc == Cleanup(out)
      ensures undisturbed ==>
        && out.Returned? && task.execs[x].ws == old(task).execs[x].ws
        && Did(old(task), task, x, old(task).row, [Event(TaskFailed, error, "", false, "")], old(task).places)
    {
      hide Safe, Leads, Later, Did, Relocated, CanObtain;
      var thrown := HandlerInterrupt(x);
      if thrown.Some? {
        return thrown.value;
      }
      ghost var seen := task;
      Perform(x, Local(task.execs[x].(pc := Cleanup(Returned)), task.row, [Event(TaskFailed, error, "", false, "")], []),
              LogFailed(error));
      OnwardTransitive(old(task), seen, task, x);
      return Returned;
    }

    /** `except CancelledError`: a CANCELLING task becomes CANCELLED, and the exception goes on. */
    method HandleCancellation(x: ExecId) returns (out: Outcome)
      requires Valid() && x in task.execs && task.execs[x].pc.CancelRead?
      modifies this
      ensures Valid() && Onward(old(task), task, x) && task.execs[x].pc == Cleanup(out)
      ensures !out.Returned?
      ensures undisturbed ==>
        && out.CancelRaised? && task.execs[x].ws == old(task).execs[x].ws
        && if old(task).row.status.Cancelling?
           then Did(old(task), task, x, CancelledRow(old(task).row), [Plain(TaskCancelled)], old(task).places)
           else Did(old(task), task, x, old(task).row, [], old(task).places)
    {
      hide Safe, Leads, Later, Commit, Did, Relocated, CanObtain;
      var thrown := HandlerInterrupt(x);
      if thrown.Some? {
        return thrown.value;
      }
      ghost var seen := task;
      var view := task.row;
      Perform(x, Local(task.execs[x].(view := view, pc := if view.status.Cancelling? then CancelWrite else Cleanup(CancelRaised)),
                       view, [], []), CancelReads);
      OnwardTransitive(old(task), seen, task, x);
      if !view.status.Cancelling? {
        return CancelRaised;
      }
      seen := task;
      out := RecordCancellation(x);
      OnwardTransitive(old(task), seen, task, x);
      if undisturbed {
        DidThen(old(task), seen, task, x);
      }
    }

    method RecordCancellation(x: ExecId) returns (out: Outcome)
      requires Valid() && x in task.execs && task.execs[x].pc.CancelWrite?
      modifies this
      ensures Valid() && Onward(old(task), task, x) && task.execs[x].pc == Cleanup(out)
      ensures !out.Returned?
      ensures undisturbed && old(task).execs[x].view == old(task).row && old(task).row.status.Cancelling? ==>
        && out.CancelRaised? && task.execs[x].ws == old(task).execs[x].ws
        && Did(old(task), task, x, CancelledRow(old(task).row), [Plain(TaskCancelled)], old(task).places)
    {
      hide Safe, Leads, Later, Did, Relocated, CanObtain;
      var thrown := HandlerInterrupt(x);
      if thrown.Some? {
        return thrown.value;
      }
      ghost var seen := task;
      var ok := Transition(x, To(Cancelled), CancelLog, Cleanup(Fatal), CancelTask);
      OnwardTransitive(old(task), seen, task, x);
      if !ok {
        return Fatal;
      }
      seen := task;
      out := ReportCancelled(x);
      OnwardTransitive(old(task), seen, task, x);
      if undisturbed {
        DidThen(old(task), seen, task, x);
      }
    }

    method ReportCancelled(x: ExecId) returns (out: Outcome)
      requires Valid() && x in task.execs && task.execs[x].pc.CancelLog?
      modifies this
      ensures Valid() && Onward(old(task), task, x) && task.execs[x].pc == Cleanup(out)
      ensures !out.Returned?
      ensures undisturbed ==>
        && out.CancelRaised? && task.execs[x].ws == old(task).execs[x].ws
        && Did(old(task), task, x, old(task).row, [Plain(TaskCancelled)], old(task).places)
    {
      hide Safe, Leads, Later, Did, Relocated, CanObtain;
      var thrown := HandlerInterrupt(x);
      if thrown.Some? {
        return thrown.value;
      }
      ghost var seen := task;
      Perform(x, Local(task.execs[x].(pc := Cleanup(CancelRaised)), task.row, [Plain(TaskCancelled)], []), LogCancelled);
      OnwardTransitive(old(task), seen, task, x);
      return CancelRaised;
    }

    /** The finally block; it may replace the outcome by a late cancellation or an error. */
    method Finalize(x: ExecId, out: Outcome) returns (final: Outcome)
      requires Valid() && x in task.execs && task.execs[x].pc == Cleanup(out)
      modifies this
      ensures Valid() && Onward(old(task), task, x) && task.execs[x].pc == Ended(final)
      ensures final.Returned? ==> out.Returned?
      ensures undisturbed ==>
        && final == out && task.execs[x].ws == old(task).execs[x].ws
        && Did(old(task), task, x, old(task).row, [], PutAway(old(task).places, old(task).execs[x].ws, old(task).row.status))
    {
      hide Safe, Leads, Later, Did, Relocated, CanObtain, ExecStep;
      var thrown := StopHeartbeat(x, out);
      if thrown.Some? {
        return thrown.value;
      }
      ghost var seen := task;
      var e := task.execs[x];
      var destroy := Absorbing(task.row.status);
      StepFinalRead(task.row, task.log, task.runs, e);
      Perform(x, Local(e.(pc := if e.ws.None? then Ended(out) else Release(out, destroy)), task.row, [], []), FinalRead);
      OnwardTransitive(old(task), seen, task, x);
      final := out;
      if e.ws.Some? {
        seen := task;
        final := ReleaseHeld(x, out, destroy);
        OnwardTransitive(old(task), seen, task, x);
        if undisturbed {
          DidThen(old(task), seen, task, x);
          assert seen.log + [] == seen.log;
        }
      }
    }

    /** Waiting for the heartbeat swallows a cancellation; elsewhere one, or an error, escapes. */
    method StopHeartbeat(x: ExecId, out: Outcome) returns (thrown: Option<Outcome>)
      requires Valid() && x in task.execs && task.execs[x].pc == Cleanup(out)
      modifies this
      ensures Valid() && Onward(old(task), task, x)
      ensures match thrown
        case None => task.execs[x].pc == Cleanup(out)
        case Some(o) => task.execs[x].pc == Ended(o) && !o.Returned?
      ensures undisturbed ==> thrown == None && task == old(task)
    {
      hide Safe, Leads, Later, Did, Relocated, CanObtain;
      Await(x);
      ghost var seen := task;
      var e := task.execs[x];
      var swallowed: bool := *;
      thrown := *;
      thrown := if undisturbed then None else thrown;
      swallowed := swallowed && !undisturbed;
      if thrown == Some(CancelRaised) && e.signalled {
        Perform(x, Local(e.(signalled := false, pc := Ended(CancelRaised)), task.row, [], []), CancelArrives);
      } else if thrown == Some(Fatal) {
        Perform(x, Local(e.(pc := Ended(Fatal)), task.row, [], []), CleanupRaises);
      } else {
        thrown := None;
        if swallowed && e.signalled {
          Perform(x, Local(e.(signalled := false), task.row, [], []), CancelSwallowed);
        } else {
          OnwardReflexive(task, x);
        }
      }
      OnwardTransitive(old(task), seen, task, x);
    }

    /** `environments.release`, unless a cancellation arrives first. */
    method ReleaseHeld(x: ExecId, out: Outcome, destroy: bool) returns (final: Outcome)
      requires Valid() && x in task.execs && task.execs[x].pc == Release(out, destroy) && task.execs[x].ws.Some?
      modifies this
      ensures Valid() && Onward(old(task), task, x) && task.execs[x].pc == Ended(final)
      ensures final == out || final == CancelRaised
      ensures old(task).execs[x].ws.value in task.places
      ensures task.places[old(task).execs[x].ws.value].Stranded? ==> final == CancelRaised
      ensures undisturbed ==>
        && final == out && task.execs[x].ws == old(task).execs[x].ws
        && Did(old(task), task, x, old(task).row, [],
               old(task).places[old(task).execs[x].ws.value := if destroy then Deleted else Persistent])
    {
      hide Safe, Leads, Later, Did, ExecStep;
      Await(x);
      ghost var seen := task;
      var e := task.execs[x];
      StepRelease(task.row, task.log, task.runs, e);
      final := *;
      if final.CancelRaised? && e.signalled && !undisturbed {
        Perform(x, Local(e.(signalled := false, pc := Ended(CancelRaised)), task.row, [], []), CancelArrives);
        OnwardTransitive(old(task), seen, task, x);
        return;
      }
      Perform(x, Local(e.(pc := Ended(out)), task.row, [], []), ReleaseWorkspace);
      OnwardTransitive(old(task), seen, task, x);
      final := out;
    }

    /**
     * A cancellation before the first step: the coroutine ends without entering its try
     * block, so no handler sees the CANCELLING row.
     */
    method NeverStarts(x: ExecId) returns (never: bool)
      requires Valid() && x in task.execs && task.execs[x].pc.Start?
      modifies this
      ensures Valid() && Onward(old(task), task, x)
      ensures if never then task.execs[x].pc == Ended(CancelRaised) else task.execs[x].pc.Start?
      ensures undisturbed ==> !never && task == old(task)
    {
      hide Safe, Leads, Later, Did, Relocated, CanObtain;
      Await(x);
      ghost var seen := task;
      var e := task.execs[x];
      never := *;
      never := never && e.signalled && !undisturbed;
      if never {
        Perform(x, Local(e.(signalled := false, pc := Ended(CancelRaised)), task.row, [], []), CancelUnstarted);
        OnwardTransitive(old(task), seen, task, x);
      }
    }

    /** `_execute`: try, the handlers, finally. */
    method Execute(x: ExecId, result: string, error: string) returns (out: Outcome, swallowed: bool)
      requires Valid() && x in task.execs && task.execs[x].pc.Start?
      modifies this
      ensures Valid() && Onward(old(task), task, x) && task.execs[x].pc == Ended(out)
      ensures out.Returned? && !swallowed ==> EverTerminal(task.history)
      ensures undisturbed && old(task).execs[x].ws.None? ==>
        && !swallowed && out == (if old(task).row.status.Created? then Fatal else Returned)
        && Concluded(old(task), task, x, result, error)
    {
      hide Safe, Leads, Later, EverTerminal, Did, Attempted, PutAway, Relocated, CanObtain, ExecStep;
      swallowed := false;
      var never := NeverStarts(x);
      if never {
        return CancelRaised, false;
      }
      ghost var seen := task;
      var t := TryBody(x, result);
      OnwardTransitive(old(task), seen, task, x);
      seen := task;
      OnwardReflexive(task, x);
      if undisturbed && !Terminal(old(task).row.status) {
        AttemptedStatus(old(task), task, x, t.Nothing?, result);
      }
      match t {
        case Nothing => out := Returned;
        case Error => out, swallowed := HandleFailure(x, error);
        case Cancel => out := HandleCancellation(x);
      }
      OnwardTransitive(old(task), seen, task, x);
      ghost var tried := seen;
      seen := task;
      out := Finalize(x, out);
      OnwardTransitive(old(task), seen, task, x);
      StillTerminal(seen, task);
      if undisturbed && old(task).execs[x].ws.None? {
        if Terminal(old(task).row.status) {
          OverConcludes(old(task), seen, task, x, result, error);
        } else {
          if t.Nothing? {
            CompletedConcludes(old(task), seen, task, x, result, error);
          } else {
            FailedConcludes(old(task), tried, seen, task, x, result, error);
          }
        }
      }
    }

    /**
     * One round of `_worker_loop` on entry `en`. None: the entry was a duplicate of what this
     * process runs. A Fatal outcome kills the worker and leaves the entry pending.
     */
    method WorkOn(en: EntryId, x: ExecId, result: string, error: string) returns (out: Option<Outcome>, swallowed: bool)
      requires Valid() && en in task.stream.entries && x !in task.execs
      modifies this
      ensures Valid() && Later(old(task), task)
      ensures out.Some? ==> x !in task.execs
      ensures out == Some(Returned) && !swallowed ==> EverTerminal(task.history)
      ensures out == None <==> process in old(task.running)
      ensures out == Some(Fatal) ==> task.disturbed
      ensures undisturbed && out == None ==>
        && task.row == old(task).row && task.log == old(task).log && task.execs == old(task).execs
        && task.stream.entries == old(task).stream.entries - {en}
      ensures undisturbed && out.Some? ==>
        && Processed(old(task), task, en, process, x, result, error)
        && (!old(task).row.status.Created? ==> task.stream.entries == old(task).stream.entries - {en})
    {
      hide Safe, Leads, Later, EverTerminal, Concluded, Relocated, CanObtain, ExecStep;
      ghost var before := task;
      if process in task.running {
        NoteDuplicate(en, x);
        ghost var seen := task;
        AckDuplicate(en);
        LaterTransitive(before, seen, task);
        return None, false;
      }
      StartExecution(en, x);
      ghost var seen := task;
      var ended;
      ended, swallowed := Execute(x, result, error);
      LaterTransitive(before, seen, task);
      if undisturbed {
        assert task.stream == seen.stream by { ConcludedSurroundings(seen, task, x, result, error); }
      }
      seen := task;
      Settle(x, ended);
      StillTerminal(seen, task);
      LaterTransitive(before, seen, task);
      return Some(ended), swallowed;
    }

    /** `create_task` for an entry, noted in `_running`. */
    method StartExecution(en: EntryId, x: ExecId)
      requires Valid() && en in task.stream.entries && x !in task.execs && process !in task.running
      modifies this
      ensures Valid() && Later(old(task), task)
      ensures task == Receive(old(task), en, process, x)
      ensures x in task.execs && task.execs[x] == Exec(process, en, Start, task.row, None, false, [])
    {
      hide Safe, Leads, Later;
      ghost var before := task;
      LaterReflexive(task);
      StepIsLater(task, task, Deliver(en, process, x));
      task := task.(stream := WorkQueue.Deliver(task.stream, en),
                    execs := task.execs[x := Exec(process, en, Start, task.row, None, false, [])],
                    running := task.running[process := x]);
      Took(before, Deliver(en, process, x));
    }

    /** The entry is one of a task that this process is running. */
    method NoteDuplicate(en: EntryId, x: ExecId)
      requires Valid() && en in task.stream.entries && x !in task.execs && process in task.running
      modifies this
      ensures Valid() && Later(old(task), task)
      ensures task == Receive(old(task), en, process, x) && (process, en) in task.dupAcks
    {
      hide Safe, Leads, Later;
      ghost var before := task;
      LaterReflexive(task);
      StepIsLater(task, task, Deliver(en, process, x));
      task := task.(stream := WorkQueue.Deliver(task.stream, en), dupAcks := task.dupAcks + {(process, en)});
      Took(before, Deliver(en, process, x));
    }

    /** `ack` of a duplicate, which may fail and kill the worker. */
    method AckDuplicate(en: EntryId)
      requires Valid() && (process, en) in task.dupAcks
      modifies this
      ensures Valid() && Later(old(task), task)
      ensures undisturbed ==>
        && task.row == old(task).row && task.log == old(task).log && task.execs == old(task).execs
        && task.stream.entries == old(task).stream.entries - {en}
    {
      hide Safe, Leads, Later, Relocated, CanObtain;
      Suspend(OnDuplicate(process, en));
      ghost var seen := task;
      LaterReflexive(task);
      var fails: bool := *;
      if fails && !undisturbed {
        StepIsLater(task, task, DupAckFails(process, en));
        task := task.(dupAcks := task.dupAcks - {(process, en)}, disturbed := true);
        Took(seen, DupAckFails(process, en));
      } else {
        StepIsLater(task, task, DupAck(process, en));
        task := task.(stream := WorkQueue.Ack(task.stream, en), dupAcks := task.dupAcks - {(process, en)});
        Took(seen, DupAck(process, en));
      }
      LaterTransitive(old(task), seen, task);
    }

    /** What the worker does when its execution has ended; an error or a failed ack kills it. */
    method Settle(x: ExecId, out: Outcome)
      requires Valid() && x in task.execs && task.execs[x].pc == Ended(out)
      modifies this
      ensures Valid() && Later(old(task), task) && x !in task.execs
      ensures out.Fatal? ==> task.disturbed
      ensures undisturbed ==>
        && task.row == old(task).row && task.log == old(task).log && task.places == old(task).places
        && task.execs == old(task).execs - {x} && task.running == old(task).running - {old(task).execs[x].proc}
        && task.stream.entries == old(task).stream.entries - (if out.Fatal? then {} else {old(task).execs[x].entry})
        && (!out.Fatal? ==> task.disturbed == old(task).disturbed)
    {
      hide Safe, Leads, Later, Relocated, CanObtain, ExecStep;
      Await(x);
      ghost var seen := task;
      var e := task.execs[x];
      var fails: bool := *;
      fails := fails && !undisturbed;
      LaterReflexive(task);
      if out.Fatal? || fails {
        ghost var a := if out.Fatal? then WorkerDies(x) else AckFails(x);
        StepIsLater(task, task, a);
        task := task.(running := task.running - {e.proc}, execs := task.execs - {x}, disturbed := true);
        Took(seen, a);
        LaterTransitive(old(task), seen, task);
        return;
      }
      StepIsLater(task, task, AckItem(x));
      task := task.(stream := WorkQueue.Ack(task.stream, e.entry), execs := task.execs[x := e.(pc := Acked)]);
      Took(seen, AckItem(x));
      LaterTransitive(old(task), seen, task);
      seen := task;
      PopRunning(x);
      LaterTransitive(old(task), seen, task);
    }

    /** `_running.pop`. */
    method PopRunning(x: ExecId)
      requires Valid() && x in task.execs && task.execs[x].pc.Acked?
      modifies this
      ensures Valid() && Later(old(task), task) && x !in task.execs
      ensures undisturbed ==>
        task == old(task).(execs := old(task).execs - {x}, running := old(task).running - {old(task).execs[x].proc})
    {
      hide Safe, Leads, Later, Relocated, CanObtain;
      Await(x);
      ghost var seen := task;
      LaterReflexive(task);
      StepIsLater(task, task, Pop(x));
      task := task.(running := task.running - {task.execs[x].proc}, execs := task.execs - {x});
      Took(seen, Pop(x));
      LaterTransitive(old(task), seen, task);
    }

    // ---- Requests ----

    /** An await of request c, in which the request may die. */
    method AwaitCall(c: CallId) returns (alive: bool)
      requires Valid() && c in task.calls
      modifies this
      ensures Valid() && Later(old(task), task)
      ensures alive ==> c in task.calls && task.calls[c] == old(task.calls[c])
      ensures !alive ==> c !in task.calls
      ensures undisturbed ==> alive && task == old(task)
    {
      hide Safe, Leads, Later, Relocated, CanObtain;
      Suspend(OnCall(c));
      alive := *;
      alive := alive || undisturbed;
      if !alive {
        ghost var seen := task;
        LaterReflexive(task);
        StepIsLater(task, task, CallDies(c));
        task := task.(calls := task.calls - {c});
        Took(seen, CallDies(c));
        LaterTransitive(old(task), seen, task);
      }
    }

    /** The database part of a request's step. */
    method PerformCall(c: CallId, l: CallLocal)
      requires Valid() && c in task.calls
      requires CallStep(task.row, task.calls[c].phase) == l && !task.calls[c].phase.PutDue?
      requires task.calls[c].phase.Signalling? ==> task.calls[c].proc !in task.running
      modifies this
      ensures Valid() && Later(old(task), task)
      ensures task == SetCall(Advance(old(task), l.row, l.emit, []), c, old(task.calls[c]).proc, l.phase)
    {
      hide Safe, Leads, Later, CallStep, Relocated, CanObtain;
      ghost var seen := task;
      LaterReflexive(task);
      StepIsLater(task, task, CallDo(c));
      task := SetCall(Advance(task, l.row, l.emit, []), c, task.calls[c].proc, l.phase);
      Took(seen, CallDo(c));
    }

    /** `queue.put`. */
    method PutEntry(c: CallId) returns (entry: Option<EntryId>)
      requires Valid() && c in task.calls && task.calls[c].phase.PutDue?
      modifies this
      ensures Valid() && Later(old(task), task) && c !in task.calls
      ensures entry.Some? ==>
        entry.value in task.stream.entries && task.stream.entries[entry.value] == WorkQueue.Item(task.id, WorkQueue.Unread)
      ensures undisturbed ==>
        && entry == Some(old(task).stream.next)
        && task == old(task).(calls := old(task).calls - {c}, stream := OneMore(old(task).stream, old(task).id))
    {
      hide Safe, Leads, Later, Relocated, CanObtain;
      var alive := AwaitCall(c);
      if !alive {
        return None;
      }
      ghost var seen := task;
      LaterReflexive(task);
      StepIsLater(task, task, CallDo(c));
      entry := Some(task.stream.next);
      task := task.(stream := WorkQueue.Put(task.stream, task.id), calls := task.calls - {c});
      Took(seen, CallDo(c));
      LaterTransitive(old(task), seen, task);
    }

    /** CREATED or FAILED -> QUEUED, then the entry: the ends of `submit` and `retry`. */
    method Enqueue(c: CallId) returns (entry: Option<EntryId>)
      requires Valid() && c in task.calls && (task.calls[c].phase.Submitting? || task.calls[c].phase.Retrying?)
      modifies this
      ensures Valid() && Later(old(task), task) && c !in task.calls
      ensures entry.Some? ==>
        && entry.value in task.stream.entries && task.stream.entries[entry.value] == WorkQueue.Item(task.id, WorkQueue.Unread)
        && Queued in task.history
      ensures undisturbed && old(task).calls[c].phase.view == old(task).row ==>
        if CanTransition(old(task).row.status, Queued) then
          && entry == Some(old(task).stream.next)
          && task == old(task).(
               row := RequeuedRow(old(task).row), history := old(task).history + [Queued],
               calls := old(task).calls - {c}, stream := OneMore(old(task).stream, old(task).id))
        else
          entry == None && task == old(task).(calls := old(task).calls - {c})
    {
      hide Safe, Leads, Later, CanTransition, Written;
      var alive := AwaitCall(c);
      if !alive {
        return None;
      }
      ghost var seen := task;
      var committed := CommitQueued(c);
      LaterTransitive(old(task), seen, task);
      if !committed {
        return None;
      }
      StatusIsRecorded(task);
      seen := task;
      entry := PutEntry(c);
      LaterTransitive(old(task), seen, task);
      StillRecorded(seen, task, Queued);
      if undisturbed && old(task).calls[c].phase.view == old(task).row {
        RequeuedIs(old(task).row);
        assert old(task).calls[c := Call(old(task).calls[c].proc, PutDue)] - {c} == old(task).calls - {c};
      }
    }

    /** The transition to QUEUED. */
    method CommitQueued(c: CallId) returns (committed: bool)
      requires Valid() && c in task.calls && (task.calls[c].phase.Submitting? || task.calls[c].phase.Retrying?)
      modifies this
      ensures Valid() && Later(old(task), task)
      ensures var view := old(task).calls[c].phase.view;
        && (committed <==> CanTransition(view.status, Queued) && old(task).row.version == view.version)
        && task == if committed
             then old(task).(row := Written(old(task).row, view, To(Queued)), history := old(task).history + [Queued],
                             calls := old(task).calls[c := Call(old(task).calls[c].proc, PutDue)])
             else old(task).(calls := old(task).calls - {c})
    {
      hide Safe, Leads, Later, CallStep, CanTransition;
      var view := task.calls[c].phase.view;
      StepEnqueue(task.row, task.calls[c].phase);
      committed := CanTransition(view.status, Queued) && task.row.version == view.version;
      if committed {
        PerformCall(c, CallLocal(Some(PutDue), Written(task.row, view, To(Queued)), []));
      } else {
        PerformCall(c, CallLocal(None, task.row, []));
      }
    }

    /** `retry`; None when the task is not FAILED or the request fails on the way. */
    method Retry(c: CallId) returns (entry: Option<EntryId>)
      requires Valid() && c !in task.calls
      modifies this
      ensures Valid() && Later(old(task), task) && c !in task.calls
      ensures !old(task).row.status.Failed? ==> entry == None && task == old(task)
      ensures entry.Some? ==>
        && entry.value in task.stream.entries && task.stream.entries[entry.value] == WorkQueue.Item(task.id, WorkQueue.Unread)
        && Queued in task.history
      ensures undisturbed && old(task).row.status.Failed? ==>
        && entry == Some(old(task).stream.next)
        && task == old(task).(
             row := RequeuedRow(old(task).row), history := old(task).history + [Queued],
             stream := OneMore(old(task).stream, old(task).id))
    {
      hide Safe, Leads, Later, Relocated, CanObtain, ExecStep;
      LaterReflexive(task);
      if !task.row.status.Failed? {
        return None;
      }
      ghost var seen := task;
      StepIsLater(task, task, BeginRetry(c, process));
      task := task.(calls := task.calls[c := Call(process, Retrying(task.row))]);
      Took(seen, BeginRetry(c, process));
      seen := task;
      entry := Enqueue(c);
      LaterTransitive(old(task), seen, task);
      assert old(task).calls[c := Call(process, Retrying(old(task).row))] - {c} == old(task).calls;
    }

    /** `cancel`: signal the execution of this process, or finish the cancellation here. */
    method RequestCancel(c: CallId) returns (signalled: bool, recorded: bool)
      requires Valid() && c !in task.calls
      modifies this
      ensures Valid() && Later(old(task), task) && c !in task.calls
      ensures Terminal(old(task).row.status) ==> task == old(task)
      ensures signalled || recorded ==> Cancelling in task.history
      ensures signalled ==> Reached(task, process)
      ensures recorded ==> task.row.status.Cancelled? && Logged(task.log, TaskCancelled)
      ensures undisturbed ==>
        && (signalled <==> Cancellable(old(task).row.status) && process in old(task).running)
        && (recorded <==> Cancellable(old(task).row.status) && process !in old(task).running)
        && task.calls == old(task).calls && task.stream == old(task).stream && task.places == old(task).places
        && if signalled then task.row == CancellingRow(old(task).row) && task.log == old(task).log
           else if recorded then
             && task.row == CancelledRow(CancellingRow(old(task).row)) && task.execs == old(task).execs
             && task.log == old(task).log + [Plain(TaskCancelled)]
           else task == old(task)
    {
      hide Safe, Leads, Later, Logged, Reached, Relocated, CanObtain, ExecStep;
      signalled, recorded := false, false;
      LaterReflexive(task);
      if Terminal(task.row.status) {
        return;
      }
      ghost var seen := task;
      OpenCancel(c);
      seen := task;
      var alive := AwaitCall(c);
      LaterTransitive(old(task), seen, task);
      if !alive {
        return;
      }
      seen := task;
      var committed := MarkCancelling(c);
      LaterTransitive(old(task), seen, task);
      if !committed {
        assert undisturbed ==> task.calls == old(task).calls;
        return;
      }
      seen := task;
      signalled, recorded := SignalOrFinish(c);
      LaterTransitive(old(task), seen, task);
      assert undisturbed ==> task.calls == old(task).calls;
      StillRecorded(seen, task, Cancelling);
    }

    /** `cancel` has read the row. */
    method OpenCancel(c: CallId)
      requires Valid() && c !in task.calls && !Terminal(task.row.status)
      modifies this
      ensures Valid() && Later(old(task), task)
      ensures task == old(task).(calls := old(task).calls[c := Call(process, CancelRequested(old(task).row))])
    {
      hide Safe, Leads, Later;
      ghost var seen := task;
      LaterReflexive(task);
      StepIsLater(task, task, BeginCancel(c, process));
      task := task.(calls := task.calls[c := Call(process, CancelRequested(task.row))]);
      Took(seen, BeginCancel(c, process));
    }

    /** The transition to CANCELLING. */
    method MarkCancelling(c: CallId) returns (committed: bool)
      requires Valid() && c in task.calls && task.calls[c].phase.CancelRequested?
      modifies this
      ensures Valid() && Later(old(task), task)
      ensures committed ==>
        && c in task.calls && task.calls[c].phase.Signalling? && Cancelling in task.history
        && task.calls[c].proc == old(task.calls[c]).proc
      ensures !committed ==> task == old(task).(calls := old(task).calls - {c})
      ensures committed <==>
        && CanTransition(old(task.calls[c]).phase.view.status, Cancelling)
        && old(task).row.version == old(task.calls[c]).phase.view.version
      ensures committed && old(task.calls[c]).phase.view == old(task).row ==>
        && task.row == CancellingRow(old(task).row) && task.calls[c].phase.view == task.row
        && task == old(task).(row := task.row, history := task.history, calls := task.calls)
        && task.calls == old(task).calls[c := task.calls[c]]
    {
      hide Safe, Leads, Later, Relocated, CanObtain;
      var view := task.calls[c].phase.view;
      committed := CanTransition(view.status, Cancelling) && task.row.version == view.version;
      if !committed {
        PerformCall(c, CallLocal(None, task.row, []));
        return;
      }
      var next := Written(task.row, view, To(Cancelling));
      PerformCall(c, CallLocal(Some(Signalling(next)), next, []));
      StatusIsRecorded(task);
    }

    /** `running.cancel()`, or CANCELLING -> CANCELLED and its event. */
    method SignalOrFinish(c: CallId) returns (signalled: bool, recorded: bool)
      requires Valid() && c in task.calls && task.calls[c].phase.Signalling?
      modifies this
      ensures Valid() && Later(old(task), task) && c !in task.calls
      ensures signalled ==> Reached(task, old(task.calls[c]).proc)
      ensures recorded ==> task.row.status.Cancelled? && Logged(task.log, TaskCancelled)
      ensures undisturbed && old(task.calls[c]).phase.view == old(task).row && old(task).row.status.Cancelling? ==>
        && (signalled <==> old(task.calls[c]).proc in old(task).running) && (recorded <==> !signalled)
        && task.calls == old(task).calls - {c} && task.stream == old(task).stream && task.places == old(task).places
        && if signalled then task.row == old(task).row && task.log == old(task).log
           else
             && task.row == CancelledRow(old(task).row) && task.execs == old(task).execs
             && task.log == old(task).log + [Plain(TaskCancelled)]
    {
      hide Safe, Leads, Later, Logged, Reached, Relocated, CanObtain, ExecStep;
      signalled, recorded := false, false;
      var alive := AwaitCall(c);
      if !alive {
        return;
      }
      ghost var seen := task;
      var p := task.calls[c].proc;
      if p in task.running {
        SignalOne(c);
        LaterTransitive(old(task), seen, task);
        signalled := true;
        return;
      }
      PerformCall(c, CallLocal(Some(Finalizing(task.calls[c].phase.view)), task.row, []));
      LaterTransitive(old(task), seen, task);
      seen := task;
      recorded := FinishCancel(c);
      LaterTransitive(old(task), seen, task);
    }

    method SignalOne(c: CallId)
      requires Valid() && c in task.calls && task.calls[c].phase.Signalling? && task.calls[c].proc in task.running
      modifies this
      ensures Valid() && Later(old(task), task) && c !in task.calls
      ensures Reached(task, old(task.calls[c]).proc)
      ensures task == old(task).(execs := task.execs, calls := old(task).calls - {c})
    {
      hide Safe, Leads, Later, Relocated, CanObtain;
      RunningIsExec(task, task.calls[c].proc);
      ghost var seen := task;
      LaterReflexive(task);
      StepIsLater(task, task, CallDo(c));
      var x := task.running[task.calls[c].proc];
      var e := task.execs[x];
      if !e.pc.Ended? && !e.pc.Acked? {
        task := task.(execs := task.execs[x := e.(signalled := true)]);
      }
      task := task.(calls := task.calls - {c});
      Took(seen, CallDo(c));
    }

    /** CANCELLING -> CANCELLED by the request itself, with its event. */
    method FinishCancel(c: CallId) returns (recorded: bool)
      requires Valid() && c in task.calls && task.calls[c].phase.Finalizing?
      modifies this
      ensures Valid() && Later(old(task), task) && c !in task.calls
      ensures recorded ==> task.row.status.Cancelled? && Logged(task.log, TaskCancelled)
      ensures undisturbed && old(task.calls[c]).phase.view == old(task).row && old(task).row.status.Cancelling? ==>
        && recorded && task.calls == old(task).calls - {c} && task.stream == old(task).stream
        && task.row == CancelledRow(old(task).row) && task.execs == old(task).execs && task.places == old(task).places
        && task.log == old(task).log + [Plain(TaskCancelled)]
    {
      hide Safe, Leads, Later, Logged, CallStep, CanTransition, Written;
      CancelledIs(task.row);
      recorded := false;
      var alive := AwaitCall(c);
      if !alive {
        return;
      }
      ghost var seen := task;
      var committed := CommitCancelled(c);
      LaterTransitive(old(task), seen, task);
      if !committed {
        return;
      }
      seen := task;
      alive := AwaitCall(c);
      LaterTransitive(old(task), seen, task);
      if alive {
        seen := task;
        StepFinalizing(task.row, Finalizing(task.row));
        PerformCall(c, CallLocal(None, task.row, [Plain(TaskCancelled)]));
        LaterTransitive(old(task), seen, task);
        recorded := true;
        LoggedLast(task, seen.log, Plain(TaskCancelled));
      }
    }

    /** The transition to CANCELLED. */
    method CommitCancelled(c: CallId) returns (committed: bool)
      requires Valid() && c in task.calls && task.calls[c].phase.Finalizing?
      modifies this
      ensures Valid() && Later(old(task), task)
      ensures var view := old(task).calls[c].phase.view;
        && (committed <==> CanTransition(view.status, Cancelled) && old(task).row.version == view.version)
        && task == if committed
             then old(task).(row := Written(old(task).row, view, To(Cancelled)), history := old(task).history + [Cancelled],
                             calls := old(task).calls[c := Call(old(task).calls[c].proc, Reporting)])
             else old(task).(calls := old(task).calls - {c})
    {
      hide Safe, Leads, Later, CallStep, CanTransition;
      var view := task.calls[c].phase.view;
      StepFinalizing(task.row, task.calls[c].phase);
      committed := CanTransition(view.status, Cancelled) && task.row.version == view.version;
      if committed {
        PerformCall(c, CallLocal(Some(Reporting), Written(task.row, view, To(Cancelled)), []));
      } else {
        PerformCall(c, CallLocal(None, task.row, []));
      }
    }

    /** What the startup scan does with this task: cancel it if it is CANCELLING, else put an entry. */
    method Reconcile(c: CallId) returns (entry: Option<EntryId>, cancelled: bool)
      requires Valid() && c !in task.calls
      modifies this
      ensures Valid() && Later(old(task), task) && c !in task.calls
      ensures entry.Some? ==>
        entry.value in task.stream.entries && task.stream.entries[entry.value] == WorkQueue.Item(task.id, WorkQueue.Unread)
      ensures entry.Some? ==> Active(old(task).row.status) || old(task).row.status.WaitingForUser?
      ensures cancelled ==>
        && old(task).row.status.Cancelling?
        && (Reached(task, process) || (task.row.status.Cancelled? && Logged(task.log, TaskCancelled)))
      ensures !Active(old(task).row.status) && !old(task).row.status.WaitingForUser? && !old(task).row.status.Cancelling? ==>
        task == old(task).(disturbed := false)
      ensures undisturbed && (Active(old(task).row.status) || old(task).row.status.WaitingForUser?) ==>
        && entry == Some(old(task).stream.next)
        && task == old(task).(disturbed := false, stream := OneMore(old(task).stream, old(task).id))
      ensures undisturbed && old(task).row.status.Cancelling? ==> cancelled
    {
      hide Safe, Leads, Later, Logged, Relocated, CanObtain, ExecStep;
      ghost var seen := task;
      LaterReflexive(task);
      StepIsLater(task, task, Protocol.Reconcile(c, process));
      entry, cancelled := None, false;
      if Active(task.row.status) || task.row.status.WaitingForUser? {
        task := task.(disturbed := false, calls := task.calls[c := Call(process, PutDue)]);
        Took(seen, Protocol.Reconcile(c, process));
        seen := task;
        entry := PutEntry(c);
        LaterTransitive(old(task), seen, task);
        assert old(task).calls[c := Call(process, PutDue)] - {c} == old(task).calls;
      } else {
        var cancelling := task.row.status.Cancelling?;
        task := task.(disturbed := false);
        Took(seen, Protocol.Reconcile(c, process));
        if cancelling {
          seen := task;
          var signalled, recorded := RequestCancel(c);
          cancelled := signalled || recorded;
          LaterTransitive(old(task), seen, task);
        }
      }
    }
  }

  lemma StatusIsRecorded(s: Task)
    requires Safe(s)
    ensures s.row.status in s.history
  {
    assert s.history[s.row.version] == s.row.status;
  }

  lemma StillRecorded(s: Task, t: Task, status: Status)
    requires Later(s, t) && status in s.history
    ensures status in t.history
  {
    var i :| 0 <= i < |s.history| && s.history[i] == status;
    assert t.history[i] == status;
  }

  /** The execution of the task in process p has been signalled, or is over. */
  predicate Reached(s: Task, p: Proc) {
    && p in s.running && s.running[p] in s.execs
    && var e := s.execs[s.running[p]];
    e.signalled || e.pc.Ended? || e.pc.Acked?
  }

  lemma RunningIsExec(s: Task, p: Proc)
    requires Safe(s) && p in s.running
    ensures s.running[p] in s.execs
  {
  }

  /** The last event of the log, and by terminal agreement the row behind it. */
  lemma LoggedLast(s: Task, before: seq<Event>, ev: Event)
    requires Safe(s) && s.log == before + [ev] && ev.kind.TaskCancelled?
    ensures Logged(s.log, TaskCancelled) && s.row.status.Cancelled?
  {
    assert s.log[|before|].kind == TaskCancelled;
  }

  lemma CompletedLast(s: Task, before: seq<Event>, ev: Event)
    requires Safe(s) && s.log == before + [ev] && ev.kind.TaskCompleted?
    ensures Logged(s.log, TaskCompleted) && s.row.status.Completed?
  {
    assert s.log[|before|].kind == TaskCompleted;
  }

  lemma LaterTransitive(s: Task, t: Task, u: Task)
    requires Later(s, t) && Later(t, u)
    ensures Later(s, u)
  {
  }

  /** Identifiers never run out. */
  lemma FreshExists(places: map<EnvId, Place>, e: Exec)
    ensures exists env: EnvId :: e.view.env != Some(env) && CanObtain(places, e, env)
  {
    var n: nat := 0;
    var rest := places.Keys;
    while rest != {}
      invariant rest <= places.Keys
      invariant forall m :: m in places && m !in rest ==> m < n
      decreases rest
    {
      var m :| m in rest;
      rest := rest - {m};
      n := if m < n then n else m + 1;
    }
    n := if e.view.env.Some? && e.view.env.value >= n then e.view.env.value + 1 else n;
    assert e.view.env != Some(n) && CanObtain(places, e, n);
  }

  ghost predicate EverTerminal(history: seq<Status>) {
    exists i :: 0 <= i < |history| && Terminal(history[i])
  }

  lemma SeenTerminal(s: Task)
    requires Safe(s)
    ensures Terminal(s.row.status) ==> EverTerminal(s.history)
  {
    assert s.history[s.row.version] == s.row.status;
  }

  lemma StillTerminal(s: Task, t: Task)
    requires Later(s, t)
    ensures EverTerminal(s.history) ==> EverTerminal(t.history)
  {
    if EverTerminal(s.history) {
      var i :| 0 <= i < |s.history| && Terminal(s.history[i]);
      assert t.history[i] == s.history[i];
    }
  }

  /** The same execution at a later time. */
  ghost predicate Onward(s: Task, t: Task, x: ExecId) {
    Later(s, t) && x in s.execs && x in t.execs && SameJob(s.execs[x], t.execs[x])
  }

  lemma OnwardReflexive(s: Task, x: ExecId)
    requires x in s.execs
    ensures Onward(s, s, x)
  {
  }

  lemma OnwardTransitive(s: Task, t: Task, u: Task, x: ExecId)
    requires Onward(s, t, x) && Onward(t, u, x)
    ensures Onward(s, u, x)
  {
  }

  /** An exception leaves the try block for the handler it belongs to. */
  predicate ThrownAt(t: Thrown, e: Exec) {
    && (t.Error? ==> e.pc.FailRead?)
    && (t.Cancel? ==> e.pc.CancelRead?)
  }

  predicate SameJob(e: Exec, e': Exec) {
    e'.proc == e.proc && e'.entry == e.entry
  }

  lemma UntouchedReflexive(s: Task, f: Focus)
    requires Holds(s, f)
    ensures Untouched(s, s, f)
  {
  }

  lemma UntouchedTransitive(s: Task, t: Task, u: Task, f: Focus)
    requires Holds(s, f) && Untouched(s, t, f) && Holds(t, f) && Untouched(t, u, f)
    ensures Untouched(s, u, f) && Holds(u, f)
  {
  }
}
