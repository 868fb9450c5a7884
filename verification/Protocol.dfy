/**
 * The task lifecycle as a transition system (src/minion/orchestrator.py).
 *
 * Coroutines of any number of processes interleave at their awaits, so every stretch of
 * code between two awaits that touches shared state is one step here. Tasks interact only
 * through processes and the startup scan, so the state of one task is a `Task`.
 */
module Protocol {
  import opened Prelude
  import opened TaskStates
  import opened TaskRepository
  import opened Events
  import WorkQueue

  type Proc = nat
  type ExecId = nat
  type CallId = nat
  type EntryId = WorkQueue.EntryId

  /**
   * Where the directory of an environment is: in the slot of an execution, in the persistent
   * root, removed, or left in a slot by an execution that never released it.
   */
  datatype Place = InSlot(x: ExecId) | Persistent | Deleted | Stranded

  /** A tool execution that really happened in some workspace of the task. */
  datatype ToolRun = ToolRun(tool: string, ok: bool)

  /** How `_execute` ends: it returns, it re-raises the cancellation, or another exception escapes. */
  datatype Outcome = Returned | CancelRaised | Fatal

  /** Where an execution stands; each constructor names the step it is about to take. */
  datatype Pc =
    | Start                 // initial row read
    | Claim                 // QUEUED -> PROVISIONING
    | Prepare               // attach or allocate a workspace
    | Announce              // append environment.allocated
    | Bind                  // PROVISIONING -> RUNNING, or replace the environment
    | Work                  // agent run
    | Finish                // publish, then RUNNING -> COMPLETED
    | Report                // append task.completed
    | FailRead              // `except Exception`: fresh row read
    | FailWrite             // -> FAILED
    | FailLog               // append task.failed
    | CancelRead            // `except CancelledError`: fresh row read
    | CancelWrite           // CANCELLING -> CANCELLED
    | CancelLog             // append task.cancelled
    | Cleanup(out: Outcome) // `finally`: final row read
    | Release(out: Outcome, destroy: bool)
    | Ended(out: Outcome)   // the execution is over, its worker has not reacted yet
    | Acked                 // entry acknowledged, `_running` not popped yet

  /** `held` are results of tool runs not yet recorded as events. */
  datatype Exec = Exec(
    proc: Proc,
    entry: EntryId,
    pc: Pc,
    view: Row,
    ws: Option<EnvId>,
    signalled: bool,
    held: seq<nat>)

  datatype Action =
    | ReadTask
    | ClaimTask
    | Obtain(env: EnvId)
    | LogAllocated
    | BindTask
    | RunTool(tool: string, ok: bool)
    | RecordTool(k: nat, json: string, output: string)
    | RecordControl(name: string, json: string, output: string)
    | AgentReturns
    | Refresh
    | CompleteTask(result: string)
    | LogCompleted(json: string)
    | Raise
    | FailReads
    | FailTask(error: string)
    | LogFailed(json: string)
    | HandlerRaises
    | HandlerSwallows
    | CancelArrives
    | CancelUnstarted
    | CancelSwallowed
    | CancelReads
    | CancelTask
    | LogCancelled
    | FinalRead
    | ReleaseWorkspace
    | CleanupRaises
    | Stopped

  datatype Local = Local(exec: Exec, row: Row, emit: seq<Event>, runs: seq<ToolRun>)

  function ToolEvent(r: ToolRun, json: string, output: string): Event {
    Event(if r.ok then ToolCompleted else ToolFailed, json, r.tool, r.ok, output)
  }

  predicate InTry(pc: Pc) {
    pc.Start? || pc.Claim? || pc.Prepare? || pc.Announce? || pc.Bind? || pc.Work? || pc.Finish? || pc.Report?
  }

  predicate InFailHandler(pc: Pc) {
    pc.FailRead? || pc.FailWrite? || pc.FailLog?
  }

  predicate InCancelHandler(pc: Pc) {
    pc.CancelRead? || pc.CancelWrite? || pc.CancelLog?
  }

  predicate InFinally(pc: Pc) {
    pc.Cleanup? || pc.Release?
  }

  /** A versioned update inside an execution: success goes on, any rejection goes to `onError`. */
  function Update(row: Row, e: Exec, c: Change, onOk: Pc, onError: Pc): Local {
    match Commit(row, e.view, c)
    case Ok(next) => Local(e.(view := next, pc := onOk), next, [], [])
    case Err(_) => Local(e.(pc := onError), row, [], [])
  }

  /** One step of `_execute` against the current row, log and tool runs; None when not enabled. */
  function ExecStep(row: Row, log: seq<Event>, runs: seq<ToolRun>, e: Exec, a: Action): Option<Local> {
    match a
    case ReadTask =>
      if !e.pc.Start? then None else
      var pc := if Terminal(row.status) then Cleanup(Returned)
                else if row.status.Queued? then Claim else Prepare;
      Some(Local(e.(view := row, pc := pc), row, [], []))
    case ClaimTask =>
      if !e.pc.Claim? then None else
      Some(Update(row, e, To(Provisioning), Prepare, FailRead))
    case Obtain(env) =>
      if !e.pc.Prepare? then None else
      var pc := if e.view.env == Some(env) then Bind else Announce;
      Some(Local(e.(ws := Some(env), pc := pc), row, [], []))
    case LogAllocated =>
      if !e.pc.Announce? then None else
      Some(Local(e.(pc := Bind), row, [Plain(EnvironmentAllocated)], []))
    case BindTask =>
      if !e.pc.Bind? then None else
      if e.view.status.Provisioning? then
        Some(Update(row, e, Change(Running, e.ws, None, None), Work, FailRead))
      else if e.view.status.Running? && e.view.env != e.ws then
        Some(Local(e.(view := e.view.(env := e.ws), pc := Work), row.(env := e.ws), [], []))
      else
        Some(Local(e.(pc := Work), row, [], []))
    case RunTool(tool, ok) =>
      if !e.pc.Work? || tool in CONTROL_TOOLS then None else
      Some(Local(e.(held := e.held + [|runs|]), row, [], [ToolRun(tool, ok)]))
    case RecordTool(k, json, output) =>
      if !e.pc.Work? || k >= |e.held| || e.held[k] >= |runs| then None else
      Some(Local(e, row, [ToolEvent(runs[e.held[k]], json, output)], []))
    case RecordControl(name, json, output) =>
      if !e.pc.Work? || name !in CONTROL_TOOLS then None else
      Some(Local(e, row, [Event(ToolCompleted, json, name, true, output)], []))
    case AgentReturns =>
      if !e.pc.Work? || !Evidence(log) then None else
      Some(Local(e.(pc := Finish), row, [], []))
    case Refresh =>
      if !e.pc.Finish? then None else
      Some(Local(e.(view := row), row, [], []))
    case CompleteTask(result) =>
      if !e.pc.Finish? then None else
      Some(Update(row, e, Change(Completed, None, None, Some(result)), Report, FailRead))
    case LogCompleted(json) =>
      if !e.pc.Report? then None else
      Some(Local(e.(pc := Cleanup(Returned)), row, [Event(TaskCompleted, json, "", false, "")], []))
    case Raise =>
      if !InTry(e.pc) then None else
      Some(Local(e.(pc := FailRead), row, [], []))
    case FailReads =>
      if !e.pc.FailRead? then None else
      var pc := if Terminal(row.status) then Cleanup(Returned) else FailWrite;
      Some(Local(e.(view := row, pc := pc), row, [], []))
    case FailTask(error) =>
      if !e.pc.FailWrite? then None else
      Some(Update(row, e, Change(Failed, None, Some(error), None), FailLog, Cleanup(Fatal)))
    case LogFailed(json) =>
      if !e.pc.FailLog? then None else
      Some(Local(e.(pc := Cleanup(Returned)), row, [Event(TaskFailed, json, "", false, "")], []))
    case HandlerRaises =>
      if !InFailHandler(e.pc) && !InCancelHandler(e.pc) then None else
      Some(Local(e.(pc := Cleanup(Fatal)), row, [], []))
    case HandlerSwallows =>
      // `except (KeyError, RuntimeError)` inside the failure handler.
      if !InFailHandler(e.pc) then None else
      Some(Local(e.(pc := Cleanup(Returned)), row, [], []))
    case CancelUnstarted =>
      // Cancelled before its first step: the try block is never entered.
      if !e.signalled || !e.pc.Start? then None else
      Some(Local(e.(signalled := false, pc := Ended(CancelRaised)), row, [], []))
    case CancelArrives =>
      if !e.signalled then None else
      var e' := e.(signalled := false);
      if InTry(e.pc) then
        Some(Local(e'.(pc := CancelRead), row, [], []))
      else if InFailHandler(e.pc) || InCancelHandler(e.pc) then
        Some(Local(e'.(pc := Cleanup(CancelRaised)), row, [], []))
      else if InFinally(e.pc) then
        Some(Local(e'.(pc := Ended(CancelRaised)), row, [], []))
      else None
    case CancelSwallowed =>
      if !e.signalled || !e.pc.Cleanup? then None else
      Some(Local(e.(signalled := false), row, [], []))
    case CancelReads =>
      if !e.pc.CancelRead? then None else
      var pc := if row.status.Cancelling? then CancelWrite else Cleanup(CancelRaised);
      Some(Local(e.(view := row, pc := pc), row, [], []))
    case CancelTask =>
      if !e.pc.CancelWrite? then None else
      Some(Update(row, e, To(Cancelled), CancelLog, Cleanup(Fatal)))
    case LogCancelled =>
      if !e.pc.CancelLog? then None else
      Some(Local(e.(pc := Cleanup(CancelRaised)), row, [Plain(TaskCancelled)], []))
    case FinalRead =>
      if !e.pc.Cleanup? then None else
      var pc := if e.ws.None? then Ended(e.pc.out) else Release(e.pc.out, Absorbing(row.status));
      Some(Local(e.(pc := pc), row, [], []))
    case ReleaseWorkspace =>
      if !e.pc.Release? then None else
      Some(Local(e.(pc := Ended(e.pc.out)), row, [], []))
    case CleanupRaises =>
      if !e.pc.Cleanup? then None else
      Some(Local(e.(pc := Ended(Fatal)), row, [], []))
    case Stopped =>
      if e.pc.Ended? || e.pc.Acked? then None else
      Some(Local(e.(pc := if InFinally(e.pc) then Ended(Fatal) else Cleanup(Fatal)), row, [], []))
  }

  /** An API request or startup scan in flight, by the step it is about to take. */
  datatype Phase =
    | Submitting(view: Row)     // CREATED -> QUEUED
    | Retrying(view: Row)       // FAILED -> QUEUED
    | PutDue                    // queue.put
    | CancelRequested(view: Row) // -> CANCELLING
    | Signalling(view: Row)     // look up `_running` and cancel what is there
    | Finalizing(view: Row)     // not running here: -> CANCELLED
    | Reporting                 // append task.cancelled

  datatype Call = Call(proc: Proc, phase: Phase)

  /** Database part of a request's next step; None means the request is over. */
  datatype CallLocal = CallLocal(phase: Option<Phase>, row: Row, emit: seq<Event>)

  function CallUpdate(row: Row, view: Row, target: Status, onOk: Row -> Phase): CallLocal {
    match Commit(row, view, To(target))
    case Ok(next) => CallLocal(Some(onOk(next)), next, [])
    case Err(_) => CallLocal(None, row, [])
  }

  function CallStep(row: Row, phase: Phase): CallLocal {
    match phase
    case Submitting(view) => CallUpdate(row, view, Queued, next => PutDue)
    case Retrying(view) => CallUpdate(row, view, Queued, next => PutDue)
    case CancelRequested(view) => CallUpdate(row, view, Cancelling, next => Signalling(next))
    case Finalizing(view) => CallUpdate(row, view, Cancelled, next => Reporting)
    case Reporting => CallLocal(None, row, [Plain(TaskCancelled)])
    case PutDue => CallLocal(None, row, [])
    case Signalling(view) => CallLocal(Some(Finalizing(view)), row, [])
  }

  /**
   * `history` and `runs` record what happened; `places` says where each environment ever
   * allocated is; `disturbed` says that a worker or process died since the last startup
   * scan. `dupAcks` are entries a worker found to be duplicates and is about to acknowledge.
   */
  datatype Task = Task(
    id: TaskId,
    row: Row,
    history: seq<Status>,
    log: seq<Event>,
    runs: seq<ToolRun>,
    stream: WorkQueue.Stream,
    dupAcks: set<(Proc, EntryId)>,
    execs: map<ExecId, Exec>,
    running: map<Proc, ExecId>,
    calls: map<CallId, Call>,
    places: map<EnvId, Place>,
    disturbed: bool)

  datatype Step =
    | Deliver(en: EntryId, p: Proc, x: ExecId)
    | DupAck(p: Proc, en: EntryId)
    | DupAckFails(p: Proc, en: EntryId)
    | ExecDo(x: ExecId, a: Action)
    | AckItem(x: ExecId)
    | AckFails(x: ExecId)
    | Pop(x: ExecId)
    | WorkerDies(x: ExecId)
    | BeginRetry(c: CallId, p: Proc)
    | BeginCancel(c: CallId, p: Proc)
    | Reconcile(c: CallId, p: Proc)
    | CallDo(c: CallId)
    | CallDies(c: CallId)
    | Crash(p: Proc)
    | OtherEvent(ev: Event)

  /** The task just created by `submit` in process `p`. */
  function NewTask(id: TaskId, p: Proc, c: CallId): Task {
    Task(id, NEW_ROW, [Created], [Plain(TaskCreated)], [], WorkQueue.EMPTY, {}, map[], map[],
         map[c := Call(p, Submitting(NEW_ROW))], map[], false)
  }

  /** The row moves, events are appended and tool runs happen. */
  function Advance(s: Task, row: Row, emit: seq<Event>, runs: seq<ToolRun>): Task {
    s.(row := row,
       history := Recorded(s.history, s.row, row),
       log := s.log + emit,
       runs := s.runs + runs)
  }

  function SetExec(s: Task, x: ExecId, e: Exec): Task {
    s.(execs := s.execs[x := e])
  }

  function DropExec(s: Task, x: ExecId): Task
    requires x in s.execs
  {
    s.(running := s.running - {s.execs[x].proc}, execs := s.execs - {x})
  }

  function SetCall(s: Task, c: CallId, p: Proc, phase: Option<Phase>): Task {
    s.(calls := if phase.Some? then s.calls[c := Call(p, phase.value)] else s.calls - {c})
  }

  function Disturb(s: Task): Task {
    s.(disturbed := true)
  }

  /** `cancel` finds the execution `x` in `_running`; cancelling a finished one does nothing. */
  function Signal(s: Task, x: ExecId): Task
    requires x in s.execs
  {
    if s.execs[x].pc.Ended? || s.execs[x].pc.Acked? then s
    else SetExec(s, x, s.execs[x].(signalled := true))
  }

  /** A worker receives an entry: a duplicate of what its process runs, or a new execution. */
  function Receive(s: Task, en: EntryId, p: Proc, x: ExecId): Task
    requires en in s.stream.entries
  {
    var s' := s.(stream := WorkQueue.Deliver(s.stream, en));
    if p in s.running then
      s'.(dupAcks := s.dupAcks + {(p, en)})
    else
      s'.(execs := s.execs[x := Exec(p, en, Start, s.row, None, false, [])],
          running := s.running[p := x])
  }

  /** What `list_active` sees of this task decides what the startup scan does with it. */
  function Scan(s: Task, c: CallId, p: Proc): Task {
    var s' := s.(disturbed := false);
    if Active(s.row.status) || s.row.status.WaitingForUser? then
      SetCall(s', c, p, Some(PutDue))
    else s'
  }

  /** What an execution holds is in its slot until it releases it. */
  predicate InSlotOf(s: Task, env: EnvId, p: Proc) {
    env in s.places && s.places[env].InSlot? && s.places[env].x in s.execs && s.execs[s.places[env].x].proc == p
  }

  /** Process `p` is gone: its executions, requests and `_running` vanish, pending entries stay. */
  function CrashProcess(s: Task, p: Proc): Task {
    s.(execs := map x | x in s.execs && s.execs[x].proc != p :: s.execs[x],
       running := s.running - {p},
       calls := map c | c in s.calls && s.calls[c].proc != p :: s.calls[c],
       dupAcks := (set d | d in s.dupAcks && d.0 != p),
       places := map env | env in s.places :: if InSlotOf(s, env, p) then Stranded else s.places[env],
       disturbed := true)
  }

  /** The environment a row names is attached if it is in the persistent root, a new one allocated. */
  predicate CanObtain(places: map<EnvId, Place>, e: Exec, env: EnvId) {
    if e.view.env == Some(env) then env in places && places[env].Persistent? else env !in places
  }

  /** The finally block is left without the release. */
  predicate LeavesEarly(e: Exec, a: Action) {
    InFinally(e.pc) && e.ws.Some? && ((a.CancelArrives? && e.signalled) || a.CleanupRaises? || a.Stopped?)
  }

  /** Where the directories are after execution x took a step. */
  function Relocated(places: map<EnvId, Place>, x: ExecId, e: Exec, a: Action): map<EnvId, Place> {
    if a.Obtain? then places[a.env := InSlot(x)]
    else if LeavesEarly(e, a) then places[e.ws.value := Stranded]
    else if a.ReleaseWorkspace? && e.pc.Release? && e.ws.Some? then
      places[e.ws.value := if e.pc.destroy then Deleted else Persistent]
    else places
  }

  /** An execution takes a step. */
  function AfterExec(s: Task, x: ExecId, a: Action): Option<Task>
    requires x in s.execs
  {
    var e := s.execs[x];
    match ExecStep(s.row, s.log, s.runs, e, a)
    case None => None
    case Some(l) =>
      if a.Obtain? && !CanObtain(s.places, e, a.env) then None else
      Some(SetExec(Advance(s, l.row, l.emit, l.runs), x, l.exec).(places := Relocated(s.places, x, e, a)))
  }

  /** A request in flight takes its next step. */
  function AfterCall(s: Task, c: CallId): Task
    requires c in s.calls
  {
    var call := s.calls[c];
    if call.phase.PutDue? then
      SetCall(s.(stream := WorkQueue.Put(s.stream, s.id)), c, call.proc, None)
    else if call.phase.Signalling? && call.proc in s.running && s.running[call.proc] in s.execs then
      SetCall(Signal(s, s.running[call.proc]), c, call.proc, None)
    else
      var l := CallStep(s.row, call.phase);
      SetCall(Advance(s, l.row, l.emit, []), c, call.proc, l.phase)
  }

  /** The successor of `s` under step `a`, if that step is possible. */
  function Apply(s: Task, a: Step): Option<Task> {
    match a
    case Deliver(en, p, x) =>
      if en in s.stream.entries && x !in s.execs then Some(Receive(s, en, p, x)) else None
    case DupAck(p, en) =>
      if (p, en) !in s.dupAcks then None else
      Some(s.(stream := WorkQueue.Ack(s.stream, en), dupAcks := s.dupAcks - {(p, en)}))
    case DupAckFails(p, en) =>
      if (p, en) !in s.dupAcks then None else
      Some(Disturb(s.(dupAcks := s.dupAcks - {(p, en)})))
    case ExecDo(x, act) =>
      if x in s.execs then AfterExec(s, x, act) else None
    case AckItem(x) =>
      if x !in s.execs || !s.execs[x].pc.Ended? || s.execs[x].pc.out.Fatal? then None else
      Some(SetExec(s.(stream := WorkQueue.Ack(s.stream, s.execs[x].entry)), x, s.execs[x].(pc := Acked)))
    case AckFails(x) =>
      if x !in s.execs || !s.execs[x].pc.Ended? || s.execs[x].pc.out.Fatal? then None else
      Some(Disturb(DropExec(s, x)))
    case Pop(x) =>
      if x !in s.execs || !s.execs[x].pc.Acked? then None else
      Some(DropExec(s, x))
    case WorkerDies(x) =>
      if x !in s.execs || !s.execs[x].pc.Ended? || !s.execs[x].pc.out.Fatal? then None else
      Some(Disturb(DropExec(s, x)))
    case BeginRetry(c, p) =>
      if c in s.calls then None else
      if !s.row.status.Failed? then Some(s) else
      Some(SetCall(s, c, p, Some(Retrying(s.row))))
    case BeginCancel(c, p) =>
      if c in s.calls then None else
      if Terminal(s.row.status) then Some(s) else
      Some(SetCall(s, c, p, Some(CancelRequested(s.row))))
    case Reconcile(c, p) =>
      if c in s.calls then None else Some(Scan(s, c, p))
    case CallDo(c) =>
      if c in s.calls then Some(AfterCall(s, c)) else None
    case CallDies(c) =>
      if c !in s.calls then None else
      Some(s.(calls := s.calls - {c}))
    case Crash(p) =>
      Some(CrashProcess(s, p))
    case OtherEvent(ev) =>
      if ev.kind.TaskCompleted? || ev.kind.TaskCancelled? || ev.kind.ToolCompleted? then None else
      Some(s.(log := s.log + [ev]))
  }
}
