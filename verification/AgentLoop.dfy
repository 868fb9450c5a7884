/**
 * The tool loop of one run (src/minion/runtime/agent.py, `CodingAgent`) with the completion
 * gate (src/minion/runtime/context.py, `finish_task`). Model turns, tool results, exceptions
 * and the events of other writers are arbitrary.
 */
module AgentLoop {
  import opened Prelude
  import opened Events
  import opened ToolCalls

  const GATE_LIMIT := 10_000

  /** What the model answers, and what its tool calls will come to. */
  datatype Turn = Turn(content: string, calls: seq<Call>, outcomes: seq<ToolResult>)

  datatype Outcome =
    | NextTurn
    | Finished(summary: string, verification: seq<string>)
    | Raised

  /** `Failed` is any exception out of `run`, the step budget included. */
  datatype RunResult =
    | Done(summary: string, verification: seq<string>, steps: int)
    | Failed

  /** The condition under which a turn runs its calls together. */
  predicate ParallelBatch(calls: seq<Call>) {
    |calls| > 1 && forall i :: 0 <= i < |calls| ==> External(calls[i]) && calls[i].name in PARALLEL_SAFE
  }

  lemma SafeIsFree(calls: seq<Call>)
    requires ParallelBatch(calls)
    ensures AllFree(calls)
  {
  }

  /** A turn is run as a batch if and only if it has several calls and all of them only look. */
  lemma BatchExactly(calls: seq<Call>)
    ensures ParallelBatch(calls) <==>
      |calls| > 1 && forall i :: 0 <= i < |calls| ==> calls[i].name in {
        "repository_overview", "repository_search", "symbol_context", "impact_analysis", "dependency_hints",
        "index_stats", "list_files", "read_file", "search_code", "git_diff", "git_status"}
  {
    forall i | 0 <= i < |calls| && calls[i].name in PARALLEL_SAFE ensures External(calls[i]) {
      SafeIsExternal(calls[i]);
    }
    hide External;
  }

  /** A turn with a mutating call, or any other ordered one, is never run as a batch. */
  lemma OrderedTurnIsSequential(calls: seq<Call>, c: Call)
    requires c in calls && (c.name in MUTATING || Ordered(c))
    ensures !ParallelBatch(calls)
  {
    hide External;
    if c.name in MUTATING {
      MutatingIsOrdered(c);
    }
    if ParallelBatch(calls) {
      SafeIsFree(calls);
    }
  }

  /** What a writer of the log does; a tool whose success it reports was run by it. */
  datatype Deed =
    | Note(event: Event)
    | ControlDone(tool: string, output: string)
    | Ran(tool: string, json: string, result: ToolResult)

  function ResultEvent(tool: string, json: string, r: ToolResult): Event {
    Event(if r.ok then ToolCompleted else ToolFailed, json, tool, r.ok, r.output)
  }

  function EventOf(a: Deed): Event {
    match a
    case Note(e) => if Claims(e) then e.(ok := false) else e
    case ControlDone(tool, output) => Event(ToolCompleted, "{}", tool, tool in CONTROL_TOOLS, output)
    case Ran(tool, json, r) => ResultEvent(tool, json, r)
  }

  /** The deed that writes a given event. */
  function DeedOf(e: Event): (d: Deed)
    ensures EventOf(d) == e
  {
    if Claims(e) then Ran(e.tool, e.json, ToolResult(true, e.output)) else Note(e)
  }

  function EventsOf(deeds: seq<Deed>): (events: seq<Event>)
    ensures |events| == |deeds|
  {
    seq(|deeds|, i requires 0 <= i < |deeds| => EventOf(deeds[i]))
  }

  function Worked(deeds: seq<Deed>): set<string> {
    set i | 0 <= i < |deeds| && deeds[i].Ran? && deeds[i].result.ok :: deeds[i].tool
  }

  /** An event of the log with its author: this run of the agent, or anybody else. */
  datatype Act = Mine(deed: Deed) | Others(deed: Deed)

  function EventsOfActs(acts: seq<Act>): (events: seq<Event>)
    ensures |events| == |acts|
  {
    seq(|acts|, i requires 0 <= i < |acts| => EventOf(acts[i].deed))
  }

  /** What the tool loop itself writes. */
  predicate OwnDeed(d: Deed) {
    match d
    case Note(e) =>
      e.kind.ToolStarted? || e.kind.AgentStep? || e.kind.AgentMessage? || e.kind.CheckpointCreated?
    case ControlDone(tool, _) => tool in CONTROL_TOOLS
    case Ran(tool, _, _) => tool !in CONTROL_TOOLS
  }

  /** The log grew by these acts, and the agent's own are of its kind. */
  ghost predicate Told(start: seq<Event>, log: seq<Event>, acts: seq<Act>) {
    && log == start + EventsOfActs(acts)
    && forall i :: 0 <= i < |acts| && acts[i].Mine? ==> OwnDeed(acts[i].deed)
  }

  function ByOthers(deeds: seq<Deed>): (acts: seq<Act>)
    ensures |acts| == |deeds|
  {
    seq(|deeds|, i requires 0 <= i < |deeds| => Others(deeds[i]))
  }

  lemma OthersTold(start: seq<Event>, log: seq<Event>, acts: seq<Act>, deeds: seq<Deed>)
    requires Told(start, log, acts)
    ensures Told(start, log + EventsOf(deeds), acts + ByOthers(deeds))
  {
    assert EventsOfActs(acts + ByOthers(deeds)) == EventsOfActs(acts) + EventsOf(deeds);
  }

  lemma OwnTold(start: seq<Event>, log: seq<Event>, acts: seq<Act>, deed: Deed)
    requires Told(start, log, acts) && OwnDeed(deed)
    ensures Told(start, log + [EventOf(deed)], acts + [Mine(deed)])
  {
    assert EventsOfActs(acts + [Mine(deed)]) == EventsOfActs(acts) + [EventOf(deed)];
  }

  predicate Claims(e: Event) {
    e.kind.ToolCompleted? && e.ok && e.tool !in CONTROL_TOOLS
  }

  /** Every reported success of an external tool is that of a tool that did run successfully. */
  ghost predicate Backed(log: seq<Event>, worked: set<string>) {
    forall i :: 0 <= i < |log| && Claims(log[i]) ==> log[i].tool in worked
  }

  lemma DeedsAreBacked(log: seq<Event>, worked: set<string>, deeds: seq<Deed>)
    requires Backed(log, worked)
    ensures Backed(log + EventsOf(deeds), worked + Worked(deeds))
  {
    forall i | 0 <= i < |deeds| && Claims(EventOf(deeds[i])) ensures EventOf(deeds[i]).tool in Worked(deeds) {
    }
  }

  /** Evidence in a backed log is that of two real executions. */
  lemma EvidenceIsReal(log: seq<Event>, worked: set<string>)
    requires Backed(log, worked) && Evidence(log)
    ensures "run_command" in worked && "git_diff" in worked
  {
    EvidenceToolsAreExternal();
    var i :| 0 <= i < |log| && ShowsSuccess(log[i], "run_command");
    var j :| 0 <= j < |log| && ShowsSuccess(log[j], "git_diff");
    assert Claims(log[i]) && Claims(log[j]);
  }

  function Oldest(log: seq<Event>): seq<Event> {
    if |log| <= GATE_LIMIT then log else log[..GATE_LIMIT]
  }

  lemma EvidenceInOldest(log: seq<Event>)
    requires Evidence(Oldest(log))
    ensures Evidence(log)
  {
    EvidenceGrows(Oldest(log), log[|Oldest(log)|..]);
    assert Oldest(log) + log[|Oldest(log)|..] == log;
  }

  predicate NonemptyText(s: string) {
    s != ""
  }

  /** `[text for text in texts if text]`. */
  function NonemptyTexts(texts: seq<string>): seq<string> {
    if texts == [] then []
    else
      var n := |texts| - 1;
      NonemptyTexts(texts[..n]) + if NonemptyText(texts[n]) then [texts[n]] else []
  }

  /** What `finish_task` answers; None stands for the KeyError of a missing summary. */
  ghost function Gate(log: seq<Event>, arguments: Arguments): Option<Outcome> {
    if NonemptyTexts(arguments.verification) == [] || !Evidence(Oldest(log)) then Some(NextTurn)
    else if arguments.summary.None? then None
    else Some(Finished(arguments.summary.value, NonemptyTexts(arguments.verification)))
  }

  /** A successful run of `tool` is among the first 10,000 events. */
  predicate SucceededInTime(log: seq<Event>, tool: string) {
    exists i :: 0 <= i < |log| && i < 10_000 && ShowsSuccess(log[i], tool)
  }

  lemma InTimeExactly(log: seq<Event>, tool: string)
    ensures Succeeded(Oldest(log), tool) <==> SucceededInTime(log, tool)
  {
    var oldest := Oldest(log);
    if i :| 0 <= i < |log| && i < GATE_LIMIT && ShowsSuccess(log[i], tool) {
      assert oldest[i] == log[i];
    }
  }

  /**
   * The gate opens if and only if a summary and a verification text are given and a success
   * of each of the two tools is among the first 10,000 events of the log; then the log does
   * hold evidence, and what is accepted are the nonempty texts that were given.
   */
  lemma GateOpensExactly(log: seq<Event>, arguments: Arguments)
    ensures var r := Gate(log, arguments);
      && (r.Some? && r.value.Finished? <==>
            Stated(arguments) && SucceededInTime(log, "run_command") && SucceededInTime(log, "git_diff"))
      && (r.Some? && r.value.Finished? ==>
            && Evidence(log)
            && Some(r.value.summary) == arguments.summary
            && r.value.verification != []
            && forall v :: v in r.value.verification <==> v in arguments.verification && v != "")
  {
    hide Succeeded, SucceededInTime, NonemptyTexts;
    InTimeExactly(log, "run_command");
    InTimeExactly(log, "git_diff");
    if Evidence(Oldest(log)) {
      EvidenceInOldest(log);
    }
    TextsAreKept(arguments.verification);
    var kept := NonemptyTexts(arguments.verification);
    assert kept != [] ==> kept[0] in kept;
  }

  /** A summary and at least one verification text are given. */
  predicate Stated(arguments: Arguments) {
    arguments.summary.Some? && exists v :: v in arguments.verification && v != ""
  }

  lemma {:induction false} TextsAreKept(texts: seq<string>)
    ensures forall v :: v in NonemptyTexts(texts) <==> v in texts && v != ""
  {
    if texts != [] {
      var n := |texts| - 1;
      TextsAreKept(texts[..n]);
      assert texts == texts[..n] + [texts[n]];
    }
  }

  /** What the gate accepts keeps the order in which it was given. */
  lemma {:induction false} TextsInOrder(a: seq<string>, b: seq<string>)
    ensures NonemptyTexts(a + b) == NonemptyTexts(a) + NonemptyTexts(b)
    ensures forall t :: NonemptyTexts([t]) == if t == "" then [] else [t]
  {
    forall t ensures NonemptyTexts([t]) == if t == "" then [] else [t] {
      assert [t][..0] == [];
    }
    if b == [] {
      assert a + b == a;
    } else {
      var n := |b| - 1;
      assert (a + b)[..|a + b| - 1] == a + b[..n];
      TextsInOrder(a, b[..n]);
    }
  }

  /** A call of `finish_task` that the gate accepts on this log and on every longer one. */
  predicate Ready(log: seq<Event>, call: Call) {
    && call.name == "finish_task" && Stated(call.arguments)
    && SucceededInTime(log, "run_command") && SucceededInTime(log, "git_diff")
  }

  lemma ReadyStays(log: seq<Event>, more: seq<Event>, call: Call)
    requires Ready(log, call) && log <= more
    ensures Ready(more, call)
  {
    hide Stated;
    forall tool | SucceededInTime(log, tool) ensures SucceededInTime(more, tool) {
      var i :| 0 <= i < |log| && i < 10_000 && ShowsSuccess(log[i], tool);
      assert more[i] == log[i];
    }
  }

  /** The run passed over no call of these that was ready. */
  ghost predicate NoneReady(log: seq<Event>, calls: seq<Call>) {
    forall c :: c in calls ==> !Ready(log, c)
  }

  lemma NoneWasReady(log: seq<Event>, more: seq<Event>, calls: seq<Call>)
    requires NoneReady(more, calls) && log <= more
    ensures NoneReady(log, calls)
  {
    hide Ready;
    forall c | c in calls && Ready(log, c) ensures Ready(more, c) {
      ReadyStays(log, more, c);
    }
  }

  /** Summary and texts are those of a `finish_task` call among these. */
  ghost predicate AcceptedIn(calls: seq<Call>, summary: string, verification: seq<string>) {
    exists c :: c in calls && Accepts(c, summary, verification)
  }

  predicate Accepts(c: Call, summary: string, verification: seq<string>) {
    && c.name == "finish_task" && c.arguments.summary == Some(summary)
    && verification == NonemptyTexts(c.arguments.verification)
  }

  /** Some `finish_task` call of these has no summary. */
  predicate LacksSummary(calls: seq<Call>) {
    exists c :: c in calls && c.name == "finish_task" && c.arguments.summary.None?
  }

  /** The calls of all these turns. */
  function CallsOf(turns: seq<Turn>): seq<Call> {
    if turns == [] then [] else CallsOf(turns[..|turns| - 1]) + turns[|turns| - 1].calls
  }

  /** On a log that holds evidence, a complete call is refused exactly when a tool's first success comes too late. */
  lemma EvidenceIsIgnoredExactly(log: seq<Event>, arguments: Arguments)
    requires Evidence(log) && Stated(arguments)
    ensures Gate(log, arguments) == Some(NextTurn) <==>
      !SucceededInTime(log, "run_command") || !SucceededInTime(log, "git_diff")
  {
    hide Evidence, SucceededInTime;
    GateOpensExactly(log, arguments);
  }

  /** 10,000 events of a long conversation, and only then the command and the diff. */
  function LateLog(): seq<Event> {
    seq(GATE_LIMIT, _ => Plain(AgentMessage)) +
    [EventOf(Ran("run_command", "{}", ToolResult(true, ""))), EventOf(Ran("git_diff", "{}", ToolResult(true, "")))]
  }

  /** Such a log holds evidence, and no call of `finish_task` is ever accepted on it, however it goes on. */
  lemma LateEvidenceIsRefused(more: seq<Event>, arguments: Arguments)
    ensures Evidence(LateLog()) && Evidence(LateLog() + more)
    ensures Gate(LateLog() + more, arguments) == Some(NextTurn)
  {
    var log := LateLog();
    assert ShowsSuccess(log[GATE_LIMIT], "run_command") && ShowsSuccess(log[GATE_LIMIT + 1], "git_diff");
    EvidenceGrows(log, more);
    assert !SucceededInTime(log + more, "run_command");
    InTimeExactly(log + more, "run_command");
  }

  /** Tools with a successful completion in the log. */
  function Successful(log: seq<Event>): set<string> {
    set i | 0 <= i < |log| && log[i].kind.ToolCompleted? && log[i].ok :: log[i].tool
  }

  lemma SuccessfulIsSucceeded(log: seq<Event>, tool: string)
    ensures tool in Successful(log) <==> Succeeded(log, tool)
  {
    if tool in Successful(log) {
      var i :| 0 <= i < |log| && log[i].kind.ToolCompleted? && log[i].ok && log[i].tool == tool;
      assert ShowsSuccess(log[i], tool);
    }
  }

  class CodingAgent {
    const maxSteps: int
    /** Nobody else writes, no await raises, and control tools other than `finish_task` get what they need. */
    const undisturbed: bool
    /** The task's event log, which others append to as well. */
    var log: seq<Event>
    /** External tools that some executor of the task has run successfully. */
    ghost var worked: set<string>
    /** The log when the run began, and who wrote what since. */
    ghost const start: seq<Event>
    ghost var acts: seq<Act>
    /** Calls of all model turns so far, handler starts and returns, and recorded results. */
    var issued: seq<Call>
    var trace: seq<Mark>
    var results: seq<Call>
    var steps: nat

    constructor (maxSteps: int, log: seq<Event>, ghost worked: set<string>, undisturbed: bool)
      requires Backed(log, worked)
      ensures Backed(this.log, this.worked) && this.log == log && this.worked == worked
      ensures Told(start, this.log, acts) && start == log && acts == []
      ensures this.undisturbed == undisturbed
      ensures this.maxSteps == maxSteps && issued == [] && trace == [] && results == [] && steps == 0
    {
      this.maxSteps := maxSteps;
      this.undisturbed := undisturbed;
      this.log, this.worked := log, worked;
      start, acts := log, [];
      issued, trace, results, steps := [], [], [], 0;
    }

    /** Whatever other writers do between two statements of this run. */
    method Interfere()
      requires Backed(log, worked) && Told(start, log, acts)
      modifies `log, `worked, `acts
      ensures Backed(log, worked) && Told(start, log, acts) && old(acts) <= acts && old(log) <= log && old(worked) <= worked
      ensures undisturbed ==> log == old(log) && worked == old(worked) && acts == old(acts)
    {
      hide Told, Backed, EventsOf, Worked;
      var deeds: seq<Deed> := *;
      if undisturbed {
        return;
      }
      DeedsAreBacked(log, worked, deeds);
      worked := worked + Worked(deeds);
      OthersTold(start, log, acts, deeds);
      acts := acts + ByOthers(deeds);
      log := log + EventsOf(deeds);
    }

    /** `events.append`; false when it raises. */
    method Append(deed: Deed) returns (ok: bool)
      requires Backed(log, worked) && Told(start, log, acts) && OwnDeed(deed)
      requires Claims(EventOf(deed)) ==> EventOf(deed).tool in worked
      modifies `log, `worked, `acts
      ensures Backed(log, worked) && Told(start, log, acts) && old(acts) <= acts && old(log) <= log && old(worked) <= worked
      ensures ok ==> |log| > |old(log)| && log[|log| - 1] == EventOf(deed) && acts != [] && acts[|acts| - 1] == Mine(deed)
      ensures undisturbed ==> ok && log == old(log) + [EventOf(deed)] && worked == old(worked)
    {
      hide Told;
      Interfere();
      ok := *;
      if !ok && !undisturbed {
        return;
      }
      OwnTold(start, log, acts, deed);
      acts := acts + [Mine(deed)];
      log := log + [EventOf(deed)];
      ok := true;
    }

    /** `_run_external_call` and `_record_external_result`. */
    method RunExternalCall(call: Call, outcome: ToolResult, ghost before: seq<Call>) returns (ok: bool)
      requires Backed(log, worked) && Told(start, log, acts)
      requires External(call) && AllDone(trace, before)
      modifies `log, `worked, `acts, `trace, `results
      ensures Backed(log, worked) && Told(start, log, acts) && old(acts) <= acts && old(log) <= log && old(worked) <= worked
      ensures InOrder(trace, before + [call])
      ensures if ok then AllDone(trace, before + [call]) && results == old(results) + [call]
        else results == old(results) || results == old(results) + [call]
      ensures ok ==> ResultLogged(log, |old(log)|, call.name, outcome)
      ensures ok && call.name == "checkpoint" && outcome.ok ==> log[|log| - 1].kind.CheckpointCreated?
      ensures undisturbed ==> ok
    {
      hide ResultLogged, AllDone, InOrder, Told, Backed;
      RunOne(trace, before, call);
      trace := trace + [Begin(call)];
      ok := *;
      if !ok && !undisturbed {
        return;
      }
      var result := outcome;
      var json: string := *;
      Interfere();
      trace := trace + [Finish(call)];
      DoneIsInOrder(trace, before + [call]);
      WorkedIsBacked(log, worked, if result.ok then {call.name} else {});
      worked := worked + if result.ok then {call.name} else {};
      ok := Append(Ran(call.name, json, result));
      if !ok {
        return;
      }
      results := results + [call];
      LastIsRecorded(log, |old(log)|, call.name, json, result);
      ghost var seen := log;
      if call.name == "checkpoint" && result.ok {
        ok := Append(Note(Plain(CheckpointCreated)));
        RecordsStay(seen, log, |old(log)|, |old(log)|);
      }
    }

    /** The `finish_task` branch of `execute_control_tool`. */
    method FinishTask(arguments: Arguments) returns (r: Option<Outcome>)
      ensures r == Gate(log, arguments)
    {
      var verification: seq<string> := [];
      for i := 0 to |arguments.verification|
        invariant verification == NonemptyTexts(arguments.verification[..i])
      {
        assert arguments.verification[..i + 1][..i] == arguments.verification[..i];
        if NonemptyText(arguments.verification[i]) {
          verification := verification + [arguments.verification[i]];
        }
      }
      assert arguments.verification[..|arguments.verification|] == arguments.verification;
      if verification == [] {
        return Some(NextTurn);
      }
      var history := Oldest(log);
      var successful: set<string> := {};
      for i := 0 to |history|
        invariant successful == Successful(history[..i])
      {
        SuccessfulStep(history, i);
        if history[i].kind.ToolCompleted? && history[i].ok {
          successful := successful + {history[i].tool};
        }
      }
      assert history[..|history|] == history;
      SuccessfulIsSucceeded(history, "run_command");
      SuccessfulIsSucceeded(history, "git_diff");
      if "run_command" !in successful || "git_diff" !in successful {
        return Some(NextTurn);
      }
      match arguments.summary {
        case None => return None;
        case Some(summary) => return Some(Finished(summary, verification));
      }
    }

    /** `execute_control_tool` and the event that records it. */
    method RunControlCall(call: Call, ghost before: seq<Call>) returns (r: Outcome)
      requires Backed(log, worked) && Told(start, log, acts)
      requires !External(call) && AllDone(trace, before)
      modifies `log, `worked, `acts, `results
      ensures Backed(log, worked) && Told(start, log, acts) && old(acts) <= acts && old(log) <= log && old(worked) <= worked
      ensures AllDone(trace, before + [call])
      ensures if r.Raised? then results == old(results) else results == old(results) + [call]
      ensures r.Finished? ==> call.name == "finish_task" && Evidence(log) && r.verification != []
      ensures r.Finished? ==> Accepts(call, r.summary, r.verification)
      ensures r.NextTurn? ==> !Ready(old(log), call)
      ensures undisturbed ==> (r.Raised? ==> LacksSummary([call])) && (Ready(old(log), call) ==> r.Finished?)
    {
      hide AllDone, Told, Backed, Evidence, NonemptyTexts, Oldest, SucceededInTime, Stated;
      SkipControl(trace, before, call);
      Interfere();
      var result := Some(NextTurn);
      ghost var seen := log;
      if call.name == "finish_task" {
        result := FinishTask(call.arguments);
        GateOpensExactly(log, call.arguments);
        if Ready(old(log), call) {
          ReadyStays(old(log), log, call);
        }
        GateRaises(log, call.arguments);
        assert [call][0].name == "finish_task";
      } else {
        var fails: bool := *;
        result := if fails && !undisturbed then None else result;
      }
      if result.None? {
        return Raised;
      }
      var output: string := *;
      var ok := Append(ControlDone(call.name, output));
      if !ok {
        return Raised;
      }
      results := results + [call];
      r := result.value;
      if r.Finished? {
        EvidenceGrows(seen, log[|seen|..]);
        assert seen + log[|seen|..] == log;
      }
    }

    /**
     * `asyncio.gather` over the calls: at every moment any waiting call may start, any
     * running one may return and any returned one may be recorded.
     */
    method RunBatch(calls: seq<Call>, outcomes: seq<ToolResult>, ghost before: seq<Call>) returns (ok: bool)
      requires |outcomes| == |calls|
      requires Backed(log, worked) && Told(start, log, acts)
      requires AllFree(calls) && AllDone(trace, before)
      modifies `log, `worked, `acts, `trace, `results
      ensures Backed(log, worked) && Told(start, log, acts) && old(acts) <= acts && old(log) <= log && old(worked) <= worked
      ensures InOrder(trace, before + calls)
      ensures old(results) <= results
      ensures ok ==> AllDone(trace, before + calls)
      ensures ok ==> multiset(results[|old(results)|..]) == multiset(calls)
      ensures ok ==> forall i :: 0 <= i < |calls| ==> ResultLogged(log, |old(log)|, calls[i].name, outcomes[i])
      ensures undisturbed ==> ok
    {
      hide ResultLogged, Told, Backed, BatchOk, Left, AllDone, InOrder, AllFree;
      var b := NewBatch(|calls|);
      var recorded: seq<Call> := [];
      BatchStarts(calls, trace, before, worked);
      BatchShape(calls, b, trace, before + calls, recorded, worked);
      while exists i :: 0 <= i < |calls| && b.unrecorded[i]
        invariant Backed(log, worked) && Told(start, log, acts) && old(acts) <= acts && old(log) <= log && old(worked) <= worked
        invariant BatchOk(calls, b, trace, before + calls, recorded, worked) && Shaped(calls, b)
        invariant results == old(results) + recorded
        invariant BatchLogged(log, |old(log)|, calls, outcomes, b)
        decreases Left(calls, b)
      {
        BatchIsInOrder(calls, b, trace, before + calls, recorded, worked);
        ok := *;
        if !ok && !undisturbed {
          return;
        }
        var i :| 0 <= i < |calls| && b.unrecorded[i];
        if b.waiting[i] {
          StartKeepsBatch(calls, b, trace, before + calls, recorded, worked, i);
          b, trace := Started(b, i), trace + [Begin(calls[i])];
        } else if b.running[i] {
          var result := outcomes[i];
          WorkedIsBacked(log, worked, if result.ok then {calls[i].name} else {});
          ghost var more := worked + if result.ok then {calls[i].name} else {};
          BatchSees(calls, b, trace, before + calls, recorded, worked, more);
          ReturnKeepsBatch(calls, b, trace, before + calls, recorded, more, i, result);
          worked := more;
          b, trace := Returned(b, i, result), trace + [Finish(calls[i])];
        } else {
          ghost var known, seen := worked, log;
          var json: string := *;
          ResultIsBacked(calls, b, trace, before + calls, recorded, worked, i, json);
          FreeIsExternal(calls, i);
          var appended := Append(Ran(calls[i].name, json, b.outcome[i]));
          if !appended {
            return false;
          }
          RecordsStay(seen, log, |old(log)|, |old(log)|);
          LastIsRecorded(log, |old(log)|, calls[i].name, json, b.outcome[i]);
          BatchSees(calls, b, trace, before + calls, recorded, known, worked);
          RecordKeepsBatch(calls, b, trace, before + calls, recorded, worked, i);
          b, recorded, results := Recorded(b, i), recorded + [calls[i]], results + [calls[i]];
        }
        BatchShape(calls, b, trace, before + calls, recorded, worked);
      }
      BatchEnds(calls, b, trace, before + calls, recorded, worked);
      BatchIsInOrder(calls, b, trace, before + calls, recorded, worked);
      ok := true;
    }

    /** `_execute_turn_tools`. */
    method ExecuteTurnTools(calls: seq<Call>, outcomes: seq<ToolResult>) returns (r: Outcome)
      requires |outcomes| == |calls|
      requires Backed(log, worked) && Told(start, log, acts) && AllDone(trace, issued)
      modifies `log, `worked, `acts, `issued, `trace, `results
      ensures Backed(log, worked) && Told(start, log, acts) && old(acts) <= acts && old(log) <= log && old(worked) <= worked
      ensures issued == old(issued) + calls && InOrder(trace, issued)
      ensures old(results) <= results
      ensures r.NextTurn? ==>
        AllDone(trace, issued) && multiset(results[|old(results)|..]) == multiset(calls)
      ensures !ParallelBatch(calls) ==> results[|old(results)|..] <= calls
      ensures r.Finished? ==>
        && Evidence(log) && r.verification != []
        && !ParallelBatch(calls)
        && results != old(results) && results[|results| - 1].name == "finish_task"
        && AcceptedIn(calls, r.summary, r.verification)
      ensures r.NextTurn? ==> NoneReady(old(log), calls) && AllRecorded(log, |old(log)|, calls, outcomes)
      ensures undisturbed && r.Raised? ==> LacksSummary(calls)
    {
      hide Told, Backed, AllDone, InOrder, Evidence, ResultEvent, Ready, Accepts, LacksSummary, Announced, ResultLogged;
      ghost var before := issued;
      issued := issued + calls;
      DoneIsInOrder(trace, before);
      StoppedEarly(trace, before, calls);
      var announced := AnnounceCalls(calls);
      if !announced {
        return Raised;
      }
      ghost var told := log;
      if ParallelBatch(calls) {
        SafeIsFree(calls);
        FreeIsNotReady(old(log), calls);
        var ok := RunBatch(calls, outcomes, before);
        RecordsStay(told, log, |old(log)|, |old(log)|);
        RecordsStay(log, log, |old(log)|, |told|);
        return if ok then NextTurn else Raised;
      }
      r := RunInSequence(calls, outcomes, before);
      RecordsStay(told, log, |old(log)|, |old(log)|);
      RecordsStay(log, log, |old(log)|, |told|);
      if r.NextTurn? {
        NoneWasReady(old(log), told, calls);
        assert calls[..|calls|] == calls;
      }
    }

    /** `_announce_tool` for every call of the turn. */
    method AnnounceCalls(calls: seq<Call>) returns (ok: bool)
      requires Backed(log, worked) && Told(start, log, acts)
      modifies `log, `worked, `acts
      ensures Backed(log, worked) && Told(start, log, acts) && old(acts) <= acts && old(log) <= log && old(worked) <= worked
      ensures ok ==> forall j :: 0 <= j < |calls| ==> Announced(log, |old(log)|, calls[j].name)
      ensures undisturbed ==> ok
    {
      hide Told, Backed, Announced, ResultLogged;
      for i := 0 to |calls|
        invariant Backed(log, worked) && Told(start, log, acts) && old(acts) <= acts && old(log) <= log && old(worked) <= worked
        invariant forall j :: 0 <= j < i ==> Announced(log, |old(log)|, calls[j].name)
      {
        ghost var seen := log;
        var json: string := *;
        ok := Append(Note(Event(ToolStarted, json, calls[i].name, false, "")));
        if !ok {
          return;
        }
        LastIsAnnounced(log, |old(log)|, calls[i].name);
        RecordsStay(seen, log, |old(log)|, |old(log)|);
      }
      ok := true;
    }

    /** The calls of a turn one after another, up to an accepted `finish_task`. */
    method RunInSequence(calls: seq<Call>, outcomes: seq<ToolResult>, ghost before: seq<Call>) returns (r: Outcome)
      requires |outcomes| == |calls|
      requires Backed(log, worked) && Told(start, log, acts) && AllDone(trace, before)
      modifies `log, `worked, `acts, `trace, `results
      ensures Backed(log, worked) && Told(start, log, acts) && old(acts) <= acts && old(log) <= log && old(worked) <= worked
      ensures InOrder(trace, before + calls)
      ensures old(results) <= results && results[|old(results)|..] <= calls
      ensures r.NextTurn? ==> AllDone(trace, before + calls) && results == old(results) + calls
      ensures r.Finished? ==>
        && Evidence(log) && r.verification != []
        && results != old(results) && results[|results| - 1].name == "finish_task"
        && AcceptedIn(calls, r.summary, r.verification)
      ensures r.NextTurn? ==> NoneReady(old(log), calls)
      ensures r.NextTurn? ==>
        forall j :: 0 <= j < |calls| && External(calls[j]) ==> ResultLogged(log, |old(log)|, calls[j].name, outcomes[j])
      ensures undisturbed && r.Raised? ==> LacksSummary(calls)
    {
      hide Told, Backed, AllDone, InOrder, Evidence, ResultEvent, Ready, Accepts, LacksSummary, Announced, ResultLogged;
      assert before + calls[..0] == before;
      var i := 0;
      while i < |calls|
        invariant 0 <= i <= |calls|
        invariant Backed(log, worked) && Told(start, log, acts) && old(acts) <= acts && old(log) <= log && old(worked) <= worked
        invariant AllDone(trace, before + calls[..i])
        invariant results == old(results) + calls[..i]
        invariant NoneReady(old(log), calls[..i])
        invariant forall j :: 0 <= j < i && External(calls[j]) ==> ResultLogged(log, |old(log)|, calls[j].name, outcomes[j])
      {
        ghost var past := log;
        var call := calls[i];
        assert before + calls[..i + 1] == before + calls[..i] + [call];
        assert before + calls == before + calls[..i + 1] + calls[i + 1..];
        assert old(results) + calls[..i + 1] == old(results) + calls[..i] + [call];
        if External(call) {
          var ok := RunExternalCall(call, outcomes[i], before + calls[..i]);
          if !ok {
            StoppedEarly(trace, before + calls[..i + 1], calls[i + 1..]);
            return Raised;
          }
          ExternalIsNotReady(old(log), call);
        } else {
          ghost var seen := log;
          r := RunControlCall(call, before + calls[..i]);
          DoneIsInOrder(trace, before + calls[..i + 1]);
          StoppedEarly(trace, before + calls[..i + 1], calls[i + 1..]);
          if !r.NextTurn? {
            OneLacks(calls, i);
            return;
          }
          NotReadyBefore(old(log), seen, call);
        }
        assert calls[..i + 1] == calls[..i] + [call];
        RecordsStay(past, log, |old(log)|, |old(log)|);
        RecordsStay(log, log, |old(log)|, |past|);
        i := i + 1;
      }
      assert before + calls[..i] == before + calls && calls[..i] == calls;
      DoneIsInOrder(trace, before + calls);
      r := NextTurn;
    }

    /** Compaction, the step's event, prompt building, the model call and its message. */
    method BeginStep(turn: Turn) returns (ok: bool)
      requires Backed(log, worked) && Told(start, log, acts)
      modifies `log, `worked, `acts, `steps
      ensures Backed(log, worked) && Told(start, log, acts) && old(acts) <= acts && old(log) <= log && old(worked) <= worked
      ensures steps == old(steps) || steps == old(steps) + 1
      ensures ok ==> steps == old(steps) + 1
      ensures undisturbed ==>
        && ok && |log| > |old(log)| && log[|old(log)|] == Plain(AgentStep)
        && log == old(log) + [Plain(AgentStep)] + if turn.content != "" then [Plain(AgentMessage)] else []
    {
      hide Told, Backed;
      Interfere();
      ok := Append(Note(Plain(AgentStep)));
      if !ok {
        return;
      }
      steps := steps + 1;
      ok := *;
      if !ok && !undisturbed {
        return;
      }
      Interfere();
      ok := true;
      if turn.content != "" {
        ok := Append(Note(Plain(AgentMessage)));
      }
    }

    /**
     * One step of `run`: compaction, prompt building and the model call write to the log or
     * raise, then the turn's calls are executed.
     */
    method TakeStep(turn: Turn) returns (r: Outcome)
      requires |turn.outcomes| == |turn.calls|
      requires Backed(log, worked) && Told(start, log, acts) && AllDone(trace, issued)
      modifies this
      ensures Backed(log, worked) && Told(start, log, acts) && old(acts) <= acts && old(log) <= log && old(worked) <= worked
      ensures issued == old(issued) + turn.calls || (r.Raised? && issued == old(issued))
      ensures steps == old(steps) ==> issued == old(issued)
      ensures InOrder(trace, issued)
      ensures r.NextTurn? ==> AllDone(trace, issued) && NoneReady(old(log), turn.calls)
      ensures r.NextTurn? ==> AllRecorded(log, |old(log)|, turn.calls, turn.outcomes)
      ensures undisturbed ==> |log| > |old(log)| && log[|old(log)|] == Plain(AgentStep)
      ensures r.Finished? ==> AcceptedIn(turn.calls, r.summary, r.verification)
      ensures undisturbed && r.Raised? ==> steps == old(steps) + 1 && LacksSummary(turn.calls)
      ensures steps == old(steps) || steps == old(steps) + 1
      ensures !r.Raised? ==> steps == old(steps) + 1
      ensures r.Finished? ==> r.verification != [] && Evidence(log)
    {
      hide Told, Backed, AllDone, InOrder, Evidence, Ready, LacksSummary, AcceptedIn, NoneReady, AllRecorded;
      DoneIsInOrder(trace, issued);
      var ok := BeginStep(turn);
      if !ok {
        return Raised;
      }
      if turn.calls == [] {
        ok := Append(Note(Plain(AgentMessage)));
        assert issued == issued + turn.calls;
        NoCalls(old(log), log, |old(log)|);
        return if ok then NextTurn else Raised;
      }
      ghost var seen := log;
      r := ExecuteTurnTools(turn.calls, turn.outcomes);
      if r.NextTurn? {
        AllStay(log, log, |old(log)|, |seen|, turn.calls, turn.outcomes);
        NoneWasReady(old(log), seen, turn.calls);
      }
    }

    /** `run`, for the turns a model would take. */
    method Run(turns: seq<Turn>) returns (r: RunResult)
      requires Backed(log, worked) && Told(start, log, acts) && AllDone(trace, issued)
      requires |turns| >= maxSteps
      requires forall i :: 0 <= i < |turns| ==> |turns[i].outcomes| == |turns[i].calls|
      modifies this
      ensures Backed(log, worked) && Told(start, log, acts) && old(acts) <= acts && old(log) <= log && old(worked) <= worked
      ensures InOrder(trace, issued)
      ensures old(steps) <= steps <= old(steps) + if maxSteps > 0 then maxSteps else 0
      ensures r.Done? ==>
        && r.steps == steps - old(steps) && 1 <= r.steps <= maxSteps
        && r.verification != []
        && Evidence(log)
        && "run_command" in worked && "git_diff" in worked
        && issued == old(issued) + CallsOf(turns[..r.steps])
        && AcceptedIn(turns[r.steps - 1].calls, r.summary, r.verification)
      ensures var k := steps - old(steps);
        && (r.Failed? ==>
              issued == old(issued) + CallsOf(turns[..k]) || (k > 0 && issued == old(issued) + CallsOf(turns[..k - 1])))
        && (forall i :: 0 <= i < k - 1 ==>
              && NoneReady(old(log), turns[i].calls)
              && AllRecorded(log, |old(log)|, turns[i].calls, turns[i].outcomes))
        && (undisturbed && r.Failed? ==> k >= maxSteps || (k > 0 && LacksSummary(turns[k - 1].calls)))
    {
      hide Told, Backed, AllDone, InOrder, Evidence, NoneReady, LacksSummary, AcceptedIn, AllRecorded;
      DoneIsInOrder(trace, issued);
      assert issued + CallsOf(turns[..0]) == issued;
      var step := 1;
      while step <= maxSteps
        invariant 1 <= step && (step <= maxSteps + 1 || step == 1)
        invariant steps == old(steps) + step - 1
        invariant Backed(log, worked) && Told(start, log, acts) && old(acts) <= acts && old(log) <= log && old(worked) <= worked
        invariant step <= maxSteps + 1 || maxSteps < 1
        invariant issued == old(issued) + CallsOf(turns[..step - 1]) && AllDone(trace, issued) && InOrder(trace, issued)
        invariant forall i :: 0 <= i < step - 1 ==> NoneReady(old(log), turns[i].calls)
        invariant forall i :: 0 <= i < step - 1 ==> AllRecorded(log, |old(log)|, turns[i].calls, turns[i].outcomes)
      {
        ghost var seen := log;
        assert turns[..step][..step - 1] == turns[..step - 1];
        assert issued + turns[step - 1].calls == old(issued) + CallsOf(turns[..step]);
        var terminal := TakeStep(turns[step - 1]);
        forall i | 0 <= i < step - 1 ensures AllRecorded(log, |old(log)|, turns[i].calls, turns[i].outcomes) {
          AllStay(seen, log, |old(log)|, |old(log)|, turns[i].calls, turns[i].outcomes);
        }
        if terminal.Raised? {
          return Failed;
        }
        if terminal.Finished? {
          EvidenceIsReal(log, worked);
          return Done(terminal.summary, terminal.verification, step);
        }
        NoneWasReady(old(log), seen, turns[step - 1].calls);
        AllStay(log, log, |old(log)|, |seen|, turns[step - 1].calls, turns[step - 1].outcomes);
        step := step + 1;
      }
      r := Failed;
    }
  }

  /** The gate raises only for want of a summary. */
  lemma GateRaises(log: seq<Event>, arguments: Arguments)
    ensures Gate(log, arguments).None? ==> arguments.summary.None?
  {
    hide Evidence, NonemptyTexts;
  }

  lemma ExternalIsNotReady(log: seq<Event>, c: Call)
    requires External(c)
    ensures !Ready(log, c)
  {
    assert "finish_task" in CONTROL_TOOLS;
  }

  lemma FreeIsNotReady(log: seq<Event>, calls: seq<Call>)
    requires AllFree(calls)
    ensures NoneReady(log, calls)
  {
    hide Ready;
    forall c | c in calls ensures !Ready(log, c) {
      var i :| 0 <= i < |calls| && calls[i] == c;
      FreeIsExternal(calls, i);
      ExternalIsNotReady(log, c);
    }
  }

  lemma NotReadyBefore(log: seq<Event>, more: seq<Event>, c: Call)
    requires log <= more && !Ready(more, c)
    ensures !Ready(log, c)
  {
    if Ready(log, c) {
      ReadyStays(log, more, c);
    }
  }

  lemma OneLacks(calls: seq<Call>, i: nat)
    requires i < |calls|
    ensures LacksSummary([calls[i]]) ==> LacksSummary(calls)
  {
  }

  // ---- What is recorded ----

  /** The event reports this result of this tool. */
  predicate Reports(e: Event, tool: string, r: ToolResult) {
    && e.kind == (if r.ok then ToolCompleted else ToolFailed)
    && e.tool == tool && e.ok == r.ok && e.output == r.output
  }

  /** The log from `from` on says that a tool was started. */
  predicate Announced(log: seq<Event>, from: nat, tool: string) {
    exists i :: from <= i < |log| && log[i].kind.ToolStarted? && log[i].tool == tool
  }

  /** The log from `from` on reports this result. */
  predicate ResultLogged(log: seq<Event>, from: nat, tool: string, r: ToolResult) {
    exists i :: from <= i < |log| && Reports(log[i], tool, r)
  }

  /** Every call was announced and every result of an external call recorded as it came out. */
  ghost predicate AllRecorded(log: seq<Event>, from: nat, calls: seq<Call>, outcomes: seq<ToolResult>)
    requires |outcomes| == |calls|
  {
    forall i :: 0 <= i < |calls| ==>
      && Announced(log, from, calls[i].name)
      && (External(calls[i]) ==> ResultLogged(log, from, calls[i].name, outcomes[i]))
  }

  lemma RecordsStay(log: seq<Event>, more: seq<Event>, from: nat, later: nat)
    requires log <= more && from <= later
    ensures forall tool :: Announced(log, later, tool) ==> Announced(more, from, tool)
    ensures forall tool, r :: ResultLogged(log, later, tool, r) ==> ResultLogged(more, from, tool, r)
  {
    forall tool | Announced(log, later, tool) ensures Announced(more, from, tool) {
      var i :| later <= i < |log| && log[i].kind.ToolStarted? && log[i].tool == tool;
      assert more[i] == log[i];
    }
    forall tool, r | ResultLogged(log, later, tool, r) ensures ResultLogged(more, from, tool, r) {
      var i :| later <= i < |log| && Reports(log[i], tool, r);
      assert more[i] == log[i];
    }
  }

  lemma AllStay(log: seq<Event>, more: seq<Event>, from: nat, later: nat, calls: seq<Call>, outcomes: seq<ToolResult>)
    requires |outcomes| == |calls| && AllRecorded(log, later, calls, outcomes) && log <= more && from <= later
    ensures AllRecorded(more, from, calls, outcomes)
  {
    hide Announced, ResultLogged, External;
    RecordsStay(log, more, from, later);
  }

  lemma NoCalls(log: seq<Event>, later: seq<Event>, from: nat)
    ensures NoneReady(log, []) && AllRecorded(later, from, [], [])
  {
  }

  lemma LastIsAnnounced(log: seq<Event>, from: nat, tool: string)
    requires from < |log| && log[|log| - 1].kind.ToolStarted? && log[|log| - 1].tool == tool
    ensures Announced(log, from, tool)
  {
  }

  lemma LastIsRecorded(log: seq<Event>, from: nat, tool: string, json: string, r: ToolResult)
    requires from < |log| && log[|log| - 1] == ResultEvent(tool, json, r)
    ensures ResultLogged(log, from, tool, r)
  {
    assert Reports(log[|log| - 1], tool, r);
  }

  /** What of a batch is in the log. */
  ghost predicate BatchLogged(log: seq<Event>, from: nat, calls: seq<Call>, outcomes: seq<ToolResult>, b: Batch) {
    && Shaped(calls, b) && |outcomes| == |calls|
    && forall i :: 0 <= i < |calls| ==>
         && (!b.waiting[i] && !b.running[i] ==> b.outcome[i] == outcomes[i])
         && (!b.unrecorded[i] ==> ResultLogged(log, from, calls[i].name, outcomes[i]))
  }

  lemma FreeIsExternal(calls: seq<Call>, i: nat)
    requires AllFree(calls) && i < |calls|
    ensures External(calls[i])
  {
  }

  lemma BatchShape(calls: seq<Call>, b: Batch, trace: seq<Mark>, issued: seq<Call>, recorded: seq<Call>, worked: set<string>)
    requires BatchOk(calls, b, trace, issued, recorded, worked)
    ensures Shaped(calls, b)
  {
  }

  lemma ResultIsBacked(calls: seq<Call>, b: Batch, trace: seq<Mark>, issued: seq<Call>, recorded: seq<Call>,
                       worked: set<string>, i: nat, json: string)
    requires BatchOk(calls, b, trace, issued, recorded, worked)
    requires i < |calls| && !b.waiting[i] && !b.running[i]
    ensures var e := ResultEvent(calls[i].name, json, b.outcome[i]); Claims(e) ==> e.tool in worked
  {
    hide Picked, OrderedMarks, InFlight, Serial, Exclusive;
  }

  lemma WorkedIsBacked(log: seq<Event>, worked: set<string>, more: set<string>)
    requires Backed(log, worked)
    ensures Backed(log, worked + more)
  {
  }

  lemma SuccessfulStep(history: seq<Event>, i: nat)
    requires i < |history|
    ensures Successful(history[..i + 1]) == Successful(history[..i]) +
      if history[i].kind.ToolCompleted? && history[i].ok then {history[i].tool} else {}
  {
  }
}
