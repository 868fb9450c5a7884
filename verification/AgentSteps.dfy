/**
 * The agent loop inside an execution: a run of the transition system in which the agent of
 * execution x takes its deeds, and anybody else anything in between, is accounted for act by
 * act by `AgentLoop`, and a result of `run` is what lets the execution go on to completion.
 */
module AgentSteps {
  import opened Prelude
  import opened Events
  import opened Protocol
  import opened AgentLoop
  import Orchestration
  import LifecycleRuns
  import ToolCalls

  ghost predicate Working(s: Task, x: ExecId) {
    x in s.execs && s.execs[x].pc.Work?
  }

  /** A step of somebody else, or a tool of this agent that runs and is not recorded yet. */
  predicate Between(s: Task, x: ExecId, a: Step) {
    || Orchestration.ByOthers(s, a, Orchestration.OnExec(x))
    || (a.ExecDo? && a.x == x && a.a.RunTool?)
  }

  /** The step that writes a deed of the agent; a recorded result is that of a tool it ran. */
  predicate Writes(s: Task, x: ExecId, a: Step, d: Deed)
    requires x in s.execs
  {
    match d
    case Note(_) => a == OtherEvent(EventOf(d))
    case ControlDone(tool, output) => a == ExecDo(x, RecordControl(tool, "{}", output))
    case Ran(tool, json, r) =>
      && a.ExecDo? && a.x == x && a.a.RecordTool? && a.a.json == json && a.a.output == r.output
      && a.a.k < |s.execs[x].held| && s.execs[x].held[a.a.k] < |s.runs|
      && s.runs[s.execs[x].held[a.a.k]] == ToolRun(tool, r.ok)
  }

  /** These acts account for step `a`: nothing or events of others, or one deed of the agent. */
  ghost predicate Accounts(s: Task, x: ExecId, a: Step, acts: seq<Act>, t: Task)
    requires x in s.execs
  {
    if |acts| == 1 && acts[0].Mine? then OwnDeed(acts[0].deed) && Writes(s, x, a, acts[0].deed)
    else
      && Between(s, x, a)
      && (forall i :: 0 <= i < |acts| ==> acts[i].Others?)
      && t.log == s.log + EventsOfActs(acts)
  }

  /** The steps lead from `s` to `t` while the agent of x works, and the acts account for each of them. */
  ghost predicate InStep(s: Task, x: ExecId, steps: seq<Step>, acts: seq<Act>, t: Task)
    decreases |steps|
  {
    if steps == [] then s == t && acts == [] && Working(s, x)
    else
      var n := |steps| - 1;
      exists m, k :: 0 <= k <= |acts| && Further(s, x, steps, acts, m, k) && Working(m, x)
        && Apply(m, steps[n]) == Some(t) && Accounts(m, x, steps[n], acts[k..], t)
  }

  ghost predicate Further(s: Task, x: ExecId, steps: seq<Step>, acts: seq<Act>, m: Task, k: nat)
    requires steps != [] && k <= |acts|
    decreases |steps|, 0
  {
    InStep(s, x, steps[..|steps| - 1], acts[..k], m)
  }

  // ---- One step ----

  /** While others act and tools run the agent stays at work, and the log only grows. */
  lemma BetweenWorks(s: Task, x: ExecId, a: Step)
    requires Working(s, x) && Between(s, x, a) && Apply(s, a).Some?
    ensures Working(Apply(s, a).value, x) && s.log <= Apply(s, a).value.log
  {
    hide Apply, Orchestration.ByOthers;
    LifecycleRuns.StepGrows(s, a);
    if Orchestration.ByOthers(s, a, Orchestration.OnExec(x)) {
      Orchestration.OthersLeaveExec(s, a, x);
    } else {
      assert a == ExecDo(x, RunTool(a.a.tool, a.a.ok));
      RunToolWorks(s, x, a.a.tool, a.a.ok);
    }
  }

  lemma RunToolWorks(s: Task, x: ExecId, tool: string, ok: bool)
    requires Working(s, x) && Apply(s, ExecDo(x, RunTool(tool, ok))).Some?
    ensures var t := Apply(s, ExecDo(x, RunTool(tool, ok))).value;
      && x in t.execs && t.execs[x] == s.execs[x].(held := s.execs[x].held + [|s.runs|]) && t.runs == s.runs + [ToolRun(tool, ok)]
      && t.row == s.row && t.log == s.log && t.calls == s.calls && t.stream == s.stream
  {
  }

  /** A step that writes a deed appends exactly its event and changes nothing others see. */
  lemma WritesEvent(s: Task, x: ExecId, a: Step, d: Deed)
    requires Working(s, x) && OwnDeed(d) && Writes(s, x, a, d)
    ensures Apply(s, a).Some?
    ensures var t := Apply(s, a).value;
      && Working(t, x) && t.log == s.log + [EventOf(d)]
      && t.row == s.row && t.calls == s.calls && t.stream == s.stream && t.places == s.places
  {
    match d {
      case Note(e) =>
      case ControlDone(tool, output) => RecordControlWrites(s, x, tool, output);
      case Ran(tool, json, r) => RecordToolWrites(s, x, a.a.k, json, r.output);
    }
  }

  lemma RecordControlWrites(s: Task, x: ExecId, tool: string, output: string)
    requires Working(s, x) && tool in CONTROL_TOOLS
    ensures var a := ExecDo(x, RecordControl(tool, "{}", output));
      && Apply(s, a).Some?
      && Apply(s, a).value == s.(log := s.log + [Event(ToolCompleted, "{}", tool, true, output)])
  {
    assert s.execs[x := s.execs[x]] == s.execs;
  }

  lemma RecordToolWrites(s: Task, x: ExecId, k: nat, json: string, output: string)
    requires Working(s, x) && k < |s.execs[x].held| && s.execs[x].held[k] < |s.runs|
    ensures var a := ExecDo(x, RecordTool(k, json, output));
      && Apply(s, a).Some?
      && Apply(s, a).value == s.(log := s.log + [ToolEvent(s.runs[s.execs[x].held[k]], json, output)])
  {
    assert s.execs[x := s.execs[x]] == s.execs;
  }

  lemma AccountsFor(s: Task, x: ExecId, a: Step, acts: seq<Act>, t: Task)
    requires Working(s, x) && Apply(s, a) == Some(t) && Accounts(s, x, a, acts, t)
    ensures Working(t, x) && t.log == s.log + EventsOfActs(acts)
    ensures forall i :: 0 <= i < |acts| && acts[i].Mine? ==> OwnDeed(acts[i].deed)
  {
    hide Apply, Between, Writes;
    if |acts| == 1 && acts[0].Mine? {
      WritesEvent(s, x, a, acts[0].deed);
    } else {
      BetweenWorks(s, x, a);
    }
  }

  // ---- Runs ----

  /**
   * In step with the agent, whatever others did in between and whether or not it wrote
   * events, the log of the task is the log that the acts tell.
   */
  lemma {:induction false} LogsAgree(s: Task, x: ExecId, steps: seq<Step>, acts: seq<Act>, t: Task)
    requires InStep(s, x, steps, acts, t)
    ensures Told(s.log, t.log, acts) && Working(t, x)
    decreases |steps|
  {
    hide Accounts, Apply, OwnDeed;
    if steps == [] {
      assert EventsOfActs(acts) == [];
    } else {
      var n := |steps| - 1;
      var m, k :| 0 <= k <= |acts| && Further(s, x, steps, acts, m, k) && Working(m, x)
        && Apply(m, steps[n]) == Some(t) && Accounts(m, x, steps[n], acts[k..], t);
      LogsAgree(s, x, steps[..n], acts[..k], m);
      AccountsFor(m, x, steps[n], acts[k..], t);
      ToldFurther(s.log, m.log, acts[..k], acts[k..]);
      assert acts[..k] + acts[k..] == acts;
    }
  }

  lemma ToldFurther(start: seq<Event>, log: seq<Event>, acts: seq<Act>, more: seq<Act>)
    requires Told(start, log, acts)
    requires forall i :: 0 <= i < |more| && more[i].Mine? ==> OwnDeed(more[i].deed)
    ensures Told(start, log + EventsOfActs(more), acts + more)
  {
    hide OwnDeed;
    assert EventsOfActs(acts + more) == EventsOfActs(acts) + EventsOfActs(more);
  }

  lemma Lengthened(s: Task, x: ExecId, steps: seq<Step>, acts: seq<Act>, t: Task, a: Step, more: seq<Act>, u: Task)
    requires InStep(s, x, steps, acts, t) && Working(t, x)
    requires Apply(t, a) == Some(u) && Accounts(t, x, a, more, u)
    ensures InStep(s, x, steps + [a], acts + more, u)
  {
    hide Accounts, Apply;
    var k := |acts|;
    assert (steps + [a])[..|steps|] == steps && (acts + more)[..k] == acts && (acts + more)[k..] == more;
    assert Further(s, x, steps + [a], acts + more, t, k);
  }

  function DeedsOf(events: seq<Event>): (deeds: seq<Deed>)
    ensures EventsOf(deeds) == events
  {
    seq(|events|, i requires 0 <= i < |events| => DeedOf(events[i]))
  }

  /**
   * Every interleaving is followed: whatever step of others, or run of a tool, comes next,
   * acts of others account for the events it emits, none if it is silent.
   */
  lemma OthersAreFollowed(s: Task, x: ExecId, steps: seq<Step>, acts: seq<Act>, t: Task, a: Step)
    requires InStep(s, x, steps, acts, t) && Between(t, x, a) && Apply(t, a).Some?
    ensures var u := Apply(t, a).value;
      && t.log <= u.log
      && InStep(s, x, steps + [a], acts + ByOthers(DeedsOf(u.log[|t.log|..])), u)
  {
    hide Apply, Between, InStep;
    LogsAgree(s, x, steps, acts, t);
    BetweenWorks(t, x, a);
    var u := Apply(t, a).value;
    var deeds := DeedsOf(u.log[|t.log|..]);
    assert EventsOfActs(ByOthers(deeds)) == EventsOf(deeds);
    Lengthened(s, x, steps, acts, t, a, ByOthers(deeds), u);
  }

  /**
   * Every deed is followed: whatever the agent writes next, one step of the execution writes
   * it, for a tool's result after the step in which the tool runs.
   */
  lemma DeedIsFollowed(s: Task, x: ExecId, steps: seq<Step>, acts: seq<Act>, t: Task, d: Deed)
    returns (more: seq<Step>, u: Task)
    requires InStep(s, x, steps, acts, t) && OwnDeed(d)
    ensures InStep(s, x, steps + more, acts + [Mine(d)], u)
    ensures |more| == if d.Ran? then 2 else 1
    ensures d.Ran? ==> more[0] == ExecDo(x, RunTool(d.tool, d.result.ok))
    ensures u.log == t.log + [EventOf(d)] && u.row == t.row && u.calls == t.calls && u.stream == t.stream
  {
    hide Apply, InStep, OwnDeed;
    LogsAgree(s, x, steps, acts, t);
    match d {
      case Note(e) =>
        more := [OtherEvent(EventOf(d))];
        u := Follow(s, x, steps, acts, t, more[0], d);
      case ControlDone(tool, output) =>
        more := [ExecDo(x, RecordControl(tool, "{}", output))];
        u := Follow(s, x, steps, acts, t, more[0], d);
      case Ran(tool, json, r) =>
        var run := ExecDo(x, RunTool(tool, r.ok));
        var record := ExecDo(x, RecordTool(|t.execs[x].held|, json, r.output));
        RunIsEnabled(t, x, d);
        RunToolWorks(t, x, tool, r.ok);
        var m := Apply(t, run).value;
        OthersAreFollowed(s, x, steps, acts, t, run);
        assert m.log[|t.log|..] == [] && acts + ByOthers(DeedsOf([])) == acts;
        LogsAgree(s, x, steps + [run], acts, m);
        u := Follow(s, x, steps + [run], acts, m, record, d);
        more := [run, record];
        assert steps + [run] + [record] == steps + more;
    }
  }

  lemma RunIsEnabled(s: Task, x: ExecId, d: Deed)
    requires Working(s, x) && d.Ran? && OwnDeed(d)
    ensures Apply(s, ExecDo(x, RunTool(d.tool, d.result.ok))).Some?
  {
  }

  lemma Follow(s: Task, x: ExecId, steps: seq<Step>, acts: seq<Act>, t: Task, a: Step, d: Deed) returns (u: Task)
    requires InStep(s, x, steps, acts, t) && Working(t, x) && OwnDeed(d) && Writes(t, x, a, d)
    ensures InStep(s, x, steps + [a], acts + [Mine(d)], u)
    ensures u.log == t.log + [EventOf(d)] && u.row == t.row && u.calls == t.calls && u.stream == t.stream
  {
    hide Apply, InStep, OwnDeed, Writes;
    WritesEvent(t, x, a, d);
    u := Apply(t, a).value;
    Lengthened(s, x, steps, acts, t, a, [Mine(d)], u);
  }

  predicate AtFinish(s: Task, x: ExecId) {
    x in s.execs && s.execs[x].pc.Finish?
  }

  /**
   * The postcondition of `CodingAgent.Run` is what `AgentReturns` asks for: in step with an
   * agent whose run ended with evidence in its log, the execution goes on to finish the task.
   */
  lemma ResultLetsExecutionFinish(s: Task, x: ExecId, log: seq<Event>, steps: seq<Step>, acts: seq<Act>, t: Task)
    requires InStep(s, x, steps, acts, t) && Told(s.log, log, acts) && Evidence(log)
    ensures t.log == log && Working(t, x) && AfterExec(t, x, AgentReturns).Some?
    ensures AtFinish(AfterExec(t, x, AgentReturns).value, x)
  {
    hide InStep, Evidence, AfterExec, AtFinish, OwnDeed;
    LogsAgree(s, x, steps, acts, t);
    EvidenceLetsReturn(t, x);
  }

  lemma EvidenceLetsReturn(s: Task, x: ExecId)
    requires Working(s, x) && Evidence(s.log)
    ensures AfterExec(s, x, AgentReturns).Some?
    ensures AtFinish(AfterExec(s, x, AgentReturns).value, x)
  {
    hide Evidence;
  }
}
