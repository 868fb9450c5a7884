/**
 * Tool calls of a model turn and the order in which they run: the tool table
 * (src/minion/runtime/tools.py) and what "mutations stay ordered" means
 * (src/minion/runtime/agent.py).
 */
module ToolCalls {
  import opened Prelude
  import opened Events

  /** The arguments the completion gate looks at. */
  datatype Arguments = Arguments(json: string, summary: Option<string>, verification: seq<string>)

  datatype Call = Call(id: string, name: string, arguments: Arguments)

  datatype ToolResult = ToolResult(ok: bool, output: string)

  const PARALLEL_SAFE: set<string> := {
    "repository_overview", "repository_search", "symbol_context", "impact_analysis",
    "dependency_hints", "index_stats", "list_files", "read_file", "search_code",
    "git_diff", "git_status"
  }
  const MUTATING: set<string> := {"write_file", "apply_patch", "run_command", "checkpoint"}

  predicate External(c: Call) {
    c.name !in CONTROL_TOOLS
  }

  /** External calls that never run beside another one. */
  predicate Ordered(c: Call) {
    External(c) && c.name !in PARALLEL_SAFE
  }

  /** No mutating tool is parallel safe or a control tool: their calls are all ordered. */
  lemma MutatingIsOrdered(c: Call)
    requires c.name in {"write_file", "apply_patch", "run_command", "checkpoint"}
    ensures c.name in MUTATING && Ordered(c)
  {
    assert "write_file"[0] == 'w' && "apply_patch"[0] == 'a' && "run_command"[1] == 'u' && "checkpoint"[0] == 'c';
    assert "repository_overview"[..2] == "re" && "repository_search"[..2] == "re" && "read_file"[..2] == "re";
    assert "symbol_context"[0] == 's' && "search_code"[0] == 's' && "impact_analysis"[0] == 'i';
    assert "index_stats"[0] == 'i' && "dependency_hints"[0] == 'd' && "list_files"[0] == 'l';
    assert "git_diff"[0] == 'g' && "git_status"[0] == 'g';
    assert "set_plan"[0] == 's' && "remember_constraint"[..2] == "re" && "list_skills"[0] == 'l';
    assert |"activate_skill"| == 14 && |"apply_patch"| == 11 && "finish_task"[0] == 'f';
  }

  /** Parallel-safe tools are external ones. */
  lemma SafeIsExternal(c: Call)
    requires c.name in PARALLEL_SAFE
    ensures External(c)
  {
    assert "repository_overview"[..2] == "re" && "repository_search"[..2] == "re" && "read_file"[..2] == "re";
    assert "repository_overview"[2] == 'p' && "repository_search"[2] == 'p' && "read_file"[2] == 'a';
    assert "symbol_context"[1] == 'y' && "search_code"[1] == 'e' && "impact_analysis"[0] == 'i';
    assert "index_stats"[0] == 'i' && "dependency_hints"[0] == 'd' && "list_files"[5] == 'f';
    assert "git_diff"[0] == 'g' && "git_status"[0] == 'g' && "list_files"[0] == 'l';
    assert "set_plan"[..2] == "se" && "set_plan"[2] == 't' && "remember_constraint"[2] == 'm' && "list_skills"[5] == 's';
    assert "search_code"[2] == 'a' && "activate_skill"[0] == 'a' && "finish_task"[0] == 'f';
  }

  /** A tool handler starting or returning. */
  datatype Mark = Begin(call: Call) | Finish(call: Call)

  /** The marks of the ordered calls of a trace. */
  function OrderedMarks(trace: seq<Mark>): seq<Mark> {
    if trace == [] then []
    else
      var n := |trace| - 1;
      OrderedMarks(trace[..n]) + if Ordered(trace[n].call) then [trace[n]] else []
  }

  /** Running the ordered calls one after another, each to its end. */
  function Serial(calls: seq<Call>): seq<Mark> {
    if calls == [] then []
    else
      var n := |calls| - 1;
      Serial(calls[..n]) + if Ordered(calls[n]) then [Begin(calls[n]), Finish(calls[n])] else []
  }

  /** Calls begun and not finished. */
  function InFlight(trace: seq<Mark>): multiset<Call> {
    if trace == [] then multiset{}
    else
      var n := |trace| - 1;
      if trace[n].Begin? then InFlight(trace[..n]) + multiset{trace[n].call}
      else InFlight(trace[..n]) - multiset{trace[n].call}
  }

  predicate BeginsOrdered(m: Mark) {
    m.Begin? && Ordered(m.call)
  }

  /** An ordered call begins with nothing in flight, and nothing happens until it finishes. */
  predicate Exclusive(trace: seq<Mark>) {
    if trace == [] then true
    else
      var n := |trace| - 1;
      && Exclusive(trace[..n])
      && (BeginsOrdered(trace[n]) ==> InFlight(trace[..n]) == multiset{})
      && (n > 0 && BeginsOrdered(trace[n - 1]) ==> trace[n] == Finish(trace[n - 1].call))
  }

  /** The ordered calls ran in the order they were issued, each alone; all have finished. */
  predicate AllDone(trace: seq<Mark>, issued: seq<Call>) {
    && OrderedMarks(trace) == Serial(issued)
    && InFlight(trace) == multiset{}
    && Exclusive(trace)
  }

  /** The same up to an early end: a prefix of the issued order, the last call possibly cut short. */
  predicate InOrder(trace: seq<Mark>, issued: seq<Call>) {
    OrderedMarks(trace) <= Serial(issued) && Exclusive(trace)
  }

  lemma {:induction false} SerialSplits(a: seq<Call>, b: seq<Call>)
    ensures Serial(a + b) == Serial(a) + Serial(b)
  {
    hide Ordered;
    if b == [] {
      assert a + b == a;
    } else {
      var n := |b| - 1;
      assert (a + b)[..|a + b| - 1] == a + b[..n];
      SerialSplits(a, b[..n]);
    }
  }

  lemma NextMark(trace: seq<Mark>, m: Mark)
    ensures OrderedMarks(trace + [m]) == OrderedMarks(trace) + if Ordered(m.call) then [m] else []
    ensures InFlight(trace + [m]) ==
      if m.Begin? then InFlight(trace) + multiset{m.call} else InFlight(trace) - multiset{m.call}
    ensures Exclusive(trace + [m]) <==>
      && Exclusive(trace)
      && (BeginsOrdered(m) ==> InFlight(trace) == multiset{})
      && (trace != [] && BeginsOrdered(trace[|trace| - 1]) ==> m == Finish(trace[|trace| - 1].call))
  {
    assert (trace + [m])[..|trace|] == trace;
  }

  /** Nothing in flight: the trace does not end with a beginning. */
  lemma IdleEnd(trace: seq<Mark>)
    requires InFlight(trace) == multiset{} && trace != []
    ensures !trace[|trace| - 1].Begin?
  {
    var last := trace[|trace| - 1];
    assert last.Begin? ==> last.call in InFlight(trace);
  }

  /** One call run alone to its end. */
  lemma RunOne(trace: seq<Mark>, issued: seq<Call>, c: Call)
    requires AllDone(trace, issued) && External(c)
    ensures InOrder(trace + [Begin(c)], issued + [c])
    ensures AllDone(trace + [Begin(c)] + [Finish(c)], issued + [c])
  {
    hide Exclusive, InFlight, OrderedMarks, Serial, Ordered;
    NextMark(trace, Begin(c));
    NextMark(trace + [Begin(c)], Finish(c));
    if trace != [] {
      IdleEnd(trace);
    }
    SerialSplits(issued, [c]);
    SerialOfOne(c);
  }

  lemma SerialOfOne(c: Call)
    ensures Serial([c]) == if Ordered(c) then [Begin(c), Finish(c)] else []
  {
    assert [c][..0] == [];
  }

  /** A control call leaves the trace alone. */
  lemma SkipControl(trace: seq<Mark>, issued: seq<Call>, c: Call)
    requires AllDone(trace, issued) && !External(c)
    ensures AllDone(trace, issued + [c])
  {
    hide Exclusive, InFlight, OrderedMarks, Serial;
    SerialSplits(issued, [c]);
    SerialOfOne(c);
  }

  /** Calls issued and never run leave a prefix. */
  lemma StoppedEarly(trace: seq<Mark>, issued: seq<Call>, rest: seq<Call>)
    requires InOrder(trace, issued)
    ensures InOrder(trace, issued + rest)
  {
    hide Exclusive, OrderedMarks, Serial;
    SerialSplits(issued, rest);
  }

  lemma DoneIsInOrder(trace: seq<Mark>, issued: seq<Call>)
    requires AllDone(trace, issued)
    ensures InOrder(trace, issued)
  {
  }

  /** Read off the trace: nothing else is running when an ordered call begins, nor until it ends. */
  lemma {:induction false} OrderedRunsAlone(trace: seq<Mark>, i: nat)
    requires Exclusive(trace) && i < |trace| && BeginsOrdered(trace[i])
    ensures InFlight(trace[..i]) == multiset{}
    ensures i + 1 < |trace| ==> trace[i + 1] == Finish(trace[i].call)
  {
    hide InFlight, Ordered;
    var n := |trace| - 1;
    if i < n {
      assert trace[..n][..i] == trace[..i];
      OrderedRunsAlone(trace[..n], i);
    }
  }

  predicate Mutating(c: Call) {
    c.name in MUTATING
  }

  /** Mutating calls, in the order they began. */
  function MutationsBegun(trace: seq<Mark>): seq<Call> {
    if trace == [] then []
    else
      var n := |trace| - 1;
      MutationsBegun(trace[..n]) + if trace[n].Begin? && Mutating(trace[n].call) then [trace[n].call] else []
  }

  function Mutations(calls: seq<Call>): seq<Call> {
    if calls == [] then []
    else
      var n := |calls| - 1;
      Mutations(calls[..n]) + if Mutating(calls[n]) then [calls[n]] else []
  }

  /** Mutating calls begin in the order the model issued them, and none is skipped. */
  lemma MutationsStayOrdered(trace: seq<Mark>, issued: seq<Call>)
    requires InOrder(trace, issued)
    ensures MutationsBegun(trace) <= Mutations(issued)
    ensures forall c: Call :: c.name in {"write_file", "apply_patch", "run_command", "checkpoint"} ==> Mutating(c)
  {
    hide OrderedMarks, Serial, Exclusive, MutationsBegun, Mutations;
    BegunAreOrdered(trace);
    BegunOfPrefix(OrderedMarks(trace), Serial(issued));
    BegunOfSerial(issued);
  }

  lemma {:induction false} BegunAreOrdered(trace: seq<Mark>)
    ensures MutationsBegun(OrderedMarks(trace)) == MutationsBegun(trace)
  {
    hide Ordered, Mutating;
    if trace != [] {
      var n := |trace| - 1;
      BegunAreOrdered(trace[..n]);
      var rest := OrderedMarks(trace[..n]);
      assert rest + [] == rest;
      if Ordered(trace[n].call) {
        assert (rest + [trace[n]])[..|rest|] == rest;
      } else if Mutating(trace[n].call) {
        MutatingMarkIsOrdered(trace[n]);
      }
    }
  }

  lemma MutatingMarkIsOrdered(m: Mark)
    requires Mutating(m.call)
    ensures Ordered(m.call)
  {
    MutatingIsOrdered(m.call);
  }

  lemma {:induction false} BegunOfPrefix(a: seq<Mark>, b: seq<Mark>)
    requires a <= b
    ensures MutationsBegun(a) <= MutationsBegun(b)
    decreases |b|
  {
    hide Mutating;
    if a == b {
    } else {
      BegunOfPrefix(a, b[..|b| - 1]);
    }
  }

  lemma {:induction false} BegunOfSerial(calls: seq<Call>)
    ensures MutationsBegun(Serial(calls)) == Mutations(calls)
  {
    hide Ordered, Mutating;
    if calls != [] {
      var n := |calls| - 1;
      var c, rest := calls[n], Serial(calls[..n]);
      BegunOfSerial(calls[..n]);
      assert rest + [] == rest;
      if Ordered(c) {
        assert (rest + [Begin(c), Finish(c)])[..|rest| + 1] == rest + [Begin(c)];
        assert (rest + [Begin(c)])[..|rest|] == rest;
      } else if Mutating(c) {
        MutatingMarkIsOrdered(Begin(c));
      }
    }
  }

  // ---- Parallel batches ----

  ghost predicate AllFree(calls: seq<Call>) {
    forall i :: 0 <= i < |calls| ==> External(calls[i]) && !Ordered(calls[i])
  }

  lemma {:induction false} FreeBatchIsSilent(calls: seq<Call>)
    requires AllFree(calls)
    ensures Serial(calls) == []
  {
    hide Ordered, External;
    if calls != [] {
      FreeBatchIsSilent(calls[..|calls| - 1]);
    }
  }

  /** The calls whose flag is up. */
  function Picked(calls: seq<Call>, flags: seq<bool>): multiset<Call>
    requires |flags| == |calls|
  {
    if calls == [] then multiset{}
    else
      var n := |calls| - 1;
      Picked(calls[..n], flags[..n]) + if flags[n] then multiset{calls[n]} else multiset{}
  }

  lemma {:induction false} Lower(calls: seq<Call>, flags: seq<bool>, i: nat)
    requires |flags| == |calls| && i < |calls| && flags[i]
    ensures Picked(calls, flags[i := false]) + multiset{calls[i]} == Picked(calls, flags)
  {
    var n := |calls| - 1;
    if i < n {
      assert flags[i := false][..n] == flags[..n][i := false];
      Lower(calls[..n], flags[..n], i);
    } else {
      assert flags[i := false][..n] == flags[..n];
    }
  }

  lemma Raise(calls: seq<Call>, flags: seq<bool>, i: nat)
    requires |flags| == |calls| && i < |calls| && !flags[i]
    ensures Picked(calls, flags[i := true]) == Picked(calls, flags) + multiset{calls[i]}
  {
    assert flags[i := true][i := false] == flags;
    Lower(calls, flags[i := true], i);
  }

  lemma {:induction false} AllDown(calls: seq<Call>, flags: seq<bool>)
    requires |flags| == |calls| && forall i :: 0 <= i < |flags| ==> !flags[i]
    ensures Picked(calls, flags) == multiset{}
  {
    if calls != [] {
      AllDown(calls[..|calls| - 1], flags[..|calls| - 1]);
    }
  }

  lemma {:induction false} AllUp(calls: seq<Call>, flags: seq<bool>)
    requires |flags| == |calls| && forall i :: 0 <= i < |flags| ==> flags[i]
    ensures Picked(calls, flags) == multiset(calls)
  {
    if calls != [] {
      var n := |calls| - 1;
      AllUp(calls[..n], flags[..n]);
      assert calls == calls[..n] + [calls[n]];
    } else {
      assert calls == [];
    }
  }

  /** A parallel-safe call beginning or finishing disturbs no ordered call. */
  lemma FreeMark(trace: seq<Mark>, issued: seq<Call>, m: Mark)
    requires InOrder(trace, issued) && !Ordered(m.call)
    requires trace == [] || !BeginsOrdered(trace[|trace| - 1])
    ensures InOrder(trace + [m], issued)
    ensures OrderedMarks(trace + [m]) == OrderedMarks(trace)
    ensures !BeginsOrdered(m)
  {
    hide Exclusive, OrderedMarks, Serial, InFlight, Ordered;
    NextMark(trace, m);
  }

  /** Progress of a batch, call by call; `outcome` holds the results that have returned. */
  datatype Batch = Batch(
    waiting: seq<bool>,
    running: seq<bool>,
    unrecorded: seq<bool>,
    outcome: seq<ToolResult>)

  ghost predicate Shaped(calls: seq<Call>, b: Batch) {
    && |b.waiting| == |b.running| == |b.unrecorded| == |b.outcome| == |calls|
    && forall i :: 0 <= i < |calls| ==>
         && (b.waiting[i] || b.running[i] ==> b.unrecorded[i])
         && !(b.waiting[i] && b.running[i])
  }

  /** Where a batch stands: the trace so far, the calls recorded, the tools that worked. */
  ghost predicate BatchOk(calls: seq<Call>, b: Batch, trace: seq<Mark>, issued: seq<Call>,
                          recorded: seq<Call>, worked: set<string>)
  {
    && Shaped(calls, b)
    && (forall i :: 0 <= i < |calls| && !b.waiting[i] && !b.running[i] && b.outcome[i].ok ==> calls[i].name in worked)
    && OrderedMarks(trace) == Serial(issued) && Exclusive(trace)
    && (trace == [] || !BeginsOrdered(trace[|trace| - 1]))
    && InFlight(trace) == Picked(calls, b.running)
    && multiset(recorded) + Picked(calls, b.unrecorded) == multiset(calls)
  }

  ghost function Left(calls: seq<Call>, b: Batch): nat
    requires Shaped(calls, b)
  {
    2 * |Picked(calls, b.waiting)| + |Picked(calls, b.running)| + |Picked(calls, b.unrecorded)|
  }

  function NewBatch(n: nat): Batch {
    Batch(seq(n, _ => true), seq(n, _ => false), seq(n, _ => true), seq(n, _ => ToolResult(false, "")))
  }

  lemma BatchStarts(calls: seq<Call>, trace: seq<Mark>, before: seq<Call>, worked: set<string>)
    requires AllFree(calls) && AllDone(trace, before)
    ensures BatchOk(calls, NewBatch(|calls|), trace, before + calls, [], worked)
  {
    hide Picked, OrderedMarks, InFlight, Serial, Exclusive, Ordered, External;
    var b := NewBatch(|calls|);
    AllDown(calls, b.running);
    AllUp(calls, b.unrecorded);
    SerialSplits(before, calls);
    FreeBatchIsSilent(calls);
    if trace != [] {
      IdleEnd(trace);
    }
  }

  lemma BatchIsInOrder(calls: seq<Call>, b: Batch, trace: seq<Mark>, issued: seq<Call>, recorded: seq<Call>, worked: set<string>)
    requires BatchOk(calls, b, trace, issued, recorded, worked)
    ensures InOrder(trace, issued)
  {
    hide Picked, OrderedMarks, InFlight, Serial, Exclusive, Ordered;
  }

  lemma BatchEnds(calls: seq<Call>, b: Batch, trace: seq<Mark>, issued: seq<Call>, recorded: seq<Call>, worked: set<string>)
    requires BatchOk(calls, b, trace, issued, recorded, worked)
    requires !exists i :: 0 <= i < |calls| && b.unrecorded[i]
    ensures AllDone(trace, issued) && multiset(recorded) == multiset(calls)
  {
    hide Picked, OrderedMarks, InFlight, Serial, Exclusive, Ordered;
    AllDown(calls, b.running);
    AllDown(calls, b.unrecorded);
  }

  lemma BatchSees(calls: seq<Call>, b: Batch, trace: seq<Mark>, issued: seq<Call>, recorded: seq<Call>,
                  worked: set<string>, more: set<string>)
    requires BatchOk(calls, b, trace, issued, recorded, worked) && worked <= more
    ensures BatchOk(calls, b, trace, issued, recorded, more)
  {
    hide Picked, OrderedMarks, InFlight, Serial, Exclusive, Ordered;
  }

  function Started(b: Batch, i: nat): Batch
    requires i < |b.waiting| && i < |b.running|
  {
    b.(waiting := b.waiting[i := false], running := b.running[i := true])
  }

  function Returned(b: Batch, i: nat, r: ToolResult): Batch
    requires i < |b.running| && i < |b.outcome|
  {
    b.(running := b.running[i := false], outcome := b.outcome[i := r])
  }

  function Recorded(b: Batch, i: nat): Batch
    requires i < |b.unrecorded|
  {
    b.(unrecorded := b.unrecorded[i := false])
  }

  lemma StartKeepsBatch(calls: seq<Call>, b: Batch, trace: seq<Mark>, issued: seq<Call>, recorded: seq<Call>,
                        worked: set<string>, i: nat)
    requires BatchOk(calls, b, trace, issued, recorded, worked)
    requires AllFree(calls) && i < |calls| && b.waiting[i]
    ensures BatchOk(calls, Started(b, i), trace + [Begin(calls[i])], issued, recorded, worked)
    ensures Left(calls, Started(b, i)) < Left(calls, b)
  {
    hide Picked, OrderedMarks, InFlight, Serial, Exclusive, Ordered, External;
    Lower(calls, b.waiting, i);
    Raise(calls, b.running, i);
    FreeMark(trace, issued, Begin(calls[i]));
    NextMark(trace, Begin(calls[i]));
  }

  lemma ReturnKeepsBatch(calls: seq<Call>, b: Batch, trace: seq<Mark>, issued: seq<Call>, recorded: seq<Call>,
                         worked: set<string>, i: nat, r: ToolResult)
    requires BatchOk(calls, b, trace, issued, recorded, worked)
    requires AllFree(calls) && i < |calls| && b.running[i]
    requires r.ok ==> calls[i].name in worked
    ensures BatchOk(calls, Returned(b, i, r), trace + [Finish(calls[i])], issued, recorded, worked)
    ensures Left(calls, Returned(b, i, r)) < Left(calls, b)
  {
    hide Picked, OrderedMarks, InFlight, Serial, Exclusive, Ordered, External;
    Lower(calls, b.running, i);
    FreeMark(trace, issued, Finish(calls[i]));
    NextMark(trace, Finish(calls[i]));
  }

  lemma RecordKeepsBatch(calls: seq<Call>, b: Batch, trace: seq<Mark>, issued: seq<Call>, recorded: seq<Call>,
                         worked: set<string>, i: nat)
    requires BatchOk(calls, b, trace, issued, recorded, worked)
    requires i < |calls| && b.unrecorded[i] && !b.waiting[i] && !b.running[i]
    ensures BatchOk(calls, Recorded(b, i), trace, issued, recorded + [calls[i]], worked)
    ensures Left(calls, Recorded(b, i)) < Left(calls, b)
  {
    hide Picked, OrderedMarks, InFlight, Serial, Exclusive, Ordered;
    Lower(calls, b.unrecorded, i);
  }
}
