/**
 * `DockerEnvironmentProvider` (src/minion/runtime/workspace.py) as it runs: one call at a
 * time between two awaits, any steps of other calls at each await.
 */
module WarmProvider {
  import opened Prelude
  import opened SlotPool

  datatype Workspace = Workspace(env: Env, slot: Slot)

  /** The exception a caller sees. */
  datatype Failure = Cancelled | NotPopulated | MoveFailed | Unhealthy

  /** A step of another call: it neither ends this call nor takes its ticket or new name. */
  predicate OfOthers(step: Step, mine: Ticket, env: Env) {
    match step
    case StartAllocate(t, e) => t != mine && e != env
    case StartAttach(t, _, _) => t != mine
    case FinishAllocate(t, _) => t != mine
    case FinishAttach(t, _) => t != mine
    case Release(_, _) => true
  }

  lemma OthersLeaveAlone(d: Depot, step: Step, mine: Ticket, env: Env)
    requires Enabled(d, step) && OfOthers(step, mine, env)
    ensures var e := Apply(d, step);
      && (mine in d.operations <==> mine in e.operations)
      && (mine in d.operations ==> e.operations[mine] == d.operations[mine])
      && (env in e.known <==> env in d.known)
      && e.slots == d.slots
  {
    hide Root, Put, Undone, Released;
    match step {
      case StartAllocate(t, e) =>
      case StartAttach(t, e, moves) =>
        Frames(d.(pool := d.pool[1..]), d.pool[0], e);
      case FinishAllocate(t, populated) =>
        var op, rest := d.operations[t], d.(operations := Drop(d.operations, t));
        Frames(WithRoot(rest, op.slot, Root(rest, op.slot) - {op.env}), op.slot, op.env);
      case FinishAttach(t, healthy) =>
        Frames(d.(operations := Drop(d.operations, t)), d.operations[t].slot, d.operations[t].env);
      case Release(e, destroy) =>
        ReleaseFrames(d, d.live[e], e, destroy);
    }
  }

  predicate SameCalls(d: Depot, e: Depot) {
    e.operations == d.operations && e.known == d.known && e.slots == d.slots
  }

  lemma Frames(d: Depot, s: Slot, env: Env)
    ensures SameCalls(d, Put(Undone(d, s, env), s)) && SameCalls(d, Put(d, s))
  {
  }

  lemma ReleaseFrames(d: Depot, s: Slot, env: Env, destroy: bool)
    ensures SameCalls(d, Put(Released(d, s, env, destroy).(live := Drop(d.live, env)), s))
  {
  }

  class DockerEnvironmentProvider {
    /** No other call acts while one is suspended, and none is cancelled. */
    const undisturbed: bool
    /** The queue `_pool`, the registered `_slots`, and the directories on disk. */
    var pool: seq<Slot>
    var slots: set<Slot>
    var roots: map<Slot, set<Env>>
    var persistent: set<Env>
    /** Calls in progress, workspaces handed out, identifiers used, targets overwritten. */
    var operations: map<Ticket, Operation>
    var live: map<Env, Slot>
    var known: set<Env>
    var clobbered: set<Env>

    function State(): Depot
      reads this
    {
      Depot(slots, pool, roots, persistent, operations, live, known, clobbered)
    }

    ghost predicate Valid()
      reads this
    {
      Sound(State())
    }

    /** `prepare`, once the leftovers of earlier processes are archived. */
    constructor (slotIds: seq<Slot>, onDisk: set<Env>, undisturbed: bool)
      requires forall i, j :: 0 <= i < j < |slotIds| ==> slotIds[i] != slotIds[j]
      ensures Valid()
      ensures this.undisturbed == undisturbed
      ensures pool == slotIds && persistent == onDisk && live == map[] && operations == map[]
    {
      this.undisturbed := undisturbed;
      pool := slotIds;
      slots := set s | s in slotIds;
      roots := map[];
      persistent := onDisk;
      operations, live, known, clobbered := map[], map[], onDisk, {};
      new;
      PreparedIsSound(State());
    }

    /** Any steps of other calls, while this call is suspended. */
    method Interfere(mine: Ticket, env: Env)
      requires Valid()
      modifies this
      ensures Valid() && slots == old(slots)
      ensures mine in operations <==> mine in old(operations)
      ensures mine in operations ==> operations[mine] == old(operations[mine])
      ensures env in known <==> env in old(known)
      ensures undisturbed ==> State() == old(State())
    {
      hide Sound, Enabled, Apply, OfOthers;
      var steps: seq<Step> := *;
      steps := if undisturbed then [] else steps;
      var d := State();
      for i := 0 to |steps|
        invariant Sound(d) && d.slots == old(slots)
        invariant mine in d.operations <==> mine in old(operations)
        invariant mine in d.operations ==> d.operations[mine] == old(operations[mine])
        invariant env in d.known <==> env in old(known)
        invariant undisturbed ==> d == old(State())
      {
        if Enabled(d, steps[i]) && OfOthers(steps[i], mine, env) {
          StepKeepsSound(d, steps[i]);
          OthersLeaveAlone(d, steps[i], mine, env);
          d := Apply(d, steps[i]);
        }
      }
      pool, slots, roots, persistent := d.pool, d.slots, d.roots, d.persistent;
      operations, live, known, clobbered := d.operations, d.live, d.known, d.clobbered;
      assert State() == d;
    }

    /** `allocate`, with the new identifier it draws; `populates` says whether the copy succeeds. */
    method Allocate(mine: Ticket, env: Env, populates: bool) returns (r: Result<Workspace, Failure>)
      requires Valid()
      requires mine !in operations && env !in known
      modifies this
      ensures Valid() && slots == old(slots) && mine !in operations
      ensures r.Ok? ==>
        && r.value.env == env && env in live && live[env] == r.value.slot
        && Root(State(), r.value.slot) == {env} && env !in persistent
      ensures r.Err? ==> !Exists(State(), env)
      ensures undisturbed && old(pool) != [] ==>
        && persistent == old(persistent)
        && if populates then
             && r == Ok(Workspace(env, old(pool)[0])) && pool == old(pool)[1..]
             && live == old(live)[env := old(pool)[0]]
           else
             && r == Err(NotPopulated) && pool == old(pool)[1..] + [old(pool)[0]] && live == old(live)
    {
      hide Sound, Apply, Exists;
      Interfere(mine, env);
      if pool == [] {
        NeverSeen(State(), env);
        return Err(Cancelled);
      }
      StepKeepsSound(State(), StartAllocate(mine, env));
      ghost var next := Apply(State(), StartAllocate(mine, env));
      var slot := pool[0];
      Occupied(State(), mine, env);
      pool := pool[1..];
      roots := roots[slot := (if slot in roots then roots[slot] else {}) + {env}];
      operations, known := operations[mine := Populating(slot, env)], known + {env};
      assert State() == next;
      Interfere(mine, env);
      var populated := populates;
      StepKeepsSound(State(), FinishAllocate(mine, populated));
      next := Apply(State(), FinishAllocate(mine, populated));
      EndOfAllocate(State(), mine, populated);
      operations := Drop(operations, mine);
      if !populated {
        roots := roots[slot := (if slot in roots then roots[slot] else {}) - {env}];
        pool := pool + [slot];
        assert State() == next;
        return Err(NotPopulated);
      }
      live := live[env := slot];
      assert State() == next;
      return Ok(Workspace(env, slot));
    }

    /**
     * `attach`; `None` when there is no persistent directory. `movable` and `healthy` say
     * whether the move and the health check succeed.
     */
    method Attach(mine: Ticket, env: Env, movable: bool, healthy: bool) returns (r: Result<Option<Workspace>, Failure>)
      requires Valid()
      requires mine !in operations
      modifies this
      ensures Valid() && slots == old(slots) && mine !in operations
      ensures r == Ok(None) <==> env !in old(persistent)
      ensures r == Ok(None) ==> State() == old(State())
      ensures r.Ok? && r.value.Some? ==>
        && r.value.value.env == env && env in live && live[env] == r.value.value.slot
        && Root(State(), r.value.value.slot) == {env} && env !in persistent
      ensures r == Err(Unhealthy) ==> env in persistent
      ensures undisturbed && old(pool) != [] && env in old(persistent) ==>
        if movable && healthy then
          && r == Ok(Some(Workspace(env, old(pool)[0]))) && pool == old(pool)[1..]
          && live == old(live)[env := old(pool)[0]] && persistent == old(persistent) - {env}
        else
          && r == Err(if movable then Unhealthy else MoveFailed) && pool == old(pool)[1..] + [old(pool)[0]]
          && live == old(live) && persistent == old(persistent)
    {
      hide Sound, Apply, Undone, PlacesOk, Enabled;
      if env !in persistent {
        return Ok(None);
      }
      KnownOnDisk(State(), env);
      Interfere(mine, env);
      if pool == [] {
        return Err(Cancelled);
      }
      var slot := pool[0];
      var moves := movable;
      StartOfAttach(State(), mine, env, moves);
      ghost var next := Apply(State(), StartAttach(mine, env, moves));
      pool := pool[1..];
      if !(moves && env in persistent) {
        pool := pool + [slot];
        assert State() == next;
        return Err(MoveFailed);
      }
      roots := roots[slot := (if slot in roots then roots[slot] else {}) + {env}];
      persistent, operations := persistent - {env}, operations[mine := Checking(slot, env)];
      assert State() == next;
      Interfere(mine, env);
      r := CheckHealth(mine, env, slot, healthy);
    }

    /** The end of `attach`: the workspace is handed out, or moved back by the exception handler. */
    method CheckHealth(mine: Ticket, env: Env, slot: Slot, healthy: bool) returns (r: Result<Option<Workspace>, Failure>)
      requires Valid() && mine in operations && operations[mine] == Checking(slot, env)
      modifies this
      ensures Valid() && slots == old(slots) && operations == Drop(old(operations), mine)
      ensures if healthy
        then
          && r == Ok(Some(Workspace(env, slot))) && live == old(live)[env := slot] && pool == old(pool)
          && Root(State(), slot) == {env} && env !in persistent && persistent == old(persistent)
        else
          && r == Err(Unhealthy) && live == old(live) && pool == old(pool) + [slot]
          && persistent == old(persistent) + {env}
    {
      hide Sound, Apply, Undone, PlacesOk, Enabled;
      EndOfAttach(State(), mine, healthy);
      ghost var next := Apply(State(), FinishAttach(mine, healthy));
      operations := Drop(operations, mine);
      if healthy {
        live := live[env := slot];
        assert State() == next;
        return Ok(Some(Workspace(env, slot)));
      }
      if slot in roots && env in roots[slot] && env !in persistent {
        roots := roots[slot := roots[slot] - {env}];
        persistent := persistent + {env};
      }
      pool := pool + [slot];
      assert State() == next;
      return Err(Unhealthy);
    }

    /** `release` of a workspace that has not been released yet. */
    method Release(workspace: Workspace, destroy: bool)
      requires Valid()
      requires workspace.env in live && live[workspace.env] == workspace.slot
      modifies this
      ensures Valid() && slots == old(slots) && operations == old(operations)
      ensures pool == old(pool) + [workspace.slot]
      ensures live == Drop(old(live), workspace.env)
      ensures persistent == old(persistent) + if destroy then {} else {workspace.env}
      ensures destroy ==> !Exists(State(), workspace.env)
      ensures Root(State(), workspace.slot) == {}
    {
      hide Sound, Apply, Exists;
      var env, slot := workspace.env, workspace.slot;
      StepKeepsSound(State(), SlotPool.Release(env, destroy));
      EndOfRelease(State(), env, destroy);
      ghost var next := Apply(State(), SlotPool.Release(env, destroy));
      var root := if slot in roots then roots[slot] else {};
      if destroy {
        roots := roots[slot := root - {env}];
      } else {
        // An existing target is removed first; the contract says that there is none.
        clobbered := clobbered + persistent * {env};
        persistent := persistent - {env};
        if env in root {
          roots := roots[slot := root - {env}];
          persistent := persistent + {env};
        }
      }
      live := Drop(live, env);
      pool := pool + [slot];
      assert State() == next;
    }
  }

  lemma NeverSeen(d: Depot, env: Env)
    requires Sound(d) && env !in d.known
    ensures !Exists(d, env)
  {
    forall s ensures !At(d, env, s) {
      if s in d.slots {
        assert Placed(d, s);
      }
    }
  }

  lemma Occupied(d: Depot, t: Ticket, env: Env)
    requires Enabled(d, StartAllocate(t, env))
    ensures Apply(d, StartAllocate(t, env)) ==
      d.(pool := d.pool[1..], roots := d.roots[d.pool[0] := Root(d, d.pool[0]) + {env}],
         operations := d.operations[t := Populating(d.pool[0], env)], known := d.known + {env})
  {
  }

  lemma EndOfAllocate(d: Depot, t: Ticket, populated: bool)
    requires Sound(d) && Enabled(d, FinishAllocate(t, populated))
    ensures var op := d.operations[t];
      var e := Apply(d, FinishAllocate(t, populated));
      if populated then
        && e == d.(operations := Drop(d.operations, t), live := d.live[op.env := op.slot])
        && Root(e, op.slot) == {op.env} && op.env !in e.persistent
      else
        && e == d.(operations := Drop(d.operations, t), pool := d.pool + [op.slot],
                   roots := d.roots[op.slot := Root(d, op.slot) - {op.env}])
        && !Exists(e, op.env)
  {
    hide SlotsOk;
    var op := d.operations[t];
    assert Busy(d, op.slot, op.env);
    if !populated {
      var e := Apply(d, FinishAllocate(t, populated));
      forall s ensures !At(e, op.env, s) {
        if s in d.slots {
          assert Apart(d, s, op.slot);
        }
      }
    }
  }

  lemma KnownOnDisk(d: Depot, env: Env)
    requires Sound(d) && env in d.persistent
    ensures env in d.known
  {
  }

  lemma StartOfAttach(d: Depot, t: Ticket, env: Env, moves: bool)
    requires Sound(d) && d.pool != [] && t !in d.operations && env in d.known
    ensures Enabled(d, StartAttach(t, env, moves)) && Sound(Apply(d, StartAttach(t, env, moves)))
    ensures Apply(d, StartAttach(t, env, moves)) ==
      if moves && env in d.persistent then
        d.(pool := d.pool[1..], roots := d.roots[d.pool[0] := Root(d, d.pool[0]) + {env}],
           persistent := d.persistent - {env}, operations := d.operations[t := Checking(d.pool[0], env)])
      else Rotated(d)
  {
    ReturnedUnused(d);
    StepKeepsSound(d, StartAttach(t, env, moves));
  }

  lemma EndOfAttach(d: Depot, t: Ticket, healthy: bool)
    requires Sound(d) && t in d.operations && d.operations[t].Checking?
    ensures Enabled(d, FinishAttach(t, healthy)) && Sound(Apply(d, FinishAttach(t, healthy)))
    ensures var op := d.operations[t];
      var e := Apply(d, FinishAttach(t, healthy));
      && op.env in Root(d, op.slot) && op.env !in d.persistent
      && if healthy then
           && e == d.(operations := Drop(d.operations, t), live := d.live[op.env := op.slot])
           && Root(e, op.slot) == {op.env} && op.env !in e.persistent
         else
           e == d.(operations := Drop(d.operations, t), pool := d.pool + [op.slot],
                   roots := d.roots[op.slot := Root(d, op.slot) - {op.env}],
                   persistent := d.persistent + {op.env})
  {
    hide PlacesOk, SlotsOk;
    StepKeepsSound(d, FinishAttach(t, healthy));
    var op := d.operations[t];
    assert Busy(d, op.slot, op.env);
  }

  lemma EndOfRelease(d: Depot, env: Env, destroy: bool)
    requires Sound(d) && Enabled(d, SlotPool.Release(env, destroy))
    ensures var s := d.live[env];
      var e := Apply(d, SlotPool.Release(env, destroy));
      && env in Root(d, s) && env !in d.persistent
      && e == d.(pool := d.pool + [s], live := Drop(d.live, env), roots := d.roots[s := Root(d, s) - {env}],
                 persistent := d.persistent + if destroy then {} else {env})
      && Root(e, s) == {}
      && (destroy ==> !Exists(e, env))
  {
    hide SlotsOk;
    var s := d.live[env];
    assert Busy(d, s, env);
    var e := Apply(d, SlotPool.Release(env, destroy));
    assert destroy ==> d.persistent + {} == d.persistent;
    if destroy {
      forall u ensures !At(e, env, u) {
        if u in d.slots {
          assert Apart(d, u, s);
        }
      }
    }
  }
}
