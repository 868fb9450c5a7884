/**
 * The places of `Protocol` are the directories of `SlotPool`: obtaining, keeping and deleting
 * a workspace are the calls that `_execute` makes on its environment provider, and a retry's
 * `attach` finds its directory exactly when the task's environment is in the persistent root.
 */
module TaskWorkspaces {
  import opened Prelude
  import opened Protocol
  import opened TaskRepository
  import RetryWorkspace
  import SlotPool
  import WarmProvider

  type Depot = SlotPool.Depot

  /** Where the provider has the directory of an environment whose place is `place`. */
  ghost predicate Shows(d: Depot, env: EnvId, place: Place) {
    env in d.known &&
    match place
    case Persistent => env in d.persistent
    case InSlot(_) => env in d.live
    case Deleted => !SlotPool.Exists(d, env)
    case Stranded => env in d.live
  }

  ghost predicate Mirrors(s: Task, d: Depot) {
    SlotPool.Sound(d) && forall env :: env in s.places ==> Shows(d, env, s.places[env])
  }

  /** The directories of every other environment stay as they are. */
  ghost predicate OnlyMoves(d: Depot, e: Depot, env: EnvId) {
    && d.known <= e.known
    && (forall f :: f != env ==> (f in e.persistent <==> f in d.persistent) && (f in e.live <==> f in d.live))
    && (forall f :: f != env && !SlotPool.Exists(d, f) ==> !SlotPool.Exists(e, f))
  }

  lemma OthersStillShow(s: Task, t: Task, d: Depot, e: Depot, env: EnvId)
    requires Mirrors(s, d) && SlotPool.Sound(e) && OnlyMoves(d, e, env)
    requires env in t.places && t.places == s.places[env := t.places[env]]
    requires Shows(e, env, t.places[env])
    ensures Mirrors(t, e)
  {
    hide SlotPool.Sound, SlotPool.Exists;
    forall f | f in t.places ensures Shows(e, f, t.places[f]) {
      if f != env {
        assert Shows(d, f, s.places[f]);
      }
    }
  }

  /** The provider's steps during `allocate` of a new environment, and the task's. */
  lemma AllocateMirrors(s: Task, x: ExecId, env: EnvId, d: Depot, ticket: nat) returns (e: Depot)
    requires Mirrors(s, d) && d.pool != [] && ticket !in d.operations && env !in d.known
    requires x in s.execs && s.execs[x].view.env != Some(env) && AfterExec(s, x, Obtain(env)).Some?
    ensures SlotPool.Enabled(d, SlotPool.StartAllocate(ticket, env))
    ensures var m := SlotPool.Apply(d, SlotPool.StartAllocate(ticket, env));
      SlotPool.Enabled(m, SlotPool.FinishAllocate(ticket, true)) && e == SlotPool.Apply(m, SlotPool.FinishAllocate(ticket, true))
    ensures Mirrors(AfterExec(s, x, Obtain(env)).value, e)
  {
    hide SlotPool.Sound, SlotPool.Apply, SlotPool.Exists, ExecStep;
    var m := SlotPool.Apply(d, SlotPool.StartAllocate(ticket, env));
    SlotPool.StepKeepsSound(d, SlotPool.StartAllocate(ticket, env));
    WarmProvider.Occupied(d, ticket, env);
    e := SlotPool.Apply(m, SlotPool.FinishAllocate(ticket, true));
    SlotPool.StepKeepsSound(m, SlotPool.FinishAllocate(ticket, true));
    WarmProvider.EndOfAllocate(m, ticket, true);
    AddedOnly(d, e, d.pool[0], env);
    OthersStillShow(s, AfterExec(s, x, Obtain(env)).value, d, e, env);
  }

  lemma AddedOnly(d: Depot, e: Depot, slot: nat, env: EnvId)
    requires e.roots == d.roots[slot := SlotPool.Root(d, slot) + {env}] && e.slots == d.slots
    requires e.persistent <= d.persistent && d.known <= e.known && env in e.live
    requires forall f :: f != env ==> (f in e.persistent <==> f in d.persistent) && (f in e.live <==> f in d.live)
    ensures OnlyMoves(d, e, env)
  {
    forall f | f != env && SlotPool.Exists(e, f) ensures SlotPool.Exists(d, f) {
      if f !in e.persistent {
        var t :| SlotPool.At(e, f, t);
        assert SlotPool.At(d, f, t);
      }
    }
  }

  /** A successful `attach`. */
  lemma AttachMirrors(s: Task, x: ExecId, env: EnvId, d: Depot, ticket: nat) returns (e: Depot)
    requires Mirrors(s, d) && d.pool != [] && ticket !in d.operations
    requires x in s.execs && s.execs[x].view.env == Some(env) && AfterExec(s, x, Obtain(env)).Some?
    ensures SlotPool.Enabled(d, SlotPool.StartAttach(ticket, env, true))
    ensures var m := SlotPool.Apply(d, SlotPool.StartAttach(ticket, env, true));
      SlotPool.Enabled(m, SlotPool.FinishAttach(ticket, true)) && e == SlotPool.Apply(m, SlotPool.FinishAttach(ticket, true))
    ensures Mirrors(AfterExec(s, x, Obtain(env)).value, e)
  {
    hide SlotPool.Sound, SlotPool.Apply, SlotPool.Exists, ExecStep;
    assert Shows(d, env, s.places[env]);
    WarmProvider.StartOfAttach(d, ticket, env, true);
    var m := SlotPool.Apply(d, SlotPool.StartAttach(ticket, env, true));
    WarmProvider.EndOfAttach(m, ticket, true);
    e := SlotPool.Apply(m, SlotPool.FinishAttach(ticket, true));
    AddedOnly(d, e, d.pool[0], env);
    OthersStillShow(s, AfterExec(s, x, Obtain(env)).value, d, e, env);
  }

  /** The release at the end of the finally block. */
  lemma ReleaseMirrors(s: Task, x: ExecId, d: Depot) returns (e: Depot)
    requires Mirrors(s, d) && RetryWorkspace.Located(s)
    requires x in s.execs && s.execs[x].pc.Release? && s.execs[x].ws.Some?
    ensures AfterExec(s, x, ReleaseWorkspace).Some?
    ensures var release := SlotPool.Release(s.execs[x].ws.value, s.execs[x].pc.destroy);
      SlotPool.Enabled(d, release) && e == SlotPool.Apply(d, release)
    ensures Mirrors(AfterExec(s, x, ReleaseWorkspace).value, e)
  {
    hide SlotPool.Sound, SlotPool.Apply, SlotPool.Exists, AfterExec, RetryWorkspace.Located;
    var env, destroy := s.execs[x].ws.value, s.execs[x].pc.destroy;
    ReleasePlaces(s, x);
    assert Shows(d, env, s.places[env]);
    e := SlotPool.Apply(d, SlotPool.Release(env, destroy));
    SlotPool.StepKeepsSound(d, SlotPool.Release(env, destroy));
    WarmProvider.EndOfRelease(d, env, destroy);
    RemovedOnly(d, e, d.live[env], env);
    OthersStillShow(s, AfterExec(s, x, ReleaseWorkspace).value, d, e, env);
  }

  lemma ReleasePlaces(s: Task, x: ExecId)
    requires RetryWorkspace.Located(s)
    requires x in s.execs && s.execs[x].pc.Release? && s.execs[x].ws.Some?
    ensures var env := s.execs[x].ws.value;
      && env in s.places && s.places[env].InSlot?
      && AfterExec(s, x, ReleaseWorkspace).Some?
      && AfterExec(s, x, ReleaseWorkspace).value.places == s.places[env := if s.execs[x].pc.destroy then Deleted else Persistent]
  {
    assert RetryWorkspace.Holding(s.execs[x]);
  }

  lemma RemovedOnly(d: Depot, e: Depot, slot: nat, env: EnvId)
    requires e.roots == d.roots[slot := SlotPool.Root(d, slot) - {env}] && e.slots == d.slots && e.known == d.known
    requires forall f :: f != env ==> (f in e.persistent <==> f in d.persistent) && (f in e.live <==> f in d.live)
    ensures OnlyMoves(d, e, env)
  {
    forall f | f != env && SlotPool.Exists(e, f) ensures SlotPool.Exists(d, f) {
      if f !in e.persistent {
        var t :| SlotPool.At(e, f, t);
        assert SlotPool.At(d, f, t);
      }
    }
  }

  /** Leaving the finally block early makes no call: the workspace stays live and its slot busy. */
  lemma CutMirrors(s: Task, a: Step, d: Depot)
    requires Mirrors(s, d) && (a.Crash? || (a.ExecDo? && !a.a.Obtain? && !a.a.ReleaseWorkspace?))
    requires RetryWorkspace.Located(s) && Apply(s, a).Some?
    ensures Mirrors(Apply(s, a).value, d)
  {
    hide SlotPool.Sound, SlotPool.Exists, ExecStep, AfterCall;
    forall env | env in Apply(s, a).value.places ensures Shows(d, env, Apply(s, a).value.places[env]) {
      if env in s.places {
        assert Shows(d, env, s.places[env]);
      }
    }
  }

  /**
   * With a slot free, the `attach` of a retry moves the directory into a slot, and hands it
   * out if it is healthy, exactly when the environment is in the persistent root. A stranded
   * one is not found, and its workspace keeps a slot.
   */
  lemma RetryAttachesExactly(s: Task, env: EnvId, d: Depot, ticket: nat)
    requires Mirrors(s, d) && d.pool != [] && ticket !in d.operations
    requires env in s.places && (s.places[env].Persistent? || s.places[env].Stranded?)
    ensures SlotPool.Enabled(d, SlotPool.StartAttach(ticket, env, true))
    ensures var m := SlotPool.Apply(d, SlotPool.StartAttach(ticket, env, true));
      && (SlotPool.Enabled(m, SlotPool.FinishAttach(ticket, true)) <==> s.places[env].Persistent?)
      && (s.places[env].Persistent? ==>
            var e := SlotPool.Apply(m, SlotPool.FinishAttach(ticket, true));
            env in e.live && SlotPool.Root(e, e.live[env]) == {env})
      && (s.places[env].Stranded? ==> env in m.live && m.live[env] !in m.pool)
  {
    hide SlotPool.Apply, SlotPool.PlacesOk, SlotPool.SlotsOk, SlotPool.TicketsOk;
    assert Shows(d, env, s.places[env]);
    WarmProvider.StartOfAttach(d, ticket, env, true);
    var m := SlotPool.Apply(d, SlotPool.StartAttach(ticket, env, true));
    if s.places[env].Persistent? {
      WarmProvider.EndOfAttach(m, ticket, true);
    } else {
      assert SlotPool.Busy(d, d.live[env], env);
      assert SlotPool.Busy(m, m.live[env], env);
    }
  }
}
