/**
 * Warm slots and where environment directories live
 * (src/minion/runtime/workspace.py, `DockerEnvironmentProvider`).
 *
 * Each step is what runs between two awaits of `allocate`, `attach` or `release`; steps of
 * different calls interleave freely. Moves are atomic and removals effective.
 */
module SlotPool {
  import opened Prelude

  type Slot = nat
  type Env = nat
  type Ticket = nat

  /** A call that holds a slot across an await. */
  datatype Operation =
    | Populating(slot: Slot, env: Env)
    | Checking(slot: Slot, env: Env)

  datatype Depot = Depot(
    slots: set<Slot>,
    pool: seq<Slot>,
    /** Environment directories under each slot's host root. */
    roots: map<Slot, set<Env>>,
    /** Environment directories under the persistent workspace root. */
    persistent: set<Env>,
    operations: map<Ticket, Operation>,
    /** Workspaces in the hands of callers. */
    live: map<Env, Slot>,
    /** Environment identifiers ever used. */
    known: set<Env>,
    /** Environments whose persistent directory a release has removed as an existing target. */
    clobbered: set<Env>)

  datatype Step =
    /** `allocate` up to the first await after the claim. */
    | StartAllocate(ticket: Ticket, env: Env)
    | FinishAllocate(ticket: Ticket, populated: bool)
    /** `attach` from the claim on; the move may raise. */
    | StartAttach(ticket: Ticket, env: Env, moves: bool)
    | FinishAttach(ticket: Ticket, healthy: bool)
    | Release(env: Env, destroy: bool)

  function Drop<K, V>(m: map<K, V>, k: K): map<K, V> {
    map x | x in m && x != k :: m[x]
  }

  predicate Enabled(d: Depot, step: Step) {
    match step
    case StartAllocate(t, env) => d.pool != [] && t !in d.operations && env !in d.known
    case FinishAllocate(t, _) => t in d.operations && d.operations[t].Populating?
    case StartAttach(t, env, _) => d.pool != [] && t !in d.operations && env in d.known
    case FinishAttach(t, _) => t in d.operations && d.operations[t].Checking?
    case Release(env, _) => env in d.live
  }

  function Root(d: Depot, s: Slot): set<Env> {
    if s in d.roots then d.roots[s] else {}
  }

  function WithRoot(d: Depot, s: Slot, envs: set<Env>): Depot {
    d.(roots := d.roots[s := envs])
  }

  function Put(d: Depot, s: Slot): Depot {
    d.(pool := d.pool + [s])
  }

  /** `shutil.move(target, persistent)`. */
  function MovedOut(d: Depot, s: Slot, env: Env): Depot {
    WithRoot(d, s, Root(d, s) - {env}).(persistent := d.persistent + {env})
  }

  /** The exception handler of `attach`. */
  function Undone(d: Depot, s: Slot, env: Env): Depot {
    if env in Root(d, s) && env !in d.persistent then MovedOut(d, s, env) else d
  }

  /** `release` of a live workspace. */
  function Released(d: Depot, s: Slot, env: Env, destroy: bool): Depot {
    if destroy then WithRoot(d, s, Root(d, s) - {env})
    else
      var cleared := if env in d.persistent
        then d.(persistent := d.persistent - {env}, clobbered := d.clobbered + {env}) else d;
      if env in Root(d, s) then MovedOut(cleared, s, env) else cleared
  }

  function Apply(d: Depot, step: Step): Depot
    requires Enabled(d, step)
  {
    match step
    case StartAllocate(t, env) =>
      var s := d.pool[0];
      WithRoot(d, s, Root(d, s) + {env}).(
        pool := d.pool[1..], operations := d.operations[t := Populating(s, env)], known := d.known + {env})
    case FinishAllocate(t, populated) =>
      var op := d.operations[t];
      var e := d.(operations := Drop(d.operations, t));
      if populated then e.(live := e.live[op.env := op.slot])
      else Put(WithRoot(e, op.slot, Root(e, op.slot) - {op.env}), op.slot)
    case StartAttach(t, env, moves) =>
      var s := d.pool[0];
      var e := d.(pool := d.pool[1..]);
      if moves && env in e.persistent then
        WithRoot(e, s, Root(e, s) + {env}).(
          persistent := e.persistent - {env}, operations := e.operations[t := Checking(s, env)])
      else Put(Undone(e, s, env), s)
    case FinishAttach(t, healthy) =>
      var op := d.operations[t];
      var e := d.(operations := Drop(d.operations, t));
      if healthy then e.(live := e.live[op.env := op.slot])
      else Put(Undone(e, op.slot, op.env), op.slot)
    case Release(env, destroy) =>
      var s := d.live[env];
      Put(Released(d, s, env, destroy).(live := Drop(d.live, env)), s)
  }

  /** A prepared pool: every slot waiting and empty; environments of earlier runs on disk. */
  ghost predicate Prepared(d: Depot) {
    && (forall i, j :: 0 <= i < j < |d.pool| ==> d.pool[i] != d.pool[j])
    && (forall s :: s in d.slots <==> s in d.pool)
    && (forall s :: s in d.slots ==> Root(d, s) == {})
    && (forall s :: s in d.roots ==> s in d.slots)
    && d.operations == map[] && d.live == map[]
    && d.persistent <= d.known && d.clobbered == {}
  }

  ghost predicate Follows(d: Depot, step: Step, e: Depot) {
    Enabled(d, step) && e == Apply(d, step)
  }

  ghost predicate IsRun(run: seq<Depot>, steps: seq<Step>) {
    && |run| == |steps| + 1
    && Prepared(run[0])
    && forall i, j :: 0 <= i < j < |run| && j == i + 1 ==> Follows(run[i], steps[i], run[j])
  }

  // ---- The invariant ----

  /** Slot s is in the hands of an operation or a caller, with exactly this environment. */
  ghost predicate Busy(d: Depot, s: Slot, env: Env) {
    && s in d.slots && s !in d.pool
    && Root(d, s) == {env}
    && env in d.known && env !in d.persistent
  }

  predicate OperationHolds(d: Depot, t: Ticket, s: Slot) {
    t in d.operations && d.operations[t].slot == s
  }

  predicate CallerHolds(d: Depot, env: Env, s: Slot) {
    env in d.live && d.live[env] == s
  }

  /** No slot is forgotten. */
  ghost predicate Accounted(d: Depot, s: Slot) {
    s in d.pool || (exists t :: OperationHolds(d, t, s)) || (exists env :: CallerHolds(d, env, s))
  }

  /** Environments of different slots differ, and none is persistent as well. */
  ghost predicate Apart(d: Depot, s: Slot, t: Slot) {
    s != t ==> Root(d, s) !! Root(d, t)
  }

  ghost predicate Placed(d: Depot, s: Slot) {
    Root(d, s) <= d.known && Root(d, s) !! d.persistent
  }

  ghost predicate PoolOk(d: Depot) {
    && (forall i, j :: 0 <= i < j < |d.pool| ==> d.pool[i] != d.pool[j])
    && (forall s :: s in d.pool ==> s in d.slots && Root(d, s) == {})
  }

  ghost predicate HoldersOk(d: Depot) {
    && (forall t :: t in d.operations ==> Busy(d, d.operations[t].slot, d.operations[t].env))
    && (forall env :: env in d.live ==> Busy(d, d.live[env], env))
    && (forall t :: t in d.operations ==> d.operations[t].env !in d.live)
  }

  ghost predicate TicketsOk(d: Depot) {
    forall t, u :: t in d.operations && u in d.operations && t != u ==> d.operations[t].slot != d.operations[u].slot
  }

  ghost predicate PlacesOk(d: Depot) {
    && (forall s, t :: s in d.slots && t in d.slots ==> Apart(d, s, t))
    && (forall s :: s in d.slots ==> Placed(d, s))
    && d.roots.Keys <= d.slots && d.persistent <= d.known
  }

  ghost predicate SlotsOk(d: Depot) {
    forall s :: s in d.slots ==> Accounted(d, s)
  }

  ghost predicate Sound(d: Depot) {
    PoolOk(d) && HoldersOk(d) && TicketsOk(d) && PlacesOk(d) && SlotsOk(d) && d.clobbered == {}
  }

  lemma PreparedIsSound(d: Depot)
    requires Prepared(d)
    ensures Sound(d)
  {
  }

  // ---- Claiming a slot ----

  /** The head of the pool is taken by an operation that holds the environment in it. */
  ghost predicate Occupies(d: Depot, e: Depot, t: Ticket, op: Operation) {
    && d.pool != [] && op.slot == d.pool[0] && e.pool == d.pool[1..]
    && t !in d.operations && e.operations == d.operations[t := op]
    && e.slots == d.slots && e.live == d.live && e.clobbered == d.clobbered
    && e.roots == d.roots[op.slot := Root(d, op.slot) + {op.env}]
    && e.persistent <= d.persistent && op.env !in e.persistent
    && d.known <= e.known && op.env in e.known
    && forall s :: s in d.slots ==> op.env !in Root(d, s)
  }

  lemma OccupyPool(d: Depot, e: Depot, t: Ticket, op: Operation)
    requires PoolOk(d) && Occupies(d, e, t, op)
    ensures PoolOk(e)
  {
    forall i, j | 0 <= i < j < |e.pool| ensures e.pool[i] != e.pool[j] {
      assert d.pool[i + 1] != d.pool[j + 1];
    }
    forall s | s in e.pool ensures s in e.slots && Root(e, s) == {} {
      var i :| 0 <= i < |e.pool| && e.pool[i] == s;
      assert d.pool[0] != d.pool[i + 1] == s;
    }
  }

  lemma OccupyHolders(d: Depot, e: Depot, t: Ticket, op: Operation)
    requires PoolOk(d) && HoldersOk(d) && TicketsOk(d) && Occupies(d, e, t, op)
    ensures HoldersOk(e) && TicketsOk(e)
  {
    forall s, env | Busy(d, s, env) ensures Busy(e, s, env) && s != op.slot && env != op.env {
    }
    assert op.slot !in e.pool by {
      forall i | 0 <= i < |e.pool| ensures e.pool[i] != op.slot {
        assert d.pool[0] != d.pool[i + 1];
      }
    }
    assert Busy(e, op.slot, op.env);
  }

  lemma OccupyPlaces(d: Depot, e: Depot, t: Ticket, op: Operation)
    requires PoolOk(d) && PlacesOk(d) && Occupies(d, e, t, op)
    ensures PlacesOk(e)
  {
    assert op.slot in d.pool;
    forall s, u | s in e.slots && u in e.slots ensures Apart(e, s, u) {
      assert Apart(d, s, u);
    }
    forall s | s in e.slots ensures Placed(e, s) {
      assert Placed(d, s);
    }
    forall env | env in e.persistent ensures env in e.known {
      assert env in d.persistent;
    }
  }

  lemma OccupySlots(d: Depot, e: Depot, t: Ticket, op: Operation)
    requires SlotsOk(d) && Occupies(d, e, t, op)
    ensures SlotsOk(e)
  {
    forall s | s in e.slots ensures Accounted(e, s) {
      assert Accounted(d, s);
      if s == op.slot {
        assert OperationHolds(e, t, s);
      } else if exists u :: OperationHolds(d, u, s) {
        var u :| OperationHolds(d, u, s);
        assert OperationHolds(e, u, s);
      } else if exists env :: CallerHolds(d, env, s) {
        var env :| CallerHolds(d, env, s);
        assert CallerHolds(e, env, s);
      } else {
        assert s in d.pool[1..];
      }
    }
  }

  lemma OccupyKeeps(d: Depot, e: Depot, t: Ticket, op: Operation)
    requires Sound(d) && Occupies(d, e, t, op)
    ensures Sound(e)
  {
    OccupyPool(d, e, t, op);
    OccupyHolders(d, e, t, op);
    OccupyPlaces(d, e, t, op);
    OccupySlots(d, e, t, op);
    hide PoolOk, HoldersOk, TicketsOk, PlacesOk, SlotsOk;
  }

  // ---- Giving a slot back ----

  /** Slot s returns to the pool, empty; its environment is gone or persistent now. */
  ghost predicate Vacates(d: Depot, e: Depot, s: Slot) {
    && s in d.slots && s !in d.pool && e.pool == d.pool + [s]
    && e.slots == d.slots && e.known == d.known && e.clobbered == d.clobbered
    && e.roots == d.roots[s := {}]
    && d.persistent <= e.persistent <= d.persistent + Root(d, s)
    && (forall t :: t in e.operations <==> t in d.operations && d.operations[t].slot != s)
    && (forall t :: t in e.operations ==> e.operations[t] == d.operations[t])
    && (forall env :: env in e.live <==> env in d.live && d.live[env] != s)
    && (forall env :: env in e.live ==> e.live[env] == d.live[env])
  }

  lemma VacatePool(d: Depot, e: Depot, s: Slot)
    requires PoolOk(d) && Vacates(d, e, s)
    ensures PoolOk(e)
  {
  }

  lemma VacateHolders(d: Depot, e: Depot, s: Slot)
    requires HoldersOk(d) && TicketsOk(d) && PlacesOk(d) && Vacates(d, e, s)
    ensures HoldersOk(e) && TicketsOk(e)
  {
    forall x, env | Busy(d, x, env) && x != s ensures Busy(e, x, env) {
      assert Apart(d, x, s);
    }
  }

  lemma VacatePlaces(d: Depot, e: Depot, s: Slot)
    requires PlacesOk(d) && Vacates(d, e, s)
    ensures PlacesOk(e)
  {
    forall x, y | x in e.slots && y in e.slots ensures Apart(e, x, y) {
      assert Apart(d, x, y);
    }
    assert Placed(d, s);
    forall x | x in e.slots ensures Placed(e, x) {
      assert Placed(d, x) && Apart(d, x, s);
    }
  }

  lemma VacateSlots(d: Depot, e: Depot, s: Slot)
    requires SlotsOk(d) && Vacates(d, e, s)
    ensures SlotsOk(e)
  {
    forall x | x in e.slots ensures Accounted(e, x) {
      assert Accounted(d, x);
      if x == s || x in d.pool {
        assert x in e.pool;
      } else if exists u :: OperationHolds(d, u, x) {
        var u :| OperationHolds(d, u, x);
        assert OperationHolds(e, u, x);
      } else {
        var env :| CallerHolds(d, env, x);
        assert CallerHolds(e, env, x);
      }
    }
  }

  lemma VacateKeeps(d: Depot, e: Depot, s: Slot)
    requires Sound(d) && Vacates(d, e, s)
    ensures Sound(e)
  {
    VacatePool(d, e, s);
    VacateHolders(d, e, s);
    VacatePlaces(d, e, s);
    VacateSlots(d, e, s);
    hide PoolOk, HoldersOk, TicketsOk, PlacesOk, SlotsOk;
  }

  // ---- Handing a workspace over ----

  lemma HandOverKeeps(d: Depot, t: Ticket)
    requires Sound(d) && t in d.operations
    ensures Sound(HandedOver(d, t))
  {
    HandOverHolders(d, t);
    HandOverSlots(d, t);
    HandOverPlaces(d, t);
    HandOverPool(d, t);
    hide PoolOk, HoldersOk, TicketsOk, PlacesOk, SlotsOk;
  }

  lemma HandOverPool(d: Depot, t: Ticket)
    requires PoolOk(d) && t in d.operations
    ensures PoolOk(HandedOver(d, t))
  {
  }

  lemma HandOverPlaces(d: Depot, t: Ticket)
    requires PlacesOk(d) && t in d.operations
    ensures PlacesOk(HandedOver(d, t))
  {
    var e := HandedOver(d, t);
    forall s, u | s in e.slots && u in e.slots ensures Apart(e, s, u) {
      assert Apart(d, s, u);
    }
    forall s | s in e.slots ensures Placed(e, s) {
      assert Placed(d, s);
    }
  }

  /** The operation ends with its workspace in the hands of the caller. */
  function HandedOver(d: Depot, t: Ticket): Depot
    requires t in d.operations
  {
    d.(operations := Drop(d.operations, t), live := d.live[d.operations[t].env := d.operations[t].slot])
  }

  lemma HandOverHolders(d: Depot, t: Ticket)
    requires HoldersOk(d) && TicketsOk(d) && PlacesOk(d) && t in d.operations
    ensures HoldersOk(HandedOver(d, t)) && TicketsOk(HandedOver(d, t))
  {
    var op, e := d.operations[t], HandedOver(d, t);
    forall s, env | Busy(d, s, env) ensures Busy(e, s, env) {
    }
    forall u | u in e.operations ensures e.operations[u].env !in e.live {
      assert Busy(d, d.operations[u].slot, d.operations[u].env) && Busy(d, op.slot, op.env);
      assert Apart(d, d.operations[u].slot, op.slot);
      assert op.env in Root(d, op.slot);
    }
  }

  lemma HandOverSlots(d: Depot, t: Ticket)
    requires SlotsOk(d) && t in d.operations && d.operations[t].env !in d.live
    ensures SlotsOk(HandedOver(d, t))
  {
    var op, e := d.operations[t], HandedOver(d, t);
    forall s | s in e.slots ensures Accounted(e, s) {
      assert Accounted(d, s);
      if s in d.pool {
        assert s in e.pool;
      } else if s == op.slot {
        assert CallerHolds(e, op.env, s);
      } else if exists u :: OperationHolds(d, u, s) {
        var u :| OperationHolds(d, u, s);
        assert OperationHolds(e, u, s);
      } else {
        var env :| CallerHolds(d, env, s);
        assert CallerHolds(e, env, s);
      }
    }
  }

  // ---- Steps ----

  /** A slot of the pool holds nothing, so what is not known or persistent is in no slot. */
  lemma NotInSlots(d: Depot, env: Env)
    requires PlacesOk(d) && (env !in d.known || env in d.persistent)
    ensures forall s :: s in d.slots ==> env !in Root(d, s)
  {
    forall s | s in d.slots ensures env !in Root(d, s) {
      assert Placed(d, s);
    }
  }

  lemma StartAllocateKeeps(d: Depot, t: Ticket, env: Env)
    requires Sound(d) && Enabled(d, StartAllocate(t, env))
    ensures Sound(Apply(d, StartAllocate(t, env)))
  {
    NotInSlots(d, env);
    OccupyKeeps(d, Apply(d, StartAllocate(t, env)), t, Populating(d.pool[0], env));
  }

  lemma StartAttachKeeps(d: Depot, t: Ticket, env: Env, moves: bool)
    requires Sound(d) && Enabled(d, StartAttach(t, env, moves))
    ensures Sound(Apply(d, StartAttach(t, env, moves)))
  {
    if moves && env in d.persistent {
      NotInSlots(d, env);
      OccupyKeeps(d, Apply(d, StartAttach(t, env, moves)), t, Checking(d.pool[0], env));
    } else {
      ReturnedUnused(d);
      RotateKeeps(d);
    }
  }

  /** The claimed slot goes back to the end of the queue untouched. */
  lemma ReturnedUnused(d: Depot)
    requires Sound(d) && d.pool != []
    ensures forall env :: Put(Undone(d.(pool := d.pool[1..]), d.pool[0], env), d.pool[0]) == Rotated(d)
  {
    assert d.pool[0] in d.pool;
  }

  function Rotated(d: Depot): Depot
    requires d.pool != []
  {
    d.(pool := d.pool[1..] + [d.pool[0]])
  }

  lemma RotateKeeps(d: Depot)
    requires Sound(d) && d.pool != []
    ensures Sound(Rotated(d))
  {
    var e := Rotated(d);
    assert forall s :: s in e.pool <==> s in d.pool by {
      assert d.pool == [d.pool[0]] + d.pool[1..];
    }
    RotatePool(d);
    RotateHolders(d, e);
    RotateSlots(d, e);
    RotatePlaces(d, e);
    hide PoolOk, HoldersOk, TicketsOk, PlacesOk, SlotsOk;
  }

  lemma RotatePool(d: Depot)
    requires PoolOk(d) && d.pool != []
    ensures PoolOk(Rotated(d))
  {
    forall s | s in Rotated(d).pool ensures s in d.pool {
    }
  }

  ghost predicate SamePool(d: Depot, e: Depot) {
    e == d.(pool := e.pool) && forall s :: s in e.pool <==> s in d.pool
  }

  lemma RotateHolders(d: Depot, e: Depot)
    requires HoldersOk(d) && TicketsOk(d) && SamePool(d, e)
    ensures HoldersOk(e) && TicketsOk(e)
  {
    forall s, env | Busy(d, s, env) ensures Busy(e, s, env) {
    }
  }

  lemma RotatePlaces(d: Depot, e: Depot)
    requires PlacesOk(d) && SamePool(d, e)
    ensures PlacesOk(e)
  {
    forall s, u | s in e.slots && u in e.slots ensures Apart(e, s, u) {
      assert Apart(d, s, u);
    }
    forall s | s in e.slots ensures Placed(e, s) {
      assert Placed(d, s);
    }
  }

  lemma RotateSlots(d: Depot, e: Depot)
    requires SlotsOk(d) && SamePool(d, e)
    ensures SlotsOk(e)
  {
    forall s | s in e.slots ensures Accounted(e, s) {
      assert Accounted(d, s);
      if exists u :: OperationHolds(d, u, s) {
        var u :| OperationHolds(d, u, s);
        assert OperationHolds(e, u, s);
      } else if exists env :: CallerHolds(d, env, s) {
        var env :| CallerHolds(d, env, s);
        assert CallerHolds(e, env, s);
      }
    }
  }

  /** An operation that ends without a workspace vacates its slot. */
  lemma AbandonKeeps(d: Depot, e: Depot, t: Ticket)
    requires Sound(d) && t in d.operations
    requires var op := d.operations[t];
      && e.slots == d.slots && e.known == d.known && e.clobbered == d.clobbered && e.live == d.live
      && e.pool == d.pool + [op.slot] && e.operations == Drop(d.operations, t)
      && e.roots == d.roots[op.slot := Root(d, op.slot) - {op.env}]
      && d.persistent <= e.persistent <= d.persistent + {op.env}
    ensures Sound(e)
  {
    var op := d.operations[t];
    assert Busy(d, op.slot, op.env);
    assert Root(d, op.slot) - {op.env} == {};
    forall env | env in d.live ensures d.live[env] != op.slot {
      assert Busy(d, d.live[env], env);
    }
    VacateKeeps(d, e, op.slot);
  }

  lemma FinishKeeps(d: Depot, t: Ticket)
    requires Sound(d)
    ensures forall ok :: Enabled(d, FinishAllocate(t, ok)) ==> Sound(Apply(d, FinishAllocate(t, ok)))
    ensures forall ok :: Enabled(d, FinishAttach(t, ok)) ==> Sound(Apply(d, FinishAttach(t, ok)))
  {
    hide PoolOk, TicketsOk, PlacesOk, SlotsOk;
    if t in d.operations {
      assert Busy(d, d.operations[t].slot, d.operations[t].env);
      HandOverKeeps(d, t);
      if d.operations[t].Populating? {
        AbandonKeeps(d, Apply(d, FinishAllocate(t, false)), t);
      } else {
        AbandonKeeps(d, Apply(d, FinishAttach(t, false)), t);
      }
    }
  }

  lemma ReleaseKeeps(d: Depot, env: Env, destroy: bool)
    requires Sound(d) && Enabled(d, Release(env, destroy))
    ensures Sound(Apply(d, Release(env, destroy)))
  {
    hide PoolOk, TicketsOk, SlotsOk;
    var s := d.live[env];
    assert Busy(d, s, env);
    forall t | t in d.operations ensures d.operations[t].slot != s {
      assert Busy(d, d.operations[t].slot, d.operations[t].env);
    }
    forall f | f in d.live && d.live[f] == s ensures f == env {
      assert Busy(d, d.live[f], f);
    }
    assert Root(d, s) - {env} == {};
    VacateKeeps(d, Apply(d, Release(env, destroy)), s);
  }

  lemma StepKeepsSound(d: Depot, step: Step)
    requires Sound(d) && Enabled(d, step)
    ensures Sound(Apply(d, step))
  {
    hide Sound, Apply;
    match step {
      case StartAllocate(t, env) => StartAllocateKeeps(d, t, env);
      case FinishAllocate(t, populated) => FinishKeeps(d, t);
      case StartAttach(t, env, moves) => StartAttachKeeps(d, t, env, moves);
      case FinishAttach(t, healthy) => FinishKeeps(d, t);
      case Release(env, destroy) => ReleaseKeeps(d, env, destroy);
    }
  }

  lemma {:induction false} RunIsSound(run: seq<Depot>, steps: seq<Step>, i: nat)
    requires IsRun(run, steps) && i < |run|
    ensures Sound(run[i])
  {
    hide Sound, Apply, Enabled;
    if i == 0 {
      PreparedIsSound(run[0]);
    } else {
      RunIsSound(run, steps, i - 1);
      assert Follows(run[i - 1], steps[i - 1], run[i]);
      StepKeepsSound(run[i - 1], steps[i - 1]);
    }
  }

  // ---- What it means ----

  ghost predicate Held(d: Depot, s: Slot) {
    (exists t :: OperationHolds(d, t, s)) || (exists env :: CallerHolds(d, env, s))
  }

  ghost predicate OneHolder(d: Depot, s: Slot) {
    && (forall t, u :: OperationHolds(d, t, s) && OperationHolds(d, u, s) ==> t == u)
    && (forall e, f :: CallerHolds(d, e, s) && CallerHolds(d, f, s) ==> e == f)
    && (forall t, e :: OperationHolds(d, t, s) ==> !CallerHolds(d, e, s))
  }

  /**
   * Over all interleavings, successes, failures and cancellations: every slot is in exactly
   * one of the pool, one operation or one live workspace, once, and a pooled slot is empty.
   */
  lemma SlotsAreConserved(run: seq<Depot>, steps: seq<Step>, i: nat)
    requires IsRun(run, steps) && i < |run|
    ensures var d := run[i];
      && (forall j, k :: 0 <= j < k < |d.pool| ==> d.pool[j] != d.pool[k])
      && (forall s :: s in d.slots ==> (s in d.pool <==> !Held(d, s)) && OneHolder(d, s))
      && (forall s :: s in d.pool ==> s in d.slots && Root(d, s) == {})
  {
    RunIsSound(run, steps, i);
    hide IsRun;
    forall s | s in run[i].slots ensures (s in run[i].pool <==> !Held(run[i], s)) && OneHolder(run[i], s) {
      HeldOrPooled(run[i], s);
    }
  }

  lemma HeldOrPooled(d: Depot, s: Slot)
    requires Sound(d) && s in d.slots
    ensures (s in d.pool <==> !Held(d, s)) && OneHolder(d, s)
  {
    assert Accounted(d, s);
    forall t | OperationHolds(d, t, s) ensures Busy(d, s, d.operations[t].env) {
    }
    forall env | CallerHolds(d, env, s) ensures Busy(d, s, env) {
    }
  }

  predicate At(d: Depot, env: Env, s: Slot) {
    s in d.slots && env in Root(d, s)
  }

  /**
   * An environment directory is in at most one place, so keeping a workspace never removes
   * an existing target.
   */
  lemma OnePlaceAtATime(run: seq<Depot>, steps: seq<Step>, i: nat)
    requires IsRun(run, steps) && i < |run|
    ensures var d := run[i];
      && (forall env, s, t :: At(d, env, s) && At(d, env, t) ==> s == t)
      && (forall env, s :: At(d, env, s) ==> env !in d.persistent)
      && d.clobbered == {}
  {
    RunIsSound(run, steps, i);
    hide IsRun;
    var d := run[i];
    forall env, s, t | At(d, env, s) && At(d, env, t) ensures s == t {
      assert Apart(d, s, t);
    }
    forall env, s | At(d, env, s) ensures env !in d.persistent {
      assert Placed(d, s);
    }
  }

  ghost predicate Exists(d: Depot, env: Env) {
    env in d.persistent || exists s :: At(d, env, s)
  }

  /** Steps that are meant to remove an environment. */
  predicate Discards(d: Depot, step: Step, env: Env) {
    || step == Release(env, true)
    || (step.FinishAllocate? && !step.populated && step.ticket in d.operations && d.operations[step.ticket].env == env)
  }

  /** An environment on disk disappears exactly when it is destroyed or its population fails. */
  lemma OnlyDiscardedIsLost(d: Depot, step: Step, env: Env)
    requires Sound(d) && Enabled(d, step) && Exists(d, env)
    ensures Exists(Apply(d, step), env) <==> !Discards(d, step, env)
  {
    hide SlotsOk, TicketsOk;
    var e := Apply(d, step);
    if env in d.persistent {
      NotInSlots(d, env);
      PersistentStays(d, step, env);
    } else {
      var s :| At(d, env, s);
      SlottedStays(d, step, env, s);
    }
  }

  lemma PersistentStays(d: Depot, step: Step, env: Env)
    requires Sound(d) && Enabled(d, step) && env in d.persistent
    requires forall s :: s in d.slots ==> env !in Root(d, s)
    ensures Exists(Apply(d, step), env) && !Discards(d, step, env)
  {
    hide SlotsOk, TicketsOk;
    var e := Apply(d, step);
    if step.StartAttach? && step.env == env && step.moves {
      assert d.pool[0] in d.pool;
      assert At(e, env, d.pool[0]);
    } else if step.Release? {
      assert Busy(d, d.live[step.env], step.env);
    } else if step.FinishAllocate? || step.FinishAttach? {
      assert Busy(d, d.operations[step.ticket].slot, d.operations[step.ticket].env);
    }
  }

  /** Where an environment that sits in a slot is after a step. */
  lemma SlottedStays(d: Depot, step: Step, env: Env, s: Slot)
    requires Sound(d) && Enabled(d, step) && At(d, env, s)
    ensures Exists(Apply(d, step), env) <==> !Discards(d, step, env)
  {
    hide SlotsOk, TicketsOk;
    var e := Apply(d, step);
    assert Placed(d, s);
    forall u | u in d.slots && u != s ensures env !in Root(d, u) {
      assert Apart(d, u, s);
    }
    if step.Release? {
      assert Busy(d, d.live[step.env], step.env);
      if step.env != env { assert At(e, env, s); }
    } else if step.FinishAllocate? || step.FinishAttach? {
      assert Busy(d, d.operations[step.ticket].slot, d.operations[step.ticket].env);
      if d.operations[step.ticket].env != env || (step.FinishAllocate? && step.populated) || (step.FinishAttach? && step.healthy) {
        assert At(e, env, s);
      }
    } else {
      assert At(e, env, s);
    }
  }

  /**
   * Keep, then attach: after a release that keeps the directory, a later attach whose move
   * and health check succeed gives the caller the same environment in a slot of its own.
   */
  lemma KeptIsAttachable(d: Depot, env: Env, t: Ticket)
    requires Sound(d) && env in d.live && t !in d.operations
    ensures var kept := Apply(d, Release(env, false));
      && env in kept.persistent && Enabled(kept, StartAttach(t, env, true))
      && var checking := Apply(kept, StartAttach(t, env, true));
      && env !in checking.persistent && Enabled(checking, FinishAttach(t, true))
      && var again := Apply(checking, FinishAttach(t, true));
      && env in again.live && again.live[env] == kept.pool[0] && Root(again, kept.pool[0]) == {env}
  {
    hide SlotsOk, TicketsOk;
    var s := d.live[env];
    assert Busy(d, s, env);
    ReleaseKeeps(d, env, false);
    var kept := Apply(d, Release(env, false));
    assert kept.pool[0] in kept.pool;
    assert Root(kept, kept.pool[0]) == {};
  }
}
