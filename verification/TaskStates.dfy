/** The authoritative task-state transition table (src/minion/state_machine.py). */
module TaskStates {

  datatype Status =
    | Created
    | Queued
    | Provisioning
    | Running
    | WaitingForUser
    | Cancelling
    | Cancelled
    | Failed
    | Completed

  function Allowed(current: Status): set<Status> {
    match current
    case Created => {Queued, Cancelled}
    case Queued => {Provisioning, Cancelling, Failed}
    case Provisioning => {Running, Cancelling, Failed}
    case Running => {WaitingForUser, Cancelling, Completed, Failed}
    case WaitingForUser => {Running, Cancelling, Failed}
    case Cancelling => {Cancelled, Failed}
    case Cancelled => {}
    case Failed => {Queued}
    case Completed => {}
  }

  /** `validate_transition` returns (rather than raises) exactly here; self-transitions pass. */
  predicate CanTransition(current: Status, target: Status) {
    target == current || target in Allowed(current)
  }

  /** Statuses that end an execution attempt. */
  predicate Terminal(s: Status) {
    s.Completed? || s.Cancelled? || s.Failed?
  }

  /** Statuses no legal transition leaves. */
  predicate Absorbing(s: Status) {
    s.Completed? || s.Cancelled?
  }

  /** Statuses in which somebody still owes the task an execution. */
  predicate Active(s: Status) {
    s.Queued? || s.Provisioning? || s.Running?
  }

  /** The statuses from which another one can be entered. */
  function EnteredFrom(target: Status): set<Status> {
    match target
    case Created => {}
    case Queued => {Created, Failed}
    case Provisioning => {Queued}
    case Running => {Provisioning, WaitingForUser}
    case WaitingForUser => {Running}
    case Cancelling => {Queued, Provisioning, Running, WaitingForUser}
    case Cancelled => {Created, Cancelling}
    case Failed => {Queued, Provisioning, Running, WaitingForUser, Cancelling}
    case Completed => {Running}
  }

  /** The table read backwards: a transition is allowed exactly from the statuses its target is entered from. */
  lemma TableReadBackwards(current: Status, target: Status)
    ensures CanTransition(current, target) <==> target == current || current in EnteredFrom(target)
  {
  }

  /** No way leads out of an absorbing status, and only the retry out of any other terminal one. */
  lemma AbsorbingHasNoWayOut(status: Status)
    ensures Absorbing(status) <==> forall target :: CanTransition(status, target) ==> target == status
    ensures Terminal(status) <==> forall target :: CanTransition(status, target) ==> target == status || (status == Failed && target == Queued)
  {
    assert CanTransition(Created, Cancelled) && CanTransition(Queued, Failed) && CanTransition(Provisioning, Failed);
    assert CanTransition(Running, Failed) && CanTransition(WaitingForUser, Failed) && CanTransition(Cancelling, Failed);
    assert CanTransition(Failed, Queued);
  }

  /** A list of committed statuses that starts at CREATED and moves only by legal steps. */
  ghost predicate IsPath(history: seq<Status>) {
    && |history| > 0
    && history[0] == Created
    && forall i, j :: 0 <= i < j < |history| && j == i + 1 ==> CanTransition(history[i], history[j])
  }

  /** Once a path visits COMPLETED or CANCELLED it stays there. */
  lemma {:induction false} AbsorbingStays(history: seq<Status>, i: nat, j: nat)
    requires IsPath(history) && i <= j < |history| && Absorbing(history[i])
    ensures history[j] == history[i]
    decreases j
  {
    if i < j {
      AbsorbingStays(history, i, j - 1);
      assert CanTransition(history[j - 1], history[j]);
    }
  }

  /** FAILED is left only towards QUEUED. */
  lemma FailedIsLeftByRetry(history: seq<Status>, i: nat)
    requires IsPath(history) && i + 1 < |history| && history[i] == Failed
    ensures history[i + 1] == Failed || history[i + 1] == Queued
  {
    assert CanTransition(history[i], history[i + 1]);
  }

  /** Nothing ever returns to CREATED. */
  lemma {:induction false} PathNeverRestarts(history: seq<Status>, i: nat, j: nat)
    requires IsPath(history) && i <= j < |history| && history[i] != Created
    ensures history[j] != Created
    decreases j
  {
    if i < j {
      PathNeverRestarts(history, i, j - 1);
      assert CanTransition(history[j - 1], history[j]);
    }
  }

  ghost predicate Visited(history: seq<Status>, i: nat, status: Status)
    requires i < |history|
  {
    exists j :: 0 <= j <= i && history[j] == status
  }

  /** A path comes to COMPLETED only through QUEUED, PROVISIONING and RUNNING. */
  lemma {:induction false} CompletedWentThrough(history: seq<Status>, i: nat)
    requires IsPath(history) && i < |history|
    ensures history[i] in {Provisioning, Running, WaitingForUser, Completed} ==> Visited(history, i, Queued)
    ensures history[i] in {Running, WaitingForUser, Completed} ==> Visited(history, i, Provisioning)
    ensures history[i] == Completed ==> Visited(history, i, Running)
  {
    if i > 0 {
      CompletedWentThrough(history, i - 1);
      assert CanTransition(history[i - 1], history[i]);
      forall status | Visited(history, i - 1, status) ensures Visited(history, i, status) {
      }
      assert Visited(history, i, history[i - 1]);
    }
  }

  lemma ExtendPath(history: seq<Status>, next: Status)
    requires IsPath(history) && CanTransition(history[|history| - 1], next)
    ensures IsPath(history + [next])
  {
    var longer := history + [next];
    forall i, j | 0 <= i < j < |longer| && j == i + 1
      ensures CanTransition(longer[i], longer[j])
    {
      if j < |history| {
        assert CanTransition(history[i], history[j]);
      }
    }
  }
}
