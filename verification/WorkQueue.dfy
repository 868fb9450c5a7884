/** The at-least-once stream of work items (src/minion/queue.py). */
module WorkQueue {
  import opened Prelude

  type EntryId = nat
  type TaskId = nat

  /** An acknowledged entry is deleted, so it is in neither state. */
  datatype Delivery = Unread | Pending

  datatype Item = Item(task: TaskId, delivery: Delivery)

  /** Entries still in the stream or its pending list; identifiers are never reused. */
  datatype Stream = Stream(next: EntryId, entries: map<EntryId, Item>)

  const EMPTY := Stream(0, map[])

  ghost predicate Fresh(q: Stream) {
    forall en :: en in q.entries ==> en < q.next
  }

  function Put(q: Stream, task: TaskId): Stream {
    Stream(q.next + 1, q.entries[q.next := Item(task, Unread)])
  }

  /** XREADGROUP of an unread entry, or XAUTOCLAIM of a pending one that has idled long enough. */
  function Deliver(q: Stream, en: EntryId): Stream
    requires en in q.entries
  {
    q.(entries := q.entries[en := q.entries[en].(delivery := Pending)])
  }

  /** XACK and XDEL; acknowledging a deleted entry changes nothing. */
  function Ack(q: Stream, en: EntryId): Stream {
    q.(entries := q.entries - {en})
  }

  class RedisStreamWorkQueue {
    var stream: Stream

    ghost predicate Valid()
      reads this
    {
      Fresh(stream)
    }

    constructor ()
      ensures Valid() && stream == EMPTY
    {
      stream := EMPTY;
    }

    method PutTask(task: TaskId) returns (receipt: EntryId)
      requires Valid()
      modifies this
      ensures Valid() && stream == Put(old(stream), task)
      ensures receipt !in old(stream).entries && forall en :: en in old(stream).entries ==> en < receipt
      ensures stream.entries == old(stream).entries[receipt := Item(task, Unread)]
    {
      receipt := stream.next;
      stream := Put(stream, task);
    }

    /**
     * `get`: stale pending entries first, then new ones. `stale` is the set of pending
     * entries whose idle time has reached the visibility timeout; the first of them in
     * stream order is claimed.
     */
    method Get(stale: set<EntryId>) returns (r: Option<(EntryId, TaskId)>)
      requires Valid()
      requires forall en :: en in stale ==> en in stream.entries && stream.entries[en].delivery.Pending?
      modifies this
      ensures Valid()
      ensures r.None? ==>
        stream == old(stream) && stale == {} && forall en :: en in stream.entries ==> !stream.entries[en].delivery.Unread?
      ensures r.Some? ==> var (en, task) := r.value;
        && en in old(stream).entries && task == old(stream).entries[en].task
        && stream == Deliver(old(stream), en)
        && stream.entries == old(stream).entries[en := Item(task, Pending)] && stream.next == old(stream).next
        && (stale != {} ==> en in stale && forall other :: other in stale ==> en <= other)
        && (stale == {} ==>
              && old(stream).entries[en].delivery.Unread?
              && forall other :: other in old(stream).entries && old(stream).entries[other].delivery.Unread? ==> en <= other)
    {
      var unread := set en | en in stream.entries && stream.entries[en].delivery.Unread?;
      var pick := if stale != {} then stale else unread;
      if pick == {} {
        return None;
      }
      var en := Least(pick);
      var task := stream.entries[en].task;
      assert stale == {} ==>
        forall other :: other in stream.entries && stream.entries[other].delivery.Unread? ==> other in unread;
      stream := Deliver(stream, en);
      return Some((en, task));
    }

    method AckEntry(receipt: EntryId)
      requires Valid()
      modifies this
      ensures Valid() && stream == Ack(old(stream), receipt)
      ensures receipt !in stream.entries && stream.next == old(stream).next
      ensures forall en :: en in stream.entries <==> en in old(stream).entries && en != receipt
      ensures forall en :: en in stream.entries ==> stream.entries[en] == old(stream).entries[en]
      ensures receipt !in old(stream).entries ==> stream == old(stream)
    {
      stream := Ack(stream, receipt);
    }
  }

  method Least(s: set<EntryId>) returns (m: EntryId)
    requires s != {}
    ensures m in s && forall x :: x in s ==> m <= x
  {
    m :| m in s;
    var rest := s - {m};
    while rest != {}
      invariant rest <= s && m in s
      invariant forall x :: x in s && x !in rest ==> m <= x
      decreases rest
    {
      var x :| x in rest;
      rest := rest - {x};
      if x < m {
        m := x;
      }
    }
  }
}
