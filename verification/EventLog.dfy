/**
 * The append-only event log of one task (src/minion/events.py, `EventStore`).
 *
 * `append` reads `last_event_sequence`, inserts a row numbered one higher and writes the
 * counter back. The row lock may not be honoured by the database, so the read and the
 * commit are separate steps here and only the unique (task, sequence) index arbitrates.
 */
module EventLog {
  import opened Prelude
  import opened Events

  /** A row of the events table. */
  datatype Stored = Stored(sequence: int, event: Event)

  type Rows = map<int, Event>

  // ---- Appends as a transition system ----

  type Writer = nat

  /** An append between its read and its commit. */
  datatype Pending = Pending(sequence: int, event: Event)

  datatype Store = Store(rows: Rows, last: int, pending: map<Writer, Pending>)

  datatype Step =
    | Read(writer: Writer, event: Event)
    | Commit(writer: Writer)
    /** A lost connection, a cancellation or a crash before the commit. */
    | Abort(writer: Writer)

  const EMPTY := Store(map[], 0, map[])

  predicate Enabled(s: Store, step: Step) {
    if step.Read? then step.writer !in s.pending else step.writer in s.pending
  }

  function Without(pending: map<Writer, Pending>, w: Writer): map<Writer, Pending> {
    map v | v in pending && v != w :: pending[v]
  }

  /** The unique index rejects the row, and with it the whole transaction. */
  predicate Rejected(s: Store, w: Writer)
    requires w in s.pending
  {
    s.pending[w].sequence in s.rows
  }

  function Apply(s: Store, step: Step): Store
    requires Enabled(s, step)
  {
    match step
    case Read(w, e) => s.(pending := s.pending[w := Pending(s.last + 1, e)])
    case Abort(w) => s.(pending := Without(s.pending, w))
    case Commit(w) =>
      if Rejected(s, w) then s.(pending := Without(s.pending, w))
      else
        var p := s.pending[w];
        Store(s.rows[p.sequence := p.event], p.sequence, Without(s.pending, w))
  }

  ghost predicate IsRun(run: seq<Store>, steps: seq<Step>) {
    && |run| == |steps| + 1
    && run[0] == EMPTY
    && forall i, j :: 0 <= i < j < |run| && j == i + 1 ==> Follows(run[i], steps[i], run[j])
  }

  ghost predicate Follows(s: Store, step: Step, t: Store) {
    Enabled(s, step) && t == Apply(s, step)
  }

  // ---- Gap freedom and linearizability ----

  /** Committed sequences are exactly 1..last. */
  ghost predicate GapFree(rows: Rows, last: int) {
    && 0 <= last
    && forall n :: n in rows <==> 1 <= n <= last
  }

  ghost predicate Sound(s: Store) {
    && GapFree(s.rows, s.last)
    && forall w :: w in s.pending ==> 1 <= s.pending[w].sequence <= s.last + 1
  }

  /** The events in sequence order: what the log is, leaving the row numbers out. */
  function Contents(rows: Rows, last: int): (log: seq<Event>)
    requires GapFree(rows, last)
    ensures |log| == last
  {
    seq(last, i requires 0 <= i < last => rows[i + 1])
  }

  lemma StepIsSound(s: Store, step: Step)
    requires Sound(s) && Enabled(s, step)
    ensures Sound(Apply(s, step))
  {
  }

  /**
   * A step appends one event at the end of the log or leaves the log alone; it appends
   * exactly when it is the commit of an append whose read is still up to date.
   */
  lemma StepAppends(s: Store, step: Step)
    requires Sound(s) && Enabled(s, step)
    ensures Sound(Apply(s, step))
    ensures Contents(Apply(s, step).rows, Apply(s, step).last) ==
      Contents(s.rows, s.last) +
      if step.Commit? && s.pending[step.writer].sequence == s.last + 1 then [s.pending[step.writer].event] else []
  {
    StepIsSound(s, step);
  }

  lemma {:induction false} RunIsSound(run: seq<Store>, steps: seq<Step>, i: nat)
    requires IsRun(run, steps) && i < |run|
    ensures Sound(run[i])
  {
    hide Sound, Apply, Enabled;
    if i == 0 {
      EmptyIsSound();
    } else {
      RunIsSound(run, steps, i - 1);
      assert Follows(run[i - 1], steps[i - 1], run[i]);
      StepIsSound(run[i - 1], steps[i - 1]);
    }
  }

  lemma EmptyIsSound()
    ensures Sound(EMPTY)
  {
  }

  /** In every reachable state the committed sequences are exactly 1..last. */
  lemma AlwaysGapFree(run: seq<Store>, steps: seq<Step>)
    requires IsRun(run, steps)
    ensures forall i :: 0 <= i < |run| ==> GapFree(run[i].rows, run[i].last)
  {
    forall i | 0 <= i < |run| ensures GapFree(run[i].rows, run[i].last) {
      RunIsSound(run, steps, i);
    }
  }

  /** The commit that step `i` of the run performs, if any. */
  predicate Appends(s: Store, step: Step) {
    step.Commit? && step.writer in s.pending && s.pending[step.writer].sequence == s.last + 1
  }

  /** Events of the successful commits of a run, in commit order. */
  function Committed(run: seq<Store>, steps: seq<Step>): seq<Event>
    requires |run| == |steps| + 1
  {
    if steps == [] then []
    else
      var n := |steps| - 1;
      Committed(run[..n + 1], steps[..n]) +
      if Appends(run[n], steps[n]) then [run[n].pending[steps[n].writer].event] else []
  }

  /**
   * Whatever the interleaving of reads, commits, rejections and crashes, the log is the
   * list of the successfully committed events in the order of their commits.
   */
  lemma {:induction false} AppendsAreLinearizable(run: seq<Store>, steps: seq<Step>)
    requires IsRun(run, steps)
    ensures Sound(run[|steps|])
    ensures Contents(run[|steps|].rows, run[|steps|].last) == Committed(run, steps)
  {
    hide Sound, Apply, Enabled, Contents;
    if steps == [] {
      EmptyIsSound();
      assert Contents(run[0].rows, run[0].last) == [] by { SoundIsGapFree(run[0]); }
    } else {
      var n := |steps| - 1;
      PrefixOfRun(run, steps);
      AppendsAreLinearizable(run[..n + 1], steps[..n]);
      assert Follows(run[n], steps[n], run[n + 1]);
      FollowsAppends(run[n], steps[n], run[n + 1]);
    }
  }

  lemma SoundIsGapFree(s: Store)
    requires Sound(s)
    ensures GapFree(s.rows, s.last)
  {
  }

  lemma PrefixOfRun(run: seq<Store>, steps: seq<Step>)
    requires IsRun(run, steps) && steps != []
    ensures IsRun(run[..|steps|], steps[..|steps| - 1])
  {
    hide Follows;
    var r, s := run[..|steps|], steps[..|steps| - 1];
    forall i, j | 0 <= i < j < |r| && j == i + 1 ensures Follows(r[i], s[i], r[j]) {
      assert Follows(run[i], steps[i], run[j]);
    }
  }

  lemma FollowsAppends(s: Store, step: Step, t: Store)
    requires Sound(s) && Follows(s, step, t)
    ensures Sound(t)
    ensures Contents(t.rows, t.last) ==
      Contents(s.rows, s.last) + if Appends(s, step) then [s.pending[step.writer].event] else []
  {
    StepAppends(s, step);
  }

  // ---- Queries ----

  /** `where sequence > after order by sequence limit n`, over any table. */
  ghost predicate Answers(rows: Rows, after: int, limit: nat, page: seq<Stored>) {
    && |page| <= limit
    && (forall i :: 0 <= i < |page| ==>
          page[i].sequence in rows && after < page[i].sequence && page[i].event == rows[page[i].sequence])
    && (forall i, j :: 0 <= i < j < |page| ==> page[i].sequence < page[j].sequence)
    && (forall n :: n in rows && after < n && !Listed(page, n) ==>
          |page| == limit && forall i :: 0 <= i < |page| ==> page[i].sequence < n)
  }

  ghost predicate Listed(page: seq<Stored>, n: int) {
    exists i :: 0 <= i < |page| && page[i].sequence == n
  }

  function Clamp(n: int, low: int, high: int): int {
    if n < low then low else if n > high then high else n
  }

  /** A log slice with its sequence numbers. */
  function Numbered(log: seq<Event>, from: nat, to: nat): (page: seq<Stored>)
    requires from <= to <= |log|
    ensures |page| == to - from
  {
    seq(to - from, i requires 0 <= i < to - from => Stored(from + i + 1, log[from + i]))
  }

  /** `list_after` on a gap-free log: a slice. */
  function ListAfter(log: seq<Event>, after: int, limit: nat): seq<Stored> {
    var from := Clamp(after, 0, |log|);
    Numbered(log, from, Clamp(from + limit, 0, |log|))
  }

  /** The query has one answer on a gap-free table, the slice after the cursor. */
  lemma AnswerIsSlice(rows: Rows, last: int, after: int, limit: nat, page: seq<Stored>)
    requires GapFree(rows, last)
    ensures Answers(rows, after, limit, page) <==> page == ListAfter(Contents(rows, last), after, limit)
  {
    hide Answers, ListAfter;
    if Answers(rows, after, limit, page) {
      AnswerOnlySlice(rows, last, after, limit, page);
    }
    SliceAnswers(rows, last, after, limit);
  }

  lemma SliceAnswers(rows: Rows, last: int, after: int, limit: nat)
    requires GapFree(rows, last)
    ensures Answers(rows, after, limit, ListAfter(Contents(rows, last), after, limit))
  {
    var log := Contents(rows, last);
    var page := ListAfter(log, after, limit);
    var from := Clamp(after, 0, last);
    forall n | n in rows && after < n
      ensures Listed(page, n) || (|page| == limit && forall i :: 0 <= i < |page| ==> page[i].sequence < n)
    {
      if n - from - 1 < |page| {
        assert page[n - from - 1].sequence == n;
      }
    }
  }

  lemma AnswerOnlySlice(rows: Rows, last: int, after: int, limit: nat, page: seq<Stored>)
    requires GapFree(rows, last) && Answers(rows, after, limit, page)
    ensures page == ListAfter(Contents(rows, last), after, limit)
  {
    hide Contents, ListAfter, Answers;
    var from := Clamp(after, 0, last);
    forall i | 0 <= i < |page| ensures page[i].sequence == from + i + 1 {
      AnswerAt(rows, last, after, limit, page, i);
    }
    AnswerLength(rows, last, after, limit, page);
    AnswerContents(rows, last, after, limit, page);
  }

  lemma AnswerContents(rows: Rows, last: int, after: int, limit: nat, page: seq<Stored>)
    requires GapFree(rows, last) && Answers(rows, after, limit, page)
    requires forall i :: 0 <= i < |page| ==> page[i].sequence == Clamp(after, 0, last) + i + 1
    requires |page| == Clamp(Clamp(after, 0, last) + limit, 0, last) - Clamp(after, 0, last)
    ensures page == ListAfter(Contents(rows, last), after, limit)
  {
    var expected := ListAfter(Contents(rows, last), after, limit);
    assert |expected| == |page|;
    forall i | 0 <= i < |page| ensures page[i] == expected[i] {
      assert page[i].event == rows[page[i].sequence];
    }
  }

  /** No sequence is skipped: the row before would have come first. */
  lemma {:induction false} AnswerAt(rows: Rows, last: int, after: int, limit: nat, page: seq<Stored>, i: nat)
    requires GapFree(rows, last) && Answers(rows, after, limit, page) && i < |page|
    ensures page[i].sequence == Clamp(after, 0, last) + i + 1
  {
    var n := Clamp(after, 0, last) + i + 1;
    assert page[i].sequence in rows;
    if i > 0 {
      AnswerAt(rows, last, after, limit, page, i - 1);
    }
    assert n <= page[i].sequence;
    assert n in rows && after < n;
  }

  lemma AnswerLength(rows: Rows, last: int, after: int, limit: nat, page: seq<Stored>)
    requires GapFree(rows, last) && Answers(rows, after, limit, page)
    requires forall i :: 0 <= i < |page| ==> page[i].sequence == Clamp(after, 0, last) + i + 1
    ensures |page| == Clamp(Clamp(after, 0, last) + limit, 0, last) - Clamp(after, 0, last)
  {
    var from := Clamp(after, 0, last);
    if |page| > 0 {
      assert page[|page| - 1].sequence in rows;
    }
    var n := from + |page| + 1;
    assert !Listed(page, n);
    assert n <= last ==> n in rows && after < n;
  }

  datatype AppendError = UnknownSession | SequenceTaken

  /** One task's rows and counter. */
  class EventStore {
    const session: string
    var rows: Rows
    var lastEventSequence: int

    ghost predicate Valid()
      reads this
    {
      GapFree(rows, lastEventSequence)
    }

    ghost function Log(): seq<Event>
      requires Valid()
      reads this
    {
      Contents(rows, lastEventSequence)
    }

    constructor (session: string)
      ensures Valid() && Log() == [] && this.session == session
    {
      this.session := session;
      rows := map[];
      lastEventSequence := 0;
    }

    /** The first half of `append`: the session row is read. */
    method ReadSequence(sessionId: string) returns (r: Result<int, AppendError>)
      requires Valid()
      ensures r == if sessionId == session then Ok(|Log()| + 1) else Err(UnknownSession)
    {
      if sessionId != session {
        return Err(UnknownSession);
      }
      return Ok(lastEventSequence + 1);
    }

    /** The second half: insert the row and write the counter, or have the index reject both. */
    method CommitAt(sequence: int, event: Event) returns (r: Result<Stored, AppendError>)
      requires Valid()
      requires 1 <= sequence <= lastEventSequence + 1
      modifies this
      ensures Valid()
      ensures if sequence == old(|Log()|) + 1
        then r == Ok(Stored(sequence, event)) && Log() == old(Log()) + [event]
        else r == Err(SequenceTaken) && Log() == old(Log())
    {
      if sequence in rows {
        return Err(SequenceTaken);
      }
      rows := rows[sequence := event];
      lastEventSequence := sequence;
      return Ok(Stored(sequence, event));
    }

    /** `append` when nobody commits in between, as under the row lock. */
    method Append(sessionId: string, event: Event) returns (r: Result<Stored, AppendError>)
      requires Valid()
      modifies this
      ensures Valid()
      ensures if sessionId == session
        then r == Ok(Stored(|Log()|, event)) && Log() == old(Log()) + [event]
        else r == Err(UnknownSession) && Log() == old(Log())
    {
      var read := ReadSequence(sessionId);
      if read.Err? {
        return Err(read.error);
      }
      r := CommitAt(read.value, event);
    }
  }
}
