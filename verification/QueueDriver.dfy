// The queue driver of a leader, and the takeover that comes before it. Each store
// operation is one or two actions of the queue protocol, so that whatever the driver does
// is a run of it. Failures, lost acknowledgements and cancellation are chosen freely.
module QueueDriver {
  import opened Options
  import opened RequestQueue

  //   Fenced       the leader lock or the root is lost
  //   NotReady     the mandatory reconciliation has not committed
  //   Contention   a transient storage error
  //   Interrupted  the caller was cancelled
  //   Invariant    anything else that leaves the queue as it is
  datatype Error = Fenced | NotReady | Contention | Interrupted | Invariant
  datatype Turn = Finished | Stopped | Deferred
  datatype Result<+T> = Ok(value: T) | Err(error: Error)

  // What other processes may do between two operations of the leader.
  ghost predicate Elsewhere(s: State, t: State) {
    && s.rows <= t.rows
    && (forall k | |s.rows| <= k < |t.rows| :: t.rows[k].status.Queued?)
    && t == s.(rows := t.rows, root := t.root)
  }

  // The open rows that the root decides on have failed after whatever others did.
  ghost predicate RootsFailed(s: State, m: State, t: State) {
    Elsewhere(s, m) && m.holder.Some? && t == m.(rows := FailRoots(m, m.rows))
  }

  // After whatever others did, one attempt at the claimed row. A request whose expected
  // revision is not the head is rejected and publishes nothing.
  ghost predicate Tried(s: State, m: State, t: State) {
    && Elsewhere(s, m) && t.driver.Attempted? && var a := Attempt(t.head, t.driver.outcome);
    && Enabled(m, a) && t == Apply(m, a)
    && (m.rows[m.driver.row].expected !in {None, Some(m.head)} ==> t.driver.outcome == Rejected(RevisionConflict))
  }

  class Driver {
    var s: State
    ghost var log: seq<Action>

    ghost predicate Valid()
      reads this
    {
      Legal(log) && s == After(log)
    }

    constructor ()
      ensures Valid() && log == []
    {
      s, log := EMPTY_QUEUE, [];
    }

    method Do(a: Action)
      requires Valid() && Enabled(s, a)
      modifies this
      ensures Valid() && log == old(log) + [a] && s == Apply(old(s), a)
    {
      Extend(log, a);
      s, log := Apply(s, a), log + [a];
    }

    method Interleave()
      requires Valid()
      modifies this
      ensures Valid() && old(log) <= log && Elsewhere(old(s), s)
    {
      var n: nat :| 0 <= n;
      for i := 0 to n
        invariant Valid() && old(log) <= log && Elsewhere(old(s), s)
      {
        var replaced: bool := *;
        if replaced {
          var to: Option<nat> := *;
          Do(ReplaceRoot(to));
        } else if s.root.Some? {
          var expected: Option<Pin> := *;
          Do(Enqueue(expected));
        }
      }
    }

    // ---- store operations ----

    method FailChangedRoots() returns (r: Result<()>)
      requires Valid()
      modifies this
      ensures Valid() && old(log) <= log
      ensures s == old(s).(rows := s.rows, root := s.root)
      ensures (r.Err? && Elsewhere(old(s), s)) || exists m :: RootsFailed(old(s), m, s)
      ensures r.Ok? ==> exists m :: RootsFailed(old(s), m, s)
    {
      Interleave();
      ghost var m := s;
      var broken: bool := *;
      if s.holder.None? || broken {
        return Err(Fenced);
      }
      Do(FailChanged);
      assert RootsFailed(old(s), m, s);
      var lost: bool := *;
      return if lost then Err(Contention) else Ok(());
    }

    // Only the same incarnation that has reconciled may claim, and never its own running
    // row. A commit may succeed although it reports a failure.
    method ClaimRequest() returns (r: Result<Option<nat>>)
      requires Valid() && s.driver.Idle? && !s.Recorded()
      modifies this
      ensures Valid() && old(log) <= log
      ensures s.holder == old(s.holder) && s.reconciled == old(s.reconciled) && s.slot == old(s.slot)
      ensures s.acked == old(s.acked) && s.head == old(s.head)
      ensures if r.Ok? && r.value.Some? then s.driver == Claimed(r.value.value) else s.driver.Idle?
      ensures r.Ok? && r.value.Some? ==> s.Leads()
      ensures r == Ok(None) ==> Front(s.rows) == |s.rows| || s.Mine(Front(s.rows))
      ensures r.Err? ==> r.error != Interrupted
    {
      Interleave();
      if !s.Leads() {
        return Err(Fenced);
      }
      if s.reconciled != Some(s.Me()) {
        return Err(NotReady);
      }
      var k := Front(s.rows);
      if k == |s.rows| {
        return Ok(None);
      }
      if Some(s.rows[k].root) != s.root {
        return Err(Fenced);
      }
      if s.Mine(k) {
        return Ok(None);
      }
      var busy, lost: bool := *, *;
      if busy {
        return Err(Contention);
      }
      Do(Claim);
      if lost {
        Do(Abandon);
        return Err(Contention);
      }
      return Ok(Some(k));
    }

    // Prepare and run one publication for the claimed row. Any error may hide a commit.
    method Publish()
      requires Valid() && s.driver.Claimed?
      modifies this
      ensures Valid() && old(log) <= log
      ensures s.driver.Attempted? && s.driver.row == old(s.driver.row)
      ensures s.holder == old(s.holder) && s.reconciled == old(s.reconciled) && s.slot == old(s.slot) && s.acked == old(s.acked)
      ensures exists m :: Tried(old(s), m, s)
    {
      Interleave();
      DrivenRow(log);
      ghost var m := s;
      var expected := s.rows[s.driver.row].expected;
      var next: Pin, outcome: Outcome := *, *;
      if expected.Some? && expected.value != s.head {
        Do(Attempt(s.head, Rejected(RevisionConflict)));
      } else if Enabled(s, Attempt(next, outcome)) {
        Do(Attempt(next, outcome));
      } else {
        Do(Attempt(s.head, Unclear));
      }
      assert Tried(old(s), m, s);
    }

    // The last thing done was to return the claimed row, uncommitted, to the queue, or to
    // leave it because it had failed for a lost root.
    ghost predicate GaveBack()
      reads this
    {
      && log != [] && s.holder.Some?
      && (log[|log| - 1] == Requeue
          || (log[|log| - 1] == Abandon
              && exists k :: 0 <= k < |s.rows| && s.rows[k].status == Failed(RootChanged) && s.rows[k].owner == Some(s.Me())))
    }

    // The row goes back to the queue in its place, but only while the head is still the
    // one from before the attempt. A finished row is never requeued.
    method RequeueBusyClaim() returns (r: Result<()>)
      requires Valid() && s.driver.Attempted? && s.driver.outcome.Busy?
      modifies this
      ensures Valid() && old(log) <= log && s.driver.Idle?
      ensures s.holder == old(s.holder) && s.reconciled == old(s.reconciled) && s.slot == old(s.slot)
      ensures s.acked == old(s.acked) && s.head == old(s.head)
      ensures r.Ok? ==> GaveBack()
      ensures r.Ok? && log[|log| - 1] == Requeue ==> (old(s.driver.row), s.Me()) !in s.published
      ensures r.Err? ==> r.error != Interrupted
    {
      DrivenRow(log);
      var k, before := s.driver.row, s.driver.before;
      var failed := FailChangedRoots();
      if failed.Err? || !s.Leads() {
        Do(Abandon);
        return Err(Fenced);
      }
      if !s.rows[k].Open() {
        Do(Abandon);
        return Ok(());
      }
      if !s.Mine(k) || s.head != before || s.Recorded() {
        Do(Abandon);
        return Err(Invariant);
      }
      RequeuedExactlyUncommitted(log);
      var busy, lost: bool := *, *;
      if busy {
        Do(Abandon);
        return Err(Contention);
      }
      Do(Requeue);
      return if lost then Err(Contention) else Ok(());
    }

    // Resolve the one result that waits for its terminal write before any newer row is
    // claimed. The write may have been committed by an attempt that reported a failure.
    method RetryRecordedCompletion() returns (r: Result<bool>)
      requires Valid() && s.driver.Idle?
      modifies this
      ensures Valid() && old(log) <= log && s.driver.Idle?
      ensures s.holder == old(s.holder) && s.head == old(s.head) && s.reconciled == old(s.reconciled)
      ensures r.Ok? ==> s.slot.None? && s.acked == old(s.acked) + (if r.value then 1 else 0)
      ensures r.Ok? ==> r.value == old(s.Recorded())
      ensures r.Err? ==> s.slot == old(s.slot) && s.acked == old(s.acked) && r.error != Interrupted
    {
      Interleave();
      if !s.Leads() {
        return Err(Fenced);
      }
      if s.slot.None? {
        return Ok(false);
      }
      if !s.Recorded() {
        Do(Forget);
        return Ok(false);
      }
      var c := s.slot.value;
      RecordedResolves(log);
      if s.rows[c.row].Open() {
        var written, reported: bool := *, *;
        if !written {
          return Err(Contention);
        }
        Do(Finish);
        if !reported {
          // Confirm by a reread that the result is there.
          Interleave();
          if !s.Leads() {
            return Err(Fenced);
          }
          RecordedResolves(log);
        }
      }
      if s.rows[c.row].status != c.result || s.rows[c.row].owner != Some(s.Me()) {
        return Err(Invariant);
      }
      Do(Forget);
      return Ok(true);
    }

    // The result is cached before the first terminal write is tried.
    method RecordAndFinish() returns (r: Result<()>)
      requires Valid() && s.driver.Attempted? && (s.driver.outcome.Published? || s.driver.outcome.Rejected?)
      modifies this
      ensures Valid() && old(log) <= log && s.driver.Idle?
      ensures s.holder == old(s.holder) && s.reconciled == old(s.reconciled)
      ensures r.Ok? ==> s.slot.None? && s.acked == old(s.acked) + 1
      ensures r.Err? ==> s.acked == old(s.acked) && r.error != Interrupted
    {
      Interleave();
      DrivenRow(log);
      if !s.Leads() || s.slot.Some? {
        Do(Abandon);
        return Err(if s.Leads() then Invariant else Fenced);
      }
      Do(Record);
      var done := RetryRecordedCompletion();
      return match done case Ok(_) => Ok(()) case Err(e) => Err(e);
    }

    // ---- the drain loop ----

    // Nothing is left that this leader may claim, or only rows behind the cutoff.
    ghost predicate Drained(cutoff: Option<nat>)
      reads this
    {
      var front := Front(s.rows);
      front == |s.rows| || s.Mine(front) || (cutoff.Some? && front > cutoff.value)
    }

    // One row of the queue, from its claim to its acknowledgement.
    method DrainOne(cutoff: Option<nat>) returns (r: Result<Turn>)
      requires Valid() && s.driver.Idle? && s.slot.None?
      modifies this
      ensures Valid() && old(log) <= log && s.driver.Idle?
      ensures s.holder == old(s.holder) && s.reconciled == old(s.reconciled)
      ensures r.Ok? ==> s.slot.None? && s.acked == old(s.acked) + (if r.value == Finished then 1 else 0)
      ensures r == Ok(Stopped) ==> Drained(cutoff)
      ensures r == Ok(Deferred) ==> GaveBack()
      ensures r == Err(Interrupted) ==> s.slot.None?
    {
      var cancelled: bool := *;
      if cancelled {
        return Err(Interrupted);
      }
      if cutoff.Some? {
        Interleave();
        var front := Front(s.rows);
        if front < |s.rows| && front > cutoff.value {
          return Ok(Stopped);
        }
      }
      var claimed := ClaimRequest();
      if claimed.Err? {
        return Err(claimed.error);
      }
      if claimed.value.None? {
        return Ok(Stopped);
      }
      Publish();
      r := Settle();
    }

    // What becomes of the claim after its publication attempt.
    method Settle() returns (r: Result<Turn>)
      requires Valid() && s.driver.Attempted?
      modifies this
      ensures Valid() && old(log) <= log && s.driver.Idle?
      ensures s.holder == old(s.holder) && s.reconciled == old(s.reconciled)
      ensures r.Ok? ==> r.value != Stopped && s.acked == old(s.acked) + (if r.value == Finished then 1 else 0)
      ensures r.Ok? ==> s.slot == if r.value == Finished then None else old(s.slot)
      ensures r == Ok(Deferred) ==> GaveBack()
      ensures r == Err(Interrupted) ==> s == old(s).(driver := Idle)
    {
      var cancelled: bool := *;
      if cancelled {
        // Only this waiter stops: the accepted row keeps running for a successor.
        Do(Abandon);
        return Err(Interrupted);
      }
      if s.driver.outcome.Busy? {
        var requeued := RequeueBusyClaim();
        return match requeued case Ok(_) => Ok(Deferred) case Err(e) => Err(e);
      }
      if s.driver.outcome.Unclear? {
        Do(Abandon);
        return Err(Invariant);
      }
      var recorded := RecordAndFinish();
      return match recorded case Ok(_) => Ok(Finished) case Err(e) => Err(e);
    }

    // Every row that is counted has been published under this claim and acknowledged, and
    // no row is claimed while an earlier result waits for its terminal write. The drain
    // ends well only when nothing is left that it may claim, at a bound, or at contention.
    method DrainRequests(maxCompleted: nat, cutoff: Option<nat>) returns (r: Result<nat>)
      requires Valid() && s.driver.Idle?
      modifies this
      ensures Valid() && old(log) <= log && s.driver.Idle?
      ensures s.holder == old(s.holder) && s.reconciled == old(s.reconciled)
      ensures r.Ok? ==> !s.Recorded() && s.acked == old(s.acked) + r.value
      ensures r == Err(Interrupted) ==> !s.Recorded()
      ensures r.Ok? && r.value < maxCompleted ==> Drained(cutoff) || GaveBack()
    {
      var lostRoot := s.holder.Some? && !s.Leads();
      var failed := FailChangedRoots();
      if failed.Err? || lostRoot {
        return Err(Fenced);
      }
      var retried := RetryRecordedCompletion();
      if retried.Err? {
        return Err(retried.error);
      }
      var completed := if retried.value then 1 else 0;
      while true
        invariant Valid() && old(log) <= log && s.driver.Idle?
        invariant s.holder == old(s.holder) && s.reconciled == old(s.reconciled)
        invariant s.slot.None? && s.acked == old(s.acked) + completed
        decreases maxCompleted - completed
      {
        var turn := DrainOne(cutoff);
        if turn.Err? {
          return Err(turn.error);
        }
        if !turn.value.Finished? {
          return Ok(completed);
        }
        completed := completed + 1;
        if completed >= maxCompleted {
          return Ok(completed);
        }
      }
    }

    // A command without a daemon resolves its own cached result while it holds the lock.
    method RetryRecorded(initial: Error, patience: nat) returns (r: Result<()>)
      requires Valid() && s.driver.Idle?
      modifies this
      ensures Valid() && old(log) <= log && s.driver.Idle? && s.head == old(s.head) && s.holder == old(s.holder)
      ensures r.Ok? ==> old(s.Recorded()) && s.slot.None? && s.acked == old(s.acked) + 1
    {
      if !s.Recorded() || !initial.Contention? {
        return Err(initial);
      }
      for i := 0 to patience
        invariant Valid() && old(log) <= log && s.driver.Idle? && s.head == old(s.head) && s.holder == old(s.holder)
        invariant s.slot == old(s.slot) && s.acked == old(s.acked)
      {
        var cancelled: bool := *;
        if cancelled {
          return Err(Interrupted);
        }
        var done := RetryRecordedCompletion();
        if done.Ok? {
          return if done.value then Ok(()) else Err(Invariant);
        }
        if !done.error.Contention? {
          return Err(done.error);
        }
      }
      return Err(Contention);
    }

    // ---- takeover ----

    // A new owner reconciles before it claims. It is kept only when that has committed
    // and nothing is lost: the drain went well, or its result is cached for a retry.
    method Takeover() returns (kept: bool)
      requires Valid() && s.holder.None?
      modifies this
      ensures Valid() && old(log) <= log && s.driver.Idle?
      ensures kept == s.holder.Some?
      ensures kept ==> s.reconciled == Some(s.Me()) && s.Me() >= old(s.born)
    {
      FreshIncarnation(log);
      var sameProcess: bool := *;
      if s.root.None? {
        return false;
      }
      Do(Acquire(sameProcess));
      var reconciled := MandatoryReconcile();
      var ok := false;
      if reconciled {
        var drained := DrainRequests(1, None);
        ok := drained.Ok? || (s.Recorded() && drained.error.Contention?);
      }
      kept := ok;
      if !kept {
        Do(Release(true));
      }
    }

    method MandatoryReconcile() returns (committed: bool)
      requires Valid() && s.holder.Some? && s.driver.Idle? && s.reconciled != Some(s.Me())
      modifies this
      ensures Valid() && old(log) <= log && s.driver.Idle? && s.holder == old(s.holder)
      ensures committed <==> s.reconciled == Some(s.Me())
    {
      var failed := FailChangedRoots();
      if failed.Err? || !s.Leads() {
        return false;
      }
      Interleave();
      var next: Pin, published: bool := *, *;
      committed := *;
      if !published || !Enabled(s, Reconcile(next, committed)) {
        committed := false;
      } else {
        Do(Reconcile(next, committed));
      }
      if !committed {
        // The head may have moved although the reconciliation was not attested.
        failed := FailChangedRoots();
      }
    }
  }
}
