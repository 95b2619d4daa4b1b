// The durable request queue: one FIFO of accepted indexing requests, driven by whichever
// process holds the leader lock. Every store operation is one atomic action; crashes,
// contention, lost writes and root replacement are actions of their own.
module RequestQueue {
  import opened Options

  // A published index revision. A recreated index has a later generation.
  datatype Pin = Pin(generation: nat, revision: nat)

  predicate Before(p: Pin, q: Pin) {
    p.generation < q.generation || (p.generation == q.generation && p.revision < q.revision)
  }

  datatype Code = RootChanged | RevisionConflict | IndexFailed
  datatype Status = Queued | Running | Done(pin: Pin) | Failed(code: Code)

  // owner: the incarnation that claimed the row. admitted: the head when it was enqueued.
  datatype Row = Row(status: Status, owner: Option<nat>, root: nat, expected: Option<Pin>, admitted: Pin) {
    predicate Open() { status.Queued? || status.Running? }
  }

  // Every acquisition of the leader lock starts a fresh incarnation, bound to one root.
  datatype Leader = Leader(incarnation: nat, root: nat)

  //   Busy     transient contention or capture drift
  //   Unclear  any other storage_busy, which may hide a commit and is never terminal
  datatype Outcome = Published(pin: Pin) | Rejected(code: Code) | Busy | Unclear

  // Where the queue driver of the leader is with the row it has claimed.
  datatype Driver = Idle | Claimed(row: nat) | Attempted(row: nat, before: Pin, outcome: Outcome)

  // A result that is cached before its terminal write.
  datatype Completion = Completion(row: nat, incarnation: nat, result: Status)

  // Durable are the rows, the root, the head and the incarnations handed out; the rest
  // belongs to the leading process. root is the directory that the path names, if any: it
  // may be moved away and back. proven and published are history: which incarnations have
  // reconciled, and which row's publication each has committed.
  datatype State = State(
    rows: seq<Row>, root: Option<nat>, head: Pin, born: nat,
    holder: Option<Leader>, reconciled: Option<nat>, driver: Driver, slot: Option<Completion>, acked: nat,
    proven: set<nat>, published: multiset<(nat, nat)>)
  {
    // The leader lock is held for the root that the path names now.
    predicate Leads() { holder.Some? && root == Some(holder.value.root) }

    function Me(): nat
      requires holder.Some?
    {
      holder.value.incarnation
    }

    // A completion of this very incarnation is waiting for its terminal write.
    predicate Recorded() { holder.Some? && slot.Some? && slot.value.incarnation == Me() }

    predicate Mine(k: nat) {
      holder.Some? && k < |rows| && rows[k].status.Running? && rows[k].owner == Some(Me())
    }
  }

  const EMPTY_QUEUE := State([], Some(0), Pin(0, 0), 0, None, None, Idle, None, 0, {}, multiset{})

  // The first row that is neither done nor failed.
  function Front(rows: seq<Row>): (k: nat)
    ensures k <= |rows| && (k < |rows| ==> rows[k].Open())
    ensures forall j | 0 <= j < k :: !rows[j].Open()
  {
    if rows == [] || rows[0].Open() then 0 else 1 + Front(rows[1..])
  }

  // ---- the actions ----

  datatype Action =
    | Enqueue(expected: Option<Pin>)
    | ReplaceRoot(to: Option<nat>)
    | Acquire(sameProcess: bool)
    | Release(sameProcess: bool)
    | FailChanged
    | Reconcile(next: Pin, committed: bool)
    | Watch(next: Pin)
    | Claim
    | Attempt(next: Pin, outcome: Outcome)
    | Requeue
    | Abandon
    | Record
    | Finish
    | Forget

  // Rows that fail when the root has changed: those of other roots while the leader's root
  // is still there, those of the leader's own root once it is not.
  predicate LosesRoot(s: State, row: Row)
    requires s.holder.Some?
  {
    row.Open() && (row.root == s.holder.value.root) != s.Leads()
  }

  function FailRoots(s: State, rows: seq<Row>): (r: seq<Row>)
    requires s.holder.Some?
    ensures |r| == |rows|
    ensures forall k | 0 <= k < |r| :: r[k] ==
              if LosesRoot(s, rows[k]) then rows[k].(status := Failed(RootChanged), owner := Some(s.Me())) else rows[k]
  {
    if rows == [] then []
    else
      var row := rows[0];
      [if LosesRoot(s, row) then row.(status := Failed(RootChanged), owner := Some(s.Me())) else row] + FailRoots(s, rows[1..])
  }

  function ResultOf(outcome: Outcome): Status
    requires outcome.Published? || outcome.Rejected?
  {
    match outcome case Published(pin) => Done(pin) case Rejected(code) => Failed(code)
  }

  predicate Enabled(s: State, a: Action) {
    match a
    case Enqueue(_) => s.root.Some?
    case ReplaceRoot(_) => true
    case Acquire(_) => s.root.Some? && s.holder.None?
    case Release(_) => s.holder.Some?
    case FailChanged => s.holder.Some?
    case Reconcile(next, _) => s.Leads() && s.reconciled != Some(s.Me()) && Before(s.head, next)
    case Watch(next) =>
      s.Leads() && s.reconciled == Some(s.Me()) && s.driver.Idle? && !s.Recorded() && Before(s.head, next)
    case Claim =>
      && s.Leads() && s.reconciled == Some(s.Me()) && s.driver.Idle? && !s.Recorded()
      && Front(s.rows) < |s.rows| && s.rows[Front(s.rows)].root == s.holder.value.root && !s.Mine(Front(s.rows))
    case Attempt(next, outcome) =>
      && s.holder.Some? && s.driver.Claimed? && s.driver.row < |s.rows|
      && (next != s.head ==> s.Leads() && Before(s.head, next)
                             && s.rows[s.driver.row].expected in {None, Some(s.head)})
      && (outcome.Published? ==> next == outcome.pin && next != s.head)
    case Requeue =>
      && s.Leads() && s.driver.Attempted? && s.driver.outcome.Busy?
      && s.Mine(s.driver.row) && s.head == s.driver.before && !s.Recorded()
    case Abandon => !s.driver.Idle?
    case Record =>
      && s.Leads() && s.slot.None? && s.driver.Attempted? && s.driver.row < |s.rows|
      && (s.driver.outcome.Published? || s.driver.outcome.Rejected?)
    case Finish =>
      && s.Leads() && s.Recorded() && s.Mine(s.slot.value.row)
      && (s.slot.value.result.Done? ==> s.head == s.slot.value.result.pin)
    case Forget =>
      && s.holder.Some? && s.slot.Some?
      && (s.Recorded() ==>
            && s.slot.value.row < |s.rows|
            && var row := s.rows[s.slot.value.row];
               row.status == s.slot.value.result && row.owner == Some(s.Me()))
  }

  function Apply(s: State, a: Action): State
    requires Enabled(s, a)
  {
    match a
    case Enqueue(expected) => s.(rows := s.rows + [Row(Queued, None, s.root.value, expected, s.head)])
    case ReplaceRoot(to) => s.(root := to)
    case Acquire(sameProcess) =>
      s.(holder := Some(Leader(s.born, s.root.value)), born := s.born + 1, slot := if sameProcess then s.slot else None)
    case Release(sameProcess) => s.(holder := None, driver := Idle, slot := if sameProcess then s.slot else None)
    case FailChanged => s.(rows := FailRoots(s, s.rows))
    case Reconcile(next, committed) =>
      if committed then s.(head := next, reconciled := Some(s.Me()), proven := s.proven + {s.Me()}) else s.(head := next)
    case Watch(next) => s.(head := next)
    case Claim =>
      var k := Front(s.rows);
      s.(rows := s.rows[k := s.rows[k].(status := Running, owner := Some(s.Me()))], driver := Claimed(k))
    case Attempt(next, outcome) =>
      s.(head := next, driver := Attempted(s.driver.row, s.head, outcome),
         published := if next == s.head then s.published else s.published + multiset{(s.driver.row, s.Me())})
    case Requeue =>
      var k := s.driver.row;
      s.(rows := s.rows[k := s.rows[k].(status := Queued, owner := None)], driver := Idle)
    case Abandon => s.(driver := Idle)
    case Record => s.(slot := Some(Completion(s.driver.row, s.Me(), ResultOf(s.driver.outcome))), driver := Idle)
    case Finish =>
      var k := s.slot.value.row;
      s.(rows := s.rows[k := s.rows[k].(status := s.slot.value.result)])
    case Forget => s.(slot := None, acked := if s.Recorded() then s.acked + 1 else s.acked)
  }

  // A run of the protocol, and the state it leads to.
  predicate Legal(log: seq<Action>)
    decreases |log|, 0
  {
    log == [] || (Legal(log[..|log| - 1]) && Enabled(After(log[..|log| - 1]), log[|log| - 1]))
  }

  function After(log: seq<Action>): State
    requires Legal(log)
    decreases |log|, 1
  {
    if log == [] then EMPTY_QUEUE else Apply(After(log[..|log| - 1]), log[|log| - 1])
  }

  // ---- what every run keeps ----

  // A row is finished before an earlier one only by failing for a changed root, which
  // the earlier one does not share. The rows of one root are finished in order.
  ghost predicate InOrder(s: State) {
    forall i, j | 0 <= i < j < |s.rows| && s.rows[i].Open() && !s.rows[j].Open() ::
      s.rows[j].status == Failed(RootChanged) && s.rows[i].root != s.rows[j].root
  }

  // Only the front row runs, under an incarnation that has reconciled.
  ghost predicate OneRunning(s: State) {
    && (forall k | 0 <= k < |s.rows| && s.rows[k].status.Running? :: k == Front(s.rows))
    && (forall k | 0 <= k < |s.rows| && !s.rows[k].status.Failed? ::
          if s.rows[k].status.Queued? then s.rows[k].owner.None?
          else s.rows[k].owner.Some? && s.rows[k].owner.value in s.proven)
  }

  // A leader claims only rows of its own root.
  ghost predicate Rooted(s: State) {
    forall k: nat | s.Mine(k) :: s.rows[k].root == s.holder.value.root
  }

  ghost predicate Incarnations(s: State) {
    && (s.holder.Some? ==> s.Me() < s.born)
    && (forall i | i in s.proven :: i < s.born)
    && (s.reconciled.Some? ==> s.reconciled.value in s.proven)
    && (s.slot.Some? ==> s.slot.value.incarnation < s.born)
    && (forall k | 0 <= k < |s.rows| && s.rows[k].owner.Some? :: s.rows[k].owner.value < s.born)
  }

  // Results grow along the queue, each later than the head at its own enqueue.
  ghost predicate Increasing(s: State) {
    && (forall k | 0 <= k < |s.rows| :: !Before(s.head, s.rows[k].admitted))
    && (forall k | 0 <= k < |s.rows| && s.rows[k].status.Done? ::
          !Before(s.head, s.rows[k].status.pin) && Before(s.rows[k].admitted, s.rows[k].status.pin))
    && (forall i, j | 0 <= i < j < |s.rows| && s.rows[i].status.Done? && s.rows[j].status.Done? ::
          Before(s.rows[i].status.pin, s.rows[j].status.pin))
  }

  // pin is later than every result, except that of row k itself.
  ghost predicate Latest(s: State, k: nat, pin: Pin) {
    && (k < |s.rows| ==> Before(s.rows[k].admitted, pin))
    && forall j | 0 <= j < |s.rows| && j != k && s.rows[j].status.Done? :: Before(s.rows[j].status.pin, pin)
  }

  // The row is still the leader's, unless it failed when the root was lost under it.
  ghost predicate Kept(s: State, k: nat) {
    && s.holder.Some? && k < |s.rows| && s.rows[k].root == s.holder.value.root && s.rows[k].owner == Some(s.Me())
    && (s.rows[k].status.Running? || s.rows[k].status == Failed(RootChanged))
  }

  ghost predicate Driving(s: State) {
    !s.driver.Idle? ==>
      && Kept(s, s.driver.row) && s.reconciled == Some(s.Me()) && !s.Recorded()
      && var committed := (s.driver.row, s.Me()) in s.published;
         if s.driver.Claimed? then !committed
         else
           && (if committed then Before(s.driver.before, s.head) && Latest(s, s.driver.row, s.head) else s.head == s.driver.before)
           && (s.driver.outcome.Published? ==> committed && s.driver.outcome.pin == s.head)
  }

  // A cached result stays the current head, so that its terminal write can be repeated.
  ghost predicate Caching(s: State) {
    s.Recorded() ==>
      && var c := s.slot.value;
      && s.driver.Idle? && s.reconciled == Some(s.Me()) && (c.result.Done? || c.result.Failed?)
      && (Kept(s, c.row) || (c.row < |s.rows| && s.rows[c.row].status == c.result && s.rows[c.row].owner == Some(s.Me())))
      && (c.result.Done? ==> s.head == c.result.pin && Latest(s, c.row, c.result.pin))
  }

  // No incarnation commits the publication of a row twice, and once it has committed one
  // it does not let go of the row.
  ghost predicate OneCommit(s: State) {
    && (forall p | p in s.published :: s.published[p] == 1 && p.0 < |s.rows| && p.1 < s.born)
    && (s.holder.Some? ==>
          forall p | p in s.published && p.1 == s.Me() :: !s.rows[p.0].Open() || s.Mine(p.0))
  }

  ghost predicate Inv(s: State) {
    InOrder(s) && OneRunning(s) && Rooted(s) && Incarnations(s) && Increasing(s) && Driving(s) && Caching(s) && OneCommit(s)
  }

  // ---- every action keeps it ----

  predicate Rewrites(a: Action) { a.Claim? || a.Requeue? || a.Finish? }

  predicate Extends(a: Action) { a.Enqueue? || a.FailChanged? }

  lemma InOrderRewritten(s: State, a: Action)
    requires Inv(s) && Enabled(s, a) && Rewrites(a)
    ensures InOrder(Apply(s, a))
  {}

  lemma InOrderExtended(s: State, a: Action)
    requires Inv(s) && Enabled(s, a) && Extends(a)
    ensures InOrder(Apply(s, a))
  {}

  lemma InOrderElse(s: State, a: Action)
    requires Inv(s) && Enabled(s, a) && !Rewrites(a) && !Extends(a)
    ensures InOrder(Apply(s, a))
  {}

  lemma OneRunningRewritten(s: State, a: Action)
    requires Inv(s) && Enabled(s, a) && Rewrites(a)
    ensures OneRunning(Apply(s, a))
  {}

  lemma OneRunningExtended(s: State, a: Action)
    requires Inv(s) && Enabled(s, a) && Extends(a)
    ensures OneRunning(Apply(s, a))
  {}

  lemma OneRunningElse(s: State, a: Action)
    requires Inv(s) && Enabled(s, a) && !Rewrites(a) && !Extends(a)
    ensures OneRunning(Apply(s, a))
  {}

  lemma RootedRewritten(s: State, a: Action)
    requires Inv(s) && Enabled(s, a) && Rewrites(a)
    ensures Rooted(Apply(s, a)) && Incarnations(Apply(s, a))
  {}

  lemma RootedExtended(s: State, a: Action)
    requires Inv(s) && Enabled(s, a) && Extends(a)
    ensures Rooted(Apply(s, a)) && Incarnations(Apply(s, a))
  {}

  lemma RootedElse(s: State, a: Action)
    requires Inv(s) && Enabled(s, a) && !Rewrites(a) && !Extends(a)
    ensures Rooted(Apply(s, a)) && Incarnations(Apply(s, a))
  {}

  lemma IncreasingRewritten(s: State, a: Action)
    requires Inv(s) && Enabled(s, a) && Rewrites(a)
    ensures Increasing(Apply(s, a))
  {}

  lemma IncreasingExtended(s: State, a: Action)
    requires Inv(s) && Enabled(s, a) && Extends(a)
    ensures Increasing(Apply(s, a))
  {}

  lemma IncreasingElse(s: State, a: Action)
    requires Inv(s) && Enabled(s, a) && !Rewrites(a) && !Extends(a)
    ensures Increasing(Apply(s, a))
  {}

  lemma DrivingRewritten(s: State, a: Action)
    requires Inv(s) && Enabled(s, a) && Rewrites(a)
    ensures Driving(Apply(s, a))
  {}

  lemma DrivingExtended(s: State, a: Action)
    requires Inv(s) && Enabled(s, a) && Extends(a)
    ensures Driving(Apply(s, a))
  {}

  lemma DrivingElse(s: State, a: Action)
    requires Inv(s) && Enabled(s, a) && !Rewrites(a) && !Extends(a)
    ensures Driving(Apply(s, a))
  {}

  lemma CachingRewritten(s: State, a: Action)
    requires Inv(s) && Enabled(s, a) && Rewrites(a)
    ensures Caching(Apply(s, a))
  {}

  lemma CachingExtended(s: State, a: Action)
    requires Inv(s) && Enabled(s, a) && Extends(a)
    ensures Caching(Apply(s, a))
  {}

  lemma CachingElse(s: State, a: Action)
    requires Inv(s) && Enabled(s, a) && !Rewrites(a) && !Extends(a)
    ensures Caching(Apply(s, a))
  {}

  lemma OneCommitRewritten(s: State, a: Action)
    requires Inv(s) && Enabled(s, a) && Rewrites(a)
    ensures OneCommit(Apply(s, a))
  {}

  lemma OneCommitExtended(s: State, a: Action)
    requires Inv(s) && Enabled(s, a) && Extends(a)
    ensures OneCommit(Apply(s, a))
  {}

  lemma OneCommitAttempt(s: State, a: Action)
    requires Inv(s) && Enabled(s, a) && a.Attempt?
    ensures OneCommit(Apply(s, a))
  {}

  lemma OneCommitOther(s: State, a: Action)
    requires Inv(s) && Enabled(s, a) && !Rewrites(a) && !Extends(a) && !a.Attempt?
    ensures OneCommit(Apply(s, a))
  {}

  lemma StepKeeps(s: State, a: Action)
    requires Inv(s) && Enabled(s, a)
    ensures Inv(Apply(s, a))
  {
    if Rewrites(a) {
      InOrderRewritten(s, a);
      OneRunningRewritten(s, a);
      IncreasingRewritten(s, a);
      DrivingRewritten(s, a);
      CachingRewritten(s, a);
      RootedRewritten(s, a);
      OneCommitRewritten(s, a);
    } else if Extends(a) {
      InOrderExtended(s, a);
      OneRunningExtended(s, a);
      IncreasingExtended(s, a);
      DrivingExtended(s, a);
      CachingExtended(s, a);
      RootedExtended(s, a);
      OneCommitExtended(s, a);
    } else {
      InOrderElse(s, a);
      OneRunningElse(s, a);
      IncreasingElse(s, a);
      DrivingElse(s, a);
      CachingElse(s, a);
      RootedElse(s, a);
      if a.Attempt? {
        OneCommitAttempt(s, a);
      } else {
        OneCommitOther(s, a);
      }
    }
  }

  lemma {:induction false} RunKeeps(log: seq<Action>)
    requires Legal(log)
    ensures Inv(After(log))
    decreases |log|
  {
    if log != [] {
      RunKeeps(log[..|log| - 1]);
      StepKeeps(After(log[..|log| - 1]), log[|log| - 1]);
    }
  }

  // ---- what follows for every run ----

  // Rows are finished in the order of the queue, one runs at a time, and only for an
  // incarnation that has reconciled.
  lemma FirstInFirstOut(log: seq<Action>)
    requires Legal(log)
    ensures var rows := After(log).rows;
            && (forall i, j | 0 <= i < j < |rows| && !rows[j].Open() &&
                              (rows[i].root == rows[j].root || rows[j].status != Failed(RootChanged)) :: !rows[i].Open())
            && (forall i, j | 0 <= i < |rows| && 0 <= j < |rows| && rows[i].status.Running? && rows[j].status.Running? :: i == j)
            && (forall k | 0 <= k < |rows| && (rows[k].status.Running? || rows[k].status.Done?) ::
                  rows[k].owner.Some? && rows[k].owner.value in After(log).proven)
  {
    RunKeeps(log);
  }

  // finished*, then at most one running, then queued*.
  ghost predicate Shaped(rows: seq<Row>) {
    forall k | Front(rows) < k < |rows| :: rows[k].status.Queued?
  }

  predicate Stays(log: seq<Action>) {
    forall a | a in log :: !a.ReplaceRoot?
  }

  lemma {:induction false} RootKept(log: seq<Action>)
    requires Legal(log) && Stays(log)
    ensures var s := After(log);
            s.root == Some(0) && (s.holder.Some? ==> s.holder.value.root == 0) && forall k | 0 <= k < |s.rows| :: s.rows[k].root == 0
    decreases |log|
  {
    if log != [] {
      RootKept(log[..|log| - 1]);
    }
  }

  lemma {:induction false} ShapedWithoutReplacement(log: seq<Action>)
    requires Legal(log) && Stays(log)
    ensures Shaped(After(log).rows)
    decreases |log|
  {
    RunKeeps(log);
    RootKept(log);
  }

  // What alone breaks the shape: rows fail for a changed root, and an open row that does
  // not fail is before one that does.
  lemma ShapeStep(s: State, a: Action)
    requires Inv(s) && Shaped(s.rows) && Enabled(s, a)
    ensures Shaped(Apply(s, a).rows) <==> !(a.FailChanged? && Overtaken(s))
  {
    StepKeeps(s, a);
    if a.FailChanged? {
      FailShape(s);
    }
  }

  ghost predicate Overtaken(s: State)
    requires s.holder.Some?
  {
    exists i, j | 0 <= i < j < |s.rows| :: s.rows[i].Open() && !LosesRoot(s, s.rows[i]) && LosesRoot(s, s.rows[j])
  }

  lemma FailShape(s: State)
    requires Shaped(s.rows) && s.holder.Some?
    ensures Shaped(FailRoots(s, s.rows)) <==> !Overtaken(s)
  {
    if Overtaken(s) {
      Overtakes(s);
    }
    if !Shaped(FailRoots(s, s.rows)) {
      OvertakenBy(s, FailRoots(s, s.rows));
    }
  }

  lemma Overtakes(s: State)
    requires s.holder.Some? && Overtaken(s)
    ensures !Shaped(FailRoots(s, s.rows))
  {
    var rows := FailRoots(s, s.rows);
    var i, j :| 0 <= i < j < |s.rows| && s.rows[i].Open() && !LosesRoot(s, s.rows[i]) && LosesRoot(s, s.rows[j]);
    assert rows[i].Open() && !rows[j].status.Queued?;
  }

  lemma OvertakenBy(s: State, rows: seq<Row>)
    requires s.holder.Some? && rows == FailRoots(s, s.rows) && Shaped(s.rows) && !Shaped(rows)
    ensures Overtaken(s)
  {
    var i := Front(rows);
    var j :| i < j < |rows| && !rows[j].status.Queued?;
    assert Front(s.rows) <= i by {
      assert s.rows[i].Open();
    }
    assert LosesRoot(s, s.rows[j]) && !LosesRoot(s, s.rows[i]);
  }

  lemma Extend(log: seq<Action>, a: Action)
    requires Legal(log) && Enabled(After(log), a)
    ensures Legal(log + [a]) && After(log + [a]) == Apply(After(log), a)
  {
    assert (log + [a])[..|log|] == log;
  }

  lemma Take(log: seq<Action>, s: State, a: Action) returns (next: seq<Action>, t: State)
    requires Legal(log) && s == After(log) && Enabled(s, a)
    ensures Legal(next) && t == After(next) && t == Apply(s, a)
  {
    Extend(log, a);
    next, t := log + [a], Apply(s, a);
  }

  // The root is replaced twice, and the leader fails the rows of its own one first.
  lemma ShapeLost()
    ensures exists log :: Legal(log) && !Shaped(After(log).rows) && After(log).holder.Some? && !After(log).Leads()
  {
    var log, s := [], EMPTY_QUEUE;
    log, s := Take(log, s, Enqueue(None));
    log, s := Take(log, s, ReplaceRoot(Some(1)));
    log, s := Take(log, s, Enqueue(None));
    log, s := Take(log, s, Acquire(false));
    log, s := Take(log, s, ReplaceRoot(None));
    assert s.rows == [Row(Queued, None, 0, None, Pin(0, 0)), Row(Queued, None, 1, None, Pin(0, 0))];
    log, s := Take(log, s, FailChanged);
    assert Front(s.rows) == 0 && s.rows[1].status.Failed?;
  }

  // A root that comes back: its leader fails a later row of the root in between.
  lemma ShapeLostOnReturn()
    ensures exists log :: Legal(log) && !Shaped(After(log).rows) && After(log).Leads()
  {
    var log, s := [], EMPTY_QUEUE;
    log, s := Take(log, s, Acquire(false));
    log, s := Take(log, s, Enqueue(None));
    log, s := Take(log, s, ReplaceRoot(Some(1)));
    log, s := Take(log, s, Enqueue(None));
    log, s := Take(log, s, ReplaceRoot(Some(0)));
    assert s.rows == [Row(Queued, None, 0, None, Pin(0, 0)), Row(Queued, None, 1, None, Pin(0, 0))];
    log, s := Take(log, s, FailChanged);
    assert Front(s.rows) == 0 && s.rows[1].status.Failed?;
  }

  lemma ResultsIncrease(log: seq<Action>)
    requires Legal(log)
    ensures var rows := After(log).rows;
            && (forall i, j | 0 <= i < j < |rows| && rows[i].status.Done? && rows[j].status.Done? ::
                  Before(rows[i].status.pin, rows[j].status.pin))
            && (forall k | 0 <= k < |rows| && rows[k].status.Done? :: Before(rows[k].admitted, rows[k].status.pin))
  {
    RunKeeps(log);
  }

  // One incarnation commits at most one publication for one row.
  lemma PublishedOnce(log: seq<Action>, row: nat, incarnation: nat)
    requires Legal(log)
    ensures After(log).published[(row, incarnation)] <= 1
  {
    RunKeeps(log);
  }

  // Contention returns a row that is still running to the queue exactly when the attempt
  // committed nothing.
  lemma RequeuedExactlyUncommitted(log: seq<Action>)
    requires Legal(log)
    requires var s := After(log); s.Leads() && s.driver.Attempted? && s.driver.outcome.Busy?
    ensures var s := After(log); Enabled(s, Requeue) <==> s.Mine(s.driver.row) && (s.driver.row, s.Me()) !in s.published
  {
    RunKeeps(log);
  }

  // A committed publication whose result got lost.
  ghost predicate Lost(s: State, k: nat) {
    && s.holder.Some? && k < |s.rows| && s.rows[k].owner == Some(s.Me()) && (k, s.Me()) in s.published
    && (s.rows[k].status.Running? || s.rows[k].status == Failed(RootChanged))
    && (s.driver.Attempted? && s.driver.row == k ==> s.driver.outcome.Busy? || s.driver.outcome.Unclear?)
    && (s.Recorded() ==> s.slot.value.row != k)
  }

  // This owner neither queues its row nor finishes it, and publishes no more for it. It
  // keeps running, unless the root is lost and it fails for that.
  lemma {:induction false} LostStays(log: seq<Action>, more: seq<Action>, k: nat)
    requires Legal(log + more) && Legal(log) && Lost(After(log), k)
    requires forall a | a in more :: !a.Release?
    ensures var s, t := After(log), After(log + more);
            Lost(t, k) && t.holder == s.holder && (Stays(more) && s.Leads() && s.Mine(k) ==> t.Leads() && t.Mine(k))
    decreases |more|
  {
    if more == [] {
      assert log + more == log;
    } else {
      var front := log + more[..|more| - 1];
      assert (log + more)[..|log + more| - 1] == front;
      LostStays(log, more[..|more| - 1], k);
      RunKeeps(front);
      LostStep(After(front), more[|more| - 1], k);
    }
  }

  lemma LostStep(s: State, a: Action, k: nat)
    requires Inv(s) && Enabled(s, a) && Lost(s, k) && !a.Release?
    ensures var t := Apply(s, a);
            Lost(t, k) && t.holder == s.holder && (!a.ReplaceRoot? && s.Leads() && s.Mine(k) ==> t.Leads() && t.Mine(k))
  {
    if Rewrites(a) {
      LostRewritten(s, a, k);
    }
  }

  lemma LostRewritten(s: State, a: Action, k: nat)
    requires Inv(s) && Enabled(s, a) && Lost(s, k) && Rewrites(a)
    ensures Lost(Apply(s, a), k) && (s.Mine(k) ==> Apply(s, a).Mine(k))
  {}

  // The row of a recorded result failed because the root was away for a while.
  predicate Stranded(s: State) {
    && s.Recorded() && s.slot.value.row < |s.rows|
    && s.rows[s.slot.value.row].status == Failed(RootChanged) && s.slot.value.result != Failed(RootChanged)
  }

  // A recorded result can be written, or has been, unless its row is stranded.
  lemma RecordedResolves(log: seq<Action>)
    requires Legal(log) && After(log).Leads() && After(log).Recorded()
    ensures var s := After(log);
            && s.slot.value.row < |s.rows| && s.rows[s.slot.value.row].owner == Some(s.Me())
            && (Stranded(s) <==> !Enabled(s, Finish) && !Enabled(s, Forget))
            && (s.Mine(s.slot.value.row) ==> Enabled(s, Finish) && Enabled(Apply(s, Finish), Forget))
            && (!Stranded(s) && !s.Mine(s.slot.value.row) ==> !s.rows[s.slot.value.row].Open() && Enabled(s, Forget))
  {
    RunKeeps(log);
  }

  // What alone strands a result: the row fails while the root is away, with the result
  // recorded already, or with the publication still to be recorded when the root is back.
  lemma StrandedStep(s: State, a: Action)
    requires Inv(s) && Enabled(s, a) && !Stranded(s)
    ensures Stranded(Apply(s, a)) <==>
              || (a.FailChanged? && !s.Leads() && s.Recorded() && s.Mine(s.slot.value.row)
                  && s.slot.value.result != Failed(RootChanged))
              || (a.Record? && !s.Mine(s.driver.row) && ResultOf(s.driver.outcome) != Failed(RootChanged))
  {}

  lemma StrandedRun()
    ensures exists log :: Legal(log) && After(log).Leads() && Stranded(After(log))
  {
    var log, s := ClaimedRun();
    log, s := Take(log, s, Attempt(Pin(0, 2), Published(Pin(0, 2))));
    log, s := Take(log, s, Record);
    log, s := Take(log, s, ReplaceRoot(None));
    log, s := Take(log, s, FailChanged);
    log, s := Take(log, s, ReplaceRoot(Some(0)));
  }

  lemma ClaimedRun() returns (log: seq<Action>, s: State)
    ensures Legal(log) && s == After(log)
    ensures s == State([Row(Running, Some(0), 0, None, Pin(0, 0))], Some(0), Pin(0, 1), 1,
                       Some(Leader(0, 0)), Some(0), Claimed(0), None, 0, {0}, multiset{})
  {
    log, s := [], EMPTY_QUEUE;
    log, s := Take(log, s, Acquire(false));
    log, s := Take(log, s, Enqueue(None));
    log, s := Take(log, s, Reconcile(Pin(0, 1), true));
    log, s := Take(log, s, Claim);
  }

  // Without a change of the root nothing is stranded.
  lemma {:induction false} NeverStranded(log: seq<Action>)
    requires Legal(log) && Stays(log)
    ensures var s := After(log); !Stranded(s) && (!s.driver.Idle? ==> s.Mine(s.driver.row))
    decreases |log|
  {
    if log != [] {
      NeverStranded(log[..|log| - 1]);
      RunKeeps(log[..|log| - 1]);
      RootKept(log[..|log| - 1]);
      RootStep(After(log[..|log| - 1]), log[|log| - 1]);
    }
  }

  lemma RootStep(s: State, a: Action)
    requires Inv(s) && Enabled(s, a) && !Stranded(s) && (!s.driver.Idle? ==> s.Mine(s.driver.row))
    requires s.root == Some(0) && (s.holder.Some? ==> s.holder.value.root == 0)
    requires forall k | 0 <= k < |s.rows| :: s.rows[k].root == 0
    ensures var t := Apply(s, a); !Stranded(t) && (!t.driver.Idle? ==> t.Mine(t.driver.row))
  {
    StrandedStep(s, a);
  }

  lemma DrivenRow(log: seq<Action>)
    requires Legal(log) && !After(log).driver.Idle?
    ensures var s := After(log);
            && s.holder.Some? && s.driver.row < |s.rows| && s.reconciled == Some(s.Me()) && !s.Recorded()
            && (s.Mine(s.driver.row)
                || (s.rows[s.driver.row].status == Failed(RootChanged) && s.rows[s.driver.row].owner == Some(s.Me())))
  {
    RunKeeps(log);
  }

  // The next incarnation is a new one, and nothing is left of the one before.
  lemma FreshIncarnation(log: seq<Action>)
    requires Legal(log) && After(log).holder.None?
    ensures var s := After(log);
            && s.driver.Idle? && s.reconciled != Some(s.born)
            && (s.slot.Some? ==> s.slot.value.incarnation != s.born)
  {
    RunKeeps(log);
  }

  // A finished row never changes again.
  lemma {:induction false} FinishedStays(log: seq<Action>, more: seq<Action>, k: nat)
    requires Legal(log + more) && Legal(log) && k < |After(log).rows| && !After(log).rows[k].Open()
    ensures k < |After(log + more).rows| && After(log + more).rows[k] == After(log).rows[k]
    decreases |more|
  {
    if more == [] {
      assert log + more == log;
    } else {
      assert (log + more)[..|log + more| - 1] == log + more[..|more| - 1];
      FinishedStays(log, more[..|more| - 1], k);
      FinishedStep(After(log + more[..|more| - 1]), more[|more| - 1], k);
    }
  }

  lemma FinishedStep(s: State, a: Action, k: nat)
    requires Enabled(s, a) && k < |s.rows| && !s.rows[k].Open()
    ensures k < |Apply(s, a).rows| && Apply(s, a).rows[k] == s.rows[k]
  {}
}
