// What a lowering promises about one syntax node, and the state that the three
// adapters share while they build a view.
module Lowering {
  import opened Behaviour
  import opened Diagram
  import opened Forms
  import opened Options
  import opened Syntax

  const MAX_STEPS: nat := 200
  const MAX_PARTICIPANTS: nat := 20
  const MAX_DEPTH: nat := 24

  // ---- the promise ----

  // The flags tell the truth: continues when some run ends normally, exits when some
  // run leaves.
  ghost predicate Honest(f: Flow, p: Runs) {
    forall t, o :: p(t, o) ==> if o == Normal then f.continues else f.exits
  }

  // The part of Honest that also holds of a view that hit its bounds: a flow that does
  // not admit that it may leave always reaches its suffix.
  ghost predicate Guarded(f: Flow, p: Runs) {
    forall t, o :: p(t, o) ==> f.exits || (o == Normal && f.continues)
  }

  predicate Unconditional(s: Step) {
    s.kind.Act?
  }

  // A deed drawn outside every branch and loop is done by every execution.
  ghost predicate Mandatory(steps: seq<Step>, p: Runs) {
    forall i | 0 <= i < |steps| && Unconditional(steps[i]) :: Performs(p, Did(steps[i].kind.deed, steps[i].at))
  }

  // How far a view is: the steps taken, whether it was cut, and whether something other
  // than the steps may have cut it.
  datatype Mark = Mark(count: nat, cut: bool, loose: bool) {
    predicate Full() { count >= MAX_STEPS }

    predicate UpTo(later: Mark) {
      count <= later.count <= MAX_STEPS && (cut ==> later.cut) && (loose ==> later.loose)
    }
  }

  // The steps show exactly the runs p, unless the view says it was cut. However it was
  // cut, no deed is drawn as certain that some execution skips.
  ghost predicate Faithful(f: Flow, p: Runs, m: Mark) {
    && (!m.cut ==> Shows(Reading(f.steps), p) && Honest(f, p))
    && (!m.Full() ==> Guarded(f, p))
    && Mandatory(f.steps, p)
  }

  // At most k steps were taken, and a view was not cut for fewer.
  ghost predicate Metered(k: nat, m0: Mark, m: Mark) {
    if m.cut then m0.cut || m.loose || m0.count + k >= MAX_STEPS else m.count <= m0.count + k
  }

  // The lowering of a form with k steps, from one state of the builder to a later one. Its
  // step numbers are its own, and once the bound is reached it adds no step at all. What it
  // draws is what the form draws.
  ghost predicate Founded(f: Flow, p: Form, k: nat, m0: Mark, m: Mark) {
    && m0.UpTo(m)
    && Unique(Tally(f.steps), m0.count, m.count)
    && (m0.Full() ==> f.steps == [])
    && Faithful(f, Denote(p), m)
    && (!m.cut ==> Drafts(f, p))
    && Metered(k, m0, m)
  }

  ghost predicate Lowered(f: Flow, p: Form, m0: Mark, m: Mark) {
    Founded(f, p, Steps(p), m0, m)
  }

  // ---- composing flows ----

  lemma {:induction false} MandatoryFirst(steps: seq<Step>, p: Runs, q: Runs)
    requires Mandatory(steps, p)
    ensures Mandatory(steps, Seq(p, q))
  {
    forall i | 0 <= i < |steps| && Unconditional(steps[i])
      ensures Performs(Seq(p, q), Did(steps[i].kind.deed, steps[i].at))
    {
      PerformsFirst(p, q, Did(steps[i].kind.deed, steps[i].at));
    }
  }

  lemma {:induction false} MandatorySecond(steps: seq<Step>, p: Runs, q: Runs)
    requires Mandatory(steps, q) && forall t, o :: p(t, o) ==> o == Normal
    ensures Mandatory(steps, Seq(p, q))
  {
    forall i | 0 <= i < |steps| && Unconditional(steps[i])
      ensures Performs(Seq(p, q), Did(steps[i].kind.deed, steps[i].at))
    {
      PerformsSecond(p, q, Did(steps[i].kind.deed, steps[i].at));
    }
  }

  lemma {:induction false} MandatoryConcat(xs: seq<Step>, ys: seq<Step>, p: Runs)
    requires Mandatory(xs, p) && Mandatory(ys, p)
    ensures Mandatory(xs + ys, p)
  {}

  lemma {:induction false} ShowsConcat(xs: seq<Step>, ys: seq<Step>, p: Runs, q: Runs)
    requires Shows(Reading(xs), p) && Shows(Reading(ys), q)
    ensures Shows(Reading(xs + ys), Seq(p, q))
  {
    ReadingConcat(xs, ys);
    ShowsSeq(p, Reading(xs), q, Reading(ys));
  }

  lemma {:induction false} ShowsOne(s: Step, p: Runs)
    requires Shows(ReadStep(s), p)
    ensures Shows(Reading([s]), p)
  {
    ReadingOne(s);
  }

  lemma {:induction false} HonestSeq(first: Flow, next: Flow, r: Flow, p: Runs, q: Runs)
    requires Honest(first, p) && Honest(next, q)
    requires r.continues == next.continues && r.exits == (first.exits || next.exits)
    ensures Honest(r, Seq(p, q))
  {}

  lemma {:induction false} GuardedSeq(first: Flow, next: Flow, r: Flow, p: Runs, q: Runs)
    requires Guarded(first, p) && Guarded(next, q)
    requires r.continues == next.continues && r.exits == (first.exits || next.exits)
    ensures Guarded(r, Seq(p, q))
  {}

  // The two flows one after the other.
  lemma {:induction false} JoinPlain(first: Flow, next: Flow, p: Runs, q: Runs, m: Mark)
    requires Faithful(first, p, m) && Faithful(next, q, m)
    requires next.steps == [] || (!first.exits && Guarded(first, p))
    ensures Faithful(Flow(first.steps + next.steps, next.continues, first.exits || next.exits), Seq(p, q), m)
  {
    var r := Flow(first.steps + next.steps, next.continues, first.exits || next.exits);
    if !m.cut {
      ShowsConcat(first.steps, next.steps, p, q);
      HonestSeq(first, next, r, p, q);
    }
    if !m.Full() {
      GuardedSeq(first, next, r, p, q);
    }
    MandatoryFirst(first.steps, p, q);
    if next.steps != [] {
      MandatorySecond(next.steps, p, q);
    }
    MandatoryConcat(first.steps, next.steps, Seq(p, q));
  }

  // The second flow under a guard, which is where a suffix goes after a possible exit.
  lemma {:induction false} JoinGuard(first: Flow, next: Flow, guard: Step, p: Runs, q: Runs, m: Mark)
    requires Faithful(first, p, m) && Faithful(next, q, m)
    requires guard.kind == Branch(Guard) && guard.children == next.steps
    ensures Faithful(Flow(first.steps + [guard], next.continues, first.exits || next.exits), Seq(p, q), m)
  {
    var r := Flow(first.steps + [guard], next.continues, first.exits || next.exits);
    if !m.cut {
      GuardShown(first.steps, guard, p, q);
      HonestSeq(first, next, r, p, q);
    }
    if !m.Full() {
      GuardedSeq(first, next, r, p, q);
    }
    MandatoryFirst(first.steps, p, q);
    MandatoryConcat(first.steps, [guard], Seq(p, q));
  }

  // Nothing follows a flow that does not continue.
  lemma {:induction false} JoinDead(first: Flow, p: Runs, q: Runs, m: Mark)
    requires Faithful(first, p, m) && !first.continues
    ensures Faithful(first, Seq(p, q), m)
  {
    if !m.cut {
      SeqDead(p, q);
    }
    MandatoryFirst(first.steps, p, q);
  }

  // A suffix that was dropped, in a view that says so and draws no certain step after.
  lemma {:induction false} JoinCut(first: Flow, r: Flow, p: Runs, q: Runs, m: Mark)
    requires Faithful(first, p, m) && r.steps == first.steps
    requires m.cut && (r.exits || m.Full())
    ensures Faithful(r, Seq(p, q), m)
  {
    MandatoryFirst(first.steps, p, q);
  }

  lemma {:induction false} FaithfulSame(f: Flow, p: Runs, q: Runs, m: Mark)
    requires Faithful(f, p, m) && Same(p, q)
    ensures Faithful(f, q, m)
  {
    forall i | 0 <= i < |f.steps| && Unconditional(f.steps[i])
      ensures Performs(q, Did(f.steps[i].kind.deed, f.steps[i].at))
    {
      assert Performs(p, Did(f.steps[i].kind.deed, f.steps[i].at));
    }
  }

  // What Then makes of two flows: the second part under a guard when the first may
  // leave, right after it otherwise, and not at all when the first cannot end.
  ghost predicate Composed(first: Flow, next: Flow, r: Flow, p: Runs, q: Runs, lo: nat, m0: Mark, m: Mark) {
    && Unique(Tally(r.steps), lo, m.count)
    && (first.steps == [] && next.steps == [] ==> r.steps == [])
    && (Faithful(first, p, m0) && Faithful(next, q, m0) && (next.steps == [] || Guarded(first, p))
        ==> Faithful(r, Seq(p, q), m))
    && ComposedShown(first, next, r, p, q, m)
  }

  // Inside an arm or a loop round the flags of the second part do not count.
  ghost predicate ComposedShown(first: Flow, next: Flow, r: Flow, p: Runs, q: Runs, m: Mark) {
    !m.cut && Honest(first, p) && Shows(Reading(first.steps), p) && Shows(Reading(next.steps), q)
    ==> Shows(Reading(r.steps), Seq(p, q))
  }

  lemma {:induction false} ComposedDead(first: Flow, next: Flow, p: Runs, q: Runs, lo: nat, m: Mark)
    requires !first.continues && Unique(Tally(first.steps) + Tally(next.steps), lo, m.count)
    ensures Composed(first, next, first, p, q, lo, m, m)
  {
    UniquePart(Tally(first.steps), Tally(next.steps), lo, m.count);
    if Faithful(first, p, m) {
      JoinDead(first, p, q, m);
    }
    if Honest(first, p) {
      SeqDead(p, q);
    }
  }

  lemma {:induction false} ComposedPlain(first: Flow, next: Flow, p: Runs, q: Runs, lo: nat, m: Mark)
    requires first.continues && (next.steps == [] || !first.exits)
    requires Unique(Tally(first.steps) + Tally(next.steps), lo, m.count)
    ensures Composed(first, next, Flow(first.steps + next.steps, next.continues, first.exits || next.exits), p, q, lo, m, m)
  {
    TallyConcat(first.steps, next.steps);
    if Shows(Reading(first.steps), p) && Shows(Reading(next.steps), q) {
      ShowsConcat(first.steps, next.steps, p, q);
    }
    if Faithful(first, p, m) && Faithful(next, q, m) && (next.steps == [] || Guarded(first, p)) {
      JoinPlain(first, next, p, q, m);
    }
  }

  lemma {:induction false} ComposedGuard(first: Flow, next: Flow, steps: seq<Step>, guard: Option<Step>, at: Range,
                      p: Runs, q: Runs, lo: nat, m0: Mark, m: Mark)
    requires lo <= m0.count && Unique(Tally(first.steps) + Tally(next.steps), lo, m0.count)
    requires next.steps != [] && first.exits
    requires Drawn(if guard.Some? then [guard.value] else [], Branch(Guard), at, m0, m)
    requires steps == if guard.Some? then first.steps + [guard.value.(children := next.steps)] else first.steps
    ensures Composed(first, next, Flow(steps, next.continues, first.exits || next.exits), p, q, lo, m0, m)
  {
    if guard.Some? {
      var g := guard.value.(children := next.steps);
      GuardUnique(first.steps, g, lo, m0.count, m.count);
      if Shows(Reading(first.steps), p) && Shows(Reading(next.steps), q) {
        GuardShown(first.steps, g, p, q);
      }
      if Faithful(first, p, m) && Faithful(next, q, m) {
        JoinGuard(first, next, g, p, q, m);
      }
    } else {
      UniquePart(Tally(first.steps), Tally(next.steps), lo, m0.count);
      if Faithful(first, p, m) {
        JoinCut(first, Flow(steps, next.continues, true), p, q, m);
      }
    }
  }

  lemma {:induction false} GuardUnique(steps: seq<Step>, guard: Step, lo: nat, c0: nat, c: nat)
    requires lo <= c0 && c == c0 + 1 && Unique(Tally(steps) + Tally(guard.children), lo, c0)
    requires NumberOf(guard) == c && guard.alternate == []
    ensures Unique(Tally(steps + [guard]), lo, c)
  {
    TallyConcat(steps, [guard]);
    TallyOne(guard);
    UniqueSum(Tally(steps) + Tally(guard.children), multiset{c}, lo, c0, c);
    assert Tally(steps + [guard]) == Tally(steps) + Tally(guard.children) + multiset{c};
  }

  lemma {:induction false} GuardShown(steps: seq<Step>, guard: Step, p: Runs, q: Runs)
    requires guard.kind == Branch(Guard) && Shows(Reading(steps), p) && Shows(Reading(guard.children), q)
    ensures Shows(Reading(steps + [guard]), Seq(p, q))
  {
    assert ReadStep(guard) == Reading(guard.children);
    ShowsOne(guard, q);
    ShowsConcat(steps, [guard], p, q);
  }

  // At most one step more, and only a full view is cut by it.
  ghost predicate Spent(m0: Mark, m: Mark) {
    m0.UpTo(m) && m.count <= m0.count + 1 && (m.cut && !m0.cut ==> m0.Full())
  }

  // Two lowerings in the order of evaluation, and Then over them.
  lemma {:induction false} ThenLowered(first: Flow, next: Flow, r: Flow, p: Form, q: Form, m0: Mark, m1: Mark, m2: Mark, m: Mark)
    requires Lowered(first, p, m0, m1) && Lowered(next, q, m1, m2) && Spent(m2, m)
    requires Composed(first, next, r, Denote(p), Denote(q), m0.count, m2, m) && (!m.cut ==> Joined(first, next, r))
    ensures Lowered(r, Both(p, q), m0, m)
  {
    assert Faithful(first, Denote(p), m2);
    if !m.cut {
      JoinedDrafts(first, next, r, p, q);
    }
  }

  // ---- the pieces of a block ----

  lemma {:induction false} FoundedAlike(f: Flow, p: Form, q: Form, k: nat, l: nat, m0: Mark, m: Mark)
    requires Founded(f, p, k, m0, m) && Alike(p, q) && k <= l
    ensures Founded(f, q, l, m0, m)
  {
    FaithfulSame(f, Denote(p), Denote(q), m);
    if !m.cut {
      DraftsAlike(f, p, q);
    }
  }

  // A view that a bound other than the steps cut is not measured by its steps.
  lemma {:induction false} FoundedLoose(f: Flow, p: Form, k: nat, l: nat, m0: Mark, m: Mark)
    requires Founded(f, p, k, m0, m) && m.cut && m.loose
    ensures Founded(f, p, l, m0, m)
  {}

  lemma {:induction false} MeteredSum(k: nat, l: nat, m0: Mark, m1: Mark, m: Mark)
    requires m0.UpTo(m1) && m1.UpTo(m) && Metered(k, m0, m1) && Metered(l, m1, m)
    ensures Metered(k + l, m0, m)
  {}

  // One more part after a prefix that cannot leave.
  lemma {:induction false} FoundedAppend(out: Flow, f: Flow, p: Form, q: Form, k: nat, l: nat, m0: Mark, m1: Mark, m: Mark)
    requires Founded(out, p, k, m0, m1) && Founded(f, q, l, m1, m) && out.continues && !out.exits
    ensures Founded(Flow(out.steps + f.steps, f.continues, out.exits || f.exits), Both(p, q), k + l, m0, m)
  {
    var r := Flow(out.steps + f.steps, f.continues, out.exits || f.exits);
    UniqueSum(Tally(out.steps), Tally(f.steps), m0.count, m1.count, m.count);
    ComposedPlain(out, f, Denote(p), Denote(q), m0.count, m);
    assert Faithful(out, Denote(p), m);
    if !m.cut {
      JoinedPlain(out, f, r.exits);
      JoinedDrafts(out, f, r, p, q);
    }
  }

  lemma {:induction false} FoundedDead(out: Flow, p: Form, q: Form, k: nat, m0: Mark, m: Mark)
    requires Founded(out, p, k, m0, m) && !out.continues
    ensures Founded(out, Both(p, q), k, m0, m)
  {
    JoinDead(out, Denote(p), Denote(q), m);
  }

  lemma {:induction false} LoweredDead(out: Flow, p: Form, q: Form, m0: Mark, m: Mark)
    requires Lowered(out, p, m0, m) && !out.continues
    ensures Lowered(out, Both(p, q), m0, m)
  {
    FoundedDead(out, p, q, Steps(p), m0, m);
  }

  // What follows was dropped at a bound.
  lemma {:induction false} FoundedCut(out: Flow, p: Form, q: Form, k: nat, m0: Mark, m1: Mark, m: Mark)
    requires Founded(out, p, k, m0, m1) && m1.UpTo(m) && (m1.cut || m1.Full() || m.loose)
    requires m.cut && (out.exits || m.Full())
    ensures Founded(out, Both(p, q), k, m0, m)
  {
    JoinCut(out, out, Denote(p), Denote(q), m);
  }

  // The rest of the block, under a guard step drawn before it.
  lemma {:induction false} FoundedSuffix(out: Flow, guard: Step, rest: Flow, p: Form, q: Form, k: nat, l: nat, at: Range,
                      m0: Mark, m1: Mark, m2: Mark, m: Mark)
    requires Founded(out, p, k, m0, m1) && !m1.Full() && Drawn([guard.(children := [])], Branch(Guard), at, m1, m2)
    requires Founded(rest, q, l, m2, m) && guard.children == rest.steps && out.continues
    ensures Founded(Flow(out.steps + [guard], rest.continues, out.exits || rest.exits), Both(p, q), k + 1 + l, m0, m)
  {
    var r := Flow(out.steps + [guard], rest.continues, out.exits || rest.exits);
    SuffixUnique(out.steps, guard, m0.count, m1.count, m2.count, m.count);
    JoinGuard(out, rest, guard, Denote(p), Denote(q), m);
    if !m.cut {
      JoinedGuard(out, rest, guard, r.exits);
      JoinedDrafts(out, rest, r, p, q);
    }
  }

  lemma {:induction false} SuffixUnique(steps: seq<Step>, guard: Step, c0: nat, c1: nat, c2: nat, c: nat)
    requires c0 <= c1 && c2 == c1 + 1 && c2 <= c && Unique(Tally(steps), c0, c1) && Unique(Tally(guard.children), c2, c)
    requires NumberOf(guard) == c2 && guard.alternate == []
    ensures Unique(Tally(steps + [guard]), c0, c)
  {
    UniqueSum(Tally(steps), multiset{c2}, c0, c1, c2);
    UniqueSum(Tally(steps) + multiset{c2}, Tally(guard.children), c0, c2, c);
    TallyConcat(steps, [guard]);
    TallyOne(guard);
    assert Tally(steps + [guard]) == Tally(steps) + multiset{c2} + Tally(guard.children);
  }

  // ---- flows of one step ----

  // What NewStep leaves behind: one childless step, or nothing in a full, cut view.
  predicate Drawn(steps: seq<Step>, kind: Kind, at: Range, m0: Mark, m: Mark) {
    if m0.Full() then
      steps == [] && m == m0.(cut := true)
    else
      m == m0.(count := m0.count + 1) && steps == [Step(StepId(at.start, m.count), kind, at, None, [], [])]
  }

  lemma {:induction false} DrawnUnique(steps: seq<Step>, kind: Kind, at: Range, m0: Mark, m: Mark)
    requires Drawn(steps, kind, at, m0, m) && !kind.Group?
    ensures Unique(Tally(steps), m0.count, m.count)
  {
    if !m0.Full() {
      TallyOne(steps[0]);
    }
  }

  lemma {:induction false} ActLowered(f: Flow, deed: Deed, at: Range, m0: Mark, m: Mark)
    requires m0.count <= MAX_STEPS && Drawn(f.steps, Act(deed), at, m0, m) && f.continues
    requires deed != Return && deed != Throw && deed != Leave
    ensures Lowered(f, Does(deed, at), m0, m)
  {
    DrawnUnique(f.steps, Act(deed), at, m0, m);
    if f.steps != [] {
      ReadingOne(f.steps[0]);
      SketchedOne(f.steps[0], Does(deed, at));
    }
  }

  // The evidence of a call step changes nothing about what it says.
  lemma {:induction false} MeasuredLowered(f: Flow, s: Step, callId: string, at: Range, m0: Mark, m: Mark)
    requires m0.count <= MAX_STEPS && Drawn([s], Act(Call), at, m0, m)
    requires f == EMPTY_FLOW.(steps := [s.(callId := Some(callId))])
    ensures Lowered(f, Does(Call, at), m0, m)
  {
    TallyOne(f.steps[0]);
    ReadingOne(f.steps[0]);
    SketchedOne(f.steps[0], Does(Call, at));
  }

  lemma {:induction false} ExitLowered(f: Flow, deed: Deed, at: Range, m0: Mark, m: Mark)
    requires m0.count <= MAX_STEPS && Drawn(f.steps, Act(deed), at, m0, m) && f.exits && !f.continues
    requires deed == Return || deed == Throw
    ensures Lowered(f, Leaving(deed, at, Exit), m0, m)
  {
    LeavingForm(deed, at, Exit);
    DrawnUnique(f.steps, Act(deed), at, m0, m);
    if f.steps != [] {
      ReadingOne(f.steps[0]);
      SketchedOne(f.steps[0], Leaving(deed, at, Exit));
    }
    PerformsFirst(Emit(Did(deed, at)), Stop(Exit), Did(deed, at));
  }

  lemma {:induction false} VeilLowered(f: Flow, at: Range, allowed: set<Outcome>, m0: Mark, m: Mark)
    requires m0.count <= MAX_STEPS && Drawn(f.steps, Boundary, at, m0, m)
    requires allowed <= ANY_OUTCOME && f.continues == (Normal in allowed)
    requires forall o | o in allowed && o != Normal :: f.exits
    ensures Lowered(f, Hides(at, allowed), m0, m)
  {
    DrawnUnique(f.steps, Boundary, at, m0, m);
    ShowsVeil(at, allowed);
    if f.steps != [] {
      ReadingOne(f.steps[0]);
      SketchedOne(f.steps[0], Hides(at, allowed));
    }
  }

  lemma {:induction false} PauseLowered(f: Flow, at: Range, m0: Mark, m: Mark)
    requires m0.count <= MAX_STEPS && Drawn(f.steps, Boundary, at, m0, m) && f.exits && !f.continues
    ensures Lowered(f, Pauses(at), m0, m)
  {
    DrawnUnique(f.steps, Boundary, at, m0, m);
    ShowsVeil(at, {Exit, Break, Continue});
    if f.steps != [] {
      ReadingOne(f.steps[0]);
      SketchedOne(f.steps[0], Pauses(at));
    }
  }

  // A boundary that admits to leave may stand for anything in a cut view.
  lemma {:induction false} CutLowered(f: Flow, p: Form, at: Range, m0: Mark, m: Mark)
    requires m0.count <= MAX_STEPS && Drawn(f.steps, Boundary, at, m0, m)
    requires m0.cut && f.exits
    ensures Lowered(f, p, m0, m)
  {
    DrawnUnique(f.steps, Boundary, at, m0, m);
  }

  // So may nothing at all, once no step can follow.
  lemma {:induction false} FullLowered(f: Flow, p: Form, m0: Mark, m: Mark)
    requires f.steps == [] && m0.UpTo(m) && m.cut && m0.Full()
    ensures Lowered(f, p, m0, m)
  {}

  lemma {:induction false} LoweredEarlier(f: Flow, p: Form, m0: Mark, m1: Mark, m: Mark)
    requires m0.UpTo(m1) && m0.count == m1.count && Lowered(f, p, m1, m)
    requires m1.cut ==> m0.cut || m1.Full() || m1.loose
    ensures Lowered(f, p, m0, m)
  {}

  lemma {:induction false} EmptyLowered(m: Mark)
    requires m.count <= MAX_STEPS
    ensures Lowered(EMPTY_FLOW, Pass, m, m)
  {}

  // A step that wraps one or two lowered flows and is not a deed itself.
  lemma {:induction false} WrapLowered(f: Flow, s: Step, p: Form, m0: Mark, m: Mark)
    requires m0.UpTo(m) && !m0.Full() && f.steps == [s] && !Unconditional(s)
    requires Unique(TallyStep(s), m0.count, m.count)
    requires !m.cut ==> Shows(ReadStep(s), Denote(p)) && Honest(f, Denote(p))
    requires !m.Full() ==> Guarded(f, Denote(p))
    requires !m.cut ==> Sketched([s], p) && f.continues == Goes(p)
    requires Metered(Steps(p), m0, m)
    ensures Lowered(f, p, m0, m)
  {
    TallyOne(s);
    ReadingOne(s);
  }

  // Children or alternate, whichever way the test went.
  lemma {:induction false} ForkShown(s: Step, yes: Flow, no: Flow, f: Flow, p: Runs, q: Runs, m: Mark)
    requires Faithful(yes, p, m) && Faithful(no, q, m)
    requires s.kind == Branch(Fork) && s.children == yes.steps && s.alternate == no.steps
    requires f.continues == (yes.continues || no.continues) && f.exits == (yes.exits || no.exits)
    ensures !m.cut ==> Shows(ReadStep(s), Choice(s.at, p, q)) && Honest(f, Choice(s.at, p, q))
    ensures !m.Full() ==> Guarded(f, Choice(s.at, p, q))
  {
    if !m.cut {
      ShowsChoice(s.at, p, Reading(yes.steps), q, Reading(no.steps));
    }
  }

  lemma {:induction false} ForkWhole(s: Step, yes: Flow, no: Flow, f: Flow, p: Form, q: Form, m0: Mark, m: Mark)
    requires Faithful(yes, Denote(p), m) && Faithful(no, Denote(q), m)
    requires !m.cut ==> Drafts(yes, p) && Drafts(no, q)
    requires m0.UpTo(m) && !m0.Full() && Unique(TallyStep(s), m0.count, m.count) && Metered(Steps(Either(s.at, p, q)), m0, m)
    requires s.kind == Branch(Fork) && s.children == yes.steps && s.alternate == no.steps && f.steps == [s]
    requires f.continues == (yes.continues || no.continues) && f.exits == (yes.exits || no.exits)
    ensures Lowered(f, Either(s.at, p, q), m0, m)
  {
    ForkShown(s, yes, no, f, Denote(p), Denote(q), m);
    if !m.cut {
      SketchedFork(s, p, q);
    }
    WrapLowered(f, s, Either(s.at, p, q), m0, m);
  }

  lemma {:induction false} ForkLowered(s: Step, yes: Flow, no: Flow, f: Flow, p: Form, q: Form, m0: Mark, m1: Mark, m2: Mark, m: Mark)
    requires Drawn([s.(children := [], alternate := [])], Branch(Fork), s.at, m0, m1) && !m0.Full()
    requires Lowered(yes, p, m1, m2) && Lowered(no, q, m2, m)
    requires s.children == yes.steps && s.alternate == no.steps && f.steps == [s]
    requires f.continues == (yes.continues || no.continues) && f.exits == (yes.exits || no.exits)
    ensures Lowered(f, Either(s.at, p, q), m0, m)
  {
    assert Faithful(yes, Denote(p), m);
    ForkUnique(s, m0.count, m1.count, m2.count, m.count);
    ForkWhole(s, yes, no, f, p, q, m0, m);
  }

  lemma {:induction false} ForkUnique(s: Step, c0: nat, c1: nat, c2: nat, c: nat)
    requires c1 == c0 + 1 && c1 <= c2 <= c && NumberOf(s) == c1
    requires Unique(Tally(s.children), c1, c2) && Unique(Tally(s.alternate), c2, c)
    ensures Unique(TallyStep(s), c0, c)
  {
    UniqueSum(multiset{c1}, Tally(s.children), c0, c1, c2);
    UniqueSum(multiset{c1} + Tally(s.children), Tally(s.alternate), c0, c2, c);
  }

  // The same for a branch step that is drawn after both of its sides.
  lemma {:induction false} ForkLoweredAfter(s: Step, yes: Flow, no: Flow, f: Flow, p: Form, q: Form, m0: Mark, m1: Mark, m2: Mark, m: Mark)
    requires Lowered(yes, p, m0, m1) && Lowered(no, q, m1, m2)
    requires Drawn([s.(children := [], alternate := [])], Branch(Fork), s.at, m2, m) && !m2.Full()
    requires s.children == yes.steps && s.alternate == no.steps && f.steps == [s]
    requires f.continues == (yes.continues || no.continues) && f.exits == (yes.exits || no.exits)
    ensures Lowered(f, Either(s.at, p, q), m0, m)
  {
    assert Faithful(yes, Denote(p), m) && Faithful(no, Denote(q), m);
    ForkUniqueAfter(s, m0.count, m1.count, m2.count, m.count);
    ForkWhole(s, yes, no, f, p, q, m0, m);
  }

  // Both sides were walked, and no step was left for the branch.
  lemma {:induction false} ForkFull(yes: Flow, no: Flow, f: Flow, at: Range, p: Form, q: Form, m0: Mark, m1: Mark, m2: Mark, m: Mark)
    requires Lowered(yes, p, m0, m1) && Lowered(no, q, m1, m2) && m2.Full() && m == m2.(cut := true) && f.steps == []
    ensures Lowered(f, Either(at, p, q), m0, m)
  {
    MeteredSum(Steps(p), Steps(q), m0, m1, m2);
  }

  lemma {:induction false} ForkUniqueAfter(s: Step, c0: nat, c1: nat, c2: nat, c: nat)
    requires c0 <= c1 <= c2 && c == c2 + 1 && NumberOf(s) == c
    requires Unique(Tally(s.children), c0, c1) && Unique(Tally(s.alternate), c1, c2)
    ensures Unique(TallyStep(s), c0, c)
  {
    UniqueSum(Tally(s.children), Tally(s.alternate), c0, c1, c2);
    UniqueSum(Tally(s.children) + Tally(s.alternate), multiset{c}, c0, c2, c);
    assert TallyStep(s) == Tally(s.children) + Tally(s.alternate) + multiset{c};
  }

  // A loop step over one round. It says it may leave; it may only say that it does not
  // continue when no run of the loop ends.
  lemma {:induction false} LoopLowered(f: Flow, s: Step, round: Form, endless: bool, m0: Mark, m1: Mark, m: Mark)
    requires Drawn([s.(children := [])], Repeat(endless), s.at, m0, m1) && !m0.Full() && f.steps == [s] && f.exits
    requires m1.UpTo(m) && Unique(Tally(s.children), m1.count, m.count) && Metered(Steps(round), m1, m)
    requires !m.cut ==> Shows(Reading(s.children), Denote(round)) && Sketched(s.children, round)
    requires !m.cut ==> f.continues == Goes(Cycle(round, endless))
    requires !m.cut && !f.continues ==> Never(Loop(Denote(round), endless), Normal)
    ensures Lowered(f, Cycle(round, endless), m0, m)
  {
    UniqueSum(multiset{m1.count}, Tally(s.children), m0.count, m1.count, m.count);
    if !m.cut {
      LoopShown(s, round, endless);
    }
    WrapLowered(f, s, Cycle(round, endless), m0, m);
  }

  lemma {:induction false} LoopShown(s: Step, round: Form, endless: bool)
    requires s.kind == Repeat(endless) && s.alternate == []
    requires Shows(Reading(s.children), Denote(round)) && Sketched(s.children, round)
    ensures Shows(ReadStep(s), Denote(Cycle(round, endless))) && Sketched([s], Cycle(round, endless))
  {
    ShowsLoop(Denote(round), Reading(s.children), endless);
    assert ReadStep(s) == Loop(Reading(s.children), endless);
    SketchedLoop(s, round, endless);
  }

  lemma {:induction false} EachUnique(test: Flow, body: Flow, each: Step, c0: nat, c1: nat, c2: nat)
    requires c0 <= c1 <= c2 && Unique(Tally(test.steps), c0, c1) && Unique(Tally(body.steps), c1, c2)
    requires NumberOf(each) == c2 + 1 && each.children == body.steps && each.alternate == []
    ensures Unique(Tally(test.steps) + Tally([each]), c0, c2 + 1)
  {
    TallyOne(each);
    UniqueSum(Tally(test.steps), Tally(body.steps), c0, c1, c2);
    UniqueSum(Tally(test.steps) + Tally(body.steps), multiset{c2 + 1}, c0, c2, c2 + 1);
    assert Tally(test.steps) + Tally([each]) == Tally(test.steps) + Tally(body.steps) + multiset{c2 + 1};
  }

  // Two parts and at most two steps of their own.
  lemma {:induction false} WayOutMetered(k: nat, l: nat, m0: Mark, m1: Mark, m2: Mark, m: Mark)
    requires m0.UpTo(m1) && Metered(k, m0, m1) && m1.UpTo(m2) && Metered(l, m1, m2) && m2.UpTo(m)
    requires m.count <= m2.count + 2 && (m.cut && !m2.cut ==> m2.count + 1 >= MAX_STEPS)
    ensures Metered(k + l + 2, m0, m)
  {}

  // The branch step under which a loop round or an arm runs its body.
  predicate WayOut(s: Step, body: seq<Step>, lands: Outcome) {
    && ((s.kind == Branch(Each) && lands == Done) || (s.kind == Branch(Selected) && lands == Reject))
    && s.children == body && s.alternate == []
  }

  // A round or a guarded arm: the first part, then the body under its own branch.
  lemma {:induction false} WayOutLowered(first: Flow, body: Flow, s: Step, inner: Flow, p: Form, q: Form, lands: Outcome, m: Mark)
    requires !m.cut ==> Faithful(first, Denote(p), m) && Drafts(first, p) && Faithful(body, Denote(q), m) && Drafts(body, q)
    requires WayOut(s, body.steps, lands)
    requires ComposedShown(first, Flow([s], true, false), inner, Denote(p), Choice(s.at, Denote(q), Stop(lands)), m)
    requires !m.cut ==> Joined(first, Flow([s], true, false), inner)
    ensures var f := Both(p, Either(s.at, q, Land(lands)));
            !m.cut ==> Shows(Reading(inner.steps), Denote(f)) && Sketched(inner.steps, f)
  {
    if !m.cut {
      WayOutForm(s.at, p, q, lands);
      WayOutShown(s, body.steps, Denote(q), lands);
      BodySketched(first, body, s, inner, p, q, lands);
    }
  }

  lemma {:induction false} WayOutShown(s: Step, body: seq<Step>, q: Runs, lands: Outcome)
    requires WayOut(s, body, lands) && Shows(Reading(body), q)
    ensures Shows(Reading([s]), Choice(s.at, q, Stop(lands)))
  {
    ShowsChoice(s.at, q, Reading(body), Stop(lands), Stop(lands));
    assert ReadStep(s) == Choice(s.at, Reading(body), Stop(lands));
    ShowsOne(s, Choice(s.at, q, Stop(lands)));
  }

  lemma {:induction false} RoundLowered(test: Flow, body: Flow, each: Step, inner: Flow, p: Form, q: Form,
                                        m0: Mark, m1: Mark, m2: Mark, m: Mark)
    requires Lowered(test, p, m0, m1) && Lowered(body, q, m1, m2) && m2.UpTo(m) && WayOut(each, body.steps, Done)
    requires ComposedShown(test, Flow([each], true, false), inner, Denote(p), Choice(each.at, Denote(q), Stop(Done)), m)
    requires !m.cut ==> Joined(test, Flow([each], true, false), inner)
    ensures var f := Round(each.at, p, q);
            !m.cut ==> Shows(Reading(inner.steps), Denote(f)) && Sketched(inner.steps, f)
  {
    WayOutLowered(test, body, each, inner, p, q, Done, m);
  }

  lemma {:induction false} RoundMetered(test: Flow, body: Flow, at: Range, p: Form, q: Form, m0: Mark, m1: Mark, m2: Mark, m: Mark)
    requires Lowered(test, p, m0, m1) && Lowered(body, q, m1, m2) && m2.UpTo(m)
    requires m.count <= m2.count + 2 && (m.cut && !m2.cut ==> m2.count + 1 >= MAX_STEPS)
    ensures Metered(Steps(Round(at, p, q)), m0, m)
  {
    WayOutForm(at, p, q, Done);
    WayOutMetered(Steps(p), Steps(q), m0, m1, m2, m);
  }

  lemma {:induction false} BodySketched(first: Flow, body: Flow, s: Step, inner: Flow, p: Form, q: Form, lands: Outcome)
    requires Drafts(first, p) && Drafts(body, q) && Joined(first, Flow([s], true, false), inner)
    requires WayOut(s, body.steps, lands)
    ensures Sketched(inner.steps, Both(p, Either(s.at, q, Land(lands))))
  {
    SketchedBody(s, q, lands);
    if first.continues {
      SameSeq(Reading(first.steps), Drawing(p), Reading([s]), Drawing(Either(s.at, q, Land(lands))));
    }
  }

  // A transfer the adapter understands.
  lemma {:induction false} LeaveLowered(f: Flow, lands: Outcome, at: Range, m0: Mark, m: Mark)
    requires m0.count <= MAX_STEPS && Drawn(f.steps, Jump(lands), at, m0, m) && f.exits && !f.continues && lands != Normal
    ensures Lowered(f, Leaving(Leave, at, lands), m0, m)
  {
    LeavingForm(Leave, at, lands);
    DrawnUnique(f.steps, Jump(lands), at, m0, m);
    if f.steps != [] {
      ReadingOne(f.steps[0]);
      SketchedOne(f.steps[0], Leaving(Leave, at, lands));
    }
  }

  lemma {:induction false} UniquePart(m: multiset<nat>, n: multiset<nat>, lo: nat, hi: nat)
    requires Unique(m + n, lo, hi)
    ensures Unique(m, lo, hi) && Unique(n, lo, hi)
  {
    forall k: nat ensures m[k] <= (m + n)[k] && n[k] <= (m + n)[k] {}
  }

  lemma {:induction false} UniqueSum(m: multiset<nat>, n: multiset<nat>, lo: nat, mid: nat, hi: nat)
    requires lo <= mid <= hi && Unique(m, lo, mid) && Unique(n, mid, hi)
    ensures Unique(m + n, lo, hi)
  {}

  // A call is drawn as one only where the index measured it.
  function Invocation(src: Source, at: Range, allowed: set<Outcome>): Form {
    if SiteOf(src, at).Some? then Does(Call, at) else Hides(at, allowed)
  }

  // ---- blocks ----

  // The block of the forms ps, lowered up to part i without a guard.
  ghost predicate Upto(ps: seq<Form>, i: nat, out: Flow, m0: Mark, m: Mark)
    requires i <= |ps|
  {
    Founded(out, Fold(ps[..i]), Sum(ps[..i]), m0, m)
  }

  lemma {:induction false} BlockNext(ps: seq<Form>, i: nat, out: Flow, f: Flow, m0: Mark, m1: Mark, m: Mark)
    requires i < |ps| && out.continues && !out.exits
    requires Upto(ps, i, out, m0, m1) && Lowered(f, ps[i], m1, m)
    ensures Upto(ps, i + 1, Flow(out.steps + f.steps, f.continues, out.exits || f.exits), m0, m)
  {
    var r := Flow(out.steps + f.steps, f.continues, out.exits || f.exits);
    var k := Sum(ps[..i]) + Steps(ps[i]);
    FoundedAppend(out, f, Fold(ps[..i]), ps[i], Sum(ps[..i]), Steps(ps[i]), m0, m1, m);
    FoldNext(ps, i);
    FoundedAlike(r, Both(Fold(ps[..i]), ps[i]), Fold(ps[..i + 1]), k, k, m0, m);
  }

  lemma {:induction false} BlockDead(ps: seq<Form>, i: nat, out: Flow, m0: Mark, m: Mark)
    requires i <= |ps| && !out.continues && Upto(ps, i, out, m0, m)
    ensures Lowered(out, Fold(ps), m0, m)
  {
    FoundedDead(out, Fold(ps[..i]), Fold(ps[i..]), Sum(ps[..i]), m0, m);
    BlockWhole(ps, i, out, Sum(ps[..i]), m0, m);
  }

  lemma {:induction false} BlockCut(ps: seq<Form>, i: nat, out: Flow, m0: Mark, m1: Mark, m: Mark)
    requires i <= |ps| && Upto(ps, i, out, m0, m1) && m1.UpTo(m) && (m1.cut || m1.Full() || m.loose)
    requires m.cut && (out.exits || m.Full())
    ensures Lowered(out, Fold(ps), m0, m)
  {
    FoundedCut(out, Fold(ps[..i]), Fold(ps[i..]), Sum(ps[..i]), m0, m1, m);
    BlockWhole(ps, i, out, Sum(ps[..i]), m0, m);
  }

  // The rest of the block under a guard step.
  lemma {:induction false} BlockGuarded(ps: seq<Form>, i: nat, out: Flow, guard: Step, rest: Flow, at: Range, m0: Mark, m1: Mark, m2: Mark, m: Mark)
    requires 0 < i <= |ps| && Upto(ps, i, out, m0, m1) && Lowered(rest, Fold(ps[i..]), m2, m) && out.continues
    requires !m1.Full() && Drawn([guard.(children := [])], Branch(Guard), at, m1, m2) && guard.children == rest.steps
    ensures Lowered(Flow(out.steps + [guard], rest.continues, out.exits || rest.exits), Fold(ps), m0, m)
  {
    var k, l := Sum(ps[..i]), Steps(Fold(ps[i..]));
    FoundedSuffix(out, guard, rest, Fold(ps[..i]), Fold(ps[i..]), k, l, at, m0, m1, m2, m);
    FoldSteps(ps[i..]);
    BlockWhole(ps, i, Flow(out.steps + [guard], rest.continues, out.exits || rest.exits), k + 1 + l, m0, m);
  }

  lemma {:induction false} BlockWhole(ps: seq<Form>, i: nat, out: Flow, k: nat, m0: Mark, m: Mark)
    requires i <= |ps| && Founded(out, Both(Fold(ps[..i]), Fold(ps[i..])), k, m0, m)
    requires k <= Sum(ps[..i]) + Sum(ps[i..]) + |ps|
    ensures Lowered(out, Fold(ps), m0, m)
  {
    FoldSplit(ps, i);
    FoldSteps(ps);
    FoundedAlike(out, Both(Fold(ps[..i]), Fold(ps[i..])), Fold(ps), k, Steps(Fold(ps)), m0, m);
  }

  // The same in a view that was cut otherwise.
  lemma {:induction false} BlockLoose(ps: seq<Form>, i: nat, out: Flow, m0: Mark, m: Mark)
    requires i <= |ps| && Lowered(out, Both(Fold(ps[..i]), Fold(ps[i..])), m0, m) && m.cut && m.loose
    ensures Lowered(out, Fold(ps), m0, m)
  {
    FoundedLoose(out, Both(Fold(ps[..i]), Fold(ps[i..])), Steps(Both(Fold(ps[..i]), Fold(ps[i..]))), 0, m0, m);
    BlockWhole(ps, i, out, 0, m0, m);
  }

  lemma {:induction false} BlockEnd(ps: seq<Form>, out: Flow, m0: Mark, m: Mark)
    requires Upto(ps, |ps|, out, m0, m)
    ensures Lowered(out, Fold(ps), m0, m)
  {
    assert ps[..|ps|] == ps;
    FoldSteps(ps);
  }

  lemma {:induction false} BlockStart(ps: seq<Form>, m: Mark)
    requires m.count <= MAX_STEPS
    ensures Upto(ps, 0, EMPTY_FLOW, m, m)
  {
    assert ps[..0] == [];
  }

  // ---- the view under construction ----

  class Builder {
    var count: nat
    var visits: nat
    var truncated: bool
    var participants: seq<string>
    const seed: string
    const overflow: string
    // How deep the walked tree lets the walk go, how many nodes it has, and how many of them
    // the walk is ready to visit.
    ghost const span: nat
    ghost const size: nat
    ghost const patience: Option<nat>

    // The lane of the seed comes first. Lanes never repeat, and the shared one has a place
    // kept for it.
    ghost predicate Valid()
      reads this
    {
      && count <= MAX_STEPS
      && 1 <= |participants| <= MAX_PARTICIPANTS && participants[0] == seed
      && (forall i, j | 0 <= i < j < |participants| :: participants[i] != participants[j])
      && (|participants| == MAX_PARTICIPANTS ==> overflow in participants)
      && (truncated ==> AtBound())
    }

    // The steps are used up, or the tree is too large.
    ghost predicate AtBound()
      reads this
    {
      count >= MAX_STEPS || Loose()
    }

    // Too many nodes or too deep.
    ghost predicate Loose() {
      (patience.Some? && size >= patience.value) || span > MAX_DEPTH
    }

    ghost predicate Within(depth: nat, below: nat) {
      depth + below <= span
    }

    ghost function Now(): Mark
      reads this
    {
      Mark(count, truncated, Loose())
    }

    constructor (seed: string, overflow: string, ghost span: nat, ghost size: nat, ghost patience: Option<nat>)
      ensures this.span == span && this.size == size && this.patience == patience
      ensures Valid() && Now().count == 0 && !truncated && visits == 0
      ensures participants == [seed] && this.seed == seed && this.overflow == overflow
    {
      count, visits, truncated := 0, 0, false;
      participants := [seed];
      this.seed := seed;
      this.overflow := overflow;
      this.span, this.size, this.patience := span, size, patience;
    }

    // A view is called cut only at a bound.
    method Limit()
      requires AtBound()
      modifies this`truncated
      ensures truncated
    {
      truncated := true;
    }

    method NewStep(at: Range, kind: Kind) returns (s: Option<Step>)
      requires Valid()
      modifies this`count, this`truncated
      ensures Valid() && old(Now()).UpTo(Now())
      ensures Drawn(if s.Some? then [s.value] else [], kind, at, old(Now()), Now())
    {
      if count >= MAX_STEPS {
        Limit();
        return None;
      }
      count := count + 1;
      s := Some(Step(StepId(at.start, count), kind, at, None, [], []));
    }

    method Event(at: Range, deed: Deed) returns (f: Flow)
      requires Valid()
      modifies this`count, this`truncated
      ensures Valid() && old(Now()).UpTo(Now())
      ensures f.continues && !f.exits && Drawn(f.steps, Act(deed), at, old(Now()), Now())
    {
      var s := NewStep(at, Act(deed));
      f := EMPTY_FLOW.(steps := if s.Some? then [s.value] else []);
    }

    // A deed that every path through it does and then goes on.
    method Perform(at: Range, deed: Deed) returns (f: Flow)
      requires Valid() && deed != Return && deed != Throw && deed != Leave
      modifies this`count, this`truncated
      ensures Valid() && Lowered(f, Does(deed, at), old(Now()), Now()) && f.continues && !f.exits
    {
      ghost var m0 := Now();
      f := Event(at, deed);
      ActLowered(f, deed, at, m0, Now());
    }

    // A return or a throw.
    method Depart(at: Range, deed: Deed) returns (f: Flow)
      requires Valid() && (deed == Return || deed == Throw)
      modifies this`count, this`truncated
      ensures Valid() && Lowered(f, Leaving(deed, at, Exit), old(Now()), Now()) && !f.continues && f.exits
    {
      ghost var m0 := Now();
      f := Event(at, deed);
      f := f.(exits := true, continues := false);
      ExitLowered(f, deed, at, m0, Now());
    }

    // A break or a continue that is drawn as a step of its own.
    method Transfer(at: Range, lands: Outcome) returns (f: Flow)
      requires Valid() && lands != Normal
      modifies this`count, this`truncated
      ensures Valid() && Lowered(f, Leaving(Leave, at, lands), old(Now()), Now()) && !f.continues && f.exits
    {
      ghost var m0 := Now();
      var s := NewStep(at, Jump(lands));
      f := Flow(if s.Some? then [s.value] else [], false, true);
      LeaveLowered(f, lands, at, m0, Now());
    }

    // unknown: an opaque form that may leave and may end normally.
    method Mask(at: Range, ghost allowed: set<Outcome>) returns (f: Flow)
      requires Valid() && Normal in allowed && allowed <= ANY_OUTCOME
      modifies this`count, this`truncated
      ensures Valid() && Lowered(f, Hides(at, allowed), old(Now()), Now()) && f.continues && f.exits
      ensures Drawn(f.steps, Boundary, at, old(Now()), Now())
    {
      ghost var m0 := Now();
      f := Unknown(at);
      VeilLowered(f, at, allowed, m0, Now());
    }

    // The same boundary for whatever a bound kept from being walked.
    method GiveUp(at: Range, ghost p: Form) returns (f: Flow)
      requires Valid() && AtBound()
      modifies this`count, this`truncated
      ensures Valid() && Lowered(f, p, old(Now()), Now()) && f.continues && f.exits && truncated
    {
      ghost var m0 := Now();
      Limit();
      ghost var m1 := Now();
      f := Unknown(at);
      CutLowered(f, p, at, m1, Now());
      LoweredEarlier(f, p, m0, m1, Now());
    }

    // A block that a bound stops before its part i.
    method CutShort(out: Flow, ghost ps: seq<Form>, ghost i: nat, ghost m0: Mark)
      requires Valid() && AtBound() && (out.exits || count >= MAX_STEPS)
      requires i <= |ps| && Upto(ps, i, out, m0, Now())
      modifies this`truncated
      ensures Valid() && Lowered(out, Fold(ps), m0, Now()) && truncated
    {
      ghost var m := Now();
      Limit();
      BlockCut(ps, i, out, m0, m, Now());
    }

    method BoundaryAt(at: Range) returns (f: Flow)
      requires Valid()
      modifies this`count, this`truncated
      ensures Valid() && old(Now()).UpTo(Now())
      ensures f.continues && !f.exits && Drawn(f.steps, Boundary, at, old(Now()), Now())
    {
      var s := NewStep(at, Boundary);
      f := EMPTY_FLOW.(steps := if s.Some? then [s.value] else []);
    }

    method Unknown(at: Range) returns (f: Flow)
      requires Valid()
      modifies this`count, this`truncated
      ensures Valid() && old(Now()).UpTo(Now())
      ensures f.continues && f.exits && Drawn(f.steps, Boundary, at, old(Now()), Now())
    {
      f := BoundaryAt(at);
      f := f.(exits := true);
    }

    // What may leave guards whatever is evaluated after it.
    // p and q are the runs of the two parts, lo the counter before the first of them.
    method Compose(first: Flow, next: Flow, at: Range, ghost p: Runs, ghost q: Runs, ghost lo: nat) returns (r: Flow)
      requires Valid() && lo <= count && Unique(Tally(first.steps) + Tally(next.steps), lo, count)
      modifies this`count, this`truncated
      ensures Valid() && old(Now()).UpTo(Now())
      ensures Composed(first, next, r, p, q, lo, old(Now()), Now())
      ensures Spent(old(Now()), Now()) && (!truncated ==> Joined(first, next, r))
      ensures if first.continues then r.continues == next.continues && r.exits == (first.exits || next.exits)
              else r == first
    {
      ghost var m0 := Now();
      if !first.continues {
        r := first;
        ComposedDead(first, next, p, q, lo, m0);
      } else if first.exits && next.steps != [] {
        var s := NewStep(at, Branch(Guard));
        r := first;
        if s.Some? {
          var guard := s.value.(children := next.steps);
          r := r.(steps := r.steps + [guard]);
        }
        r := r.(continues := next.continues, exits := first.exits || next.exits);
        ComposedGuard(first, next, r.steps, s, at, p, q, lo, m0, Now());
        if s.Some? {
          JoinedGuard(first, next, s.value.(children := next.steps), r.exits);
        }
      } else {
        r := Flow(first.steps + next.steps, next.continues, first.exits || next.exits);
        ComposedPlain(first, next, p, q, lo, m0);
        JoinedPlain(first, next, r.exits);
      }
    }

    // The same for two parts lowered one after the other, from m0 and from m1.
    method Then(first: Flow, next: Flow, at: Range, ghost p: Form, ghost q: Form, ghost m0: Mark, ghost m1: Mark) returns (r: Flow)
      requires Valid() && Lowered(first, p, m0, m1) && Lowered(next, q, m1, Now())
      modifies this`count, this`truncated
      ensures Valid() && old(Now()).UpTo(Now()) && Lowered(r, Both(p, q), m0, Now())
      ensures if first.continues then r.continues == next.continues && r.exits == (first.exits || next.exits)
              else r == first
    {
      ghost var m2 := Now();
      UniqueSum(Tally(first.steps), Tally(next.steps), m0.count, m1.count, count);
      r := Compose(first, next, at, Denote(p), Denote(q), m0.count);
      ThenLowered(first, next, r, p, q, m0, m1, m2, Now());
    }

    // The children of a loop step: the test, then the body under its own branch.
    method RoundOf(test: Flow, body: Flow, at: Range, ghost p: Form, ghost q: Form, ghost m0: Mark, ghost m1: Mark)
      returns (children: seq<Step>)
      requires Valid() && Lowered(test, p, m0, m1) && Lowered(body, q, m1, Now())
      modifies this`count, this`truncated
      ensures Valid() && old(Now()).UpTo(Now())
      ensures Unique(Tally(children), m0.count, count) && Metered(Steps(Round(at, p, q)), m0, Now())
      ensures !truncated ==> Shows(Reading(children), Denote(Round(at, p, q))) && Sketched(children, Round(at, p, q))
    {
      ghost var m2 := Now();
      children := [];
      var s := NewStep(at, Branch(Each));
      if s.Some? {
        var each := s.value.(children := body.steps);
        EachUnique(test, body, each, m0.count, m1.count, m2.count);
        var inner := Compose(test, Flow([each], true, false), at, Denote(p), Choice(at, Denote(q), Stop(Done)), m0.count);
        children := inner.steps;
        RoundLowered(test, body, each, inner, p, q, m0, m1, m2, Now());
      }
      RoundMetered(test, body, at, p, q, m0, m1, m2, Now());
    }

    // The lane of a source hint, or the shared one when only the reserved lane is left.
    method Lane(hint: string) returns (lane: string)
      requires Valid()
      modifies this`participants
      ensures Valid()
      ensures lane == if hint in old(participants) || |old(participants)| < MAX_PARTICIPANTS - 1 then hint else overflow
      ensures participants == if lane in old(participants) then old(participants) else old(participants) + [lane]
    {
      lane := hint;
      if |participants| >= MAX_PARTICIPANTS - 1 && hint !in participants {
        lane := overflow;
      }
      if lane !in participants {
        if |participants| >= MAX_PARTICIPANTS {
          assert false;
        }
        participants := participants + [lane];
      }
    }

    // The measured call site gives the step its evidence; a call without one stays opaque.
    method Invoke(src: Source, at: Range, hint: string, ghost allowed: set<Outcome>) returns (f: Flow)
      requires Valid() && Normal in allowed && allowed <= ANY_OUTCOME
      modifies this`count, this`truncated, this`participants
      ensures Valid() && Lowered(f, Invocation(src, at, allowed), old(Now()), Now()) && f.continues
      ensures SiteOf(src, at).Some? && f.steps != [] ==> f.steps[0].callId == Some(SiteOf(src, at).value.id)
      ensures SiteOf(src, at).Some? ==> hint in participants || overflow in participants
      ensures SiteOf(src, at).None? ==> participants == old(participants)
    {
      ghost var m0 := Now();
      var site := SiteOf(src, at);
      if site.None? {
        f := Mask(at, allowed);
        return;
      }
      var lane := Lane(hint);
      f := EMPTY_FLOW;
      var s := NewStep(at, Act(Call));
      if s.Some? {
        f := f.(steps := [s.value.(callId := Some(site.value.id), at := site.value.at)]);
        MeasuredLowered(f, s.value, site.value.id, at, m0, Now());
      } else {
        FullLowered(f, Does(Call, at), m0, Now());
      }
    }
  }
}
