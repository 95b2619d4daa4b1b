// The step tree of a sequence view, and what its labels say may happen.
module Diagram {
  import opened Behaviour
  import opened Options

  // The label of a branch says when its children run.
  //   Guard     when no path before it has left
  //   Fork      children or alternate, as a test turns out
  //   Arms      one of the arms in the alternate list
  //   Arm       when its pattern matches and no arm before it was taken
  //   Selected  the body of an arm, when its guard holds
  //   Each      the body of a loop, when there is another round
  datatype Role = Guard | Fork | Arms | Arm | Selected | Each

  datatype Kind =
    | Act(deed: Deed)
    | Jump(lands: Outcome)
    | Boundary
    | Branch(role: Role)
    | Repeat(endless: bool)
    | Group

  datatype Id = StepId(start: nat, count: nat) | GroupId(from: nat, to: nat)

  datatype Step = Step(id: Id, kind: Kind, at: Range, callId: Option<string>, children: seq<Step>, alternate: seq<Step>)

  // continues: some path ends normally and goes on to what comes after.
  // exits: some path may leave, so that what comes after needs a guard.
  datatype Flow = Flow(steps: seq<Step>, continues: bool, exits: bool)

  const EMPTY_FLOW := Flow([], true, false)

  // ---- what a step tree says may happen ----

  ghost function Reading(steps: seq<Step>): Runs
    decreases steps, 0
  {
    if steps == [] then Skip() else Seq(ReadStep(steps[0]), Reading(steps[1..]))
  }

  ghost function ReadStep(s: Step): Runs
    decreases s, 0
  {
    match s.kind
    case Act(deed) =>
      if deed.Return? || deed.Throw? then Seq(Emit(Did(deed, s.at)), Stop(Exit)) else Emit(Did(deed, s.at))
    case Jump(lands) => Seq(Emit(Did(Leave, s.at)), Stop(lands))
    case Boundary => Veil(s.at, ANY_OUTCOME)
    case Repeat(endless) => Loop(Reading(s.children), endless)
    case Group => Reading(s.children)
    case Branch(role) =>
      match role
      case Guard => Reading(s.children)
      case Fork => Choice(s.at, Reading(s.children), Reading(s.alternate))
      case Arms => ReadArms(s.alternate)
      case Arm => Choice(s.at, Reading(s.children), Skip())
      case Selected => Choice(s.at, Reading(s.children), Stop(Reject))
      case Each => Choice(s.at, Reading(s.children), Stop(Done))
  }

  // The first arm that matches and whose guard holds; a value no arm takes is not a path.
  ghost function ReadArms(arms: seq<Step>): Runs
    decreases arms, 1
  {
    if arms == [] then Nothing()
    else if arms[0].kind != Branch(Arm) then ReadArms(arms[1..])
    else
      var others := ReadArms(arms[1..]);
      Choice(arms[0].at, OrElse(Reading(arms[0].children), others), others)
  }

  lemma {:induction false} ReadingConcat(xs: seq<Step>, ys: seq<Step>)
    ensures Same(Reading(xs + ys), Seq(Reading(xs), Reading(ys)))
  {
    if xs == [] {
      assert xs + ys == ys;
      SeqUnit(Reading(ys));
    } else {
      var s, rest := ReadStep(xs[0]), Reading(xs[1..]);
      assert (xs + ys)[1..] == xs[1..] + ys;
      ReadingConcat(xs[1..], ys);
      SameSeq(s, s, Reading(xs[1..] + ys), Seq(rest, Reading(ys)));
      SeqAssoc(s, rest, Reading(ys));
    }
  }

  lemma ReadingOne(s: Step)
    ensures Same(Reading([s]), ReadStep(s))
  {
    assert [s][1..] == [];
    SeqUnit(ReadStep(s));
  }

  // An opaque form may break out of the loop around it. So may the transfer steps, which
  // only the Python adapter draws.
  predicate HasBoundary(steps: seq<Step>)
    decreases steps, 0
  {
    exists i | 0 <= i < |steps| :: BoundaryIn(steps[i])
  }

  predicate BoundaryIn(s: Step)
    decreases s, 0
  {
    s.kind.Boundary? || s.kind.Jump? || HasBoundary(s.children) || HasBoundary(s.alternate)
  }

  // Without one of them, nothing in the tree breaks or continues.
  lemma {:induction false} NoTransfer(steps: seq<Step>, x: Outcome)
    requires !HasBoundary(steps) && (x == Break || x == Continue)
    ensures Never(Reading(steps), x)
    decreases steps, 0
  {
    if steps != [] {
      NoTransferIn(steps[0], x);
      NoTransfer(steps[1..], x);
      NeverSeq(ReadStep(steps[0]), Reading(steps[1..]), x);
    }
  }

  lemma {:induction false} NoTransferIn(s: Step, x: Outcome)
    requires !s.kind.Boundary? && !s.kind.Jump? && !HasBoundary(s.children) && !HasBoundary(s.alternate)
    requires x == Break || x == Continue
    ensures Never(ReadStep(s), x)
    decreases s, 0
  {
    if s.kind == Branch(Arms) {
      NoTransferArms(s.alternate, x);
    } else {
      NoTransfer(s.children, x);
      NoTransfer(s.alternate, x);
      if s.kind == Branch(Fork) {
        NeverChoice(s.at, Reading(s.children), Reading(s.alternate), x);
      }
    }
  }

  lemma {:induction false} NoTransferArms(arms: seq<Step>, x: Outcome)
    requires !HasBoundary(arms) && (x == Break || x == Continue)
    ensures Never(ReadArms(arms), x)
    decreases arms, 1
  {
    if arms != [] {
      var p, others := Reading(arms[0].children), ReadArms(arms[1..]);
      NoTransfer(arms[0].children, x);
      NoTransferArms(arms[1..], x);
      NeverOrElse(p, others, x);
      NeverChoice(arms[0].at, OrElse(p, others), others, x);
    }
  }

  // ---- step numbers ----

  // Every step number in the tree, as often as it occurs. A group has no number of its
  // own; it is tallied as 0, which is never handed out.
  function Tally(steps: seq<Step>): multiset<nat>
    decreases steps, 0
  {
    if steps == [] then multiset{} else TallyStep(steps[0]) + Tally(steps[1..])
  }

  function TallyStep(s: Step): multiset<nat>
    decreases s, 0
  {
    multiset{NumberOf(s)} + Tally(s.children) + Tally(s.alternate)
  }

  function NumberOf(s: Step): nat {
    if s.id.StepId? && !s.kind.Group? then s.id.count else 0
  }

  lemma {:induction false} TallyConcat(xs: seq<Step>, ys: seq<Step>)
    ensures Tally(xs + ys) == Tally(xs) + Tally(ys)
  {
    if xs == [] {
      assert xs + ys == ys;
    } else {
      assert (xs + ys)[1..] == xs[1..] + ys;
      TallyConcat(xs[1..], ys);
    }
  }

  lemma TallyOne(s: Step)
    ensures Tally([s]) == TallyStep(s)
  {
    assert [s][1..] == [];
  }

  // Numbers handed out while the counter went from lo to hi, none of them twice.
  ghost predicate Unique(m: multiset<nat>, lo: nat, hi: nat) {
    forall k: nat :: m[k] <= if lo < k <= hi then 1 else 0
  }

  lemma {:induction false} UniqueSize(m: multiset<nat>, lo: nat, hi: nat)
    requires lo <= hi && Unique(m, lo, hi)
    ensures |m| <= hi - lo
    decreases hi - lo
  {
    if lo == hi {
      assert forall k: nat :: m[k] == 0;
      assert m == multiset{};
    } else {
      var m' := m[hi := 0];
      UniqueSize(m', lo, hi - 1);
      assert |m| == |m'| + m[hi];
    }
  }
}
