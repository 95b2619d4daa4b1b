// Fluent call chains: a presentation-only rewrite of a finished Rust step tree.
module Chains {
  import opened Behaviour
  import opened Cursors
  import opened Diagram
  import opened RustAdapter
  import opened Syntax
  import opened Lowering
  import opened Options

  const WORK_BUDGET: nat := MAX_STEPS * MAX_DEPTH

  // ---- undoing every group ----

  function Flatten(steps: seq<Step>): seq<Step>
    decreases steps, 0
  {
    if steps == [] then [] else FlattenStep(steps[0]) + Flatten(steps[1..])
  }

  function FlattenStep(s: Step): seq<Step>
    decreases s, 0
  {
    if s.kind.Group? then Flatten(s.children)
    else [s.(children := Flatten(s.children), alternate := Flatten(s.alternate))]
  }

  predicate Ungrouped(steps: seq<Step>)
    decreases steps, 0
  {
    forall i | 0 <= i < |steps| ::
      !steps[i].kind.Group? && Ungrouped(steps[i].children) && Ungrouped(steps[i].alternate)
  }

  lemma {:induction false} FlattenUngrouped(steps: seq<Step>)
    requires Ungrouped(steps)
    ensures Flatten(steps) == steps
    decreases steps, 0
  {
    if steps != [] {
      var s := steps[0];
      FlattenUngrouped(s.children);
      FlattenUngrouped(s.alternate);
      FlattenUngrouped(steps[1..]);
      assert s.(children := s.children, alternate := s.alternate) == s;
      assert steps == [s] + steps[1..];
    }
  }

  lemma {:induction false} FlattenConcat(xs: seq<Step>, ys: seq<Step>)
    ensures Flatten(xs + ys) == Flatten(xs) + Flatten(ys)
  {
    if xs == [] {
      assert xs + ys == ys;
    } else {
      assert (xs + ys)[1..] == xs[1..] + ys;
      FlattenConcat(xs[1..], ys);
      assert FlattenStep(xs[0]) + (Flatten(xs[1..]) + Flatten(ys)) == FlattenStep(xs[0]) + Flatten(xs[1..]) + Flatten(ys);
    }
  }

  // A freshly lowered tree has no group: every step in it was numbered.
  lemma {:induction false} NumberedUngrouped(steps: seq<Step>, lo: nat, hi: nat)
    requires Unique(Tally(steps), lo, hi)
    ensures Ungrouped(steps)
    decreases steps, 0
  {
    forall i | 0 <= i < |steps|
      ensures !steps[i].kind.Group? && Ungrouped(steps[i].children) && Ungrouped(steps[i].alternate)
    {
      var s := steps[i];
      NumberedStep(steps, i, lo, hi);
      NumberedUngrouped(s.children, lo, hi);
      NumberedUngrouped(s.alternate, lo, hi);
    }
  }

  lemma NumberedStep(steps: seq<Step>, i: nat, lo: nat, hi: nat)
    requires i < |steps| && Unique(Tally(steps), lo, hi)
    ensures Unique(Tally(steps[i].children), lo, hi) && Unique(Tally(steps[i].alternate), lo, hi) && !steps[i].kind.Group?
  {
    var s := steps[i];
    assert steps == steps[..i] + ([s] + steps[i + 1..]);
    TallyConcat(steps[..i], [s] + steps[i + 1..]);
    TallyConcat([s], steps[i + 1..]);
    TallyOne(s);
    UniquePart(Tally(steps[..i]), TallyStep(s) + Tally(steps[i + 1..]), lo, hi);
    UniquePart(TallyStep(s), Tally(steps[i + 1..]), lo, hi);
    UniquePart(multiset{NumberOf(s)} + Tally(s.children), Tally(s.alternate), lo, hi);
    UniquePart(multiset{NumberOf(s)}, Tally(s.children), lo, hi);
    assert multiset{NumberOf(s)}[NumberOf(s)] == 1;
  }

  // Groups made by the rewrite hold measured calls and nothing else.
  predicate CallGroups(steps: seq<Step>)
    decreases steps, 0
  {
    forall i | 0 <= i < |steps| ::
      && (steps[i].kind.Group? ==> AllCalls(steps[i].children))
      && CallGroups(steps[i].children) && CallGroups(steps[i].alternate)
  }

  predicate AllCalls(steps: seq<Step>) {
    forall i | 0 <= i < |steps| :: steps[i].kind == Act(Call) && steps[i].callId.Some?
  }

  // Grouping does not change what the tree says may happen.
  lemma {:induction false} ReadingFlatten(steps: seq<Step>)
    requires CallGroups(steps)
    ensures Same(Reading(Flatten(steps)), Reading(steps))
    decreases steps, 0
  {
    if steps != [] {
      ReadingFlattenStep(steps[0]);
      ReadingFlatten(steps[1..]);
      ReadingConcat(FlattenStep(steps[0]), Flatten(steps[1..]));
      SameSeq(Reading(FlattenStep(steps[0])), ReadStep(steps[0]), Reading(Flatten(steps[1..])), Reading(steps[1..]));
    }
  }

  lemma {:induction false} ReadingFlattenStep(s: Step)
    requires (s.kind.Group? ==> AllCalls(s.children)) && CallGroups(s.children) && CallGroups(s.alternate)
    ensures Same(Reading(FlattenStep(s)), ReadStep(s))
    decreases s, 0
  {
    ReadingFlatten(s.children);
    if !s.kind.Group? {
      var flat := s.(children := Flatten(s.children), alternate := Flatten(s.alternate));
      ReadingOne(flat);
      if s.kind == Branch(Arms) {
        ReadArmsFlatten(s.alternate);
      } else {
        ReadingFlatten(s.alternate);
        SameStep(s, flat);
      }
    }
  }

  lemma SameStep(s: Step, flat: Step)
    requires !s.kind.Group? && s.kind != Branch(Arms)
    requires flat == s.(children := flat.children, alternate := flat.alternate)
    requires Same(Reading(flat.children), Reading(s.children)) && Same(Reading(flat.alternate), Reading(s.alternate))
    ensures Same(ReadStep(flat), ReadStep(s))
  {
    var p, p', q, q' := Reading(s.children), Reading(flat.children), Reading(s.alternate), Reading(flat.alternate);
    if s.kind.Repeat? {
      WithinLoop(p, p', s.kind.endless, false);
      WithinLoop(p', p, s.kind.endless, false);
    } else if s.kind.Branch? && !s.kind.role.Guard? {
      var no, no' := (if s.kind.role.Fork? then q else OtherWay(s.kind.role)),
                     (if s.kind.role.Fork? then q' else OtherWay(s.kind.role));
      WithinChoice(s.at, p, p', no, no', false);
      WithinChoice(s.at, p', p, no', no, false);
    }
  }

  ghost function OtherWay(role: Role): Runs {
    if role.Arm? then Skip() else if role.Selected? then Stop(Reject) else Stop(Done)
  }

  // A step that is no arm takes no value.
  lemma {:induction false} ArmsSkip(xs: seq<Step>, ys: seq<Step>)
    requires forall i | 0 <= i < |xs| :: xs[i].kind != Branch(Arm)
    ensures ReadArms(xs + ys) == ReadArms(ys)
  {
    if xs == [] {
      assert xs + ys == ys;
    } else {
      assert (xs + ys)[1..] == xs[1..] + ys;
      ArmsSkip(xs[1..], ys);
    }
  }

  lemma {:induction false} FlattenCalls(steps: seq<Step>)
    requires AllCalls(steps)
    ensures AllCalls(Flatten(steps))
  {
    if steps != [] {
      FlattenCalls(steps[1..]);
    }
  }

  lemma {:induction false} ReadArmsFlatten(arms: seq<Step>)
    requires CallGroups(arms)
    ensures Same(ReadArms(Flatten(arms)), ReadArms(arms))
    decreases arms, 1
  {
    if arms != [] {
      var s := arms[0];
      ReadArmsFlatten(arms[1..]);
      if s.kind == Branch(Arm) {
        ReadingFlatten(s.children);
        var p, p' := Reading(s.children), Reading(Flatten(s.children));
        var q, q' := ReadArms(arms[1..]), ReadArms(Flatten(arms[1..]));
        assert Flatten(arms)[0] == FlattenStep(s)[0] && Flatten(arms)[1..] == Flatten(arms[1..]);
        WithinOrElse(p, p', q, q', false);
        WithinOrElse(p', p, q', q, false);
        WithinChoice(s.at, OrElse(p, q), OrElse(p', q'), q, q', false);
        WithinChoice(s.at, OrElse(p', q'), OrElse(p, q), q', q, false);
      } else {
        if s.kind.Group? {
          FlattenCalls(s.children);
        }
        ArmsSkip(FlattenStep(s), Flatten(arms[1..]));
      }
    }
  }

  // ---- wrapping one chain ----

  predicate Inside(s: Step, at: Range) {
    s.at.start >= at.start && s.at.end <= at.end
  }

  // The first step inside the range, and the end of the run of steps inside it from there.
  function FirstInside(steps: seq<Step>, at: Range): (i: nat)
    ensures i <= |steps|
    ensures forall k | 0 <= k < i :: !Inside(steps[k], at)
    ensures i < |steps| ==> Inside(steps[i], at)
  {
    if steps == [] || Inside(steps[0], at) then 0 else 1 + FirstInside(steps[1..], at)
  }

  function RunEnd(steps: seq<Step>, at: Range, i: nat): (j: nat)
    requires i <= |steps|
    ensures i <= j <= |steps|
    ensures forall k | i <= k < j :: Inside(steps[k], at)
    ensures j < |steps| ==> !Inside(steps[j], at)
    decreases |steps| - i
  {
    if i < |steps| && Inside(steps[i], at) then RunEnd(steps, at, i + 1) else i
  }

  // Nothing but measured calls, with a step for every link of the chain.
  predicate Eligible(slice: seq<Step>, chain: seq<Rust>) {
    && slice != [] && AllCalls(slice)
    && forall c | 0 <= c < |chain| :: exists i | 0 <= i < |slice| :: slice[i].at == chain[c].at
  }

  function GroupOf(slice: seq<Step>, at: Range): Step
    requires slice != []
  {
    slice[|slice| - 1].(id := GroupId(at.start, at.end), kind := Group, at := at, callId := None, children := slice)
  }

  // What wrapping the chain at one place makes of a step list: the eligible run becomes
  // one group here, or else the lists below are tried, except inside groups.
  function Wrapped(steps: seq<Step>, at: Range, chain: seq<Rust>): seq<Step>
    decreases steps, 1
  {
    var i := FirstInside(steps, at);
    var j := RunEnd(steps, at, i);
    if Eligible(steps[i..j], chain) then steps[..i] + [GroupOf(steps[i..j], at)] + steps[j..]
    else WrappedBelow(steps, at, chain)
  }

  function WrappedBelow(steps: seq<Step>, at: Range, chain: seq<Rust>): seq<Step>
    decreases steps, 0
  {
    if steps == [] then [] else [WrappedStep(steps[0], at, chain)] + WrappedBelow(steps[1..], at, chain)
  }

  function WrappedStep(s: Step, at: Range, chain: seq<Rust>): Step
    decreases s, 0
  {
    if s.kind.Group? then s
    else s.(children := Wrapped(s.children, at, chain), alternate := Wrapped(s.alternate, at, chain))
  }

  lemma FlattenSplice(before: seq<Step>, xs: seq<Step>, ys: seq<Step>, after: seq<Step>)
    requires Flatten(xs) == Flatten(ys)
    ensures Flatten(before + xs + after) == Flatten(before + ys + after)
  {
    FlattenConcat(before + xs, after);
    FlattenConcat(before, xs);
    FlattenConcat(before + ys, after);
    FlattenConcat(before, ys);
  }

  // Undoing the groups gives back what undoing them gave before.
  lemma {:induction false} WrappedFlatten(steps: seq<Step>, at: Range, chain: seq<Rust>)
    ensures Flatten(Wrapped(steps, at, chain)) == Flatten(steps)
    decreases steps, 1
  {
    var i := FirstInside(steps, at);
    var j := RunEnd(steps, at, i);
    if Eligible(steps[i..j], chain) {
      GroupFlatten(steps[..i], GroupOf(steps[i..j], at), steps[i..j], steps[j..]);
      assert steps[..i] + steps[i..j] + steps[j..] == steps;
    } else {
      WrappedBelowFlatten(steps, at, chain);
    }
  }

  lemma GroupFlatten(before: seq<Step>, g: Step, slice: seq<Step>, after: seq<Step>)
    requires g.kind.Group? && g.children == slice
    ensures Flatten(before + [g] + after) == Flatten(before + slice + after)
  {
    assert Flatten([g]) == Flatten(slice) by {
      assert [g][1..] == [];
    }
    FlattenSplice(before, [g], slice, after);
  }

  lemma {:induction false} WrappedBelowFlatten(steps: seq<Step>, at: Range, chain: seq<Rust>)
    ensures Flatten(WrappedBelow(steps, at, chain)) == Flatten(steps)
    decreases steps, 0
  {
    if steps != [] {
      var s := steps[0];
      WrappedBelowFlatten(steps[1..], at, chain);
      WrappedStepFlatten(s, at, chain);
      assert ([WrappedStep(s, at, chain)] + WrappedBelow(steps[1..], at, chain))[1..] == WrappedBelow(steps[1..], at, chain);
    }
  }

  lemma {:induction false} WrappedStepFlatten(s: Step, at: Range, chain: seq<Rust>)
    ensures FlattenStep(WrappedStep(s, at, chain)) == FlattenStep(s)
    decreases s, 0
  {
    if !s.kind.Group? {
      WrappedFlatten(s.children, at, chain);
      WrappedFlatten(s.alternate, at, chain);
    }
  }

  lemma {:induction false} WrappedCallGroups(steps: seq<Step>, at: Range, chain: seq<Rust>)
    requires CallGroups(steps)
    ensures CallGroups(Wrapped(steps, at, chain))
    decreases steps, 1
  {
    var i := FirstInside(steps, at);
    var j := RunEnd(steps, at, i);
    if Eligible(steps[i..j], chain) {
    } else {
      WrappedBelowCallGroups(steps, at, chain);
    }
  }

  lemma {:induction false} WrappedBelowCallGroups(steps: seq<Step>, at: Range, chain: seq<Rust>)
    requires CallGroups(steps)
    ensures CallGroups(WrappedBelow(steps, at, chain))
    decreases steps, 0
  {
    if steps != [] {
      WrappedBelowCallGroups(steps[1..], at, chain);
      WrappedStepCallGroups(steps[0], at, chain);
    }
  }

  lemma {:induction false} WrappedStepCallGroups(s: Step, at: Range, chain: seq<Rust>)
    requires (s.kind.Group? ==> AllCalls(s.children)) && CallGroups(s.children) && CallGroups(s.alternate)
    ensures CallGroups([WrappedStep(s, at, chain)])
    decreases s, 0
  {
    if !s.kind.Group? {
      WrappedCallGroups(s.children, at, chain);
      WrappedCallGroups(s.alternate, at, chain);
    }
  }

  // The rewrite in place: a run is taken out of its list and its group put there instead.
  method WrapChain(steps: seq<Step>, at: Range, chain: seq<Rust>) returns (r: seq<Step>)
    ensures r == Wrapped(steps, at, chain)
    decreases steps, 1
  {
    r := steps;
    var first := 0;
    while first < |r| && !Inside(r[first], at)
      invariant first <= |r| && forall k | 0 <= k < first :: !Inside(r[k], at)
    {
      first := first + 1;
    }
    assert first == FirstInside(steps, at);
    if first < |r| {
      var end := first;
      while end < |r| && Inside(r[end], at)
        invariant first <= end <= |r| && RunEnd(r, at, end) == RunEnd(r, at, first)
      {
        end := end + 1;
      }
      var slice := r[first..end];
      if Eligible(slice, chain) {
        r := r[..first] + r[end..];
        r := r[..first] + [GroupOf(slice, at)] + r[first..];
        assert r == steps[..first] + [GroupOf(slice, at)] + steps[end..];
        return;
      }
    }
    r := WrapBelow(steps, at, chain);
  }

  method WrapBelow(steps: seq<Step>, at: Range, chain: seq<Rust>) returns (r: seq<Step>)
    ensures r == WrappedBelow(steps, at, chain)
    decreases steps, 0
  {
    r := steps;
    ghost var goal := WrappedBelow(steps, at, chain);
    for k := 0 to |steps|
      invariant |r| == |steps| && r[k..] == steps[k..] && r[..k] + WrappedBelow(steps[k..], at, chain) == goal
    {
      var s := r[k];
      assert s == steps[k];
      // A group is closed: no other chain is looked for in it.
      if !s.kind.Group? {
        var children := WrapChain(s.children, at, chain);
        var alternate := WrapChain(s.alternate, at, chain);
        s := s.(children := children, alternate := alternate);
      }
      BelowStep(r[..k], steps, k, at, chain);
      r := r[k := s];
      assert r[..k + 1] == r[..k] + [s];
    }
    assert r[..|steps|] == r;
  }

  lemma BelowStep(done: seq<Step>, steps: seq<Step>, k: nat, at: Range, chain: seq<Rust>)
    requires k < |steps|
    ensures done + WrappedBelow(steps[k..], at, chain)
         == done + [WrappedStep(steps[k], at, chain)] + WrappedBelow(steps[k + 1..], at, chain)
  {
    assert steps[k..][0] == steps[k] && steps[k..][1..] == steps[k + 1..];
    var step, rest := WrappedStep(steps[k], at, chain), WrappedBelow(steps[k + 1..], at, chain);
    assert WrappedBelow(steps[k..], at, chain) == [step] + rest;
    assert done + ([step] + rest) == done + [step] + rest;
  }

  // ---- the chain of a call ----

  // The called expression without its type arguments.
  function CallFunction(n: Rust): (r: Option<Rust>)
    ensures r.Some? ==> Weight(r.value) < Weight(n) && !r.value.kind.GenericFunction?
    decreases Weight(n)
  {
    match ByField(n, Function)
    case None => None
    case Some(f) => if f.kind.GenericFunction? then CallFunction(f) else Some(f)
  }

  // What k steps along the function field lead to.
  function Along(n: Rust, k: nat): Option<Rust>
    decreases k
  {
    if k == 0 then Some(n)
    else match ByField(n, Function) case None => None case Some(f) => Along(f, k - 1)
  }

  // The first node on that way which is not a generic function.
  ghost predicate FirstPlain(n: Rust, k: nat) {
    && k > 0 && Along(n, k).Some? && !Along(n, k).value.kind.GenericFunction?
    && forall j | 0 < j < k :: Along(n, j).Some? && Along(n, j).value.kind.GenericFunction?
  }

  lemma {:induction false} CallFunctionFirst(n: Rust)
    ensures CallFunction(n).Some? ==> exists k: nat :: FirstPlain(n, k) && Along(n, k) == CallFunction(n)
    ensures CallFunction(n).None? ==> forall k: nat :: !FirstPlain(n, k)
    decreases Weight(n)
  {
    var next := ByField(n, Function);
    if next.Some? {
      var f := next.value;
      assert Along(n, 1) == Along(f, 0) == Some(f);
      if !f.kind.GenericFunction? {
        assert FirstPlain(n, 1);
      } else {
        CallFunctionFirst(f);
        forall k: nat | k > 1 ensures FirstPlain(n, k) <==> FirstPlain(f, k - 1) {
          AlongNext(n, f, k);
        }
        if CallFunction(n).Some? {
          var k: nat :| FirstPlain(f, k) && Along(f, k) == CallFunction(f);
          assert FirstPlain(n, k + 1);
        } else {
          forall k: nat ensures !FirstPlain(n, k) {
            assert k > 1 ==> !FirstPlain(f, k - 1);
          }
        }
      }
    } else {
      forall k: nat ensures !FirstPlain(n, k) {}
    }
  }

  lemma AlongNext(n: Rust, f: Rust, k: nat)
    requires k > 1 && ByField(n, Function) == Some(f) && f.kind.GenericFunction?
    ensures FirstPlain(n, k) <==> FirstPlain(f, k - 1)
  {
    assert Along(n, 1) == Along(f, 0);
    if FirstPlain(f, k - 1) {
      forall j | 0 < j < k ensures Along(n, j).Some? && Along(n, j).value.kind.GenericFunction? {
        assert j > 1 ==> Along(n, j) == Along(f, j - 1);
      }
    }
    if FirstPlain(n, k) {
      forall j | 0 < j < k - 1 ensures Along(f, j).Some? && Along(f, j).value.kind.GenericFunction? {
        assert Along(n, j + 1) == Along(f, j);
      }
    }
  }

  function ReceiverCall(n: Rust): (r: Option<Rust>)
    ensures r.Some? ==> Weight(r.value) < Weight(n) && r.value.kind.CallExpression?
  {
    var function_ := CallFunction(n);
    if function_.None? || !function_.value.kind.FieldExpression? then None
    else
      var receiver := ByField(function_.value, Value);
      if receiver.Some? && receiver.value.kind.CallExpression? then receiver else None
  }

  // A call, the call it is made on, and so on.
  function ChainOf(n: Rust): (r: seq<Rust>)
    ensures r != []
    decreases Weight(n)
  {
    var next := ReceiverCall(n);
    [n] + if next.None? then [] else ChainOf(next.value)
  }

  // Each link is the call that the one before it is made on, as far as there is one.
  lemma {:induction false} ChainLinks(n: Rust)
    ensures var chain := ChainOf(n);
            && chain[0] == n && ReceiverCall(chain[|chain| - 1]).None?
            && forall i | 0 <= i < |chain| - 1 :: ReceiverCall(chain[i]) == Some(chain[i + 1])
    decreases Weight(n)
  {
    var next := ReceiverCall(n);
    if next.Some? {
      ChainLinks(next.value);
      assert ChainOf(n)[1..] == ChainOf(next.value);
    }
  }

  // What offering one syntax node does to the tree.
  function Offered(n: Rust, steps: seq<Step>): seq<Step> {
    if n.kind.CallExpression? && 3 <= |ChainOf(n)| <= MAX_DEPTH then Wrapped(steps, n.at, ChainOf(n)) else steps
  }

  method WrapSyntaxChain(n: Rust, steps: seq<Step>) returns (r: seq<Step>)
    ensures r == Offered(n, steps)
  {
    r := steps;
    if n.kind.CallExpression? {
      var chain, whole := FollowChain(n);
      if whole && |chain| >= 3 {
        r := WrapChain(steps, n.at, chain);
      }
    }
  }

  lemma ChainStep(before: seq<Rust>, n: Rust)
    ensures before + ChainOf(n)
         == before + [n] + if ReceiverCall(n).None? then [] else ChainOf(ReceiverCall(n).value)
  {
    if ReceiverCall(n).None? {
      assert before + [n] + [] == before + [n];
    } else {
      assert before + ([n] + ChainOf(ReceiverCall(n).value)) == before + [n] + ChainOf(ReceiverCall(n).value);
    }
  }

  // A chain that is longer than the depth bound is given up.
  method FollowChain(n: Rust) returns (chain: seq<Rust>, whole: bool)
    ensures whole <==> |ChainOf(n)| <= MAX_DEPTH
    ensures whole ==> chain == ChainOf(n)
  {
    chain := [n];
    var receiver, next := n, ReceiverCall(n);
    while next.Some?
      invariant next == ReceiverCall(receiver) && 1 <= |chain| <= MAX_DEPTH
      invariant chain + (if next.None? then [] else ChainOf(next.value)) == ChainOf(n)
      decreases Weight(receiver)
    {
      if |chain| >= MAX_DEPTH {
        return chain, false;
      }
      ghost var before := chain;
      chain := chain + [next.value];
      receiver := next.value;
      next := ReceiverCall(receiver);
      ChainStep(before, receiver);
    }
    assert chain + [] == chain;
    return chain, true;
  }

  // ---- the traversal ----

  // Bodies of their own and opaque forms are neither offered nor entered.
  predicate Skipped(n: Rust, depth: nat) {
    (depth > 0 && n.kind.Callable?) || n.kind.Opaque? || n.kind.AsyncBlock?
  }

  ghost function Everywhere(): Enter<RustAdapter.Kind> {
    (n: Rust, d: nat) => !Skipped(n, d)
  }

  ghost function Near(): Enter<RustAdapter.Kind> {
    (n: Rust, d: nat) => !Skipped(n, d) && d < MAX_DEPTH
  }

  // Each visited node is offered in turn; the first one is the root.
  ghost function Grouped(visited: seq<Rust>, steps: seq<Step>): seq<Step> {
    if visited == [] then steps
    else
      var last, before := |visited| - 1, Grouped(visited[..|visited| - 1], steps);
      if Skipped(visited[last], last) then before else Offered(visited[last], before)
  }

  // However many nodes were offered, undoing the groups gives back the measured tree.
  lemma {:induction false} GroupedFlatten(visited: seq<Rust>, steps: seq<Step>)
    requires Ungrouped(steps)
    ensures Flatten(Grouped(visited, steps)) == steps
    ensures Same(Reading(Grouped(visited, steps)), Reading(steps))
  {
    UngroupedCallGroups(steps);
    GroupedSteps(visited, steps);
    FlattenUngrouped(steps);
    ReadingFlatten(Grouped(visited, steps));
  }

  lemma {:induction false} GroupedSteps(visited: seq<Rust>, steps: seq<Step>)
    requires CallGroups(steps)
    ensures Flatten(Grouped(visited, steps)) == Flatten(steps) && CallGroups(Grouped(visited, steps))
  {
    if visited != [] {
      var n, before := visited[|visited| - 1], Grouped(visited[..|visited| - 1], steps);
      GroupedSteps(visited[..|visited| - 1], steps);
      WrappedFlatten(before, n.at, ChainOf(n));
      WrappedCallGroups(before, n.at, ChainOf(n));
    }
  }

  lemma {:induction false} UngroupedCallGroups(steps: seq<Step>)
    requires Ungrouped(steps)
    ensures CallGroups(steps)
    decreases steps, 0
  {
    forall i | 0 <= i < |steps|
      ensures CallGroups(steps[i].children) && CallGroups(steps[i].alternate)
    {
      UngroupedCallGroups(steps[i].children);
      UngroupedCallGroups(steps[i].alternate);
    }
  }

  lemma GroupedSnoc(visited: seq<Rust>, n: Rust, steps: seq<Step>)
    ensures Grouped(visited + [n], steps)
         == if Skipped(n, |visited|) then Grouped(visited, steps) else Offered(n, Grouped(visited, steps))
  {
    assert (visited + [n])[..|visited|] == visited;
  }

  // What the scan keeps: it follows the recursive traversal down to the depth bound, and
  // the unbounded one as long as the bound has cut nothing off.
  ghost predicate Following(root: Rust, seen: seq<Rust>, n: Rust, frames: seq<Frame<RustAdapter.Kind>>, limited: bool) {
    && Scanning(Near(), Visits(Near(), root, 0), seen, n, frames)
    && (!limited ==> Scanning(Everywhere(), Visits(Everywhere(), root, 0), seen, n, frames))
    && (seen == [] <==> frames == [])
  }

  lemma FollowDown(root: Rust, seen: seq<Rust>, n: Rust, frames: seq<Frame<RustAdapter.Kind>>, limited: bool)
    requires Following(root, seen, n, frames, limited)
    requires !Skipped(n, |frames|) && |frames| < MAX_DEPTH && n.children != []
    ensures Following(root, seen + [n], n.children[0].node, frames + [Frame(n.children, 0)], limited)
  {
    var down := frames + [Frame(n.children, 0)];
    ScanDown(Near(), Visits(Near(), root, 0), seen, n, frames, down);
    if !limited {
      ScanDown(Everywhere(), Visits(Everywhere(), root, 0), seen, n, frames, down);
    }
  }

  lemma FollowUp(root: Rust, seen: seq<Rust>, n: Rust, frames: seq<Frame<RustAdapter.Kind>>, limited: bool, now: bool)
    requires Following(root, seen, n, frames, limited) && (limited ==> now)
    requires Skipped(n, |frames|) || |frames| >= MAX_DEPTH || n.children == []
    requires !now ==> Skipped(n, |frames|) || n.children == []
    ensures var r := Resumed(frames);
            if r == [] then
              && Visits(Near(), root, 0) == seen + [n]
              && (!now ==> Visits(Everywhere(), root, 0) == seen + [n])
            else Following(root, seen + [n], Here(root, r), r, now)
  {
    ScanLeaf(Near(), Visits(Near(), root, 0), seen, root, n, frames);
    if !now {
      ScanLeaf(Everywhere(), Visits(Everywhere(), root, 0), seen, root, n, frames);
    }
  }

  lemma {:induction false} VisitsGrow(n: Rust, d: nat)
    ensures |Visits(Near(), n, d)| <= |Visits(Everywhere(), n, d)|
    ensures d >= MAX_DEPTH && !Skipped(n, d) && n.children != [] ==> |Visits(Near(), n, d)| < |Visits(Everywhere(), n, d)|
    decreases n, 0
  {
    if !Skipped(n, d) {
      VisitsAllGrow(n.children, d + 1);
      if n.children != [] {
        assert |VisitsIn(Everywhere(), n.children[0], d + 1)| > 0;
      }
    }
  }

  lemma {:induction false} VisitsAllGrow(cs: seq<Child<RustAdapter.Kind>>, d: nat)
    ensures |VisitsAll(Near(), cs, d)| <= |VisitsAll(Everywhere(), cs, d)|
    decreases cs, 0
  {
    if cs != [] {
      VisitsInGrow(cs[0], d);
      VisitsAllGrow(cs[1..], d);
    }
  }

  lemma {:induction false} VisitsInGrow(c: Child<RustAdapter.Kind>, d: nat)
    ensures |VisitsIn(Near(), c, d)| <= |VisitsIn(Everywhere(), c, d)|
    decreases c, 0
  {
    VisitsGrow(c.node, d);
  }

  lemma {:induction false} PendingGrow(frames: seq<Frame<RustAdapter.Kind>>)
    requires OnTree(frames)
    ensures |Pending(Near(), frames)| <= |Pending(Everywhere(), frames)|
  {
    if frames != [] {
      var top := frames[|frames| - 1];
      VisitsAllGrow(top.siblings[top.index + 1..], |frames|);
      PendingGrow(frames[..|frames| - 1]);
    }
  }

  // A node with children at the depth bound is where the bounded traversal loses some.
  lemma CutOff(root: Rust, seen: seq<Rust>, n: Rust, frames: seq<Frame<RustAdapter.Kind>>)
    requires Following(root, seen, n, frames, false)
    requires !Skipped(n, |frames|) && |frames| >= MAX_DEPTH && n.children != []
    ensures |Visits(Near(), root, 0)| < |Visits(Everywhere(), root, 0)|
  {
    VisitsGrow(n, |frames|);
    PendingGrow(frames);
  }

  // The first k nodes of the bounded traversal were offered: all of them, unless the work
  // bound stopped it. limited says exactly whether any bound cut something off.
  ghost predicate Offers(n: Rust, steps: seq<Step>, r: seq<Step>, limited: bool, k: nat) {
    var near := Visits(Near(), n, 0);
    && k <= |near| && k <= WORK_BUDGET && (k == |near| || k == WORK_BUDGET)
    && r == Grouped(near[..k], steps)
    && (limited <==> near[..k] != Visits(Everywhere(), n, 0))
  }

  method GroupChains(n: Rust, steps: seq<Step>) returns (r: seq<Step>, limited: bool)
    ensures exists k: nat :: Offers(n, steps, r, limited, k)
  {
    var cursor := new TreeCursor(n);
    var budget := WORK_BUDGET;
    r, limited := steps, false;
    ghost var offered: seq<Rust> := [];
    ghost var near := Visits(Near(), n, 0);
    while true
      invariant cursor.Valid() && fresh(cursor) && cursor.root == n
      invariant Following(n, offered, cursor.Current(), cursor.frames, limited)
      invariant |offered| + budget == WORK_BUDGET && r == Grouped(offered, steps)
      invariant |offered| <= |near| && near[..|offered|] == offered
      invariant limited ==> |near| < |Visits(Everywhere(), n, 0)|
      decreases budget
    {
      if budget == 0 {
        ScanHere(Near(), near, offered, cursor.Current(), cursor.frames);
        VisitsGrow(n, 0);
        limited := true;
        assert Offers(n, steps, r, limited, |offered|);
        return;
      }
      budget := budget - 1;
      var node, depth := cursor.Current(), |cursor.frames|;
      ghost var seen, frames, before := offered, cursor.frames, limited;
      GroupedSnoc(offered, node, steps);
      ScanHere(Near(), near, seen, node, frames);
      assert Skipped(node, depth) == Skipped(node, |seen|);
      offered := offered + [node];
      if !Skipped(node, depth) {
        r := WrapSyntaxChain(node, r);
        if depth < MAX_DEPTH {
          var moved := cursor.GotoFirstChild();
          if moved {
            FollowDown(n, seen, node, frames, limited);
            continue;
          }
        } else if node.children != [] {
          if !limited {
            CutOff(n, seen, node, frames);
          }
          limited := true;
        }
      }
      FollowUp(n, seen, node, frames, before, limited);
      var more := cursor.Advance();
      if !more {
        assert Offers(n, steps, r, limited, |offered|);
        return;
      }
    }
  }
}
