// The sequence view of one indexed definition, in each of the three languages.
module Views {
  import opened Behaviour
  import opened Diagram
  import opened Forms
  import opened Lowering
  import opened Options
  import opened Syntax
  import Chains
  import Coroutines
  import Cursors
  import Java = JavaAdapter
  import Python = PythonAdapter
  import Rust = RustAdapter

  datatype View = View(steps: seq<Step>, participants: seq<string>, truncated: bool)

  // What a reader may rely on. A view that was not cut has exactly the possible paths of
  // the definition and says exactly what its form draws, and any view draws only certain
  // deeds as certain. Its steps carry distinct numbers, so that there are at most MAX_STEPS
  // of them.
  ghost predicate Sound(v: View, seed: string, p: Form) {
    && (!v.truncated ==> Shows(Reading(v.steps), Denote(p)) && Same(Reading(v.steps), Drawing(p)))
    && Mandatory(v.steps, Denote(p))
    && Unique(Tally(v.steps), 0, MAX_STEPS) && |Tally(v.steps)| <= MAX_STEPS
    && 1 <= |v.participants| <= MAX_PARTICIPANTS && v.participants[0] == seed
    && forall i, j | 0 <= i < j < |v.participants| :: v.participants[i] != v.participants[j]
  }

  method Finish(b: Builder, f: Flow, ghost p: Form) returns (v: View)
    requires b.Valid() && Lowered(f, p, Mark(0, false, b.Loose()), b.Now())
    ensures Sound(v, b.seed, p) && v.steps == f.steps && v.truncated == b.truncated
    ensures v.truncated ==> b.Loose() || Steps(p) >= MAX_STEPS
  {
    UniqueSize(Tally(f.steps), 0, b.count);
    v := View(f.steps, b.participants, b.truncated);
  }

  // A definition whose body is there and well formed is read through it. Anything else is
  // one opaque form.
  function RustForm(src: Source, root: Rust.Rust, at: Range): Form {
    var n := Seek(root, at, RustCallable);
    if Exact(n, at, RustCallable) && !HasError(n) then Rust.Part(src, n, Body) else Hides(n.at, ANY_OUTCOME)
  }

  function JavaForm(src: Source, root: Java.Java, at: Range): Form {
    match JavaBody(root, at)
    case None => Hides(Seek(root, at, JavaCallable).at, ANY_OUTCOME)
    case Some(body) => Java.Meaning(src, body)
  }

  function PythonForm(src: Source, root: Python.Python, at: Range): Form {
    match PythonBody(root, at)
    case None => Hides(Seek(root, at, PythonCallable).at, ANY_OUTCOME)
    case Some(body) => Python.Meaning(src, body)
  }

  function RustBody(root: Rust.Rust, at: Range): Option<Rust.Rust> {
    var n := Seek(root, at, RustCallable);
    if Exact(n, at, RustCallable) && !HasError(n) then ByField(n, Body) else None
  }

  function JavaBody(root: Java.Java, at: Range): Option<Java.Java> {
    var n := Seek(root, at, JavaCallable);
    if Exact(n, at, JavaCallable) && !HasError(n) then ByField(n, Body) else None
  }

  function PythonBody(root: Python.Python, at: Range): Option<Python.Python> {
    var n := Seek(root, at, PythonCallable);
    if Exact(n, at, PythonCallable) && !HasError(n) then ByField(n, Body) else None
  }

  // How far down a walk from this depth can come, and how many nodes it can visit.
  function Bottom<K>(body: Option<Node<K>>, depth: nat): nat {
    match body
    case None => 0
    case Some(n) => depth + Depth(n)
  }

  function Size<K>(body: Option<Node<K>>): nat {
    match body
    case None => 0
    case Some(n) => Weight(n)
  }

  predicate RustCallable(k: Rust.Kind) { k.Callable? }

  predicate JavaCallable(k: Java.Kind) { k.Deferred? || k.Element? }

  predicate PythonCallable(k: Python.Kind) { k.FunctionDefinition? || k.Lambda? }

  // ---- Rust ----

  method SeekRust(root: Rust.Rust, at: Range) returns (n: Rust.Rust)
    ensures n == Seek(root, at, RustCallable) && Weight(n) <= Weight(root)
  {
    n := root;
    while !Exact(n, at, RustCallable)
      invariant Weight(n) <= Weight(root)
      invariant Seek(n, at, RustCallable) == Seek(root, at, RustCallable)
      decreases Weight(n)
    {
      var child := Around(Named(n), at);
      if child.None? {
        return;
      }
      n := child.value;
    }
  }

  // Chains are grouped after the measurement, unless everything is to be shown: undoing
  // the groups gives back a sound view, and the grouped tree reads the same. A view is
  // called cut only when its form takes as many steps as there are, or the body is deeper
  // than the depth bound.
  method BuildRust(src: Source, root: Rust.Rust, at: Range, showAll: bool) returns (v: View, limited: bool)
    ensures Sound(v.(steps := Chains.Flatten(v.steps)), src.seed, RustForm(src, root, at))
    ensures v.truncated ==> Steps(RustForm(src, root, at)) >= MAX_STEPS || Bottom(RustBody(root, at), 1) > MAX_DEPTH
    ensures Same(Reading(v.steps), Reading(Chains.Flatten(v.steps)))
    ensures showAll ==> Chains.Flatten(v.steps) == v.steps
    ensures !showAll && !limited ==>
              var n := Seek(root, at, RustCallable);
              v.steps == Chains.Grouped(Cursors.Visits(Chains.Everywhere(), n, 0), Chains.Flatten(v.steps))
  {
    var n := SeekRust(root, at);
    v := DrawRust(src, root, at, n);
    ghost var plain := v.steps;
    Chains.NumberedUngrouped(plain, 0, MAX_STEPS);
    Chains.FlattenUngrouped(plain);
    limited := false;
    if !showAll {
      var steps;
      steps, limited := Chains.GroupChains(n, v.steps);
      v := v.(steps := steps);
      ghost var k: nat :| Chains.Offers(n, plain, steps, limited, k);
      Chains.GroupedFlatten(Cursors.Visits(Chains.Near(), n, 0)[..k], plain);
    }
  }

  // What such a view is worth when the definition is a coroutine and is resumed after its
  // yields: it has all the runs when nothing is lost, and misses one when something is.
  lemma {:induction false} RustResumed(src: Source, root: Rust.Rust, at: Range, v: View)
    requires !v.truncated && Sound(v.(steps := Chains.Flatten(v.steps)), src.seed, RustForm(src, root, at))
    requires Same(Reading(v.steps), Reading(Chains.Flatten(v.steps)))
    ensures var f := RustForm(src, root, at);
            && (Coroutines.Lost(f) == {} ==> Shows(Reading(v.steps), Denote(Coroutines.Resumed(f))))
            && (Coroutines.Lost(f) != {} && Coroutines.Apart(f) ==> !Shows(Reading(v.steps), Denote(Coroutines.Resumed(f))))
  {
    Coroutines.PartSteady(src, Seek(root, at, RustCallable), Body, true);
    Coroutines.ResumedShown(v.steps, RustForm(src, root, at));
  }

  method DrawRust(src: Source, root: Rust.Rust, at: Range, n: Rust.Rust) returns (v: View)
    requires n == Seek(root, at, RustCallable)
    ensures Sound(v, src.seed, RustForm(src, root, at))
    ensures v.truncated ==> Steps(RustForm(src, root, at)) >= MAX_STEPS || Bottom(RustBody(root, at), 1) > MAX_DEPTH
  {
    var b := new Builder(src.seed, Rust.OVERFLOW, Bottom(RustBody(root, at), 1), 0, None);
    var f: Flow;
    if !Exact(n, at, RustCallable) || HasError(n) {
      f := Rust.Hide(b, n.at, ANY_OUTCOME);
    } else {
      f := Rust.WalkField(b, src, n, Body, 0);
    }
    v := Finish(b, f, RustForm(src, root, at));
  }

  // ---- Java ----

  // Every node looked at on the way down costs one visit: the one the descent is at, and
  // its children up to the one it turns to.
  function SearchCost(n: Java.Java, at: Range): nat
    decreases Weight(n)
  {
    if Exact(n, at, JavaCallable) then 1
    else
      var i := Place(Named(n), at);
      if i == |Named(n)| then 1 + i
      else
        WeightsSuffix(Named(n), i);
        2 + i + SearchCost(Named(n)[i], at)
  }

  // The budget is used up exactly by a search that costs as much.
  method SeekJava(root: Java.Java, at: Range) returns (n: Java.Java, remaining: nat)
    ensures remaining == if SearchCost(root, at) < Java.MAX_VISITS then Java.MAX_VISITS - SearchCost(root, at) else 0
    ensures remaining > 0 ==> n == Seek(root, at, JavaCallable)
  {
    n, remaining := root, Java.MAX_VISITS;
    while remaining > 0
      invariant Seek(n, at, JavaCallable) == Seek(root, at, JavaCallable)
      invariant remaining + SearchCost(root, at) == Java.MAX_VISITS + SearchCost(n, at)
      decreases Weight(n)
    {
      ghost var before, place := remaining, Place(Named(n), at);
      remaining := remaining - 1;
      if Exact(n, at, JavaCallable) {
        return;
      }
      var found: Option<Java.Java> := None;
      var children := Named(n);
      AroundAt(children, at);
      var i := 0;
      while i < |children| && remaining > 0
        invariant i <= place && found.None? && remaining == before - 1 - i
      {
        remaining := remaining - 1;
        if Contains(children[i].at, at) {
          found := Some(children[i]);
          break;
        }
        i := i + 1;
      }
      if found.None? {
        return;
      }
      WeightsSuffix(children, i);
      n := found.value;
    }
  }

  // The same for a Java view, which may also be cut when the body has too many nodes, or
  // when the search for the definition used up its budget.
  method BuildJava(src: Source, root: Java.Java, at: Range) returns (v: View)
    ensures Sound(v, src.seed, JavaForm(src, root, at))
    ensures v.truncated ==>
              || Steps(JavaForm(src, root, at)) >= MAX_STEPS || Bottom(JavaBody(root, at), 1) > MAX_DEPTH
              || Size(JavaBody(root, at)) >= Java.MAX_VISITS || SearchCost(root, at) >= Java.MAX_VISITS
    ensures SearchCost(root, at) >= Java.MAX_VISITS ==> v.truncated
  {
    var n, remaining := SeekJava(root, at);
    ghost var size := if remaining == 0 then Java.MAX_VISITS else Size(JavaBody(root, at));
    var b := new Builder(src.seed, Java.OVERFLOW, Bottom(JavaBody(root, at), 1), size, Some(Java.MAX_VISITS));
    var f: Flow;
    if remaining == 0 {
      f := b.GiveUp(n.at, JavaForm(src, root, at));
    } else if !Exact(n, at, JavaCallable) || HasError(n) || ByField(n, Body).None? {
      f := Java.Hide(b, n.at, ANY_OUTCOME);
    } else {
      f := Java.WalkField(b, src, n, Body, 0);
    }
    v := Finish(b, f, JavaForm(src, root, at));
  }

  // ---- Python ----

  const SEEK_DEPTH: nat := 512

  // The same descent over at most so many levels, and MAX_VISITS children on each.
  function SeekNear(n: Python.Python, at: Range, levels: nat): (r: (Python.Python, bool))
    ensures r.1 ==> Exact(r.0, at, PythonCallable)
    decreases levels
  {
    if levels == 0 then (n, false)
    else if Exact(n, at, PythonCallable) then (n, true)
    else
      var child := Around(Nearest(Named(n)), at);
      if child.None? then (n, false) else SeekNear(child.value, at, levels - 1)
  }

  function Nearest(nodes: seq<Python.Python>): seq<Python.Python> {
    if |nodes| > Python.MAX_VISITS then nodes[..Python.MAX_VISITS] else nodes
  }

  // A place in the tree that the bounded search looks at.
  predicate Near(route: seq<nat>, levels: nat) {
    |route| < levels && forall k | 0 <= k < |route| :: route[k] < Python.MAX_VISITS
  }

  // The bounds matter exactly for a definition that lies beyond them.
  lemma {:induction false} NearFinds(n: Python.Python, at: Range, levels: nat)
    ensures SeekNear(n, at, levels).1
       <==> Exact(Seek(n, at, PythonCallable), at, PythonCallable) && Near(Route(n, at, PythonCallable), levels)
    ensures Near(Route(n, at, PythonCallable), levels) ==> SeekNear(n, at, levels).0 == Seek(n, at, PythonCallable)
    decreases levels
  {
    if levels > 0 && !Exact(n, at, PythonCallable) {
      var children := Named(n);
      var near := Nearest(children);
      AroundAt(children, at);
      AroundAt(near, at);
      NearestPlace(children, at);
      var i := Place(children, at);
      if i < |near| {
        NearFinds(children[i], at, levels - 1);
        RouteStep(n, at, PythonCallable);
        NearStep(i, Route(children[i], at, PythonCallable), levels);
      } else if i < |children| {
        RouteStep(n, at, PythonCallable);
        assert Route(n, at, PythonCallable)[0] == i;
      }
    }
  }

  lemma NearStep(i: nat, route: seq<nat>, levels: nat)
    requires levels > 0 && i < Python.MAX_VISITS
    ensures Near([i] + route, levels) <==> Near(route, levels - 1)
  {
    if Near([i] + route, levels) {
      forall k | 0 <= k < |route| ensures route[k] < Python.MAX_VISITS {
        assert ([i] + route)[k + 1] == route[k];
      }
    }
  }

  lemma NearestPlace(nodes: seq<Python.Python>, at: Range)
    ensures var near, i := Nearest(nodes), Place(nodes, at);
            if i < |near| then Place(near, at) == i && near[i] == nodes[i] else Place(near, at) == |near|
  {
    PlacePrefix(nodes, |Nearest(nodes)|, at);
  }

  // Said of the tree alone: an outermost callable at some place is found exactly when that
  // place is within the bounds.
  lemma FoundExactlyNear(root: Python.Python, at: Range, route: seq<nat>)
    requires Nested(root) && at.start < at.end && Leads(root, route) && Outermost(root, route, at, PythonCallable)
    ensures SeekNear(root, at, SEEK_DEPTH) == (Landing(root, route), true) <==> Near(route, SEEK_DEPTH)
    ensures Seek(root, at, PythonCallable) == Landing(root, route)
  {
    RouteLeads(root, route, at, PythonCallable);
    NearFinds(root, at, SEEK_DEPTH);
  }

  method SeekPython(root: Python.Python, at: Range) returns (n: Python.Python, found: bool)
    ensures (n, found) == SeekNear(root, at, SEEK_DEPTH) && Weight(n) <= Weight(root)
  {
    n := root;
    for level := 0 to SEEK_DEPTH
      invariant SeekNear(n, at, SEEK_DEPTH - level) == SeekNear(root, at, SEEK_DEPTH) && Weight(n) <= Weight(root)
    {
      if Exact(n, at, PythonCallable) {
        return n, true;
      }
      var child := Around(Nearest(Named(n)), at);
      if child.None? {
        return n, false;
      }
      WeightsPrefix(Named(n), |Nearest(Named(n))|);
      n := child.value;
    }
    return n, false;
  }

  // A Python view, which may be cut as a Java view may; the search is not called a cut.
  method BuildPython(src: Source, root: Python.Python, at: Range) returns (v: View)
    ensures v.truncated ==>
              || Steps(PythonForm(src, root, at)) >= MAX_STEPS || Bottom(PythonBody(root, at), 0) > MAX_DEPTH
              || Size(PythonBody(root, at)) >= Python.MAX_VISITS
    ensures Near(Route(root, at, PythonCallable), SEEK_DEPTH) ==> Sound(v, src.seed, PythonForm(src, root, at))
    ensures !Near(Route(root, at, PythonCallable), SEEK_DEPTH) ==>
              !v.truncated && v.steps == [Marker(SeekNear(root, at, SEEK_DEPTH).0.at)]
  {
    var n, found := SeekPython(root, at);
    NearFinds(root, at, SEEK_DEPTH);
    var b := new Builder(src.seed, Python.OVERFLOW, Bottom(PythonBody(root, at), 0), Size(PythonBody(root, at)), Some(Python.MAX_VISITS));
    var f: Flow;
    if !found || HasError(n) || ByField(n, Body).None? {
      f := b.Mask(n.at, ANY_OUTCOME);
      v := Finish(b, f, Hides(n.at, ANY_OUTCOME));
    } else {
      f := Python.Walk(b, src, ByField(n, Body).value, 0);
      v := Finish(b, f, PythonForm(src, root, at));
    }
  }

  function Marker(at: Range): Step {
    Step(StepId(at.start, 1), Boundary, at, None, [], [])
  }

  // A module of so many statements and then one definition, whose body awaits something.
  function Statement(i: nat): Python.Python {
    Node(Python.Atom, Range(2 * i, 2 * i + 1), false, [])
  }

  function Awaiting(count: nat): Python.Python {
    Node(Python.AwaitForm, Range(2 * count + 4, 2 * count + 9), false, [])
  }

  function Definition(count: nat): Python.Python {
    Node(Python.FunctionDefinition, Range(2 * count, 2 * count + 9), false, [Child(Some(Body), true, Awaiting(count))])
  }

  // The statements from i on, and the definition.
  function Crowd(i: nat, count: nat): (cs: seq<Child<Python.Kind>>)
    requires i <= count
    ensures |cs| == count - i + 1 && cs[count - i] == Child(None, true, Definition(count))
    ensures forall j | 0 <= j < count - i :: cs[j] == Child(None, true, Statement(i + j))
    decreases count - i
  {
    if i == count then [Child(None, true, Definition(count))] else [Child(None, true, Statement(i))] + Crowd(i + 1, count)
  }

  function Crowded(count: nat): Python.Python {
    Node(Python.Block, Range(0, 2 * count + 9), false, Crowd(0, count))
  }

  // It is a tree as a parser gives it, and the definition lies behind the bound. The view
  // drawn for it is not called cut and shows nothing of the definition.
  lemma {:induction false} DefinitionLost(src: Source, count: nat, v: View)
    requires count >= Python.MAX_VISITS
    requires var root, at := Crowded(count), Definition(count).at;
             !Near(Route(root, at, PythonCallable), SEEK_DEPTH) ==>
               !v.truncated && v.steps == [Marker(SeekNear(root, at, SEEK_DEPTH).0.at)]
    ensures Nested(Crowded(count)) && Leads(Crowded(count), [count]) && Landing(Crowded(count), [count]) == Definition(count)
    ensures Outermost(Crowded(count), [count], Definition(count).at, PythonCallable)
    ensures !Sound(v, src.seed, PythonForm(src, Crowded(count), Definition(count).at))
  {
    var root, at := Crowded(count), Definition(count).at;
    CrowdedRoute(count);
    FoundExactlyNear(root, at, [count]);
    RouteLeads(root, [count], at, PythonCallable);
    assert !Near([count], SEEK_DEPTH) by {
      assert [count][0] == count;
    }
    DefinitionBody(count);
    AwaitingRuns(src, count);
    ReadingOne(v.steps[0]);
    var run := [Did(Await, Awaiting(count).at)];
    assert Denote(PythonForm(src, root, at))(run, Normal);
    assert !Reading(v.steps)(run, Normal);
  }

  lemma {:induction false} CrowdedRoute(count: nat)
    ensures Nested(Crowded(count)) && Leads(Crowded(count), [count]) && Landing(Crowded(count), [count]) == Definition(count)
    ensures Outermost(Crowded(count), [count], Definition(count).at, PythonCallable)
  {
    var root := Crowded(count);
    AllNamed(root.children);
    CrowdNested(0, count, 0);
    OneDown(root, count, Definition(count), PythonCallable);
  }

  lemma {:induction false} OneDown(root: Python.Python, i: nat, n: Python.Python, callable: Python.Kind -> bool)
    requires i < |Named(root)| && Named(root)[i] == n && callable(n.kind) && !callable(root.kind)
    ensures Leads(root, [i]) && Landing(root, [i]) == n && Outermost(root, [i], n.at, callable)
  {
    assert [i][0] == i && [i][1..] == [];
  }

  lemma {:induction false} CrowdNested(i: nat, count: nat, lo: nat)
    requires i <= count && lo <= 2 * i
    ensures NestedIn(NamedOf(Crowd(i, count)), lo, 2 * count + 9)
    decreases count - i
  {
    var cs := Crowd(i, count);
    if i < count {
      CrowdNested(i + 1, count, 2 * i + 1);
      assert cs[1..] == Crowd(i + 1, count);
      assert Named(Statement(i)) == [];
      assert NamedOf(cs) == [Statement(i)] + NamedOf(cs[1..]);
      assert NamedOf(cs)[1..] == NamedOf(cs[1..]);
    } else {
      DefinitionNested(count);
      assert NamedOf(cs) == [Definition(count)];
      assert NamedOf(cs)[1..] == [];
    }
  }

  lemma {:induction false} DefinitionNested(count: nat)
    ensures Nested(Definition(count))
  {
    var d, body := Definition(count), Awaiting(count);
    assert Named(body) == [];
    assert Named(d) == [body];
    assert Named(d)[1..] == [];
    assert Nested(body);
    assert NestedIn(Named(d)[1..], body.at.end, d.at.end);
  }

  lemma {:induction false} AllNamed<K>(cs: seq<Child<K>>)
    requires forall i | 0 <= i < |cs| :: cs[i].named
    ensures |NamedOf(cs)| == |cs| && forall i | 0 <= i < |cs| :: NamedOf(cs)[i] == cs[i].node
  {
    if cs != [] {
      AllNamed(cs[1..]);
    }
  }

  lemma {:induction false} AwaitingRuns(src: Source, count: nat)
    ensures Denote(Python.Meaning(src, Awaiting(count)))([Did(Await, Awaiting(count).at)], Normal)
  {
    var e := Did(Await, Awaiting(count).at);
    AwaitingForm(src, count);
    SeqUnit(Emit(e));
    assert Emit(e)([e], Normal);
  }

  lemma {:induction false} AwaitingForm(src: Source, count: nat)
    ensures Python.Meaning(src, Awaiting(count)) == Both(Pass, Does(Await, Awaiting(count).at))
  {
    var body := Awaiting(count);
    assert !HasError(body) && Named(body) == [];
    assert Python.All(src, Named(body)) == Pass;
    assert Python.OperationForm(src, body) == Both(Python.All(src, Named(body)), Does(Await, body.at));
  }

  lemma {:induction false} DefinitionBody(count: nat)
    ensures !HasError(Definition(count)) && ByField(Definition(count), Body) == Some(Awaiting(count))
  {
    assert Definition(count).children[0].node == Awaiting(count) && !HasError(Awaiting(count));
  }
}
