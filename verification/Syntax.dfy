// Concrete syntax trees as the adapters see them: a node kind, a byte range, and
// children that may be named and may carry a field name.
module Syntax {
  import opened Behaviour
  import opened Options

  datatype Field =
    | Value | Body | Condition | Consequence | Alternative | Left | Right | Object | Array | Index
    | Function | Arguments | Pattern | Length | Init | Update | TypeField | TypeArguments | ReturnType
    | TypeParameters | Name | Parameters

  // error: the node is an error node or is missing.
  datatype Node<K> = Node(kind: K, at: Range, error: bool, children: seq<Child<K>>)
  datatype Child<K> = Child(field: Option<Field>, named: bool, node: Node<K>)

  function Weight<K>(n: Node<K>): nat
    decreases n, 0
  {
    1 + WeightOf(n.children)
  }

  function WeightOf<K>(cs: seq<Child<K>>): nat
    decreases cs, 0
  {
    if cs == [] then 0 else WeightIn(cs[0]) + WeightOf(cs[1..])
  }

  function WeightIn<K>(c: Child<K>): nat
    decreases c, 0
  {
    Weight(c.node)
  }

  function Weights<K>(nodes: seq<Node<K>>): nat {
    if nodes == [] then 0 else Weight(nodes[0]) + Weights(nodes[1..])
  }

  // How deep a walk can go below a node. A child is one level down, an alternative of it
  // may be two, and each sibling before a child may put it under one more guard.
  function Depth<K>(n: Node<K>): nat
    decreases n, 0
  {
    DepthOf(n.children)
  }

  function DepthOf<K>(cs: seq<Child<K>>): nat
    decreases cs, 0
  {
    if cs == [] then 0
    else Most(DepthIn(cs[0]), (if cs[0].named || cs[0].field.Some? then 1 else 0) + DepthOf(cs[1..]))
  }

  function DepthIn<K>(c: Child<K>): nat
    decreases c, 0
  {
    (if c.field == Some(Alternative) then 2 else 1) + Depth(c.node)
  }

  function Depths<K>(nodes: seq<Node<K>>): nat {
    if nodes == [] then 0 else 1 + Most(Depth(nodes[0]), Depths(nodes[1..]))
  }

  function Most(a: nat, b: nat): nat {
    if a >= b then a else b
  }

  // What the children under one field weigh.
  function Share<K>(n: Node<K>, f: Field): nat {
    Weights(AllByField(n, f))
  }

  // The same for the first of them alone.
  function Load<K>(n: Node<K>, f: Field): nat {
    match ByField(n, f)
    case None => 0
    case Some(c) => Weight(c)
  }

  // No child is under two fields.
  lemma {:induction false} Shares<K>(n: Node<K>, a: Field, b: Field, c: Field, d: Field)
    requires a != b && a != c && a != d && b != c && b != d && c != d
    ensures Share(n, a) + Share(n, b) + Share(n, c) + Share(n, d) <= WeightOf(n.children)
    ensures Load(n, a) <= Share(n, a) && Load(n, b) <= Share(n, b) && Load(n, c) <= Share(n, c) && Load(n, d) <= Share(n, d)
  {
    SharesOf(n.children, a, b, c, d);
    LoadShare(n, a);
    LoadShare(n, b);
    LoadShare(n, c);
    LoadShare(n, d);
  }

  lemma {:induction false} LoadShare<K>(n: Node<K>, f: Field)
    ensures Load(n, f) <= Share(n, f)
  {
    FirstShare(n.children, f);
  }

  lemma {:induction false} SharesOf<K>(cs: seq<Child<K>>, a: Field, b: Field, c: Field, d: Field)
    requires a != b && a != c && a != d && b != c && b != d && c != d
    ensures Weights(AllWith(cs, a)) + Weights(AllWith(cs, b)) + Weights(AllWith(cs, c)) + Weights(AllWith(cs, d)) <= WeightOf(cs)
  {
    if cs != [] {
      SharesOf(cs[1..], a, b, c, d);
      ShareNext(cs, a);
      ShareNext(cs, b);
      ShareNext(cs, c);
      ShareNext(cs, d);
    }
  }

  lemma ShareNext<K>(cs: seq<Child<K>>, f: Field)
    requires cs != []
    ensures Weights(AllWith(cs, f)) == (if cs[0].field == Some(f) then WeightIn(cs[0]) else 0) + Weights(AllWith(cs[1..], f))
  {}

  lemma {:induction false} FirstShare<K>(cs: seq<Child<K>>, f: Field)
    ensures FirstWith(cs, f).Some? ==> Weight(FirstWith(cs, f).value) <= Weights(AllWith(cs, f))
  {
    if cs != [] {
      FirstShare(cs[1..], f);
      ShareNext(cs, f);
    }
  }

  // A node has an error when anything in it does.
  predicate HasError<K>(n: Node<K>)
    decreases n, 0
  {
    n.error || exists i | 0 <= i < |n.children| :: ErrorIn(n.children[i])
  }

  predicate ErrorIn<K>(c: Child<K>)
    decreases c, 0
  {
    HasError(c.node)
  }

  ghost predicate Under<K>(x: Node<K>, cs: seq<Child<K>>) {
    exists i | 0 <= i < |cs| :: cs[i].node == x
  }

  lemma UnderTail<K>(x: Node<K>, cs: seq<Child<K>>)
    requires cs != [] && Under(x, cs[1..])
    ensures Under(x, cs)
  {
    var i :| 0 <= i < |cs[1..]| && cs[1..][i].node == x;
    assert cs[i + 1].node == x;
  }

  // The first child that carries the field.
  function FirstWith<K>(cs: seq<Child<K>>, f: Field): (r: Option<Node<K>>)
    ensures r.Some? ==> Weight(r.value) <= WeightOf(cs) && Depth(r.value) < DepthOf(cs)
  {
    if cs == [] then None
    else if cs[0].field == Some(f) then Some(cs[0].node)
    else FirstWith(cs[1..], f)
  }

  lemma FirstWithUnder<K>(cs: seq<Child<K>>, f: Field)
    ensures FirstWith(cs, f).Some? ==> Under(FirstWith(cs, f).value, cs)
  {
    if cs == [] {
    } else if cs[0].field == Some(f) {
      assert cs[0].node == FirstWith(cs, f).value;
    } else {
      FirstWithUnder(cs[1..], f);
      if FirstWith(cs, f).Some? {
        UnderTail(FirstWith(cs, f).value, cs);
      }
    }
  }

  lemma AllWithUnder<K>(cs: seq<Child<K>>, f: Field, x: Node<K>)
    requires x in AllWith(cs, f)
    ensures Under(x, cs)
  {
    if cs[0].field == Some(f) && x == cs[0].node {
    } else {
      AllWithUnder(cs[1..], f, x);
      UnderTail(x, cs);
    }
  }

  lemma NamedUnder<K>(cs: seq<Child<K>>, x: Node<K>)
    requires x in NamedOf(cs)
    ensures Under(x, cs)
  {
    if cs[0].named && x == cs[0].node {
    } else {
      NamedUnder(cs[1..], x);
      UnderTail(x, cs);
    }
  }

  function ByField<K>(n: Node<K>, f: Field): (r: Option<Node<K>>)
    ensures r.Some? ==> Weight(r.value) < Weight(n) && Depth(r.value) < Depth(n)
  {
    FirstWith(n.children, f)
  }

  function AllWith<K>(cs: seq<Child<K>>, f: Field): (r: seq<Node<K>>)
    ensures Weights(r) <= WeightOf(cs)
    ensures (if r != [] && f == Alternative then 1 else 0) + Depths(r) <= DepthOf(cs)
  {
    if cs == [] then []
    else if cs[0].field == Some(f) then [cs[0].node] + AllWith(cs[1..], f)
    else AllWith(cs[1..], f)
  }

  function AllByField<K>(n: Node<K>, f: Field): (r: seq<Node<K>>)
    ensures Weights(r) < Weight(n)
    ensures (if r != [] && f == Alternative then 1 else 0) + Depths(r) <= Depth(n)
  {
    AllWith(n.children, f)
  }

  function NamedOf<K>(cs: seq<Child<K>>): (r: seq<Node<K>>)
    ensures Weights(r) <= WeightOf(cs) && Depths(r) <= DepthOf(cs)
  {
    if cs == [] then []
    else if cs[0].named then [cs[0].node] + NamedOf(cs[1..])
    else NamedOf(cs[1..])
  }

  function Named<K>(n: Node<K>): (r: seq<Node<K>>)
    ensures Weights(r) < Weight(n) && Depths(r) <= Depth(n)
  {
    NamedOf(n.children)
  }

  lemma WeightsSuffix<K>(nodes: seq<Node<K>>, i: nat)
    requires i <= |nodes|
    ensures Weights(nodes[i..]) <= Weights(nodes)
    ensures i < |nodes| ==> Weight(nodes[i]) <= Weights(nodes) - Weights(nodes[i + 1..])
    ensures i < |nodes| ==> i + Depths(nodes[i..]) <= Depths(nodes) && Depth(nodes[i]) < Depths(nodes)
  {
    if i > 0 {
      WeightsSuffix(nodes[1..], i - 1);
      assert nodes[1..][i - 1..] == nodes[i..];
      if i < |nodes| {
        assert nodes[1..][i..] == nodes[i + 1..];
      }
    }
  }

  lemma {:induction false} WeightsLength<K>(nodes: seq<Node<K>>)
    ensures |nodes| <= Weights(nodes) && |nodes| <= Depths(nodes)
  {
    if nodes != [] {
      WeightsLength(nodes[1..]);
    }
  }

  lemma WeightsShrink<K>(nodes: seq<Node<K>>, i: nat)
    requires 0 < i <= |nodes|
    ensures Weights(nodes[i..]) < Weights(nodes)
    ensures i < |nodes| ==> Depths(nodes[i..]) < Depths(nodes)
  {
    WeightsSuffix(nodes, i - 1);
    WeightsSuffix(nodes, i);
  }

  lemma WeightsPrefix<K>(nodes: seq<Node<K>>, i: nat)
    requires i <= |nodes|
    ensures Weights(nodes[..i]) <= Weights(nodes) && Depths(nodes[..i]) <= Depths(nodes)
  {
    if i > 0 {
      WeightsPrefix(nodes[1..], i - 1);
      assert nodes[..i][1..] == nodes[1..][..i - 1];
    }
  }

  // ---- finding the selected definition ----

  predicate Contains(outer: Range, inner: Range) {
    outer.start <= inner.start && inner.end <= outer.end
  }

  predicate Exact<K>(n: Node<K>, at: Range, callable: K -> bool) {
    n.at == at && callable(n.kind)
  }

  function Around<K>(nodes: seq<Node<K>>, at: Range): (r: Option<Node<K>>)
    ensures r.Some? ==> Weight(r.value) <= Weights(nodes)
  {
    if nodes == [] then None
    else if Contains(nodes[0].at, at) then Some(nodes[0])
    else Around(nodes[1..], at)
  }

  // Down through the first child around the range, until a callable is exactly there.
  function Seek<K>(n: Node<K>, at: Range, callable: K -> bool): Node<K>
    decreases Weight(n)
  {
    if Exact(n, at, callable) then n
    else
      var next := Around(Named(n), at);
      if next.None? then n else Seek(next.value, at, callable)
  }

  // Where the descent turns on each level.
  function Place<K>(nodes: seq<Node<K>>, at: Range): (i: nat)
    ensures i <= |nodes| && (i < |nodes| ==> Contains(nodes[i].at, at))
    ensures forall j | 0 <= j < i :: !Contains(nodes[j].at, at)
  {
    if nodes == [] || Contains(nodes[0].at, at) then 0 else 1 + Place(nodes[1..], at)
  }

  function Route<K>(n: Node<K>, at: Range, callable: K -> bool): seq<nat>
    decreases Weight(n)
  {
    var i := Place(Named(n), at);
    if Exact(n, at, callable) || i == |Named(n)| then []
    else
      WeightsSuffix(Named(n), i);
      [i] + Route(Named(n)[i], at, callable)
  }

  lemma {:induction false} AroundAt<K>(nodes: seq<Node<K>>, at: Range)
    ensures var i := Place(nodes, at); Around(nodes, at) == if i < |nodes| then Some(nodes[i]) else None
  {
    if nodes != [] && !Contains(nodes[0].at, at) {
      AroundAt(nodes[1..], at);
    }
  }

  lemma PlacePrefix<K>(nodes: seq<Node<K>>, i: nat, at: Range)
    requires i <= |nodes|
    ensures Place(nodes[..i], at) == if Place(nodes, at) < i then Place(nodes, at) else i
  {
    var p, q := Place(nodes[..i], at), Place(nodes, at);
    assert forall j | 0 <= j < i :: nodes[..i][j] == nodes[j];
  }

  lemma RouteStep<K>(n: Node<K>, at: Range, callable: K -> bool)
    requires !Exact(n, at, callable) && Place(Named(n), at) < |Named(n)|
    ensures var i := Place(Named(n), at); Route(n, at, callable) == [i] + Route(Named(n)[i], at, callable)
  {}

  // Siblings do not overlap and lie within their parent.
  ghost predicate Nested<K>(n: Node<K>)
    decreases Weight(n), 0
  {
    n.at.start <= n.at.end && NestedIn(Named(n), n.at.start, n.at.end)
  }

  ghost predicate NestedIn<K>(nodes: seq<Node<K>>, lo: nat, hi: nat)
    decreases Weights(nodes), 1
  {
    nodes == [] || (lo <= nodes[0].at.start && nodes[0].at.end <= hi && Nested(nodes[0]) && NestedIn(nodes[1..], nodes[0].at.end, hi))
  }

  ghost predicate Reaches<K>(n: Node<K>, x: Node<K>)
    decreases Weight(n), 0
  {
    n == x || ReachesIn(Named(n), x)
  }

  ghost predicate ReachesIn<K>(nodes: seq<Node<K>>, x: Node<K>)
    decreases Weights(nodes), 1
  {
    nodes != [] && (Reaches(nodes[0], x) || ReachesIn(nodes[1..], x))
  }

  // The descent never misses a callable that is exactly at the range.
  lemma {:induction false} SeekFinds<K>(n: Node<K>, x: Node<K>, callable: K -> bool)
    requires Nested(n) && Reaches(n, x) && x.at.start < x.at.end && callable(x.kind)
    ensures Exact(Seek(n, x.at, callable), x.at, callable)
    decreases Weight(n)
  {
    if !Exact(n, x.at, callable) {
      AroundFinds(Named(n), n.at.start, n.at.end, x);
      SeekFinds(Around(Named(n), x.at).value, x, callable);
    }
  }

  lemma {:induction false} AroundFinds<K>(nodes: seq<Node<K>>, lo: nat, hi: nat, x: Node<K>)
    requires NestedIn(nodes, lo, hi) && ReachesIn(nodes, x) && x.at.start < x.at.end
    ensures lo <= x.at.start && x.at.end <= hi
    ensures var r := Around(nodes, x.at); r.Some? && Nested(r.value) && Reaches(r.value, x)
    decreases Weights(nodes), 1
  {
    if Reaches(nodes[0], x) {
      ReachedInside(nodes[0], x);
    } else {
      AroundFinds(nodes[1..], nodes[0].at.end, hi, x);
    }
  }

  lemma {:induction false} ReachedInside<K>(n: Node<K>, x: Node<K>)
    requires Nested(n) && Reaches(n, x) && x.at.start < x.at.end
    ensures Contains(n.at, x.at)
    decreases Weight(n), 0
  {
    if n != x {
      AroundFinds(Named(n), n.at.start, n.at.end, x);
    }
  }

  // A way down through named children, and the node it leads to.
  predicate Leads<K>(n: Node<K>, route: seq<nat>)
    decreases |route|
  {
    route == [] || (route[0] < |Named(n)| && Leads(Named(n)[route[0]], route[1..]))
  }

  function Landing<K>(n: Node<K>, route: seq<nat>): Node<K>
    requires Leads(n, route)
    decreases |route|
  {
    if route == [] then n else Landing(Named(n)[route[0]], route[1..])
  }

  // It ends at a callable exactly at the range, and passes no other one.
  predicate Outermost<K>(n: Node<K>, route: seq<nat>, at: Range, callable: K -> bool)
    requires Leads(n, route)
    decreases |route|
  {
    if route == [] then Exact(n, at, callable)
    else !Exact(n, at, callable) && Outermost(Named(n)[route[0]], route[1..], at, callable)
  }

  lemma {:induction false} LandingInside<K>(n: Node<K>, route: seq<nat>, at: Range, callable: K -> bool)
    requires Nested(n) && Leads(n, route) && Outermost(n, route, at, callable)
    ensures Contains(n.at, at)
    decreases |route|
  {
    if route != [] {
      NestedAt(Named(n), route[0], n.at.start, n.at.end);
      LandingInside(Named(n)[route[0]], route[1..], at, callable);
    }
  }

  lemma {:induction false} NestedAt<K>(nodes: seq<Node<K>>, i: nat, lo: nat, hi: nat)
    requires NestedIn(nodes, lo, hi) && i < |nodes| && lo <= hi
    ensures Nested(nodes[i]) && lo <= nodes[i].at.start && nodes[i].at.end <= hi
    decreases i
  {
    if i > 0 {
      NestedAt(nodes[1..], i - 1, nodes[0].at.end, hi);
    }
  }

  lemma {:induction false} PlaceIs<K>(nodes: seq<Node<K>>, i: nat, lo: nat, hi: nat, at: Range)
    requires NestedIn(nodes, lo, hi) && lo <= hi && i < |nodes| && Contains(nodes[i].at, at) && at.start < at.end
    ensures Place(nodes, at) == i
    decreases i
  {
    if i > 0 {
      NestedAt(nodes[1..], i - 1, nodes[0].at.end, hi);
      PlaceIs(nodes[1..], i - 1, nodes[0].at.end, hi, at);
    }
  }

  // The descent goes there.
  lemma {:induction false} RouteLeads<K>(n: Node<K>, route: seq<nat>, at: Range, callable: K -> bool)
    requires Nested(n) && at.start < at.end && Leads(n, route) && Outermost(n, route, at, callable)
    ensures Route(n, at, callable) == route && Seek(n, at, callable) == Landing(n, route)
    ensures Exact(Landing(n, route), at, callable)
    decreases |route|
  {
    if route != [] {
      var i := route[0];
      NestedAt(Named(n), i, n.at.start, n.at.end);
      RouteLeads(Named(n)[i], route[1..], at, callable);
      LandingInside(Named(n)[i], route[1..], at, callable);
      PlaceIs(Named(n), i, n.at.start, n.at.end, at);
      AroundAt(Named(n), at);
      RouteStep(n, at, callable);
      assert route == [i] + route[1..];
    }
  }

  // A measured call site. A call is drawn as one only where the index measured it.
  datatype CallSite = CallSite(id: string, caller: string, path: string, at: Range)

  // postponed: the module postpones the evaluation of annotations (Python only).
  datatype Source = Source(seed: string, path: string, calls: seq<CallSite>, postponed: bool)

  function SiteIn(calls: seq<CallSite>, seed: string, path: string, at: Range): (r: Option<CallSite>)
    ensures r.Some? ==> r.value in calls && r.value.caller == seed && r.value.path == path && r.value.at == at
    ensures r.None? ==> forall c | c in calls :: c.caller != seed || c.path != path || c.at != at
  {
    if calls == [] then None
    else if calls[0].caller == seed && calls[0].path == path && calls[0].at == at then Some(calls[0])
    else SiteIn(calls[1..], seed, path, at)
  }

  function SiteOf(src: Source, at: Range): Option<CallSite> {
    SiteIn(src.calls, src.seed, src.path, at)
  }
}
