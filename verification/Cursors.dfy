// A tree cursor, and the order in which the iterative scans of the adapters visit a tree.
module Cursors {
  import opened Syntax

  // Whether a scan goes on below a node at a given depth.
  type Enter<!K> = (Node<K>, nat) -> bool

  // The recursive traversal: a node before its children, the children in order.
  ghost function Visits<K>(enter: Enter<K>, n: Node<K>, d: nat): seq<Node<K>>
    decreases n, 0
  {
    [n] + if enter(n, d) then VisitsAll(enter, n.children, d + 1) else []
  }

  ghost function VisitsAll<K>(enter: Enter<K>, cs: seq<Child<K>>, d: nat): seq<Node<K>>
    decreases cs, 0
  {
    if cs == [] then [] else VisitsIn(enter, cs[0], d) + VisitsAll(enter, cs[1..], d)
  }

  ghost function VisitsIn<K>(enter: Enter<K>, c: Child<K>, d: nat): seq<Node<K>>
    decreases c, 0
  {
    Visits(enter, c.node, d)
  }

  // Every node is visited once at most.
  lemma {:induction false} VisitsBound<K>(enter: Enter<K>, n: Node<K>, d: nat)
    ensures |Visits(enter, n, d)| <= Weight(n)
    decreases n, 0
  {
    VisitsAllBound(enter, n.children, d + 1);
  }

  lemma {:induction false} VisitsAllBound<K>(enter: Enter<K>, cs: seq<Child<K>>, d: nat)
    ensures |VisitsAll(enter, cs, d)| <= WeightOf(cs)
    decreases cs, 0
  {
    if cs != [] {
      VisitsInBound(enter, cs[0], d);
      VisitsAllBound(enter, cs[1..], d);
    }
  }

  lemma {:induction false} VisitsInBound<K>(enter: Enter<K>, c: Child<K>, d: nat)
    ensures |VisitsIn(enter, c, d)| <= WeightIn(c)
    decreases c, 0
  {
    VisitsBound(enter, c.node, d);
  }

  // One level of the cursor: the children of a node and the one the cursor is on.
  datatype Frame<K> = Frame(siblings: seq<Child<K>>, index: nat)

  // What a cursor has still to visit once it is done with its current node.
  ghost function Pending<K>(enter: Enter<K>, frames: seq<Frame<K>>): seq<Node<K>>
    requires OnTree(frames)
  {
    if frames == [] then []
    else
      var top := frames[|frames| - 1];
      VisitsAll(enter, top.siblings[top.index + 1..], |frames|) + Pending(enter, frames[..|frames| - 1])
  }

  predicate OnTree<K>(frames: seq<Frame<K>>) {
    forall i | 0 <= i < |frames| :: frames[i].index < |frames[i].siblings|
  }

  // Where a scan goes on once it is done with the node the cursor is on: the next sibling
  // on the nearest level that has one.
  function Resumed<K>(frames: seq<Frame<K>>): (r: seq<Frame<K>>)
    ensures |r| <= |frames|
    ensures OnTree(frames) ==> OnTree(r)
  {
    if frames == [] then []
    else
      var top := frames[|frames| - 1];
      if top.index + 1 < |top.siblings| then frames[..|frames| - 1] + [Frame(top.siblings, top.index + 1)]
      else Resumed(frames[..|frames| - 1])
  }

  function Here<K>(root: Node<K>, frames: seq<Frame<K>>): Node<K>
    requires OnTree(frames)
  {
    if frames == [] then root
    else
      var top := frames[|frames| - 1];
      top.siblings[top.index].node
  }

  // What was pending is the node the scan goes on to, and what is pending after that.
  lemma {:induction false} PendingResumed<K>(enter: Enter<K>, root: Node<K>, frames: seq<Frame<K>>)
    requires OnTree(frames)
    ensures Resumes(enter, root, Pending(enter, frames), Resumed(frames))
  {
    if frames != [] {
      var top, below := frames[|frames| - 1], frames[..|frames| - 1];
      assert frames == below + [top];
      var rest := top.siblings[top.index + 1..];
      if rest == [] {
        PendingUp(enter, frames, below, top);
        PendingResumed(enter, root, below);
        assert Resumed(frames) == Resumed(below);
      } else {
        PendingNext(enter, root, frames, below, top, rest);
        assert Resumed(frames) == below + [Frame(top.siblings, top.index + 1)];
      }
    }
  }

  // A scan that has this much before it goes on at these frames.
  ghost predicate Resumes<K>(enter: Enter<K>, root: Node<K>, pending: seq<Node<K>>, r: seq<Frame<K>>) {
    OnTree(r) && pending == if r == [] then [] else Visits(enter, Here(root, r), |r|) + Pending(enter, r)
  }

  lemma {:induction false} PendingUp<K>(enter: Enter<K>, frames: seq<Frame<K>>, below: seq<Frame<K>>, top: Frame<K>)
    requires OnTree(frames) && frames == below + [top] && top.index + 1 == |top.siblings|
    ensures OnTree(below) && Pending(enter, frames) == Pending(enter, below)
  {
    assert frames[..|below|] == below;
    assert VisitsAll(enter, top.siblings[top.index + 1..], |frames|) == [];
  }

  lemma {:induction false} PendingNext<K>(enter: Enter<K>, root: Node<K>, frames: seq<Frame<K>>, below: seq<Frame<K>>,
      top: Frame<K>, rest: seq<Child<K>>)
    requires OnTree(frames) && frames == below + [top] && top.index < |top.siblings|
    requires rest == top.siblings[top.index + 1..] && rest != []
    ensures var r := below + [Frame(top.siblings, top.index + 1)];
            Resumes(enter, root, Pending(enter, frames), r)
  {
    var next := Frame(top.siblings, top.index + 1);
    assert frames[..|below|] == below && (below + [next])[..|below|] == below;
    assert rest[1..] == next.siblings[next.index + 1..];
    assert VisitsAll(enter, rest, |frames|) == Visits(enter, rest[0].node, |frames|) + VisitsAll(enter, rest[1..], |frames|);
  }

  lemma VisitsDown<K>(enter: Enter<K>, n: Node<K>, d: nat)
    requires enter(n, d) && n.children != []
    ensures Visits(enter, n, d)
         == [n] + (Visits(enter, n.children[0].node, d + 1) + VisitsAll(enter, n.children[1..], d + 1))
  {
    assert VisitsAll(enter, n.children, d + 1)
        == Visits(enter, n.children[0].node, d + 1) + VisitsAll(enter, n.children[1..], d + 1);
  }

  lemma Regroup<T>(a: seq<T>, b: seq<T>, c: seq<T>, d: seq<T>)
    ensures a + (b + c) + d == a + (b + (c + d))
  {}

  // Going down: the children of the node that was just visited are next.
  lemma PendingDown<K>(enter: Enter<K>, n: Node<K>, frames: seq<Frame<K>>, down: seq<Frame<K>>)
    requires OnTree(frames) && enter(n, |frames|) && n.children != []
    requires down == frames + [Frame(n.children, 0)]
    ensures OnTree(down)
    ensures Visits(enter, n, |frames|) + Pending(enter, frames)
         == [n] + (Visits(enter, n.children[0].node, |down|) + Pending(enter, down))
  {
    VisitsDown(enter, n, |frames|);
    assert down[..|down| - 1] == frames;
    var first, others := Visits(enter, n.children[0].node, |down|), VisitsAll(enter, n.children[1..], |down|);
    assert Pending(enter, down) == others + Pending(enter, frames);
    Regroup([n], first, others, Pending(enter, frames));
  }

  // total is seen, then the node the cursor is on with everything below it, then the rest.
  ghost predicate Scanning<K>(enter: Enter<K>, total: seq<Node<K>>, seen: seq<Node<K>>, n: Node<K>, frames: seq<Frame<K>>) {
    OnTree(frames) && total == seen + (Visits(enter, n, |frames|) + Pending(enter, frames))
  }

  lemma ScanHere<K>(enter: Enter<K>, total: seq<Node<K>>, seen: seq<Node<K>>, n: Node<K>, frames: seq<Frame<K>>)
    requires Scanning(enter, total, seen, n, frames)
    ensures |seen| < |total| && total[..|seen| + 1] == seen + [n]
  {
    assert Visits(enter, n, |frames|)[0] == n;
  }

  lemma ScanDown<K>(enter: Enter<K>, total: seq<Node<K>>, seen: seq<Node<K>>, n: Node<K>, frames: seq<Frame<K>>, down: seq<Frame<K>>)
    requires Scanning(enter, total, seen, n, frames) && enter(n, |frames|) && n.children != []
    requires down == frames + [Frame(n.children, 0)]
    ensures Scanning(enter, total, seen + [n], n.children[0].node, down)
  {
    PendingDown(enter, n, frames, down);
    Prepend(seen, n, Visits(enter, n.children[0].node, |down|) + Pending(enter, down));
  }

  lemma ScanLeaf<K>(enter: Enter<K>, total: seq<Node<K>>, seen: seq<Node<K>>, root: Node<K>, n: Node<K>, frames: seq<Frame<K>>)
    requires Scanning(enter, total, seen, n, frames) && (!enter(n, |frames|) || n.children == [])
    ensures var r := Resumed(frames);
            if r == [] then total == seen + [n] else Scanning(enter, total, seen + [n], Here(root, r), r)
  {
    assert Visits(enter, n, |frames|) == [n];
    Prepend(seen, n, Pending(enter, frames));
    PendingResumed(enter, root, frames);
  }

  lemma Prepend<T>(xs: seq<T>, x: T, ys: seq<T>)
    ensures xs + ([x] + ys) == xs + [x] + ys
  {}

  class TreeCursor<K> {
    const root: Node<K>
    var frames: seq<Frame<K>>

    ghost predicate Valid()
      reads this
    {
      OnTree(frames)
    }

    constructor (root: Node<K>)
      ensures Valid() && frames == [] && this.root == root
    {
      this.root := root;
      frames := [];
    }

    function Current(): Node<K>
      requires Valid()
      reads this
    {
      Here(root, frames)
    }

    method GotoFirstChild() returns (moved: bool)
      requires Valid()
      modifies this
      ensures Valid()
      ensures moved == (old(Current()).children != [])
      ensures frames == if moved then old(frames) + [Frame(old(Current()).children, 0)] else old(frames)
    {
      moved := Current().children != [];
      if moved {
        frames := frames + [Frame(Current().children, 0)];
      }
    }

    method GotoNextSibling() returns (moved: bool)
      requires Valid() && frames != []
      modifies this
      ensures Valid()
      ensures var top := old(frames[|frames| - 1]);
              && moved == (top.index + 1 < |top.siblings|)
              && frames == if moved then old(frames[..|frames| - 1]) + [Frame(top.siblings, top.index + 1)] else old(frames)
    {
      var top := frames[|frames| - 1];
      moved := top.index + 1 < |top.siblings|;
      if moved {
        frames := frames[..|frames| - 1] + [Frame(top.siblings, top.index + 1)];
      }
    }

    method GotoParent()
      requires Valid() && frames != []
      modifies this
      ensures Valid() && frames == old(frames[..|frames| - 1])
    {
      frames := frames[..|frames| - 1];
    }

    // The step every scan ends a node with: back up to the nearest level that has a next
    // sibling, and on to it. False when the root is reached, so that nothing is left.
    method Advance() returns (more: bool)
      requires Valid()
      modifies this
      ensures Valid() && frames == Resumed(old(frames))
      ensures more == (frames != [])
    {
      while frames != []
        invariant Valid() && Resumed(frames) == Resumed(old(frames))
        decreases |frames|
      {
        var moved := GotoNextSibling();
        if moved {
          return true;
        }
        GotoParent();
      }
      return false;
    }
  }
}
