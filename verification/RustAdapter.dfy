// The Rust adapter: a syntax tree becomes a tree of possible steps.
module RustAdapter {
  import opened Behaviour
  import opened Diagram
  import opened Forms
  import opened Lowering
  import opened Options
  import opened Syntax

  // Node kinds, with those the walk treats alike under one name:
  //   Callable    function_item, closure_expression
  //   Opaque      macro_invocation, unsafe_block, const_block
  //   Unsupported compound_assignment_expr and every form the adapter does not know
  //   Sequenced   expression_statement, else_clause, parenthesized_expression, arguments,
  //               tuple_expression, index_expression, reference_expression,
  //               unary_expression, range_expression, field_initializer_list,
  //               base_field_initializer
  //   Valued      type_cast_expression, let_condition, field_initializer
  //   Atom        identifiers, literals, comments, empty statements, use declarations
  // A call carries the source hint that names its lane.
  datatype Kind =
    | Callable | AsyncBlock | Opaque | Unsupported | BreakExpression | ContinueExpression | YieldExpression
    | Block | Label | ArrayExpression | Sequenced | FieldExpression | Valued | LetDeclaration
    | IfExpression | MatchExpression | MatchArm | MatchPattern
    | WhileExpression | ForExpression | LoopExpression
    | ShortCircuit | BinaryExpression | CallExpression(hint: string) | ReturnExpression | TryExpression
    | AwaitExpression | AssignmentExpression | GenericFunction | StructExpression | Atom

  type Rust = Node<Kind>

  const OVERFLOW := "boundary:rust-unknown"

  predicate Labelled(nodes: seq<Rust>) {
    exists i | 0 <= i < |nodes| :: nodes[i].kind.Label?
  }

  // ---- the order of evaluation ----

  // What executing a node does, following the Rust Reference: operands from left to
  // right, the right side of an assignment before its place, a guard before its arm.
  // The operand of a break or a yield may leave instead. A yield ends the activation that
  // is drawn; Coroutines has what a resumed one does.
  function Meaning(src: Source, n: Rust): Form
    decreases Weight(n), 5
  {
    if HasError(n) then Hides(n.at, ANY_OUTCOME)
    else if Control(n.kind) then ControlForm(src, n)
    else if Operation(n.kind) then OperationForm(src, n)
    else PlainForm(src, n)
  }

  predicate Control(k: Kind) {
    || k.IfExpression? || k.MatchExpression? || k.WhileExpression? || k.ForExpression? || k.LoopExpression?
    || k.ReturnExpression? || k.TryExpression?
  }

  predicate Operation(k: Kind) {
    k.LetDeclaration? || k.ShortCircuit? || k.CallExpression? || k.AwaitExpression? || k.AssignmentExpression?
  }

  function ControlForm(src: Source, n: Rust): Form
    decreases Weight(n), 4
  {
    var k := n.kind;
    if k.IfExpression? then
      Both(Part(src, n, Condition), Either(n.at, Part(src, n, Consequence), Part(src, n, Alternative)))
    else if k.MatchExpression? then
      Both(Part(src, n, Value), match ByField(n, Body) case None => Barred case Some(body) => Arms(src, ArmsIn(Named(body))))
    else if k.ReturnExpression? then Both(All(src, Named(n)), Leaving(Return, n.at, Exit))
    else if k.TryExpression? then Both(All(src, Named(n)), Either(n.at, Pass, Leaving(Return, n.at, Exit)))
    else if Labelled(Named(n)) then Hides(n.at, ANY_OUTCOME)
    else Iteration(src, n)
  }

  function OperationForm(src: Source, n: Rust): Form
    decreases Weight(n), 4
  {
    var k := n.kind;
    if k.LetDeclaration? then
      if ByField(n, Alternative).Some? then Both(Part(src, n, Value), Hides(n.at, ANY_OUTCOME)) else Part(src, n, Value)
    else if k.ShortCircuit? then Both(Part(src, n, Left), Either(n.at, Part(src, n, Right), Pass))
    else if k.CallExpression? then Both(All(src, Named(n)), Invocation(src, n.at, ANY_OUTCOME))
    else if k.AwaitExpression? then Both(All(src, Named(n)), Does(Await, n.at))
    else Both(Both(Part(src, n, Right), Part(src, n, Left)), Does(Effect, n.at))
  }

  function PlainForm(src: Source, n: Rust): Form
    decreases Weight(n), 4
  {
    var k := n.kind;
    if k.Callable? || k.AsyncBlock? then Hides(n.at, {Normal})
    else if k.BreakExpression? then Hides(n.at, {Break, Exit, Continue})
    else if k.ContinueExpression? then Hides(n.at, {Continue})
    else if k.YieldExpression? then Pauses(n.at)
    else if k.Block? && Labelled(Named(n)) then Hides(n.at, ANY_OUTCOME)
    else if k.ArrayExpression? && ByField(n, Length).Some? then Hides(n.at, ANY_OUTCOME)
    else if k.Block? || k.ArrayExpression? || k.Sequenced? || k.FieldExpression? || k.BinaryExpression? then
      All(src, Named(n))
    else if k.Valued? then Part(src, n, Value)
    else if k.GenericFunction? then Part(src, n, Function)
    else if k.StructExpression? then Part(src, n, Body)
    else if k.Atom? then Pass
    else Hides(n.at, ANY_OUTCOME)
  }

  // for evaluates its iterator once; only loop has no test.
  function Iteration(src: Source, n: Rust): Form
    decreases Weight(n), 3
  {
    Both(InitMeaning(src, n), Cycle(RoundMeaning(src, n), n.kind.LoopExpression?))
  }

  function InitMeaning(src: Source, n: Rust): Form
    decreases Weight(n), 1
  {
    if n.kind.ForExpression? then Part(src, n, Value) else Pass
  }

  function TestMeaning(src: Source, n: Rust): Form
    decreases Weight(n), 1
  {
    if n.kind.LoopExpression? then Pass else Part(src, n, Condition)
  }

  function RoundMeaning(src: Source, n: Rust): Form
    decreases Weight(n), 2
  {
    Round(n.at, TestMeaning(src, n), Part(src, n, Body))
  }

  function Part(src: Source, n: Rust, f: Field): Form
    decreases Weight(n), 0
  {
    match ByField(n, f)
    case None => Pass
    case Some(c) => Meaning(src, c)
  }

  function All(src: Source, nodes: seq<Rust>): Form
    decreases Weights(nodes), 7
  {
    Fold(Meanings(src, nodes))
  }

  function Meanings(src: Source, nodes: seq<Rust>): (ps: seq<Form>)
    ensures |ps| == |nodes|
    decreases Weights(nodes), 6
  {
    if nodes == [] then [] else [Meaning(src, nodes[0])] + Meanings(src, nodes[1..])
  }

  lemma {:induction false} MeaningsSuffix(src: Source, nodes: seq<Rust>, i: nat)
    requires i <= |nodes|
    ensures Meanings(src, nodes)[i..] == Meanings(src, nodes[i..])
    ensures i < |nodes| ==> Meanings(src, nodes)[i] == Meaning(src, nodes[i])
    decreases i
  {
    if i > 0 {
      MeaningsSuffix(src, nodes[1..], i - 1);
      assert nodes[1..][i - 1..] == nodes[i..];
    }
  }

  function ArmsIn(nodes: seq<Rust>): (r: seq<Rust>)
    ensures Weights(r) <= Weights(nodes) && Depths(r) <= Depths(nodes)
  {
    if nodes == [] then []
    else if nodes[0].kind.MatchArm? then [nodes[0]] + ArmsIn(nodes[1..])
    else ArmsIn(nodes[1..])
  }

  // The first arm whose pattern matches and whose guard holds. The compiler has checked
  // that some arm takes the value.
  function Arms(src: Source, nodes: seq<Rust>): Form
    decreases Weights(nodes), 6
  {
    if nodes == [] then Barred else Tries(nodes[0].at, ArmBody(src, nodes[0]), Arms(src, nodes[1..]))
  }

  function GuardOf(arm: Rust): (r: Option<Rust>)
    ensures r.Some? ==> Weight(r.value) < Weight(arm) && Depth(r.value) < Depth(arm)
  {
    match ByField(arm, Pattern)
    case None => None
    case Some(pattern) => ByField(pattern, Condition)
  }

  function ArmBody(src: Source, arm: Rust): Form
    decreases Weight(arm), 1
  {
    match GuardOf(arm)
    case None => Part(src, arm, Value)
    case Some(g) => Guarding(arm.at, Meaning(src, g), Part(src, arm, Value))
  }

  // ---- the lowering ----

  method Walk(b: Builder, src: Source, n: Rust, depth: nat) returns (f: Flow)
    requires b.Within(depth, Depth(n))
    requires b.Valid()
    modifies b
    ensures b.Valid() && Lowered(f, Meaning(src, n), old(b.Now()), b.Now())
    decreases Weight(n), 5
  {
    ghost var m0 := b.Now();
    if b.count >= MAX_STEPS {
      b.Limit();
      f := EMPTY_FLOW;
      FullLowered(f, Meaning(src, n), m0, b.Now());
      return;
    }
    if depth > MAX_DEPTH {
      f := b.GiveUp(n.at, Meaning(src, n));
      return;
    }
    if HasError(n) {
      f := Hide(b, n.at, ANY_OUTCOME);
    } else if Control(n.kind) {
      f := WalkControl(b, src, n, depth);
    } else if Operation(n.kind) {
      f := WalkOperation(b, src, n, depth);
    } else {
      f := WalkPlain(b, src, n, depth);
    }
  }

  method WalkPlain(b: Builder, src: Source, n: Rust, depth: nat) returns (f: Flow)
    requires b.Within(depth, Depth(n))
    requires b.Valid() && !HasError(n) && !Control(n.kind) && !Operation(n.kind)
    modifies b
    ensures b.Valid() && Lowered(f, PlainForm(src, n), old(b.Now()), b.Now())
    decreases Weight(n), 1
  {
    var k := n.kind;
    if k.Callable? || k.AsyncBlock? {
      f := Hide(b, n.at, {Normal});
    } else if k.BreakExpression? {
      f := Hide(b, n.at, {Break, Exit, Continue});
    } else if k.ContinueExpression? {
      f := Hide(b, n.at, {Continue});
    } else if k.YieldExpression? {
      f := Pause(b, n.at);
    } else if k.Block? && Labelled(Named(n)) {
      f := Hide(b, n.at, ANY_OUTCOME);
    } else if k.ArrayExpression? && ByField(n, Length).Some? {
      f := Hide(b, n.at, ANY_OUTCOME);
    } else if k.Block? || k.ArrayExpression? || k.Sequenced? || k.FieldExpression? || k.BinaryExpression? {
      f := WalkBlock(b, src, Named(n), depth);
    } else if k.Valued? {
      f := WalkField(b, src, n, Value, depth);
    } else if k.GenericFunction? {
      f := WalkField(b, src, n, Function, depth);
    } else if k.StructExpression? {
      f := WalkField(b, src, n, Body, depth);
    } else if k.Atom? {
      f := EMPTY_FLOW;
      EmptyLowered(b.Now());
    } else {
      f := Hide(b, n.at, ANY_OUTCOME);
    }
  }

  method WalkControl(b: Builder, src: Source, n: Rust, depth: nat) returns (f: Flow)
    requires b.Within(depth, Depth(n))
    requires b.Valid() && !HasError(n) && Control(n.kind)
    modifies b
    ensures b.Valid() && Lowered(f, ControlForm(src, n), old(b.Now()), b.Now())
    decreases Weight(n), 4
  {
    var k := n.kind;
    if k.IfExpression? {
      f := WalkIf(b, src, n, depth);
    } else if k.MatchExpression? {
      f := MatchStep(b, src, n, depth);
    } else if k.ReturnExpression? {
      f := WalkReturn(b, src, n, depth);
    } else if k.TryExpression? {
      f := WalkTry(b, src, n, depth);
    } else {
      f := LoopStep(b, src, n, depth);
    }
  }

  method WalkOperation(b: Builder, src: Source, n: Rust, depth: nat) returns (f: Flow)
    requires b.Within(depth, Depth(n))
    requires b.Valid() && !HasError(n) && Operation(n.kind)
    modifies b
    ensures b.Valid() && Lowered(f, OperationForm(src, n), old(b.Now()), b.Now())
    decreases Weight(n), 4
  {
    var k := n.kind;
    if k.LetDeclaration? {
      f := WalkLet(b, src, n, depth);
    } else if k.ShortCircuit? {
      f := WalkShortCircuit(b, src, n, depth);
    } else if k.CallExpression? {
      f := WalkCall(b, src, n, depth);
    } else if k.AwaitExpression? {
      f := WalkAwait(b, src, n, depth);
    } else {
      f := WalkAssignment(b, src, n, depth);
    }
  }

  // boundary for a deferred body, unknown for an opaque form, and the control transfers,
  // whose path is not drawn any further.
  method Hide(b: Builder, at: Range, allowed: set<Outcome>) returns (f: Flow)
    requires b.Valid() && allowed <= ANY_OUTCOME
    modifies b`count, b`truncated
    ensures b.Valid() && Lowered(f, Hides(at, allowed), old(b.Now()), b.Now())
    ensures Drawn(f.steps, Boundary, at, old(b.Now()), b.Now())
    ensures f.continues == (Normal in allowed) && f.exits == (allowed != {Normal})
  {
    ghost var m0 := b.Now();
    f := b.BoundaryAt(at);
    f := f.(continues := Normal in allowed, exits := allowed != {Normal});
    VeilLowered(f, at, allowed, m0, b.Now());
  }

  // A yield: its path is not drawn any further either.
  method Pause(b: Builder, at: Range) returns (f: Flow)
    requires b.Valid()
    modifies b`count, b`truncated
    ensures b.Valid() && Lowered(f, Pauses(at), old(b.Now()), b.Now()) && !f.continues && f.exits
    ensures Drawn(f.steps, Boundary, at, old(b.Now()), b.Now())
  {
    ghost var m0 := b.Now();
    f := b.BoundaryAt(at);
    f := f.(continues := false, exits := true);
    PauseLowered(f, at, m0, b.Now());
  }

  method WalkField(b: Builder, src: Source, n: Rust, field: Field, depth: nat) returns (f: Flow)
    requires ByField(n, field).Some? ==> b.Within(depth + 1, Depth(ByField(n, field).value))
    requires b.Valid()
    modifies b
    ensures b.Valid() && Lowered(f, Part(src, n, field), old(b.Now()), b.Now())
    decreases Weight(n), 0
  {
    var c := ByField(n, field);
    if c.Some? {
      f := Walk(b, src, c.value, depth + 1);
    } else {
      f := EMPTY_FLOW;
      EmptyLowered(b.Now());
    }
  }

  method WalkBlock(b: Builder, src: Source, nodes: seq<Rust>, depth: nat) returns (out: Flow)
    requires b.Within(depth, Depths(nodes))
    requires b.Valid()
    modifies b
    ensures b.Valid() && Lowered(out, All(src, nodes), old(b.Now()), b.Now())
    decreases Weights(nodes), 8
  {
    out := EMPTY_FLOW;
    ghost var ps, m0 := Meanings(src, nodes), b.Now();
    BlockStart(ps, m0);
    for i := 0 to |nodes|
      invariant b.Valid()
      invariant out.continues && (i < |nodes| ==> !out.exits)
      invariant Upto(ps, i, out, m0, b.Now())
    {
      if b.count >= MAX_STEPS {
        b.CutShort(out, ps, i, m0);
        return;
      }
      out := WalkNext(b, src, nodes, i, out, depth, m0);
      if !out.continues {
        return;
      }
      if out.exits && i + 1 < |nodes| {
        WeightsShrink(nodes, i + 1);
        out := GuardSuffix(b, src, nodes, i + 1, out, depth, m0);
        return;
      }
    }
    BlockEnd(ps, out, m0, b.Now());
  }

  // One more node of a block.
  method WalkNext(b: Builder, src: Source, nodes: seq<Rust>, i: nat, before: Flow, depth: nat, ghost m0: Mark) returns (out: Flow)
    requires b.Within(depth, Depths(nodes))
    requires b.Valid() && i < |nodes| && before.continues && !before.exits
    requires Upto(Meanings(src, nodes), i, before, m0, b.Now())
    modifies b
    ensures b.Valid() && Upto(Meanings(src, nodes), i + 1, out, m0, b.Now())
    ensures !out.continues ==> Lowered(out, All(src, nodes), m0, b.Now())
    decreases Weights(nodes), 6
  {
    ghost var m1 := b.Now();
    WeightsSuffix(nodes, i);
    var f := Walk(b, src, nodes[i], depth + 1);
    MeaningsSuffix(src, nodes, i);
    BlockNext(Meanings(src, nodes), i, before, f, m0, m1, b.Now());
    out := Flow(before.steps + f.steps, f.continues, before.exits || f.exits);
    if !out.continues {
      BlockDead(Meanings(src, nodes), i + 1, out, m0, b.Now());
    }
  }

  // Where some path may have left, the rest of the block comes under a guard step.
  method GuardSuffix(b: Builder, src: Source, nodes: seq<Rust>, i: nat, first: Flow, depth: nat, ghost m0: Mark) returns (out: Flow)
    requires 0 < i && b.Within(depth, Depths(nodes))
    requires b.Valid() && i < |nodes| && first.continues && first.exits
    requires Upto(Meanings(src, nodes), i, first, m0, b.Now())
    modifies b
    ensures b.Valid() && Lowered(out, All(src, nodes), m0, b.Now())
    decreases Weights(nodes[i..]), 9
  {
    out := first;
    ghost var ps, m1 := Meanings(src, nodes), b.Now();
    MeaningsSuffix(src, nodes, i);
    if depth >= MAX_DEPTH {
      b.CutShort(out, ps, i, m0);
      return;
    }
    var s := b.NewStep(nodes[i].at, Branch(Guard));
    if s.Some? {
      ghost var m2 := b.Now();
      WeightsShrink(nodes, i);
      var rest := WalkBlock(b, src, nodes[i..], depth + 1);
      var guard := s.value.(children := rest.steps);
      BlockGuarded(ps, i, out, guard, rest, nodes[i].at, m0, m1, m2, b.Now());
      out := Flow(out.steps + [guard], rest.continues, out.exits || rest.exits);
    } else {
      BlockCut(ps, i, out, m0, m1, b.Now());
    }
  }

  method WalkLet(b: Builder, src: Source, n: Rust, depth: nat) returns (f: Flow)
    requires b.Within(depth, Depth(n))
    requires b.Valid() && n.kind.LetDeclaration? && !HasError(n)
    modifies b
    ensures b.Valid() && Lowered(f, OperationForm(src, n), old(b.Now()), b.Now())
    decreases Weight(n), 1
  {
    ghost var m0 := b.Now();
    f := WalkField(b, src, n, Value, depth);
    if ByField(n, Alternative).Some? {
      ghost var m1 := b.Now();
      var hidden := Hide(b, n.at, ANY_OUTCOME);
      f := b.Then(f, hidden, n.at, Part(src, n, Value), Hides(n.at, ANY_OUTCOME), m0, m1);
    }
  }

  method WalkIf(b: Builder, src: Source, n: Rust, depth: nat) returns (f: Flow)
    requires b.Within(depth, Depth(n))
    requires b.Valid() && n.kind.IfExpression? && !HasError(n)
    modifies b
    ensures b.Valid() && Lowered(f, ControlForm(src, n), old(b.Now()), b.Now())
    decreases Weight(n), 1
  {
    ghost var m0 := b.Now();
    ghost var p, q := Part(src, n, Consequence), Part(src, n, Alternative);
    var condition := WalkField(b, src, n, Condition, depth);
    ghost var m1 := b.Now();
    f := EMPTY_FLOW;
    var s := b.NewStep(n.at, Branch(Fork));
    if s.Some? {
      ghost var m2 := b.Now();
      var yes := WalkField(b, src, n, Consequence, depth);
      ghost var m3 := b.Now();
      var no := WalkField(b, src, n, Alternative, depth);
      var fork := s.value.(children := yes.steps, alternate := no.steps);
      f := Flow([fork], yes.continues || no.continues, yes.exits || no.exits);
      ForkLowered(fork, yes, no, f, p, q, m1, m2, m3, b.Now());
    } else {
      FullLowered(f, Either(n.at, p, q), m1, b.Now());
    }
    f := b.Then(condition, f, n.at, Part(src, n, Condition), Either(n.at, p, q), m0, m1);
  }

  method WalkShortCircuit(b: Builder, src: Source, n: Rust, depth: nat) returns (f: Flow)
    requires b.Within(depth, Depth(n))
    requires b.Valid() && n.kind.ShortCircuit? && !HasError(n)
    modifies b
    ensures b.Valid() && Lowered(f, OperationForm(src, n), old(b.Now()), b.Now())
    decreases Weight(n), 1
  {
    ghost var m0 := b.Now();
    ghost var p := Part(src, n, Right);
    var left := WalkField(b, src, n, Left, depth);
    ghost var m1 := b.Now();
    f := EMPTY_FLOW;
    var s := b.NewStep(n.at, Branch(Fork));
    if s.Some? {
      ghost var m2 := b.Now();
      var right := WalkField(b, src, n, Right, depth);
      var fork := s.value.(children := right.steps);
      f := Flow([fork], true, right.exits);
      EmptyLowered(b.Now());
      ForkLowered(fork, right, EMPTY_FLOW, f, p, Pass, m1, m2, b.Now(), b.Now());
    } else {
      FullLowered(f, Either(n.at, p, Pass), m1, b.Now());
    }
    f := b.Then(left, f, n.at, Part(src, n, Left), Either(n.at, p, Pass), m0, m1);
  }

  method WalkReturn(b: Builder, src: Source, n: Rust, depth: nat) returns (f: Flow)
    requires b.Within(depth, Depth(n))
    requires b.Valid() && n.kind.ReturnExpression? && !HasError(n)
    modifies b
    ensures b.Valid() && Lowered(f, ControlForm(src, n), old(b.Now()), b.Now())
    decreases Weight(n), 1
  {
    ghost var m0 := b.Now();
    var value := WalkBlock(b, src, Named(n), depth);
    ghost var m1 := b.Now();
    f := b.Depart(n.at, Return);
    f := b.Then(value, f, n.at, All(src, Named(n)), Leaving(Return, n.at, Exit), m0, m1);
  }

  method WalkTry(b: Builder, src: Source, n: Rust, depth: nat) returns (f: Flow)
    requires b.Within(depth, Depth(n))
    requires b.Valid() && n.kind.TryExpression? && !HasError(n)
    modifies b
    ensures b.Valid() && Lowered(f, ControlForm(src, n), old(b.Now()), b.Now())
    decreases Weight(n), 1
  {
    ghost var m0 := b.Now();
    var value := WalkBlock(b, src, Named(n), depth);
    ghost var m1 := b.Now();
    f := Residual(b, n.at);
    f := b.Then(value, f, n.at, All(src, Named(n)), Either(n.at, Pass, Leaving(Return, n.at, Exit)), m0, m1);
  }

  // A question mark leaves with a residual, and goes on with anything else.
  method Residual(b: Builder, at: Range) returns (f: Flow)
    requires b.Valid()
    modifies b`count, b`truncated
    ensures b.Valid() && Lowered(f, Either(at, Pass, Leaving(Return, at, Exit)), old(b.Now()), b.Now())
  {
    ghost var m0 := b.Now();
    ghost var p := Leaving(Return, at, Exit);
    f := Flow([], true, true);
    var s := b.NewStep(at, Branch(Fork));
    if s.Some? {
      ghost var m1 := b.Now();
      var early := b.Depart(at, Return);
      var fork := s.value.(alternate := early.steps);
      f := f.(steps := [fork]);
      EmptyLowered(m1);
      ForkLowered(fork, EMPTY_FLOW, early, f, Pass, p, m0, m1, m1, b.Now());
    } else {
      FullLowered(f, Either(at, Pass, p), m0, b.Now());
    }
  }

  method WalkAwait(b: Builder, src: Source, n: Rust, depth: nat) returns (f: Flow)
    requires b.Within(depth, Depth(n))
    requires b.Valid() && n.kind.AwaitExpression? && !HasError(n)
    modifies b
    ensures b.Valid() && Lowered(f, OperationForm(src, n), old(b.Now()), b.Now())
    decreases Weight(n), 1
  {
    ghost var m0 := b.Now();
    var value := WalkBlock(b, src, Named(n), depth);
    ghost var m1 := b.Now();
    f := b.Perform(n.at, Await);
    f := b.Then(value, f, n.at, All(src, Named(n)), Does(Await, n.at), m0, m1);
  }

  // The right side is evaluated before the place it is assigned to.
  method WalkAssignment(b: Builder, src: Source, n: Rust, depth: nat) returns (f: Flow)
    requires b.Within(depth, Depth(n))
    requires b.Valid()
    modifies b
    ensures b.Valid()
    ensures Lowered(f, Both(Both(Part(src, n, Right), Part(src, n, Left)), Does(Effect, n.at)), old(b.Now()), b.Now())
    decreases Weight(n), 2
  {
    ghost var m0 := b.Now();
    var values := WalkSides(b, src, n, depth);
    ghost var m1 := b.Now();
    f := b.Perform(n.at, Effect);
    f := b.Then(values, f, n.at, Both(Part(src, n, Right), Part(src, n, Left)), Does(Effect, n.at), m0, m1);
  }

  method WalkSides(b: Builder, src: Source, n: Rust, depth: nat) returns (f: Flow)
    requires b.Within(depth, Depth(n))
    requires b.Valid()
    modifies b
    ensures b.Valid() && Lowered(f, Both(Part(src, n, Right), Part(src, n, Left)), old(b.Now()), b.Now())
    decreases Weight(n), 1
  {
    ghost var m0 := b.Now();
    var right := WalkField(b, src, n, Right, depth);
    ghost var m1 := b.Now();
    var left := WalkField(b, src, n, Left, depth);
    f := b.Then(right, left, n.at, Part(src, n, Right), Part(src, n, Left), m0, m1);
  }

  method WalkCall(b: Builder, src: Source, n: Rust, depth: nat) returns (f: Flow)
    requires b.Within(depth, Depth(n))
    requires b.Valid() && n.kind.CallExpression? && !HasError(n)
    modifies b
    ensures b.Valid() && Lowered(f, OperationForm(src, n), old(b.Now()), b.Now())
    decreases Weight(n), 1
  {
    ghost var m0 := b.Now();
    f := WalkBlock(b, src, Named(n), depth);
    ghost var m1 := b.Now();
    if !f.continues {
      LoweredDead(f, All(src, Named(n)), Invocation(src, n.at, ANY_OUTCOME), m0, m1);
    } else {
      var call := b.Invoke(src, n.at, n.kind.hint, ANY_OUTCOME);
      f := b.Then(f, call, n.at, All(src, Named(n)), Invocation(src, n.at, ANY_OUTCOME), m0, m1);
    }
  }

  // ---- match ----

  // What a drawn arm owes: its children show the arm and draw what it draws, and the flags
  // of the match cover every way the arm can end except a false guard.
  ghost predicate ArmDrawn(a: Step, f: Flow, at: Range, p: Form, m: Mark) {
    && a.at == at && a.kind == Branch(Arm) && a.alternate == []
    && (!m.cut ==> Shows(Reading(a.children), Denote(p)) && Sketched(a.children, p) && ArmHonest(f, Denote(p)))
    && (!m.Full() ==> ArmGuarded(f, Denote(p)))
  }

  ghost predicate ArmHonest(f: Flow, p: Runs) {
    forall t, o :: p(t, o) && o != Reject ==> if o == Normal then f.continues else f.exits
  }

  ghost predicate ArmGuarded(f: Flow, p: Runs) {
    forall t, o :: p(t, o) && o != Reject ==> f.exits || (o == Normal && f.continues)
  }

  ghost predicate ArmsDrawn(src: Source, arms: seq<Rust>, drawn: seq<Step>, f: Flow, m: Mark) {
    && |drawn| == |arms|
    && forall k | 0 <= k < |arms| :: ArmDrawn(drawn[k], f, arms[k].at, ArmBody(src, arms[k]), m)
  }

  // What the arms that are left add to those drawn since m1.
  predicate Ahead(f: Flow, rest: Form, whole: Form, m1: Mark, m: Mark) {
    if m.cut then m1.cut || m.loose || m1.count + Steps(whole) > MAX_STEPS
    else m.count + Steps(rest) <= m1.count + Steps(whole) && (f.continues || Goes(rest)) == Goes(whole)
  }

  lemma {:induction false} AheadNext(src: Source, arms: seq<Rust>, i: nat, f: Flow, g: Flow, whole: Form, m1: Mark, m2: Mark, m: Mark)
    requires i < |arms| && Ahead(f, Arms(src, arms[i..]), whole, m1, m2) && m1.UpTo(m2) && m2.UpTo(m)
    requires Metered(1 + Steps(ArmBody(src, arms[i])), m2, m) && (!m.cut ==> g.continues == Goes(ArmBody(src, arms[i])))
    ensures Ahead(f.(continues := f.continues || g.continues), Arms(src, arms[i + 1..]), whole, m1, m)
  {
    assert arms[i..][1..] == arms[i + 1..];
    ArmsLeast(src, arms[i + 1..]);
  }

  lemma {:induction false} AheadFull(src: Source, arms: seq<Rust>, i: nat, f: Flow, whole: Form, m1: Mark, m: Mark)
    requires i < |arms| && Ahead(f, Arms(src, arms[i..]), whole, m1, m) && m1.UpTo(m) && m.Full()
    ensures Ahead(f, Barred, whole, m1, m.(cut := true))
  {
    ArmsLeast(src, arms[i + 1..]);
    assert arms[i..][1..] == arms[i + 1..];
  }

  lemma {:induction false} ArmsLeast(src: Source, arms: seq<Rust>)
    ensures Steps(Arms(src, arms)) >= 1
  {}

  method MatchStep(b: Builder, src: Source, n: Rust, depth: nat) returns (r: Flow)
    requires b.Within(depth, Depth(n))
    requires b.Valid() && n.kind.MatchExpression? && !HasError(n)
    modifies b
    ensures b.Valid() && Lowered(r, ControlForm(src, n), old(b.Now()), b.Now())
    decreases Weight(n), 1
  {
    ghost var m0 := b.Now();
    var value := WalkField(b, src, n, Value, depth);
    ghost var m1 := b.Now();
    var body := ByField(n, Body);
    var f := WalkArms(b, src, n.at, if body.Some? then ArmsIn(Named(body.value)) else [], depth);
    r := b.Then(value, f, n.at, Part(src, n, Value),
                if body.Some? then Arms(src, ArmsIn(Named(body.value))) else Barred, m0, m1);
  }

  // The match ends normally when one of its arms does.
  method WalkArms(b: Builder, src: Source, at: Range, arms: seq<Rust>, depth: nat) returns (f: Flow)
    requires b.Within(depth, Depths(arms))
    requires b.Valid()
    modifies b
    ensures b.Valid() && Lowered(f, Arms(src, arms), old(b.Now()), b.Now())
    decreases Weights(arms), 6
  {
    ghost var m0 := b.Now();
    f := Flow([], false, false);
    var s := b.NewStep(at, Branch(Role.Arms));
    if s.None? {
      FullLowered(f, Arms(src, arms), m0, b.Now());
      return;
    }
    ghost var m1 := b.Now();
    var alternate;
    alternate, f := WalkAlternate(b, src, arms, depth);
    var step := s.value.(alternate := alternate);
    f := f.(steps := [step]);
    MatchLowered(src, arms, alternate, step, f, m0, m1, b.Now());
  }

  // The flags of the match are those of its arms together.
  method WalkAlternate(b: Builder, src: Source, arms: seq<Rust>, depth: nat) returns (alternate: seq<Step>, f: Flow)
    requires b.Within(depth, Depths(arms))
    requires b.Valid()
    modifies b
    ensures b.Valid() && old(b.Now()).UpTo(b.Now()) && f.steps == []
    ensures Unique(Tally(alternate), old(b.count), b.count)
    ensures (b.truncated && b.count >= MAX_STEPS) || ArmsDrawn(src, arms, alternate, f, b.Now())
    ensures Ahead(f, Barred, Arms(src, arms), old(b.Now()), b.Now())
    decreases Weights(arms), 5
  {
    ghost var m1 := b.Now();
    f, alternate := Flow([], false, false), [];
    for i := 0 to |arms|
      invariant b.Valid() && m1.UpTo(b.Now()) && f.steps == []
      invariant Unique(Tally(alternate), m1.count, b.count)
      invariant ArmsDrawn(src, arms[..i], alternate, f, b.Now())
      invariant Ahead(f, Arms(src, arms[i..]), Arms(src, arms), m1, b.Now())
    {
      var more;
      more, alternate, f := NextArm(b, src, arms, i, alternate, f, depth, m1);
      if !more {
        return;
      }
    }
    assert arms[..|arms|] == arms && arms[|arms|..] == [];
  }

  // One more arm, as long as there are steps for it.
  method NextArm(b: Builder, src: Source, arms: seq<Rust>, i: nat, drawn: seq<Step>, before: Flow, depth: nat, ghost m1: Mark)
    returns (more: bool, alternate: seq<Step>, f: Flow)
    requires b.Within(depth, Depths(arms)) && i < |arms|
    requires b.Valid() && m1.UpTo(b.Now()) && before.steps == [] && Unique(Tally(drawn), m1.count, b.count)
    requires ArmsDrawn(src, arms[..i], drawn, before, b.Now())
    requires Ahead(before, Arms(src, arms[i..]), Arms(src, arms), m1, b.Now())
    modifies b
    ensures b.Valid() && m1.UpTo(b.Now()) && f.steps == [] && Unique(Tally(alternate), m1.count, b.count)
    ensures if more then ArmsDrawn(src, arms[..i + 1], alternate, f, b.Now()) else b.truncated && b.count >= MAX_STEPS
    ensures Ahead(f, if more then Arms(src, arms[i + 1..]) else Barred, Arms(src, arms), m1, b.Now())
    decreases Weights(arms), 4
  {
    ghost var m2, whole := b.Now(), Arms(src, arms);
    more, alternate, f := false, drawn, before;
    if b.count >= MAX_STEPS {
      b.Limit();
      AheadFull(src, arms, i, f, whole, m1, m2);
      return;
    }
    WeightsSuffix(arms, i);
    var a, g := WalkArm(b, src, arms[i], depth);
    AheadNext(src, arms, i, f, g, whole, m1, m2, b.Now());
    if a.Some? {
      more := true;
      f := f.(continues := before.continues || g.continues, exits := before.exits || g.exits);
      ArmsGrow(src, arms, i, drawn, a.value, before, g, f, m2, b.Now());
      ArmsUnique(drawn, a.value, m1.count, m2.count, b.count);
      alternate := drawn + [a.value];
    }
  }

  lemma {:induction false} MatchLowered(src: Source, arms: seq<Rust>, drawn: seq<Step>, s: Step, f: Flow, m0: Mark, m1: Mark, m: Mark)
    requires m0.UpTo(m1) && m1.UpTo(m) && !m0.Full() && Drawn([s.(alternate := [])], Branch(Role.Arms), s.at, m0, m1)
    requires f.steps == [s] && s.alternate == drawn && Unique(Tally(drawn), m1.count, m.count)
    requires (m.cut && m.Full()) || ArmsDrawn(src, arms, drawn, f.(steps := []), m)
    requires Ahead(f.(steps := []), Barred, Arms(src, arms), m1, m)
    ensures Lowered(f, Arms(src, arms), m0, m)
  {
    UniqueSum(multiset{m1.count}, Tally(drawn), m0.count, m1.count, m.count);
    if ArmsDrawn(src, arms, drawn, f.(steps := []), m) {
      ArmsFlags(src, arms, drawn, f.(steps := []), m);
      if !m.cut {
        MatchShown(src, arms, s, f.(steps := []), m);
      }
    }
    WrapLowered(f, s, Arms(src, arms), m0, m);
  }

  lemma {:induction false} MatchShown(src: Source, arms: seq<Rust>, s: Step, f: Flow, m: Mark)
    requires s.kind == Branch(Role.Arms) && s.children == [] && ArmsDrawn(src, arms, s.alternate, f, m) && !m.cut
    ensures Shows(ReadStep(s), Denote(Arms(src, arms))) && Sketched([s], Arms(src, arms))
  {
    ArmsShown(src, arms, s.alternate, f, m);
    SketchedOne(s, Arms(src, arms));
  }

  // The guard is evaluated before the arm body, although the body is walked first.
  method WalkArm(b: Builder, src: Source, arm: Rust, depth: nat) returns (a: Option<Step>, f: Flow)
    requires b.Within(depth, Depth(arm))
    requires b.Valid()
    modifies b
    ensures b.Valid() && old(b.Now()).UpTo(b.Now())
    ensures a.None? ==> b.truncated && b.count >= MAX_STEPS
    ensures Metered(1 + Steps(ArmBody(src, arm)), old(b.Now()), b.Now())
    ensures !b.truncated ==> f.continues == Goes(ArmBody(src, arm))
    ensures a.Some? ==>
              && Unique(TallyStep(a.value), old(b.count), b.count)
              && ArmDrawn(a.value, f, arm.at, ArmBody(src, arm), b.Now())
    decreases Weight(arm), 3
  {
    ghost var m0 := b.Now();
    f := Flow([], false, false);
    a := b.NewStep(arm.at, Branch(Arm));
    if a.None? {
      return;
    }
    ghost var m1 := b.Now();
    var result := WalkField(b, src, arm, Value, depth);
    var children;
    children, f := ArmChildren(b, src, arm, result, depth, m1);
    a := Some(a.value.(children := children));
    UniqueSum(multiset{m1.count}, Tally(children), m0.count, m1.count, b.count);
  }

  lemma {:induction false} PlainArm(result: Flow, f: Flow, p: Runs, m: Mark)
    requires Faithful(result, p, m) && f.continues == result.continues && f.exits == result.exits
    ensures !m.cut ==> ArmHonest(f, p)
    ensures !m.Full() ==> ArmGuarded(f, p)
  {}

  // What the children of an arm step owe.
  ghost predicate ArmShown(children: seq<Step>, f: Flow, p: Form, m: Mark) {
    && (!m.cut ==> Shows(Reading(children), Denote(p)) && Sketched(children, p))
    && (!m.cut ==> ArmHonest(f, Denote(p)) && f.continues == Goes(p))
    && (!m.Full() ==> ArmGuarded(f, Denote(p)))
  }

  method ArmChildren(b: Builder, src: Source, arm: Rust, result: Flow, depth: nat, ghost m1: Mark)
    returns (children: seq<Step>, f: Flow)
    requires b.Within(depth, Depth(arm))
    requires b.Valid() && Lowered(result, Part(src, arm, Value), m1, b.Now())
    modifies b
    ensures b.Valid() && old(b.Now()).UpTo(b.Now()) && Unique(Tally(children), m1.count, b.count)
    ensures ArmShown(children, f, ArmBody(src, arm), b.Now()) && Metered(Steps(ArmBody(src, arm)), m1, b.Now())
    decreases Weight(arm), 2
  {
    var guard := GuardOf(arm);
    if guard.None? {
      children, f := result.steps, Flow([], result.continues, result.exits);
      PlainArm(result, f, Denote(Part(src, arm, Value)), b.Now());
      return;
    }
    ghost var m2 := b.Now();
    var evaluated := Walk(b, src, guard.value, depth + 1);
    f := Flow([], evaluated.continues && result.continues, result.exits || evaluated.exits);
    children := Select(b, arm.at, evaluated, result, f, Meaning(src, guard.value), Part(src, arm, Value), m1, m2);
  }

  // The drawn body waits for the guard, whose steps come before it.
  method Select(b: Builder, at: Range, evaluated: Flow, result: Flow, ghost f: Flow,
                ghost p: Form, ghost q: Form, ghost m1: Mark, ghost m2: Mark) returns (children: seq<Step>)
    requires b.Valid() && Lowered(result, q, m1, m2) && Lowered(evaluated, p, m2, b.Now())
    requires f.continues == (evaluated.continues && result.continues) && f.exits == (result.exits || evaluated.exits)
    modifies b
    ensures b.Valid() && old(b.Now()).UpTo(b.Now())
    ensures Unique(Tally(children), m1.count, b.count)
    ensures ArmShown(children, f, Guarding(at, p, q), b.Now()) && Metered(Steps(Guarding(at, p, q)), m1, b.Now())
  {
    ghost var m3 := b.Now();
    var selected := b.NewStep(at, Branch(Selected));
    children := [];
    if selected.Some? {
      var body := selected.value.(children := result.steps);
      ghost var m4 := b.Now();
      SelectUnique(evaluated.steps, result.steps, body, m1.count, m2.count, m3.count, m4.count);
      var inner := b.Compose(evaluated, Flow([body], true, false), at, Denote(p), Choice(at, Denote(q), Stop(Reject)), m1.count);
      children := inner.steps;
      SelectShown(evaluated, result, body, inner, p, q, m1, m2, m3, b.Now());
    }
    ArmFlags(evaluated, result, f, at, p, q, m1, m2, m3, b.Now());
    SelectMetered(evaluated, result, at, p, q, m1, m2, m3, b.Now());
  }

  lemma {:induction false} SelectShown(evaluated: Flow, result: Flow, body: Step, inner: Flow, p: Form, q: Form,
                                       m1: Mark, m2: Mark, m3: Mark, m: Mark)
    requires Lowered(result, q, m1, m2) && Lowered(evaluated, p, m2, m3) && m3.UpTo(m) && WayOut(body, result.steps, Reject)
    requires ComposedShown(evaluated, Flow([body], true, false), inner, Denote(p), Choice(body.at, Denote(q), Stop(Reject)), m)
    requires !m.cut ==> Joined(evaluated, Flow([body], true, false), inner)
    ensures var f := Guarding(body.at, p, q);
            !m.cut ==> Shows(Reading(inner.steps), Denote(f)) && Sketched(inner.steps, f)
  {
    WayOutLowered(evaluated, result, body, inner, p, q, Reject, m);
  }

  lemma {:induction false} SelectMetered(evaluated: Flow, result: Flow, at: Range, p: Form, q: Form,
                                         m1: Mark, m2: Mark, m3: Mark, m: Mark)
    requires Lowered(result, q, m1, m2) && Lowered(evaluated, p, m2, m3) && m3.UpTo(m)
    requires m.count <= m3.count + 2 && (m.cut && !m3.cut ==> m3.count + 1 >= MAX_STEPS)
    ensures Metered(Steps(Guarding(at, p, q)), m1, m)
  {
    WayOutForm(at, p, q, Reject);
    WayOutMetered(Steps(q), Steps(p), m1, m2, m3, m);
  }

  lemma {:induction false} SelectUnique(evaluated: seq<Step>, result: seq<Step>, body: Step, c1: nat, c2: nat, c3: nat, c4: nat)
    requires c1 <= c2 <= c3 && c4 == c3 + 1
    requires Unique(Tally(result), c1, c2) && Unique(Tally(evaluated), c2, c3)
    requires NumberOf(body) == c4 && body.children == result && body.alternate == []
    ensures Unique(Tally(evaluated) + Tally([body]), c1, c4)
  {
    TallyOne(body);
    UniqueSum(Tally(result), Tally(evaluated), c1, c2, c3);
    UniqueSum(Tally(result) + Tally(evaluated), multiset{c4}, c1, c3, c4);
    assert Tally(evaluated) + Tally([body]) == Tally(result) + Tally(evaluated) + multiset{c4};
  }

  lemma {:induction false} ArmFlags(evaluated: Flow, result: Flow, f: Flow, at: Range, p: Form, q: Form,
                                    m1: Mark, m2: Mark, m3: Mark, m: Mark)
    requires Lowered(result, q, m1, m2) && Lowered(evaluated, p, m2, m3) && m3.UpTo(m)
    requires f.continues == (evaluated.continues && result.continues) && f.exits == (result.exits || evaluated.exits)
    ensures !m.cut ==> ArmHonest(f, Denote(Guarding(at, p, q))) && f.continues == Goes(Guarding(at, p, q))
    ensures !m.Full() ==> ArmGuarded(f, Denote(Guarding(at, p, q)))
  {
    WayOutForm(at, p, q, Reject);
    GuardFlags(evaluated, result, f, at, Denote(p), Denote(q));
    assert Faithful(evaluated, Denote(p), m3) && Faithful(result, Denote(q), m2);
  }

  lemma {:induction false} GuardFlags(evaluated: Flow, result: Flow, f: Flow, at: Range, p: Runs, q: Runs)
    requires f.continues == (evaluated.continues && result.continues) && f.exits == (result.exits || evaluated.exits)
    ensures Honest(evaluated, p) && Honest(result, q) ==> ArmHonest(f, Seq(p, Choice(at, q, Stop(Reject))))
    ensures Guarded(evaluated, p) && Guarded(result, q) ==> ArmGuarded(f, Seq(p, Choice(at, q, Stop(Reject))))
  {}

  // An earlier arm stays drawn while the flags of the match grow.
  lemma {:induction false} ArmsGrow(src: Source, arms: seq<Rust>, i: nat, drawn: seq<Step>, a: Step,
                                    f0: Flow, g: Flow, f: Flow, m2: Mark, m: Mark)
    requires i < |arms| && m2.UpTo(m)
    requires f.continues == (f0.continues || g.continues) && f.exits == (f0.exits || g.exits)
    requires ArmDrawn(a, g, arms[i].at, ArmBody(src, arms[i]), m)
    requires ArmsDrawn(src, arms[..i], drawn, f0, m2)
    ensures ArmsDrawn(src, arms[..i + 1], drawn + [a], f, m)
  {
    forall k | 0 <= k < i ensures ArmDrawn(drawn[k], f, arms[k].at, ArmBody(src, arms[k]), m) {
      assert arms[..i][k] == arms[k];
      assert ArmDrawn(drawn[k], f0, arms[k].at, ArmBody(src, arms[k]), m2);
    }
  }

  lemma {:induction false} ArmsUnique(drawn: seq<Step>, a: Step, c1: nat, c2: nat, c: nat)
    requires c1 <= c2 <= c && Unique(Tally(drawn), c1, c2) && Unique(TallyStep(a), c2, c)
    ensures Unique(Tally(drawn + [a]), c1, c)
  {
    TallyConcat(drawn, [a]);
    TallyOne(a);
    UniqueSum(Tally(drawn), TallyStep(a), c1, c2, c);
  }

  lemma {:induction false} ArmsShown(src: Source, arms: seq<Rust>, drawn: seq<Step>, f: Flow, m: Mark)
    requires ArmsDrawn(src, arms, drawn, f, m) && !m.cut
    ensures Shows(ReadArms(drawn), Denote(Arms(src, arms)))
    ensures Same(ReadArms(drawn), Drawing(Arms(src, arms))) && HasBoundary(drawn) == Veils(Arms(src, arms))
  {
    if arms != [] {
      ArmsShown(src, arms[1..], drawn[1..], f, m);
      assert ArmDrawn(drawn[0], f, arms[0].at, ArmBody(src, arms[0]), m);
      FirstShown(drawn[0], drawn[1..], ArmBody(src, arms[0]), Arms(src, arms[1..]));
      FirstSketched(drawn[0], drawn[1..], ArmBody(src, arms[0]), Arms(src, arms[1..]));
      assert [drawn[0]] + drawn[1..] == drawn;
    }
  }

  lemma {:induction false} FirstRead(a: Step, rest: seq<Step>)
    requires a.kind == Branch(Arm)
    ensures ReadArms([a] + rest) == Choice(a.at, OrElse(Reading(a.children), ReadArms(rest)), ReadArms(rest))
  {
    assert ([a] + rest)[1..] == rest;
  }

  lemma {:induction false} FirstShown(a: Step, rest: seq<Step>, p: Form, others: Form)
    requires a.kind == Branch(Arm) && Shows(Reading(a.children), Denote(p)) && Shows(ReadArms(rest), Denote(others))
    ensures Shows(ReadArms([a] + rest), Denote(Tries(a.at, p, others)))
  {
    FirstRead(a, rest);
    ShowsOrElse(Denote(p), Reading(a.children), Denote(others), ReadArms(rest));
    ShowsChoice(a.at, OrElse(Denote(p), Denote(others)), OrElse(Reading(a.children), ReadArms(rest)), Denote(others), ReadArms(rest));
  }

  lemma {:induction false} FirstSketched(a: Step, rest: seq<Step>, p: Form, others: Form)
    requires a.kind == Branch(Arm) && a.alternate == [] && Sketched(a.children, p)
    requires Same(ReadArms(rest), Drawing(others)) && HasBoundary(rest) == Veils(others)
    ensures Same(ReadArms([a] + rest), Drawing(Tries(a.at, p, others)))
    ensures HasBoundary([a] + rest) == Veils(Tries(a.at, p, others))
  {
    FirstRead(a, rest);
    SameOrElse(Reading(a.children), Drawing(p), ReadArms(rest), Drawing(others));
    SameChoice(a.at, OrElse(Reading(a.children), ReadArms(rest)), OrElse(Drawing(p), Drawing(others)), ReadArms(rest), Drawing(others));
    HasBoundaryConcat([a], rest);
    HasBoundaryOne(a);
  }

  lemma {:induction false} ArmsFlags(src: Source, arms: seq<Rust>, drawn: seq<Step>, f: Flow, m: Mark)
    requires ArmsDrawn(src, arms, drawn, f, m)
    ensures !m.cut ==> Honest(f, Denote(Arms(src, arms)))
    ensures !m.Full() ==> Guarded(f, Denote(Arms(src, arms)))
    ensures Never(Denote(Arms(src, arms)), Reject)
  {
    if arms != [] {
      ArmsFlags(src, arms[1..], drawn[1..], f, m);
      assert ArmDrawn(drawn[0], f, arms[0].at, ArmBody(src, arms[0]), m);
      ArmsFlag(arms[0].at, Denote(ArmBody(src, arms[0])), Denote(Arms(src, arms[1..])), f);
    }
  }

  lemma {:induction false} ArmsFlag(at: Range, p: Runs, others: Runs, f: Flow)
    requires Never(others, Reject)
    ensures Never(Choice(at, OrElse(p, others), others), Reject)
    ensures ArmHonest(f, p) && Honest(f, others) ==> Honest(f, Choice(at, OrElse(p, others), others))
    ensures ArmGuarded(f, p) && Guarded(f, others) ==> Guarded(f, Choice(at, OrElse(p, others), others))
  {}

  // ---- loops ----

  method LoopStep(b: Builder, src: Source, n: Rust, depth: nat) returns (f: Flow)
    requires b.Within(depth, Depth(n))
    requires b.Valid() && !HasError(n)
    requires n.kind.WhileExpression? || n.kind.ForExpression? || n.kind.LoopExpression?
    modifies b
    ensures b.Valid() && Lowered(f, ControlForm(src, n), old(b.Now()), b.Now())
    decreases Weight(n), 3
  {
    if Labelled(Named(n)) {
      f := Hide(b, n.at, ANY_OUTCOME);
    } else {
      f := WalkIteration(b, src, n, depth);
    }
  }

  method WalkIteration(b: Builder, src: Source, n: Rust, depth: nat) returns (f: Flow)
    requires b.Within(depth, Depth(n))
    requires b.Valid()
    modifies b
    ensures b.Valid() && Lowered(f, Iteration(src, n), old(b.Now()), b.Now())
    decreases Weight(n), 2
  {
    ghost var m0 := b.Now();
    var init := EMPTY_FLOW;
    EmptyLowered(m0);
    if n.kind.ForExpression? {
      init := WalkField(b, src, n, Value, depth);
    }
    ghost var m1 := b.Now();
    f := Rounds(b, src, n, depth);
    f := b.Then(init, f, n.at, InitMeaning(src, n), Cycle(RoundMeaning(src, n), n.kind.LoopExpression?), m0, m1);
  }

  method Rounds(b: Builder, src: Source, n: Rust, depth: nat) returns (f: Flow)
    requires b.Within(depth, Depth(n))
    requires b.Valid()
    modifies b
    ensures b.Valid() && Lowered(f, Cycle(RoundMeaning(src, n), n.kind.LoopExpression?), old(b.Now()), b.Now())
    decreases Weight(n), 1, 1
  {
    ghost var m0 := b.Now();
    f := Flow([], true, true);
    var s := b.NewStep(n.at, Repeat(n.kind.LoopExpression?));
    if s.None? {
      FullLowered(f, Cycle(RoundMeaning(src, n), n.kind.LoopExpression?), m0, b.Now());
      return;
    }
    ghost var m1 := b.Now();
    var children, continues := RoundSteps(b, src, n, depth);
    var step := s.value.(children := children);
    f := Flow([step], continues, true);
    LoopLowered(f, step, RoundMeaning(src, n), n.kind.LoopExpression?, m0, m1, b.Now());
  }

  // A loop without a test runs its body in any case. Where the body neither ends normally
  // nor breaks out, nothing comes after the loop.
  method RoundSteps(b: Builder, src: Source, n: Rust, depth: nat) returns (children: seq<Step>, continues: bool)
    requires b.Within(depth, Depth(n))
    requires b.Valid()
    modifies b
    ensures b.Valid() && old(b.Now()).UpTo(b.Now())
    ensures Unique(Tally(children), old(b.count), b.count) && Metered(Steps(RoundMeaning(src, n)), old(b.Now()), b.Now())
    ensures !b.truncated ==> Shows(Reading(children), Denote(RoundMeaning(src, n))) && Sketched(children, RoundMeaning(src, n))
    ensures !b.truncated ==> continues == Goes(Cycle(RoundMeaning(src, n), n.kind.LoopExpression?))
    ensures !b.truncated && !continues ==> Never(Loop(Denote(RoundMeaning(src, n)), n.kind.LoopExpression?), Normal)
    decreases Weight(n), 1, 0
  {
    ghost var m1 := b.Now();
    ghost var p, q := TestMeaning(src, n), Part(src, n, Body);
    // The grammar gives loop no condition field.
    var test := EMPTY_FLOW;
    EmptyLowered(m1);
    if !n.kind.LoopExpression? {
      test := WalkField(b, src, n, Condition, depth);
    }
    ghost var m2 := b.Now();
    var body := WalkField(b, src, n, Body, depth);
    continues := !(n.kind.LoopExpression? && !body.continues && !HasBoundary(body.steps));
    children := b.RoundOf(test, body, n.at, p, q, m1, m2);
    if !b.truncated {
      LoopGoes(n.at, body, p, q, n.kind.LoopExpression?);
      if !continues {
        NoWayOut(n.at, body, q);
      }
    }
  }

  lemma {:induction false} LoopGoes(at: Range, body: Flow, p: Form, q: Form, endless: bool)
    requires (endless ==> p == Pass) && Drafts(body, q)
    ensures Goes(Cycle(Round(at, p, q), endless)) == (!endless || body.continues || HasBoundary(body.steps))
  {
    WayOutForm(at, p, q, Done);
  }

  lemma {:induction false} NoWayOut(at: Range, body: Flow, q: Form)
    requires Shows(Reading(body.steps), Denote(q)) && !HasBoundary(body.steps)
    ensures Never(Loop(Denote(Round(at, Pass, q)), true), Normal)
  {
    NoTransfer(body.steps, Break);
    WayOutForm(at, Pass, q, Done);
    var p := Choice(at, Denote(q), Stop(Done));
    assert Never(Denote(q), Break);
    NeverChoice(at, Denote(q), Stop(Done), Break);
    NeverSeq(Skip(), p, Break);
  }
}
