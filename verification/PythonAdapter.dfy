// The Python adapter: a syntax tree becomes a tree of possible steps.
module PythonAdapter {
  import opened Behaviour
  import opened Diagram
  import opened Forms
  import opened Lowering
  import opened Options
  import opened Syntax

  const MAX_VISITS: nat := 4800
  const OVERFLOW := "boundary:python-unknown"

  // Node kinds, with those the walk treats alike under one name:
  //   Opaque       decorated_definition, class_definition, comprehensions, try, with
  //                and match statements, augmented_assignment, yield, and every form the
  //                adapter does not know
  //   Splat        list_splat, dictionary_splat
  //   Sequenced    expression_statement, parenthesized_expression, argument_list, list, tuple,
  //                set, dictionary, pair, expression_list, binary_operator, unary_operator,
  //                not_operator, slice, concatenated_string
  //   Valued       keyword_argument, named_expression
  //   SplatPattern list_splat_pattern, dictionary_splat_pattern
  //   Separator    positional_separator, keyword_separator
  //   Atom         numbers, constants, pass, global and nonlocal statements
  datatype Kind =
    | FunctionDefinition | Lambda | Opaque | Splat | Async | Block | Sequenced | Valued | Attribute | Subscript
    | CallForm(hint: string) | Assignment | IfStatement | ElifClause | ElseClause | BooleanOperator
    | ComparisonOperator | ConditionalExpression | ForStatement | WhileStatement
    | ReturnStatement | RaiseStatement | BreakStatement | ContinueStatement | AwaitForm
    | StringForm | Interpolation | Identifier | Comment | Atom
    | ParameterList | TypeNode | SplatPattern | Separator | TypedParameter

  type Python = Node<Kind>

  // The children the adapter ever collects at once.
  function Seen(n: Python): (r: seq<Python>)
    ensures Weights(r) < Weight(n) && Depths(r) <= Depth(n)
  {
    WeightsPrefix(Named(n), if |Named(n)| <= MAX_VISITS then |Named(n)| else MAX_VISITS + 1);
    Named(n)[..if |Named(n)| <= MAX_VISITS then |Named(n)| else MAX_VISITS + 1]
  }

  predicate Holds(nodes: seq<Python>, k: Kind) {
    exists i | 0 <= i < |nodes| :: nodes[i].kind == k
  }

  // ---- definitions without eager behaviour ----

  predicate HeaderPart(k: Kind) {
    k.Identifier? || k.ParameterList? || k.TypeNode? || k.Block? || k.Comment?
  }

  predicate PlainTarget(t: Python) {
    || (t.kind.Identifier? && Named(t) == [])
    || (t.kind.SplatPattern? && |Named(t)| == 1 && Named(t)[0].kind.Identifier?)
  }

  // Defaults, destructuring and unknown forms are evaluated or unknown; so are
  // annotations, unless the module postpones them.
  predicate PlainParameter(p: Python, postponed: bool) {
    if p.kind.Identifier? || p.kind.SplatPattern? then PlainTarget(p)
    else if p.kind.Separator? || p.kind.Comment? then true
    else if p.kind.TypedParameter? && postponed then
      && |Named(p)| == 2
      && var annotation := ByField(p, TypeField);
         annotation.Some? && annotation.value.kind.TypeNode? && Named(p)[0] != annotation.value && PlainTarget(Named(p)[0])
    else false
  }

  // A definition that only binds its name when it is executed.
  predicate PlainDefinition(n: Python, postponed: bool) {
    && ByField(n, TypeParameters).None? && (postponed || ByField(n, ReturnType).None?)
    && ByField(n, Name).Some? && ByField(n, Name).value.kind.Identifier?
    && ByField(n, Parameters).Some? && ByField(n, Parameters).value.kind.ParameterList?
    && (forall i | 0 <= i < |Named(n)| :: HeaderPart(Named(n)[i].kind))
    && var ps := Named(ByField(n, Parameters).value);
       forall i | 0 <= i < |ps| :: PlainParameter(ps[i], postponed)
  }

  // One visit; the last one is not granted.
  method Pay(b: Builder) returns (paid: bool)
    requires b.Valid() && b.patience == Some(MAX_VISITS) && b.visits < b.size
    modifies b`visits, b`truncated
    ensures b.Valid() && b.visits == old(b.visits) + 1 && paid == (b.visits < MAX_VISITS)
    ensures b.truncated == (old(b.truncated) || !paid)
  {
    b.visits := b.visits + 1;
    paid := b.visits < MAX_VISITS;
    if !paid {
      b.Limit();
    }
  }

  method IsPlain(b: Builder, n: Python, postponed: bool) returns (plain: bool)
    requires b.Valid() && b.patience == Some(MAX_VISITS) && b.visits + WeightOf(n.children) <= b.size
    modifies b`visits, b`truncated
    ensures b.Valid() && (old(b.truncated) ==> b.truncated) && old(b.visits) <= b.visits <= old(b.visits) + WeightOf(n.children)
    ensures plain ==> PlainDefinition(n, postponed)
    ensures !plain ==> !PlainDefinition(n, postponed) || b.truncated
  {
    if ByField(n, TypeParameters).Some? || (!postponed && ByField(n, ReturnType).Some?) {
      return false;
    }
    var name, parameters := ByField(n, Name), ByField(n, Parameters);
    if name.None? || parameters.None? || !name.value.kind.Identifier? || !parameters.value.kind.ParameterList? {
      return false;
    }
    HeaderLoad(n.children, Parameters);
    plain := PlainHeader(b, Named(n));
    if plain {
      plain := PlainParameters(b, Named(parameters.value), postponed);
    }
  }

  method PlainHeader(b: Builder, header: seq<Python>) returns (plain: bool)
    requires b.Valid() && b.patience == Some(MAX_VISITS) && b.visits + |header| <= b.size
    modifies b`visits, b`truncated
    ensures b.Valid() && (old(b.truncated) ==> b.truncated) && old(b.visits) <= b.visits <= old(b.visits) + |header|
    ensures var all := forall i | 0 <= i < |header| :: HeaderPart(header[i].kind);
            if plain then all else !all || b.truncated
  {
    for i := 0 to |header|
      invariant b.Valid() && (old(b.truncated) ==> b.truncated) && b.visits == old(b.visits) + i
      invariant forall j | 0 <= j < i :: HeaderPart(header[j].kind)
    {
      var paid := Pay(b);
      if !paid || !HeaderPart(header[i].kind) {
        return false;
      }
    }
    return true;
  }

  method PlainParameters(b: Builder, ps: seq<Python>, postponed: bool) returns (plain: bool)
    requires b.Valid() && b.patience == Some(MAX_VISITS) && b.visits + |ps| <= b.size
    modifies b`visits, b`truncated
    ensures b.Valid() && (old(b.truncated) ==> b.truncated) && old(b.visits) <= b.visits <= old(b.visits) + |ps|
    ensures var all := forall i | 0 <= i < |ps| :: PlainParameter(ps[i], postponed);
            if plain then all else !all || b.truncated
  {
    for i := 0 to |ps|
      invariant b.Valid() && (old(b.truncated) ==> b.truncated) && b.visits == old(b.visits) + i
      invariant forall j | 0 <= j < i :: PlainParameter(ps[j], postponed)
    {
      var paid := Pay(b);
      if !paid || !PlainParameter(ps[i], postponed) {
        return false;
      }
    }
    return true;
  }

  // ---- the order of evaluation ----

  predicate Control(k: Kind) {
    || k.IfStatement? || k.ElifClause? || k.ConditionalExpression? || k.ForStatement? || k.WhileStatement?
    || k.ReturnStatement? || k.RaiseStatement? || k.BreakStatement? || k.ContinueStatement?
  }

  predicate Operation(k: Kind) {
    k.Attribute? || k.Subscript? || k.CallForm? || k.Assignment? || k.BooleanOperator? || k.AwaitForm?
  }

  // What executing a node does, following sections 6.16 and 7 of the Python Language
  // Reference: operands from left to right, the assigned value before its target, the
  // condition of a conditional expression before either side. Whether a loop test can
  // fail is not decided, so every loop may end after a round.
  function Meaning(src: Source, n: Python): Form
    decreases Weight(n), 5
  {
    if HasError(n) then Hides(n.at, ANY_OUTCOME)
    else if Control(n.kind) then ControlForm(src, n)
    else if Operation(n.kind) then OperationForm(src, n)
    else PlainForm(src, n)
  }

  function ControlForm(src: Source, n: Python): Form
    decreases Weight(n), 4
  {
    var k := n.kind;
    if k.IfStatement? || k.ElifClause? then
      Both(Part(src, n, Condition), Either(n.at, Part(src, n, Consequence), Otherwise(src, Alternatives(n))))
    else if k.ConditionalExpression? then Conditional(src, n)
    else if k.ReturnStatement? then Both(All(src, Named(n)), Leaving(Return, n.at, Exit))
    else if k.RaiseStatement? then Both(All(src, Named(n)), Leaving(Throw, n.at, Exit))
    else if k.BreakStatement? then Both(All(src, Named(n)), Leaving(Leave, n.at, Break))
    else if k.ContinueStatement? then Both(All(src, Named(n)), Leaving(Leave, n.at, Continue))
    else if AsyncLoop(n) || ByField(n, Alternative).Some? then Hides(n.at, ANY_OUTCOME)
    else Both(InitMeaning(src, n), Cycle(RoundMeaning(src, n), false))
  }

  predicate AsyncLoop(n: Python) {
    n.kind.ForStatement? && n.children != [] && n.children[0].node.kind.Async?
  }

  function Conditional(src: Source, n: Python): Form
    decreases Weight(n), 3
  {
    var cs := Seen(n);
    if |cs| != 3 then Hides(n.at, ANY_OUTCOME)
    else
      WeightsSuffix(cs, 0);
      WeightsSuffix(cs, 1);
      WeightsSuffix(cs, 2);
      Both(Meaning(src, cs[1]), Either(n.at, Meaning(src, cs[0]), Meaning(src, cs[2])))
  }

  function Alternatives(n: Python): (r: seq<Python>)
    ensures Weights(r) < Weight(n)
  {
    AllByField(n, Alternative)
  }

  // elif clauses nest: each is tried only where the ones before it failed.
  function Otherwise(src: Source, nodes: seq<Python>): Form
    decreases Weights(nodes), 6
  {
    if nodes == [] then Pass
    else if !nodes[0].kind.ElifClause? then Meaning(src, nodes[0])
    else Both(Part(src, nodes[0], Condition),
             Either(nodes[0].at, Part(src, nodes[0], Consequence), Otherwise(src, nodes[1..])))
  }

  function InitMeaning(src: Source, n: Python): Form
    decreases Weight(n), 1
  {
    if n.kind.ForStatement? then Part(src, n, Right) else Pass
  }

  function RoundMeaning(src: Source, n: Python): Form
    decreases Weight(n), 3
  {
    Round(n.at, Part(src, n, Condition), Both(TargetWrite(src, n), Part(src, n, Body)))
  }

  // A for statement assigns the next item to its target at the start of each round.
  function TargetWrite(src: Source, n: Python): Form
    decreases Weight(n), 2
  {
    var left := ByField(n, Left);
    if n.kind.ForStatement? && left.Some? then Both(Target(src, left.value), Does(Effect, left.value.at)) else Pass
  }

  // What finding the place of an assignment evaluates.
  function Target(src: Source, t: Python): Form
    decreases Weight(t), 4
  {
    if t.kind.Identifier? then Pass
    else if t.kind.Attribute? then Part(src, t, Object)
    else if t.kind.Subscript? then All(src, Named(t))
    else Hides(t.at, ANY_OUTCOME)
  }

  function OperationForm(src: Source, n: Python): Form
    decreases Weight(n), 4
  {
    var k := n.kind;
    if k.Attribute? then Both(Part(src, n, Object), Hides(n.at, {Normal}))
    else if k.Subscript? then Both(All(src, Named(n)), Hides(n.at, {Normal}))
    else if k.CallForm? then
      if Unpacks(n) then Hides(n.at, ANY_OUTCOME) else Both(All(src, Named(n)), Invocation(src, n.at, ANY_OUTCOME))
    else if k.BooleanOperator? then Both(Part(src, n, Left), Either(n.at, Part(src, n, Right), Pass))
    else if k.AwaitForm? then Both(All(src, Named(n)), Does(Await, n.at))
    else AssignmentForm(src, n)
  }

  predicate Unpacks(n: Python) {
    ByField(n, Arguments).Some? && Holds(Seen(ByField(n, Arguments).value), Splat)
  }

  // A local annotation is not evaluated; a chained assignment writes its targets in an
  // order of its own and stays opaque.
  function AssignmentForm(src: Source, n: Python): Form
    decreases Weight(n), 3
  {
    var left, right := ByField(n, Left), ByField(n, Right);
    if ByField(n, TypeField).Some? && right.None? then
      if left.Some? && left.value.kind.Identifier? then Pass else Hides(n.at, ANY_OUTCOME)
    else if right.Some? && right.value.kind.Assignment? then Hides(n.at, ANY_OUTCOME)
    else Both(Both(Part(src, n, Right), if left.Some? then Target(src, left.value) else Pass), Does(Effect, n.at))
  }

  function PlainForm(src: Source, n: Python): Form
    decreases Weight(n), 4
  {
    var k := n.kind;
    if k.FunctionDefinition? && PlainDefinition(n, src.postponed) then Does(Definition, n.at)
    else if k.Block? || k.Sequenced? then All(src, Named(n))
    else if k.Valued? then Part(src, n, Value)
    else if k.ElseClause? then Part(src, n, Body)
    else if k.ComparisonOperator? then Comparison(src, n)
    else RestForm(n)
  }

  // A chained comparison may stop halfway.
  function Comparison(src: Source, n: Python): Form
    decreases Weight(n), 3
  {
    if |Named(n)| <= 2 then All(src, Named(n)) else Hides(n.at, ANY_OUTCOME)
  }

  function RestForm(n: Python): Form {
    var k := n.kind;
    if k.StringForm? && Holds(Seen(n), Interpolation) then Hides(n.at, ANY_OUTCOME)
    else if k.StringForm? || k.Identifier? || k.Comment? || k.Atom? then Pass
    else Hides(n.at, ANY_OUTCOME)
  }

  function Part(src: Source, n: Python, f: Field): Form
    decreases Weight(n), 0
  {
    match ByField(n, f)
    case None => Pass
    case Some(c) => Meaning(src, c)
  }

  function All(src: Source, nodes: seq<Python>): Form
    decreases Weights(nodes), 7
  {
    Fold(Meanings(src, nodes))
  }

  function Meanings(src: Source, nodes: seq<Python>): (ps: seq<Form>)
    ensures |ps| == |nodes|
    decreases Weights(nodes), 6
  {
    if nodes == [] then [] else [Meaning(src, nodes[0])] + Meanings(src, nodes[1..])
  }

  lemma {:induction false} MeaningsSuffix(src: Source, nodes: seq<Python>, i: nat)
    requires i <= |nodes|
    ensures Meanings(src, nodes)[i..] == Meanings(src, nodes[i..])
    ensures i < |nodes| ==> Meanings(src, nodes)[i] == Meaning(src, nodes[i])
    decreases i
  {
    if i > 0 {
      MeaningsSuffix(src, nodes[1..], i - 1);
      assert nodes[1..][i - 1..] == nodes[i..];
    }
  }

  // ---- the lowering ----

  // A tree of this depth and weight has its place in the tree that the walk is about.
  ghost predicate Fits(b: Builder, depth: nat, below: nat, weight: nat)
    reads b
  {
    b.patience == Some(MAX_VISITS) && b.Within(depth, below) && b.visits + weight <= b.size
  }

  lemma {:induction false} SidesApart(n: Python)
    ensures Load(n, Right) + Load(n, Left) <= WeightOf(n.children)
  {
    Shares(n, Right, Left, Condition, Body);
  }

  lemma {:induction false} BranchesApart(n: Python)
    ensures Load(n, Condition) + Load(n, Consequence) + Share(n, Alternative) <= WeightOf(n.children)
    ensures Load(n, Condition) + Load(n, Consequence) <= WeightOf(n.children)
  {
    Shares(n, Condition, Consequence, Alternative, Body);
  }

  lemma {:induction false} LoopApart(n: Python)
    ensures Load(n, Right) + Load(n, Condition) + Load(n, Left) + Load(n, Body) <= WeightOf(n.children)
  {
    Shares(n, Right, Condition, Left, Body);
  }

  lemma {:induction false} ElifApart(nodes: seq<Python>)
    requires nodes != []
    ensures Load(nodes[0], Condition) + Load(nodes[0], Consequence) + Weights(nodes[1..]) <= Weights(nodes)
  {
    BranchesApart(nodes[0]);
  }

  lemma {:induction false} ThreeApart(nodes: seq<Python>)
    requires |nodes| == 3
    ensures Weight(nodes[0]) + Weight(nodes[1]) + Weight(nodes[2]) <= Weights(nodes)
    ensures forall i | 0 <= i < 3 :: Depth(nodes[i]) < Depths(nodes)
  {
    WeightsSuffix(nodes, 0);
    WeightsSuffix(nodes, 1);
    WeightsSuffix(nodes, 2);
  }

  lemma {:induction false} HeaderLoad(cs: seq<Child<Kind>>, f: Field)
    ensures |NamedOf(cs)| <= WeightOf(cs)
    ensures FirstWith(cs, f).Some? ==> |NamedOf(cs)| + |Named(FirstWith(cs, f).value)| <= WeightOf(cs)
  {
    if cs != [] {
      HeaderLoad(cs[1..], f);
      WeightsLength(Named(cs[0].node));
    }
  }

  method Walk(b: Builder, src: Source, n: Python, depth: nat) returns (f: Flow)
    requires Fits(b, depth, Depth(n), Weight(n))
    requires b.Valid()
    modifies b
    ensures b.Valid() && Lowered(f, Meaning(src, n), old(b.Now()), b.Now())
    ensures old(b.visits) <= b.visits <= old(b.visits) + Weight(n)
    decreases Weight(n), 5
  {
    ghost var m0 := b.Now();
    if b.count >= MAX_STEPS || b.visits >= MAX_VISITS || depth > MAX_DEPTH {
      f := b.GiveUp(n.at, Meaning(src, n));
      return;
    }
    b.visits := b.visits + 1;
    ghost var m1 := b.Now();
    if HasError(n) {
      f := b.Mask(n.at, ANY_OUTCOME);
    } else if Control(n.kind) {
      f := WalkControl(b, src, n, depth);
    } else if Operation(n.kind) {
      f := WalkOperation(b, src, n, depth);
    } else {
      f := WalkPlain(b, src, n, depth);
    }
    LoweredEarlier(f, Meaning(src, n), m0, m1, b.Now());
  }

  method WalkPlain(b: Builder, src: Source, n: Python, depth: nat) returns (f: Flow)
    requires Fits(b, depth, Depth(n), WeightOf(n.children))
    requires b.Valid() && !HasError(n) && !Control(n.kind) && !Operation(n.kind)
    modifies b
    ensures b.Valid() && Lowered(f, PlainForm(src, n), old(b.Now()), b.Now())
    ensures old(b.visits) <= b.visits <= old(b.visits) + WeightOf(n.children)
    decreases Weight(n), 4
  {
    var k := n.kind;
    if k.FunctionDefinition? {
      f := WalkDefinition(b, src, n);
    } else if k.Block? || k.Sequenced? {
      f := WalkChildren(b, src, n, depth);
    } else if k.Valued? {
      f := WalkField(b, src, n, Value, depth);
    } else if k.ElseClause? {
      f := WalkField(b, src, n, Body, depth);
    } else if k.ComparisonOperator? {
      f := WalkComparison(b, src, n, depth);
    } else {
      f := WalkRest(b, n);
    }
  }

  method WalkComparison(b: Builder, src: Source, n: Python, depth: nat) returns (f: Flow)
    requires Fits(b, depth, Depth(n), WeightOf(n.children))
    requires b.Valid()
    modifies b
    ensures b.Valid() && Lowered(f, Comparison(src, n), old(b.Now()), b.Now())
    ensures old(b.visits) <= b.visits <= old(b.visits) + WeightOf(n.children)
    decreases Weight(n), 3
  {
    if |Named(n)| > 2 {
      f := b.Mask(n.at, ANY_OUTCOME);
    } else {
      f := WalkChildren(b, src, n, depth);
    }
  }

  method WalkRest(b: Builder, n: Python) returns (f: Flow)
    requires b.Valid()
    modifies b`count, b`truncated
    ensures b.Valid() && Lowered(f, RestForm(n), old(b.Now()), b.Now())
  {
    var k := n.kind;
    if k.StringForm? && Holds(Seen(n), Interpolation) {
      f := b.Mask(n.at, ANY_OUTCOME);
    } else if k.StringForm? || k.Identifier? || k.Comment? || k.Atom? {
      f := EMPTY_FLOW;
      EmptyLowered(b.Now());
    } else {
      f := b.Mask(n.at, ANY_OUTCOME);
    }
  }

  method WalkDefinition(b: Builder, src: Source, n: Python) returns (f: Flow)
    requires b.patience == Some(MAX_VISITS) && b.visits + WeightOf(n.children) <= b.size
    requires b.Valid() && n.kind.FunctionDefinition?
    modifies b
    ensures b.Valid() && Lowered(f, PlainForm(src, n), old(b.Now()), b.Now())
    ensures old(b.visits) <= b.visits <= old(b.visits) + WeightOf(n.children)
  {
    ghost var m0 := b.Now();
    var plain := IsPlain(b, n, src.postponed);
    ghost var m1 := b.Now();
    if plain {
      f := b.Perform(n.at, Definition);
    } else {
      f := b.Unknown(n.at);
      RefusedLowered(src, n, f, m1, b.Now());
    }
    LoweredEarlier(f, PlainForm(src, n), m0, m1, b.Now());
  }

  // A definition is opaque, or the view was cut while it was looked at.
  lemma {:induction false} RefusedLowered(src: Source, n: Python, f: Flow, m0: Mark, m: Mark)
    requires n.kind.FunctionDefinition? && (PlainDefinition(n, src.postponed) ==> m0.cut)
    requires m0.count <= MAX_STEPS && Drawn(f.steps, Boundary, n.at, m0, m) && f.continues && f.exits
    ensures Lowered(f, PlainForm(src, n), m0, m)
  {
    if PlainDefinition(n, src.postponed) {
      CutLowered(f, PlainForm(src, n), n.at, m0, m);
    } else {
      assert PlainForm(src, n) == RestForm(n) == Hides(n.at, ANY_OUTCOME);
      VeilLowered(f, n.at, ANY_OUTCOME, m0, m);
    }
  }

  method WalkControl(b: Builder, src: Source, n: Python, depth: nat) returns (f: Flow)
    requires Fits(b, depth, Depth(n), WeightOf(n.children))
    requires b.Valid() && !HasError(n) && Control(n.kind)
    modifies b
    ensures b.Valid() && Lowered(f, ControlForm(src, n), old(b.Now()), b.Now())
    ensures old(b.visits) <= b.visits <= old(b.visits) + WeightOf(n.children)
    decreases Weight(n), 4
  {
    var k := n.kind;
    if k.IfStatement? || k.ElifClause? {
      f := IfStep(b, src, n, depth);
    } else if k.ConditionalExpression? {
      f := WalkConditional(b, src, n, depth);
    } else if k.ReturnStatement? {
      f := WalkExit(b, src, n, Return, Exit, depth);
    } else if k.RaiseStatement? {
      f := WalkExit(b, src, n, Throw, Exit, depth);
    } else if k.BreakStatement? {
      f := WalkExit(b, src, n, Leave, Break, depth);
    } else if k.ContinueStatement? {
      f := WalkExit(b, src, n, Leave, Continue, depth);
    } else if AsyncLoop(n) || ByField(n, Alternative).Some? {
      f := b.Mask(n.at, ANY_OUTCOME);
    } else {
      f := LoopStep(b, src, n, depth);
    }
  }

  method WalkOperation(b: Builder, src: Source, n: Python, depth: nat) returns (f: Flow)
    requires Fits(b, depth, Depth(n), WeightOf(n.children))
    requires b.Valid() && !HasError(n) && Operation(n.kind)
    modifies b
    ensures b.Valid() && Lowered(f, OperationForm(src, n), old(b.Now()), b.Now())
    ensures old(b.visits) <= b.visits <= old(b.visits) + WeightOf(n.children)
    decreases Weight(n), 4
  {
    var k := n.kind;
    if k.Attribute? || k.Subscript? {
      f := WalkAccess(b, src, n, depth);
    } else if k.CallForm? {
      f := WalkCall(b, src, n, k.hint, depth);
    } else if k.BooleanOperator? {
      f := WalkBoolean(b, src, n, depth);
    } else if k.AwaitForm? {
      f := WalkAwait(b, src, n, depth);
    } else {
      f := WalkAssignment(b, src, n, depth);
    }
  }

  method WalkField(b: Builder, src: Source, n: Python, field: Field, depth: nat) returns (f: Flow)
    requires ByField(n, field).Some? ==> Fits(b, depth + 1, Depth(ByField(n, field).value), Weight(ByField(n, field).value))
    requires b.Valid()
    modifies b
    ensures b.Valid() && Lowered(f, Part(src, n, field), old(b.Now()), b.Now())
    ensures old(b.visits) <= b.visits <= old(b.visits) + Load(n, field)
    decreases Weight(n), 0
  {
    var c := ByField(n, field);
    if c.Some? {
      f := Walk(b, src, c.value, depth + 1);
    } else {
      f := EMPTY_FLOW;
      EmptyLowered(b.Now());
    }
  }

  method WalkChildren(b: Builder, src: Source, n: Python, depth: nat) returns (f: Flow)
    requires Fits(b, depth, Depth(n), WeightOf(n.children))
    requires b.Valid()
    modifies b
    ensures b.Valid() && Lowered(f, All(src, Named(n)), old(b.Now()), b.Now())
    ensures old(b.visits) <= b.visits <= old(b.visits) + WeightOf(n.children)
    decreases Weight(n), 0
  {
    if |Named(n)| > MAX_VISITS {
      WeightsLength(Named(n));
      f := b.GiveUp(n.at, All(src, Named(n)));
    } else {
      f := WalkBlock(b, src, Named(n), depth);
    }
  }

  // ---- blocks ----

  method WalkBlock(b: Builder, src: Source, nodes: seq<Python>, depth: nat) returns (out: Flow)
    requires Fits(b, depth, Depths(nodes), Weights(nodes))
    requires b.Valid()
    modifies b
    ensures b.Valid() && Lowered(out, All(src, nodes), old(b.Now()), b.Now())
    ensures old(b.visits) <= b.visits <= old(b.visits) + Weights(nodes)
    decreases Weights(nodes), 8
  {
    out := EMPTY_FLOW;
    ghost var ps, m0, v0 := Meanings(src, nodes), b.Now(), b.visits;
    BlockStart(ps, m0);
    for i := 0 to |nodes|
      invariant b.Valid() && v0 <= b.visits && b.visits + Weights(nodes[i..]) <= v0 + Weights(nodes)
      invariant out.continues && (i < |nodes| ==> !out.exits)
      invariant Upto(ps, i, out, m0, b.Now())
    {
      if b.count >= MAX_STEPS || b.visits >= MAX_VISITS {
        out := CutBlock(b, nodes[i].at, ps, i, out, m0);
        return;
      }
      out := WalkNext(b, src, nodes, i, out, depth, m0);
      if !out.continues {
        return;
      }
      if out.exits && i + 1 < |nodes| {
        WeightsShrink(nodes, i + 1);
        out := GuardSuffix(b, src, nodes, i + 1, out, depth, m0);
        return;
      }
    }
    BlockEnd(ps, out, m0, b.Now());
  }

  // One more node of a block.
  method WalkNext(b: Builder, src: Source, nodes: seq<Python>, i: nat, before: Flow, depth: nat, ghost m0: Mark) returns (out: Flow)
    requires i < |nodes| && Fits(b, depth, Depths(nodes), Weights(nodes[i..]))
    requires b.Valid() && before.continues && !before.exits
    requires Upto(Meanings(src, nodes), i, before, m0, b.Now())
    modifies b
    ensures b.Valid() && Upto(Meanings(src, nodes), i + 1, out, m0, b.Now())
    ensures !out.continues ==> Lowered(out, All(src, nodes), m0, b.Now())
    ensures old(b.visits) <= b.visits && b.visits + Weights(nodes[i + 1..]) <= old(b.visits) + Weights(nodes[i..])
    decreases Weights(nodes), 6
  {
    ghost var m1 := b.Now();
    WeightsSuffix(nodes, i);
    assert nodes[i..][0] == nodes[i] && nodes[i..][1..] == nodes[i + 1..];
    var f := Walk(b, src, nodes[i], depth + 1);
    MeaningsSuffix(src, nodes, i);
    BlockNext(Meanings(src, nodes), i, before, f, m0, m1, b.Now());
    out := Flow(before.steps + f.steps, f.continues, before.exits || f.exits);
    if !out.continues {
      BlockDead(Meanings(src, nodes), i + 1, out, m0, b.Now());
    }
  }

  // What is left out may leave, and so may the block.
  method CutBlock(b: Builder, at: Range, ghost ps: seq<Form>, ghost i: nat, first: Flow, ghost m0: Mark) returns (out: Flow)
    requires b.Valid() && b.AtBound() && i <= |ps| && first.continues && !first.exits
    requires Upto(ps, i, first, m0, b.Now())
    modifies b`count, b`truncated
    ensures b.Valid() && Lowered(out, Fold(ps), m0, b.Now())
  {
    ghost var m1 := b.Now();
    var cutoff := b.GiveUp(at, Fold(ps[i..]));
    ghost var k, l := Sum(ps[..i]), Steps(Fold(ps[i..]));
    FoundedAppend(first, cutoff, Fold(ps[..i]), Fold(ps[i..]), k, l, m0, m1, b.Now());
    FoldSteps(ps[i..]);
    out := Flow(first.steps + cutoff.steps, true, true);
    BlockWhole(ps, i, out, k + l, m0, b.Now());
  }

  // Where some path may have left, the rest of the block comes under a guard step.
  method GuardSuffix(b: Builder, src: Source, nodes: seq<Python>, i: nat, first: Flow, depth: nat, ghost m0: Mark) returns (out: Flow)
    requires 0 < i < |nodes| && Fits(b, depth, Depths(nodes), Weights(nodes[i..]))
    requires b.Valid() && first.continues && first.exits
    requires Upto(Meanings(src, nodes), i, first, m0, b.Now())
    modifies b
    ensures b.Valid() && Lowered(out, All(src, nodes), m0, b.Now())
    ensures old(b.visits) <= b.visits <= old(b.visits) + Weights(nodes[i..])
    decreases Weights(nodes[i..]), 9
  {
    out := first;
    ghost var ps, m1 := Meanings(src, nodes), b.Now();
    MeaningsSuffix(src, nodes, i);
    if depth >= MAX_DEPTH {
      b.CutShort(out, ps, i, m0);
      return;
    }
    var s := b.NewStep(nodes[i].at, Branch(Guard));
    if s.Some? {
      ghost var m2 := b.Now();
      WeightsShrink(nodes, i);
      var rest := WalkBlock(b, src, nodes[i..], depth + 1);
      var guard := s.value.(children := rest.steps);
      BlockGuarded(ps, i, out, guard, rest, nodes[i].at, m0, m1, m2, b.Now());
      out := Flow(out.steps + [guard], rest.continues, out.exits || rest.exits);
    } else {
      BlockCut(ps, i, out, m0, m1, b.Now());
    }
  }

  // ---- branches ----

  method IfStep(b: Builder, src: Source, n: Python, depth: nat) returns (f: Flow)
    requires Fits(b, depth, Depth(n), WeightOf(n.children))
    requires b.Valid() && !HasError(n) && (n.kind.IfStatement? || n.kind.ElifClause?)
    modifies b
    ensures b.Valid() && Lowered(f, ControlForm(src, n), old(b.Now()), b.Now())
    ensures old(b.visits) <= b.visits <= old(b.visits) + WeightOf(n.children)
    decreases Weight(n), 3
  {
    ghost var m0 := b.Now();
    BranchesApart(n);
    var condition := WalkField(b, src, n, Condition, depth);
    ghost var m1 := b.Now();
    f := WalkFork(b, src, n, depth);
    f := b.Then(condition, f, n.at, Part(src, n, Condition),
                Either(n.at, Part(src, n, Consequence), Otherwise(src, Alternatives(n))), m0, m1);
  }

  method WalkFork(b: Builder, src: Source, n: Python, depth: nat) returns (f: Flow)
    requires Fits(b, depth, Depth(n), Load(n, Consequence) + Share(n, Alternative))
    requires b.Valid()
    modifies b
    ensures b.Valid()
    ensures Lowered(f, Either(n.at, Part(src, n, Consequence), Otherwise(src, Alternatives(n))), old(b.Now()), b.Now())
    ensures old(b.visits) <= b.visits <= old(b.visits) + Load(n, Consequence) + Share(n, Alternative)
    decreases Weight(n), 2
  {
    ghost var m1 := b.Now();
    ghost var p, q := Part(src, n, Consequence), Otherwise(src, Alternatives(n));
    f := EMPTY_FLOW;
    var s := b.NewStep(n.at, Branch(Fork));
    if s.Some? {
      ghost var m2 := b.Now();
      var yes := WalkField(b, src, n, Consequence, depth);
      ghost var m3 := b.Now();
      var no := WalkOtherwise(b, src, Alternatives(n), depth);
      var fork := s.value.(children := yes.steps, alternate := no.steps);
      f := Flow([fork], yes.continues || no.continues, yes.exits || no.exits);
      ForkLowered(fork, yes, no, f, p, q, m1, m2, m3, b.Now());
    } else {
      FullLowered(f, Either(n.at, p, q), m1, b.Now());
    }
  }

  // Only the first MAX_VISITS + 1 alternatives are collected. The depth bound ends the
  // chain of elif clauses long before the cut shows.
  method WalkOtherwise(b: Builder, src: Source, nodes: seq<Python>, depth: nat) returns (f: Flow)
    requires nodes != [] ==> Fits(b, depth + 1, Depths(nodes), Weights(nodes))
    requires b.Valid()
    modifies b
    ensures b.Valid() && Lowered(f, Otherwise(src, nodes), old(b.Now()), b.Now())
    ensures old(b.visits) <= b.visits <= old(b.visits) + Weights(nodes)
    decreases Weights(nodes), 8
  {
    var seen := if |nodes| <= MAX_VISITS then nodes else nodes[..MAX_VISITS + 1];
    f := Elifs(b, src, seen, nodes, depth + 1);
  }

  method Elifs(b: Builder, src: Source, nodes: seq<Python>, ghost whole: seq<Python>, depth: nat) returns (f: Flow)
    requires whole != [] ==> Fits(b, depth, Depths(whole), Weights(whole))
    requires b.Valid() && nodes <= whole
    requires nodes == whole || |nodes| + depth > MAX_DEPTH + 1
    requires depth <= MAX_DEPTH + 1 || nodes != [] || whole == []
    modifies b
    ensures b.Valid() && Lowered(f, Otherwise(src, whole), old(b.Now()), b.Now())
    ensures old(b.visits) <= b.visits <= old(b.visits) + Weights(whole)
    decreases Weights(whole), 7
  {
    if nodes == [] {
      f := EMPTY_FLOW;
      EmptyLowered(b.Now());
      return;
    }
    var first := nodes[0];
    if depth > MAX_DEPTH || b.count >= MAX_STEPS {
      f := b.GiveUp(first.at, Otherwise(src, whole));
    } else if !first.kind.ElifClause? {
      f := Walk(b, src, first, depth + 1);
    } else {
      f := ElifStep(b, src, nodes, whole, depth);
    }
  }

  // The branch of an elif is drawn after its sides have been walked.
  method ElifStep(b: Builder, src: Source, nodes: seq<Python>, ghost whole: seq<Python>, depth: nat) returns (f: Flow)
    requires whole != [] ==> Fits(b, depth, Depths(whole), Weights(whole))
    requires b.Valid() && nodes <= whole && nodes != [] && nodes[0].kind.ElifClause? && depth <= MAX_DEPTH
    requires nodes == whole || |nodes| + depth > MAX_DEPTH + 1
    modifies b
    ensures b.Valid() && Lowered(f, Otherwise(src, whole), old(b.Now()), b.Now())
    ensures old(b.visits) <= b.visits <= old(b.visits) + Weights(whole)
    decreases Weights(whole), 6
  {
    var first := nodes[0];
    ghost var m0 := b.Now();
    ElifApart(whole);
    ElifApart(whole);
    var condition := WalkField(b, src, first, Condition, depth);
    ghost var m1 := b.Now();
    f := ElifSides(b, src, nodes, whole, depth);
    f := b.Then(condition, f, first.at, Part(src, first, Condition),
                Either(first.at, Part(src, first, Consequence), Otherwise(src, whole[1..])), m0, m1);
  }

  method ElifSides(b: Builder, src: Source, nodes: seq<Python>, ghost whole: seq<Python>, depth: nat) returns (f: Flow)
    requires whole != [] ==> Fits(b, depth, Depths(whole), Load(whole[0], Consequence) + Weights(whole[1..]))
    requires b.Valid() && nodes <= whole && nodes != [] && depth <= MAX_DEPTH
    requires nodes == whole || |nodes| + depth > MAX_DEPTH + 1
    modifies b
    ensures b.Valid()
    ensures Lowered(f, Either(nodes[0].at, Part(src, nodes[0], Consequence), Otherwise(src, whole[1..])), old(b.Now()), b.Now())
    ensures old(b.visits) <= b.visits <= old(b.visits) + Load(whole[0], Consequence) + Weights(whole[1..])
    decreases Weights(whole), 5
  {
    ghost var m1 := b.Now();
    var yes := WalkField(b, src, nodes[0], Consequence, depth);
    ghost var m2 := b.Now();
    var no := Elifs(b, src, nodes[1..], whole[1..], depth + 1);
    f := DrawFork(b, nodes[0].at, yes, no, Part(src, nodes[0], Consequence), Otherwise(src, whole[1..]), m1, m2);
  }

  method DrawFork(b: Builder, at: Range, yes: Flow, no: Flow, ghost p: Form, ghost q: Form, ghost m1: Mark, ghost m2: Mark)
    returns (f: Flow)
    requires b.Valid() && Lowered(yes, p, m1, m2) && Lowered(no, q, m2, b.Now())
    modifies b`count, b`truncated
    ensures b.Valid() && Lowered(f, Either(at, p, q), m1, b.Now())
  {
    ghost var m3 := b.Now();
    f := Flow([], yes.continues || no.continues, yes.exits || no.exits);
    var s := b.NewStep(at, Branch(Fork));
    if s.Some? {
      var fork := s.value.(children := yes.steps, alternate := no.steps);
      f := f.(steps := [fork]);
      ForkLoweredAfter(fork, yes, no, f, p, q, m1, m2, m3, b.Now());
    } else {
      ForkFull(yes, no, f, at, p, q, m1, m2, m3, b.Now());
    }
  }

  method WalkConditional(b: Builder, src: Source, n: Python, depth: nat) returns (f: Flow)
    requires Fits(b, depth, Depth(n), WeightOf(n.children))
    requires b.Valid() && !HasError(n) && n.kind.ConditionalExpression?
    modifies b
    ensures b.Valid() && Lowered(f, ControlForm(src, n), old(b.Now()), b.Now())
    ensures old(b.visits) <= b.visits <= old(b.visits) + WeightOf(n.children)
    decreases Weight(n), 3
  {
    var cs := Seen(n);
    if |cs| != 3 {
      f := b.Mask(n.at, ANY_OUTCOME);
      return;
    }
    ghost var m0 := b.Now();
    ThreeApart(cs);
    var condition := Walk(b, src, cs[1], depth + 1);
    ghost var m1 := b.Now();
    f := WalkSides(b, src, n.at, cs[0], cs[2], depth + 1);
    f := b.Then(condition, f, n.at, Meaning(src, cs[1]), Either(n.at, Meaning(src, cs[0]), Meaning(src, cs[2])), m0, m1);
  }

  method WalkSides(b: Builder, src: Source, at: Range, x: Python, y: Python, depth: nat) returns (f: Flow)
    requires Fits(b, depth, Depth(x), Weight(x) + Weight(y)) && b.Within(depth, Depth(y))
    requires b.Valid()
    modifies b
    ensures b.Valid() && Lowered(f, Either(at, Meaning(src, x), Meaning(src, y)), old(b.Now()), b.Now())
    ensures old(b.visits) <= b.visits <= old(b.visits) + Weight(x) + Weight(y)
    decreases Weight(x) + Weight(y), 5
  {
    ghost var m1 := b.Now();
    var yes := Walk(b, src, x, depth);
    ghost var m2 := b.Now();
    var no := Walk(b, src, y, depth);
    f := DrawFork(b, at, yes, no, Meaning(src, x), Meaning(src, y), m1, m2);
  }

  method WalkBoolean(b: Builder, src: Source, n: Python, depth: nat) returns (f: Flow)
    requires Fits(b, depth, Depth(n), WeightOf(n.children))
    requires b.Valid() && !HasError(n) && n.kind.BooleanOperator?
    modifies b
    ensures b.Valid() && Lowered(f, OperationForm(src, n), old(b.Now()), b.Now())
    ensures old(b.visits) <= b.visits <= old(b.visits) + WeightOf(n.children)
    decreases Weight(n), 2
  {
    ghost var m0 := b.Now();
    SidesApart(n);
    var left := WalkField(b, src, n, Left, depth);
    ghost var m1 := b.Now();
    f := WalkRight(b, src, n, depth);
    f := b.Then(left, f, n.at, Part(src, n, Left), Either(n.at, Part(src, n, Right), Pass), m0, m1);
  }

  method WalkRight(b: Builder, src: Source, n: Python, depth: nat) returns (f: Flow)
    requires Fits(b, depth, Depth(n), Load(n, Right))
    requires b.Valid()
    modifies b
    ensures b.Valid() && Lowered(f, Either(n.at, Part(src, n, Right), Pass), old(b.Now()), b.Now())
    ensures old(b.visits) <= b.visits <= old(b.visits) + Load(n, Right)
    decreases Weight(n), 1
  {
    ghost var m1 := b.Now();
    ghost var p := Part(src, n, Right);
    f := EMPTY_FLOW;
    var s := b.NewStep(n.at, Branch(Fork));
    if s.Some? {
      ghost var m2 := b.Now();
      var right := WalkField(b, src, n, Right, depth);
      var fork := s.value.(children := right.steps);
      f := Flow([fork], true, right.exits);
      EmptyLowered(b.Now());
      ForkLowered(fork, right, EMPTY_FLOW, f, p, Pass, m1, m2, b.Now(), b.Now());
    } else {
      FullLowered(f, Either(n.at, p, Pass), m1, b.Now());
    }
  }

  // ---- expressions and transfers ----

  method WalkExit(b: Builder, src: Source, n: Python, deed: Deed, lands: Outcome, depth: nat) returns (f: Flow)
    requires Fits(b, depth, Depth(n), WeightOf(n.children))
    requires b.Valid()
    requires if deed == Leave then lands != Normal else (deed == Return || deed == Throw) && lands == Exit
    modifies b
    ensures b.Valid() && Lowered(f, Both(All(src, Named(n)), Leaving(deed, n.at, lands)), old(b.Now()), b.Now())
    ensures old(b.visits) <= b.visits <= old(b.visits) + WeightOf(n.children)
    decreases Weight(n), 1
  {
    ghost var m0 := b.Now();
    var value := WalkChildren(b, src, n, depth);
    ghost var m1 := b.Now();
    if deed == Leave {
      f := b.Transfer(n.at, lands);
    } else {
      f := b.Depart(n.at, deed);
    }
    f := b.Then(value, f, n.at, All(src, Named(n)), Leaving(deed, n.at, lands), m0, m1);
  }

  // Attribute lookup and subscription end in a boundary of their own, which does not leave.
  method WalkAccess(b: Builder, src: Source, n: Python, depth: nat) returns (f: Flow)
    requires Fits(b, depth, Depth(n), WeightOf(n.children))
    requires b.Valid() && !HasError(n) && (n.kind.Attribute? || n.kind.Subscript?)
    modifies b
    ensures b.Valid() && Lowered(f, OperationForm(src, n), old(b.Now()), b.Now())
    ensures old(b.visits) <= b.visits <= old(b.visits) + WeightOf(n.children)
    decreases Weight(n), 1
  {
    ghost var m0 := b.Now();
    ghost var p := if n.kind.Attribute? then Part(src, n, Object) else All(src, Named(n));
    if n.kind.Attribute? {
      f := WalkField(b, src, n, Object, depth);
    } else {
      f := WalkChildren(b, src, n, depth);
    }
    ghost var m1 := b.Now();
    var effect := b.BoundaryAt(n.at);
    VeilLowered(effect, n.at, {Normal}, m1, b.Now());
    f := b.Then(f, effect, n.at, p, Hides(n.at, {Normal}), m0, m1);
  }

  method WalkAwait(b: Builder, src: Source, n: Python, depth: nat) returns (f: Flow)
    requires Fits(b, depth, Depth(n), WeightOf(n.children))
    requires b.Valid() && !HasError(n) && n.kind.AwaitForm?
    modifies b
    ensures b.Valid() && Lowered(f, OperationForm(src, n), old(b.Now()), b.Now())
    ensures old(b.visits) <= b.visits <= old(b.visits) + WeightOf(n.children)
    decreases Weight(n), 1
  {
    ghost var m0 := b.Now();
    var value := WalkChildren(b, src, n, depth);
    ghost var m1 := b.Now();
    f := b.Perform(n.at, Await);
    f := b.Then(value, f, n.at, All(src, Named(n)), Does(Await, n.at), m0, m1);
  }

  method WalkCall(b: Builder, src: Source, n: Python, hint: string, depth: nat) returns (f: Flow)
    requires Fits(b, depth, Depth(n), WeightOf(n.children))
    requires b.Valid() && !HasError(n) && n.kind.CallForm?
    modifies b
    ensures b.Valid() && Lowered(f, OperationForm(src, n), old(b.Now()), b.Now())
    ensures old(b.visits) <= b.visits <= old(b.visits) + WeightOf(n.children)
    decreases Weight(n), 1
  {
    if Unpacks(n) {
      f := b.Mask(n.at, ANY_OUTCOME);
      return;
    }
    ghost var m0 := b.Now();
    f := WalkChildren(b, src, n, depth);
    ghost var m1 := b.Now();
    if !f.continues {
      LoweredDead(f, All(src, Named(n)), Invocation(src, n.at, ANY_OUTCOME), m0, m1);
    } else {
      var call := b.Invoke(src, n.at, hint, ANY_OUTCOME);
      f := b.Then(f, call, n.at, All(src, Named(n)), Invocation(src, n.at, ANY_OUTCOME), m0, m1);
    }
  }

  method WalkAssignment(b: Builder, src: Source, n: Python, depth: nat) returns (f: Flow)
    requires Fits(b, depth, Depth(n), WeightOf(n.children))
    requires b.Valid() && !HasError(n) && n.kind.Assignment?
    modifies b
    ensures b.Valid() && Lowered(f, AssignmentForm(src, n), old(b.Now()), b.Now())
    ensures old(b.visits) <= b.visits <= old(b.visits) + WeightOf(n.children)
    decreases Weight(n), 3
  {
    SidesApart(n);
    var left, right := ByField(n, Left), ByField(n, Right);
    if ByField(n, TypeField).Some? && right.None? {
      if left.Some? && left.value.kind.Identifier? {
        f := EMPTY_FLOW;
        EmptyLowered(b.Now());
      } else {
        f := b.Mask(n.at, ANY_OUTCOME);
      }
    } else if right.Some? && right.value.kind.Assignment? {
      f := b.Mask(n.at, ANY_OUTCOME);
    } else {
      f := WalkWrite(b, src, n, depth);
    }
  }

  function Place(src: Source, n: Python): Form {
    var left := ByField(n, Left);
    if left.Some? then Target(src, left.value) else Pass
  }

  // The value is evaluated before the target it is assigned to.
  method WalkWrite(b: Builder, src: Source, n: Python, depth: nat) returns (f: Flow)
    requires Fits(b, depth, Depth(n), Load(n, Right) + Load(n, Left))
    requires b.Valid()
    modifies b
    ensures b.Valid()
    ensures Lowered(f, Both(Both(Part(src, n, Right), Place(src, n)), Does(Effect, n.at)), old(b.Now()), b.Now())
    ensures old(b.visits) <= b.visits <= old(b.visits) + Load(n, Right) + Load(n, Left)
    decreases Weight(n), 2
  {
    ghost var m0 := b.Now();
    ghost var p, q := Part(src, n, Right), Place(src, n);
    var value := WalkField(b, src, n, Right, depth);
    ghost var m1 := b.Now();
    var left := ByField(n, Left);
    var target := EMPTY_FLOW;
    EmptyLowered(m1);
    if left.Some? {
      target := AssignmentTarget(b, src, left.value, depth + 1);
    }
    var values := b.Then(value, target, n.at, p, q, m0, m1);
    ghost var m2 := b.Now();
    f := b.Perform(n.at, Effect);
    f := b.Then(values, f, n.at, Both(p, q), Does(Effect, n.at), m0, m2);
  }

  method AssignmentTarget(b: Builder, src: Source, t: Python, depth: nat) returns (f: Flow)
    requires Fits(b, depth, Depth(t), Weight(t))
    requires b.Valid()
    modifies b
    ensures b.Valid() && Lowered(f, Target(src, t), old(b.Now()), b.Now())
    ensures old(b.visits) <= b.visits <= old(b.visits) + Weight(t)
    decreases Weight(t), 1
  {
    if t.kind.Identifier? {
      f := EMPTY_FLOW;
      EmptyLowered(b.Now());
    } else if t.kind.Attribute? {
      f := WalkField(b, src, t, Object, depth);
    } else if t.kind.Subscript? {
      f := WalkChildren(b, src, t, depth);
    } else {
      f := b.Mask(t.at, ANY_OUTCOME);
    }
  }

  // ---- loops ----

  method LoopStep(b: Builder, src: Source, n: Python, depth: nat) returns (f: Flow)
    requires Fits(b, depth, Depth(n), WeightOf(n.children))
    requires b.Valid()
    modifies b
    ensures b.Valid() && Lowered(f, Both(InitMeaning(src, n), Cycle(RoundMeaning(src, n), false)), old(b.Now()), b.Now())
    ensures old(b.visits) <= b.visits <= old(b.visits) + WeightOf(n.children)
    decreases Weight(n), 3
  {
    ghost var m0 := b.Now();
    LoopApart(n);
    var init := EMPTY_FLOW;
    EmptyLowered(m0);
    if n.kind.ForStatement? {
      init := WalkField(b, src, n, Right, depth);
    }
    ghost var m1 := b.Now();
    f := Rounds(b, src, n, depth);
    f := b.Then(init, f, n.at, InitMeaning(src, n), Cycle(RoundMeaning(src, n), false), m0, m1);
  }

  method Rounds(b: Builder, src: Source, n: Python, depth: nat) returns (f: Flow)
    requires Fits(b, depth, Depth(n), Load(n, Condition) + Load(n, Left) + Load(n, Body))
    requires b.Valid()
    modifies b
    ensures b.Valid() && Lowered(f, Cycle(RoundMeaning(src, n), false), old(b.Now()), b.Now())
    ensures old(b.visits) <= b.visits <= old(b.visits) + Load(n, Condition) + Load(n, Left) + Load(n, Body)
    decreases Weight(n), 2, 1
  {
    ghost var m0 := b.Now();
    f := Flow([], true, true);
    var s := b.NewStep(n.at, Repeat(false));
    if s.None? {
      FullLowered(f, Cycle(RoundMeaning(src, n), false), m0, b.Now());
      return;
    }
    ghost var m1 := b.Now();
    var children := RoundSteps(b, src, n, depth);
    var step := s.value.(children := children);
    f := f.(steps := [step]);
    LoopLowered(f, step, RoundMeaning(src, n), false, m0, m1, b.Now());
  }

  method RoundSteps(b: Builder, src: Source, n: Python, depth: nat) returns (children: seq<Step>)
    requires Fits(b, depth, Depth(n), Load(n, Condition) + Load(n, Left) + Load(n, Body))
    requires b.Valid()
    modifies b
    ensures b.Valid() && old(b.Now()).UpTo(b.Now())
    ensures Unique(Tally(children), old(b.count), b.count) && Metered(Steps(RoundMeaning(src, n)), old(b.Now()), b.Now())
    ensures !b.truncated ==> Shows(Reading(children), Denote(RoundMeaning(src, n))) && Sketched(children, RoundMeaning(src, n))
    ensures old(b.visits) <= b.visits <= old(b.visits) + Load(n, Condition) + Load(n, Left) + Load(n, Body)
    decreases Weight(n), 2, 0
  {
    ghost var m1 := b.Now();
    ghost var p, q := Part(src, n, Condition), Both(TargetWrite(src, n), Part(src, n, Body));
    var condition := WalkField(b, src, n, Condition, depth);
    ghost var m2 := b.Now();
    var body := WalkRound(b, src, n, depth);
    children := b.RoundOf(condition, body, n.at, p, q, m1, m2);
  }

  method WalkRound(b: Builder, src: Source, n: Python, depth: nat) returns (f: Flow)
    requires Fits(b, depth, Depth(n), Load(n, Left) + Load(n, Body))
    requires b.Valid()
    modifies b
    ensures b.Valid() && Lowered(f, Both(TargetWrite(src, n), Part(src, n, Body)), old(b.Now()), b.Now())
    ensures old(b.visits) <= b.visits <= old(b.visits) + Load(n, Left) + Load(n, Body)
    decreases Weight(n), 1
  {
    ghost var m0 := b.Now();
    var left := ByField(n, Left);
    var target := EMPTY_FLOW;
    EmptyLowered(m0);
    if n.kind.ForStatement? && left.Some? {
      target := AssignmentTarget(b, src, left.value, depth + 1);
      ghost var m1 := b.Now();
      var write := b.Perform(left.value.at, Effect);
      target := b.Then(target, write, left.value.at, Target(src, left.value), Does(Effect, left.value.at), m0, m1);
    }
    ghost var m2 := b.Now();
    var body := WalkField(b, src, n, Body, depth);
    f := b.Then(target, body, n.at, TargetWrite(src, n), Part(src, n, Body), m0, m2);
  }
}
