// The Java adapter: a syntax tree becomes a tree of possible steps.
module JavaAdapter {
  import opened Behaviour
  import opened Cursors
  import opened Diagram
  import opened Forms
  import opened Lowering
  import opened Options
  import opened Syntax

  const MAX_VISITS: nat := 10_000
  const OVERFLOW := "java:unresolved-overflow"

  // Node kinds, with those the walk treats alike under one name:
  //   Deferred     lambda_expression, method_declaration, constructor_declaration,
  //                compact_constructor_declaration
  //   ClassBody    class_declaration, class_body, record_declaration
  //   OtherType    interface_declaration, enum_declaration
  //   Element      annotation_type_element_declaration
  //   Opaque       switch, try, synchronized, do, labeled and assert statements, method
  //                references, string templates, array creation and every form the adapter
  //                does not know
  //   Sequenced    block, constructor_body, expression_statement, parenthesized_expression,
  //                argument_list, array_initializer, unary_expression, dimensions_expr
  //   Valued       variable_declarator, cast_expression
  //   IfForm       if_statement, ternary_expression
  //   MethodInvocation  method_invocation, explicit_constructor_invocation
  //   Annotation   annotation, marker_annotation
  //   Atom         identifiers, literals, comments, empty statements
  datatype Kind =
    | Deferred | ClassBody | OtherType | Element | Opaque
    | BreakStatement | ContinueStatement | YieldStatement
    | Sequenced | LocalVariables | Declarator | Cast | FieldAccess | ArrayAccess | Instanceof
    | IfForm | WhileStatement | ForStatement | EnhancedFor
    | ShortCircuit | BinaryExpression | MethodInvocation(hint: string) | ObjectCreation(hint: string)
    | ReturnStatement | ThrowStatement | AssignmentExpression | UpdateExpression | Annotation | Atom

  type Java = Node<Kind>

  // ---- where a continue can come from ----

  // Definitions whose bodies belong to another callable.
  predicate NestedDefinition(k: Kind) {
    k.Deferred? || k.Element? || k.ClassBody?
  }

  // A continue statement in n, not counting nested definitions below n itself.
  predicate HasContinue(n: Java, inner: bool)
    decreases n, 0
  {
    || n.kind.ContinueStatement?
    || (!(inner && NestedDefinition(n.kind)) && exists i | 0 <= i < |n.children| :: ContinueIn(n.children[i]))
  }

  predicate ContinueIn(c: Child<Kind>)
    decreases c, 0
  {
    HasContinue(c.node, true)
  }

  ghost function ScanEnter(): Enter<Kind> {
    (n: Java, d: nat) => !(d > 0 && NestedDefinition(n.kind))
  }

  ghost predicate SomeContinue(nodes: seq<Java>) {
    exists i | 0 <= i < |nodes| :: nodes[i].kind.ContinueStatement?
  }

  lemma {:induction false} VisitsContinue(n: Java, d: nat)
    ensures SomeContinue(Visits(ScanEnter(), n, d)) <==> HasContinue(n, d > 0)
    decreases n, 0
  {
    if ScanEnter()(n, d) {
      VisitsAllContinue(n.children, d + 1);
      SomeContinueConcat([n], VisitsAll(ScanEnter(), n.children, d + 1));
    }
    assert ScanEnter()(n, d) == !(d > 0 && NestedDefinition(n.kind));
    assert SomeContinue([n]) <==> n.kind.ContinueStatement? by {
      assert [n][0] == n;
    }
    assert !ScanEnter()(n, d) ==> Visits(ScanEnter(), n, d) == [n];
  }

  lemma {:induction false} VisitsAllContinue(cs: seq<Child<Kind>>, d: nat)
    requires d > 0
    ensures SomeContinue(VisitsAll(ScanEnter(), cs, d)) <==> exists i | 0 <= i < |cs| :: ContinueIn(cs[i])
    decreases cs, 0
  {
    if cs != [] {
      VisitsInContinue(cs[0], d);
      VisitsAllContinue(cs[1..], d);
      SomeContinueConcat(VisitsIn(ScanEnter(), cs[0], d), VisitsAll(ScanEnter(), cs[1..], d));
      assert (exists i | 0 <= i < |cs| :: ContinueIn(cs[i]))
        <==> ContinueIn(cs[0]) || exists i | 0 <= i < |cs[1..]| :: ContinueIn(cs[1..][i]) by {
        if i :| 0 <= i < |cs| && ContinueIn(cs[i]) && i > 0 {
          assert ContinueIn(cs[1..][i - 1]);
        }
      }
    }
  }

  lemma {:induction false} VisitsInContinue(c: Child<Kind>, d: nat)
    requires d > 0
    ensures SomeContinue(VisitsIn(ScanEnter(), c, d)) <==> ContinueIn(c)
    decreases c, 0
  {
    VisitsContinue(c.node, d);
  }

  lemma {:induction false} SomeContinueConcat(xs: seq<Java>, ys: seq<Java>)
    ensures SomeContinue(xs + ys) <==> SomeContinue(xs) || SomeContinue(ys)
  {
    if SomeContinue(ys) {
      var i :| 0 <= i < |ys| && ys[i].kind.ContinueStatement?;
      assert (xs + ys)[|xs| + i].kind.ContinueStatement?;
    }
    if SomeContinue(xs) {
      var i :| 0 <= i < |xs| && xs[i].kind.ContinueStatement?;
      assert (xs + ys)[i].kind.ContinueStatement?;
    }
  }

  lemma {:induction false} StillSearching(total: seq<Java>, seen: seq<Java>, node: Java)
    requires |seen| < |total| && total[..|seen| + 1] == seen + [node] && !SomeContinue(seen)
    ensures node.kind.ContinueStatement? ==> SomeContinue(total)
    ensures !node.kind.ContinueStatement? ==> !SomeContinue(seen + [node])
  {
    SomeContinueConcat(seen, [node]);
    SomeContinueConcat(seen + [node], total[|seen| + 1..]);
    assert total == seen + [node] + total[|seen| + 1..];
    assert [node][0] == node;
  }

  datatype Scan = Found | Absent | Exhausted

  // The cursor scan of a for statement: it finds a continue exactly when the recursive
  // search does, unless it runs out of its budget first.
  method ScanContinue(n: Java) returns (r: Scan)
    ensures r == Found ==> HasContinue(n, false)
    ensures r == Absent ==> !HasContinue(n, false)
    ensures r == Exhausted ==> |Visits(ScanEnter(), n, 0)| >= MAX_VISITS
  {
    var cursor := new TreeCursor(n);
    ghost var enter, total := ScanEnter(), Visits(ScanEnter(), n, 0);
    ghost var seen: seq<Java> := [];
    var visits := 0;
    VisitsContinue(n, 0);
    while true
      invariant cursor.Valid() && fresh(cursor)
      invariant |seen| == visits < MAX_VISITS && !SomeContinue(seen)
      invariant Scanning(enter, total, seen, cursor.Current(), cursor.frames)
      decreases MAX_VISITS - visits
    {
      visits := visits + 1;
      var node := cursor.Current();
      ghost var frames := cursor.frames;
      ScanHere(enter, total, seen, node, frames);
      StillSearching(total, seen, node);
      if visits >= MAX_VISITS {
        return Exhausted;
      }
      if node.kind.ContinueStatement? {
        return Found;
      }
      var nested := |cursor.frames| > 0 && NestedDefinition(node.kind);
      if !nested {
        var moved := cursor.GotoFirstChild();
        if moved {
          ScanDown(enter, total, seen, node, frames, cursor.frames);
          seen := seen + [node];
          continue;
        }
      }
      ScanLeaf(enter, total, seen, cursor.root, node, frames);
      seen := seen + [node];
      var more := cursor.Advance();
      if !more {
        return Absent;
      }
    }
  }

  // ---- the order of evaluation ----

  // An opaque form may do anything, but it continues a loop only if a continue is in it.
  function OpaqueOutcomes(n: Java): set<Outcome> {
    if HasContinue(n, true) then ANY_OUTCOME else {Normal, Exit, Break}
  }

  // What executing a node does, following sections 14 and 15 of the Java Language
  // Specification: operands from left to right, the target of an assignment before its
  // value, the update of a for statement after a body that ends normally or by continue.
  // Whether a loop test can fail is not decided, so every loop may end after a round.
  function Meaning(src: Source, n: Java): Form
    decreases Weight(n), 5
  {
    if HasError(n) then Hides(n.at, ANY_OUTCOME)
    else if Statement(n.kind) then StatementForm(src, n)
    else if Operation(n.kind) then OperationForm(src, n)
    else if Action(n.kind) then ActionForm(src, n)
    else PlainForm(src, n)
  }

  predicate Statement(k: Kind) {
    || k.LocalVariables? || k.IfForm? || k.WhileStatement? || k.ForStatement? || k.EnhancedFor?
    || k.ReturnStatement? || k.ThrowStatement?
  }

  predicate Operation(k: Kind) {
    k.ArrayAccess? || k.ShortCircuit? || k.BinaryExpression?
  }

  predicate Action(k: Kind) {
    k.MethodInvocation? || k.ObjectCreation? || k.AssignmentExpression? || k.UpdateExpression?
  }

  function StatementForm(src: Source, n: Java): Form
    decreases Weight(n), 4
  {
    var k := n.kind;
    if k.LocalVariables? then All(src, Declarators(Named(n)))
    else if k.IfForm? then
      Both(Part(src, n, Condition), Either(n.at, Part(src, n, Consequence), Part(src, n, Alternative)))
    else if k.ReturnStatement? then Both(All(src, Named(n)), Leaving(Return, n.at, Exit))
    else if k.ThrowStatement? then Both(All(src, Named(n)), Leaving(Throw, n.at, Exit))
    else if k.ForStatement? && HasContinue(n, false) then Hides(n.at, OpaqueOutcomes(n))
    else Iteration(src, n)
  }

  function OperationForm(src: Source, n: Java): Form
    decreases Weight(n), 4
  {
    if n.kind.ArrayAccess? then Both(Part(src, n, Array), Part(src, n, Index))
    else if n.kind.BinaryExpression? then Both(Part(src, n, Left), Part(src, n, Right))
    else Both(Part(src, n, Left), Either(n.at, Part(src, n, Right), Pass))
  }

  function ActionForm(src: Source, n: Java): Form
    decreases Weight(n), 4
  {
    if n.kind.AssignmentExpression? then Both(Both(Part(src, n, Left), Part(src, n, Right)), Does(Effect, n.at))
    else if n.kind.UpdateExpression? then Both(All(src, Named(n)), Does(Effect, n.at))
    else Both(Both(Receiver(src, n), Part(src, n, Arguments)), Invocation(src, n.at, {Normal, Exit}))
  }

  function PlainForm(src: Source, n: Java): Form
    decreases Weight(n), 4
  {
    var k := n.kind;
    if k.Deferred? || k.ClassBody? || k.OtherType? || k.Element? then Hides(n.at, {Normal})
    else if k.BreakStatement? then Hides(n.at, {Break})
    else if k.ContinueStatement? then Hides(n.at, {Continue})
    else if k.YieldStatement? then Hides(n.at, {Exit})
    else if k.Sequenced? then All(src, Named(n))
    else if k.Declarator? || k.Cast? then Part(src, n, Value)
    else if k.FieldAccess? then Part(src, n, Object)
    else if k.Instanceof? && ByField(n, Pattern).None? then Part(src, n, Left)
    else if k.Atom? then Pass
    else Hides(n.at, OpaqueOutcomes(n))
  }

  // Qualified construction has its outer instance as an unfielded child.
  function Qualifier(cs: seq<Child<Kind>>): (r: Option<Java>)
    ensures r.Some? ==> Weight(r.value) <= WeightOf(cs) && Depth(r.value) < DepthOf(cs)
  {
    if cs == [] then None
    else if cs[0].named && cs[0].field !in {Some(TypeField), Some(TypeArguments), Some(Arguments)}
            && !cs[0].node.kind.ClassBody? && !cs[0].node.kind.Annotation? then Some(cs[0].node)
    else Qualifier(cs[1..])
  }

  function ReceiverOf(n: Java): (r: Option<Java>)
    ensures r.Some? ==> Weight(r.value) < Weight(n) && Depth(r.value) < Depth(n)
  {
    if n.kind.ObjectCreation? then Qualifier(n.children) else ByField(n, Object)
  }

  function Receiver(src: Source, n: Java): Form
    decreases Weight(n), 0
  {
    match ReceiverOf(n)
    case None => Pass
    case Some(c) => Meaning(src, c)
  }

  function Declarators(nodes: seq<Java>): (r: seq<Java>)
    ensures Weights(r) <= Weights(nodes) && Depths(r) <= Depths(nodes) && |r| <= |nodes|
  {
    if nodes == [] then []
    else if nodes[0].kind.Declarator? then [nodes[0]] + Declarators(nodes[1..])
    else Declarators(nodes[1..])
  }

  function Iteration(src: Source, n: Java): Form
    decreases Weight(n), 3
  {
    Both(InitMeaning(src, n), Cycle(RoundMeaning(src, n), false))
  }

  function InitMeaning(src: Source, n: Java): Form
    decreases Weight(n), 1
  {
    if n.kind.ForStatement? then All(src, AllByField(n, Init))
    else if n.kind.EnhancedFor? then Part(src, n, Value)
    else Pass
  }

  function RoundMeaning(src: Source, n: Java): Form
    decreases Weight(n), 2
  {
    Round(n.at, Part(src, n, Condition), BodyMeaning(src, n))
  }

  function BodyMeaning(src: Source, n: Java): Form
    decreases Weight(n), 1
  {
    if n.kind.ForStatement? then Both(Resumes(Part(src, n, Body)), All(src, AllByField(n, Update)))
    else Part(src, n, Body)
  }

  function Part(src: Source, n: Java, f: Field): Form
    decreases Weight(n), 0
  {
    match ByField(n, f)
    case None => Pass
    case Some(c) => Meaning(src, c)
  }

  function All(src: Source, nodes: seq<Java>): Form
    decreases Weights(nodes), 7
  {
    Fold(Meanings(src, nodes))
  }

  function Meanings(src: Source, nodes: seq<Java>): (ps: seq<Form>)
    ensures |ps| == |nodes|
    decreases Weights(nodes), 6
  {
    if nodes == [] then [] else [Meaning(src, nodes[0])] + Meanings(src, nodes[1..])
  }

  lemma {:induction false} MeaningsSuffix(src: Source, nodes: seq<Java>, i: nat)
    requires i <= |nodes|
    ensures Meanings(src, nodes)[i..] == Meanings(src, nodes[i..])
    ensures i < |nodes| ==> Meanings(src, nodes)[i] == Meaning(src, nodes[i])
    decreases i
  {
    if i > 0 {
      MeaningsSuffix(src, nodes[1..], i - 1);
      assert nodes[1..][i - 1..] == nodes[i..];
    }
  }

  // ---- a loop body without a continue never continues ----

  lemma {:induction false} NoContinue(src: Source, n: Java)
    requires !HasError(n) && !HasContinue(n, true)
    ensures Never(Denote(Meaning(src, n)), Continue)
    decreases Weight(n), 4
  {
    var k := n.kind;
    if NestedDefinition(k) || k.OtherType? {
      return;
    }
    if k.Sequenced? || k.ReturnStatement? || k.ThrowStatement? || k.UpdateExpression? {
      NamedUnderAll(n);
      NoContinueAll(src, n, Named(n));
      NoContinueTail(src, n);
    } else if k.LocalVariables? {
      NamedUnderAll(n);
      DeclaratorsIn(Named(n));
      NoContinueAll(src, n, Declarators(Named(n)));
    } else if k.WhileStatement? || k.EnhancedFor? || k.ForStatement? {
      NoContinueLoop(src, n);
    } else if k.MethodInvocation? || k.ObjectCreation? {
      NoContinueReceiver(src, n);
      NoContinuePart(src, n, Arguments);
      NeverBoth(Receiver(src, n), Part(src, n, Arguments), Continue);
      NeverBoth(Both(Receiver(src, n), Part(src, n, Arguments)), Invocation(src, n.at, {Normal, Exit}), Continue);
    } else if k.IfForm? || k.ShortCircuit? {
      NoContinueFork(src, n);
    } else if k.ArrayAccess? || k.BinaryExpression? || k.AssignmentExpression? {
      NoContinuePair(src, n);
    } else if k.Declarator? || k.Cast? || k.FieldAccess? || k.Instanceof? {
      NoContinuePart(src, n, if k.FieldAccess? then Object else if k.Instanceof? then Left else Value);
    }
  }

  lemma {:induction false} NoContinueLoop(src: Source, n: Java)
    requires !HasError(n) && !HasContinue(n, true) && (n.kind.WhileStatement? || n.kind.EnhancedFor? || n.kind.ForStatement?)
    ensures Never(Denote(Meaning(src, n)), Continue)
    decreases Weight(n), 3
  {
    NoContinueInit(src, n);
    assert HasContinue(n, false) == HasContinue(n, true);
    assert Meaning(src, n) == StatementForm(src, n) == Iteration(src, n);
    NeverBoth(InitMeaning(src, n), Cycle(RoundMeaning(src, n), false), Continue);
  }

  lemma {:induction false} NoContinueTail(src: Source, n: Java)
    requires !HasError(n) && Never(Denote(All(src, Named(n))), Continue)
    requires n.kind.Sequenced? || n.kind.ReturnStatement? || n.kind.ThrowStatement? || n.kind.UpdateExpression?
    ensures Never(Denote(Meaning(src, n)), Continue)
  {
    if n.kind.UpdateExpression? {
      NeverBoth(All(src, Named(n)), Does(Effect, n.at), Continue);
    } else if !n.kind.Sequenced? {
      var deed := if n.kind.ReturnStatement? then Return else Throw;
      LeavingForm(deed, n.at, Exit);
      NeverBoth(All(src, Named(n)), Leaving(deed, n.at, Exit), Continue);
    }
  }

  lemma {:induction false} NoContinueFork(src: Source, n: Java)
    requires !HasError(n) && !HasContinue(n, true) && (n.kind.IfForm? || n.kind.ShortCircuit?)
    ensures Never(Denote(Meaning(src, n)), Continue)
    decreases Weight(n), 1
  {
    if n.kind.IfForm? {
      NoContinuePart(src, n, Condition);
      NoContinuePart(src, n, Consequence);
      NoContinuePart(src, n, Alternative);
      NeverEither(n.at, Part(src, n, Consequence), Part(src, n, Alternative), Continue);
      NeverBoth(Part(src, n, Condition), Either(n.at, Part(src, n, Consequence), Part(src, n, Alternative)), Continue);
    } else {
      NoContinuePart(src, n, Left);
      NoContinuePart(src, n, Right);
      NeverEither(n.at, Part(src, n, Right), Pass, Continue);
      NeverBoth(Part(src, n, Left), Either(n.at, Part(src, n, Right), Pass), Continue);
    }
  }

  lemma {:induction false} NoContinuePair(src: Source, n: Java)
    requires !HasError(n) && !HasContinue(n, true)
    requires n.kind.ArrayAccess? || n.kind.BinaryExpression? || n.kind.AssignmentExpression?
    ensures Never(Denote(Meaning(src, n)), Continue)
    decreases Weight(n), 1
  {
    var f, g := if n.kind.ArrayAccess? then Field.Array else Left, if n.kind.ArrayAccess? then Index else Right;
    NoContinuePart(src, n, f);
    NoContinuePart(src, n, g);
    NeverBoth(Part(src, n, f), Part(src, n, g), Continue);
    NeverBoth(Both(Part(src, n, f), Part(src, n, g)), Does(Effect, n.at), Continue);
  }

  lemma {:induction false} NoContinueInit(src: Source, n: Java)
    requires !HasError(n) && !HasContinue(n, true) && !NestedDefinition(n.kind)
    ensures Never(Denote(InitMeaning(src, n)), Continue)
    decreases Weight(n), 1
  {
    if n.kind.ForStatement? {
      forall x | x in AllByField(n, Init) ensures Under(x, n.children) {
        AllWithUnder(n.children, Init, x);
      }
      NoContinueAll(src, n, AllByField(n, Init));
    } else if n.kind.EnhancedFor? {
      NoContinuePart(src, n, Value);
    }
  }

  lemma {:induction false} NoContinueReceiver(src: Source, n: Java)
    requires !HasError(n) && !HasContinue(n, true) && !NestedDefinition(n.kind)
    ensures Never(Denote(Receiver(src, n)), Continue)
    decreases Weight(n), 0
  {
    if n.kind.ObjectCreation? {
      QualifierUnder(n.children);
    } else {
      FirstWithUnder(n.children, Object);
    }
    var c := ReceiverOf(n);
    if c.Some? {
      CleanChild(n, c.value);
      NoContinue(src, c.value);
    }
  }

  lemma {:induction false} NoContinueAll(src: Source, n: Java, nodes: seq<Java>)
    requires !HasError(n) && !HasContinue(n, true) && !NestedDefinition(n.kind)
    requires Weights(nodes) < Weight(n) && forall x | x in nodes :: Under(x, n.children)
    ensures Never(Denote(All(src, nodes)), Continue)
    decreases Weight(n), 0, |nodes|
  {
    if nodes != [] {
      CleanChild(n, nodes[0]);
      NoContinue(src, nodes[0]);
      NoContinueAll(src, n, nodes[1..]);
      MeaningsSuffix(src, nodes, 1);
      NeverBoth(Meaning(src, nodes[0]), All(src, nodes[1..]), Continue);
    }
  }

  lemma {:induction false} NamedUnderAll(n: Java)
    ensures forall x | x in Named(n) :: Under(x, n.children)
  {
    forall x | x in Named(n) ensures Under(x, n.children) {
      NamedUnder(n.children, x);
    }
  }

  lemma DeclaratorsIn(nodes: seq<Java>)
    ensures forall x | x in Declarators(nodes) :: x in nodes
  {}

  lemma {:induction false} QualifierUnder(cs: seq<Child<Kind>>)
    ensures Qualifier(cs).Some? ==> Under(Qualifier(cs).value, cs)
  {
    if cs != [] && Qualifier(cs).Some? {
      if cs[0].node == Qualifier(cs).value {
      } else {
        QualifierUnder(cs[1..]);
        UnderTail(Qualifier(cs).value, cs);
      }
    }
  }

  lemma {:induction false} NoContinuePart(src: Source, n: Java, f: Field)
    requires !HasError(n) && !HasContinue(n, true) && !NestedDefinition(n.kind)
    ensures Never(Denote(Part(src, n, f)), Continue)
    decreases Weight(n), 0
  {
    var c := ByField(n, f);
    if c.Some? {
      FirstWithUnder(n.children, f);
      CleanChild(n, c.value);
      NoContinue(src, c.value);
    }
  }

  lemma {:induction false} CleanChild(n: Java, c: Java)
    requires Under(c, n.children)
    ensures !HasError(n) ==> !HasError(c)
    ensures !HasContinue(n, true) && !NestedDefinition(n.kind) ==> !HasContinue(c, true)
  {
    var i :| 0 <= i < |n.children| && n.children[i].node == c;
    assert ErrorIn(n.children[i]) == HasError(c) && ContinueIn(n.children[i]) == HasContinue(c, true);
  }

  // ---- the lowering ----

  // A tree of this depth and weight has its place in the tree that the walk is about.
  ghost predicate Fits(b: Builder, depth: nat, below: nat, weight: nat)
    reads b
  {
    b.patience == Some(MAX_VISITS) && b.Within(depth, below) && b.visits + weight <= b.size
  }

  function ReceiverLoad(n: Java): nat {
    match ReceiverOf(n)
    case None => 0
    case Some(c) => Weight(c)
  }

  function BodyLoad(n: Java): nat {
    Load(n, Body) + if n.kind.ForStatement? then Share(n, Update) else 0
  }

  function InitLoad(n: Java): nat {
    if n.kind.ForStatement? then Share(n, Init) else if n.kind.EnhancedFor? then Load(n, Value) else 0
  }

  lemma {:induction false} SidesApart(n: Java)
    ensures Load(n, Left) + Load(n, Right) <= WeightOf(n.children)
    ensures Load(n, Field.Array) + Load(n, Index) <= WeightOf(n.children)
  {
    Shares(n, Left, Right, Field.Array, Index);
  }

  lemma {:induction false} BranchesApart(n: Java)
    ensures Load(n, Condition) + Load(n, Consequence) + Load(n, Alternative) <= WeightOf(n.children)
  {
    Shares(n, Condition, Consequence, Alternative, Body);
  }

  lemma {:induction false} LoopApart(n: Java)
    ensures InitLoad(n) + Load(n, Condition) + BodyLoad(n) <= WeightOf(n.children)
  {
    Shares(n, if n.kind.ForStatement? then Init else Value, Condition, Body, Update);
  }

  // The receiver is not among the arguments.
  lemma {:induction false} ReceiverApart(n: Java)
    ensures ReceiverLoad(n) + Load(n, Arguments) <= WeightOf(n.children)
  {
    Shares(n, Object, Arguments, Init, Update);
    QualifierApart(n.children);
  }

  lemma {:induction false} QualifierApart(cs: seq<Child<Kind>>)
    ensures Qualifier(cs).Some? ==> Weight(Qualifier(cs).value) + Weights(AllWith(cs, Arguments)) <= WeightOf(cs)
  {
    if cs != [] {
      ShareNext(cs, Arguments);
      QualifierApart(cs[1..]);
      SharesOf(cs[1..], Arguments, Object, Init, Update);
    }
  }

  // What every walk owes: the flow is lowered, a flow that neither continues nor leaves
  // comes from a full view, and no node is visited twice.
  ghost predicate Walked(f: Flow, p: Form, m0: Mark, m: Mark, v0: nat, v: nat, weight: nat) {
    Lowered(f, p, m0, m) && (f.continues || f.exits || m.Full()) && v0 <= v <= MAX_VISITS && v <= v0 + weight
  }

  method Walk(b: Builder, src: Source, n: Java, depth: nat) returns (f: Flow)
    requires Fits(b, depth, Depth(n), Weight(n))
    requires b.Valid() && b.visits <= MAX_VISITS
    modifies b
    ensures b.Valid() && Walked(f, Meaning(src, n), old(b.Now()), b.Now(), old(b.visits), b.visits, Weight(n))
    ensures f.exits || b.visits > old(b.visits)
    decreases Weight(n), 5
  {
    ghost var m0 := b.Now();
    if b.count >= MAX_STEPS || b.visits >= MAX_VISITS {
      b.Limit();
      ghost var m1 := b.Now();
      f := b.Unknown(n.at);
      // Missing work never counts as normal completion.
      f := f.(continues := false);
      CutLowered(f, Meaning(src, n), n.at, m1, b.Now());
      LoweredEarlier(f, Meaning(src, n), m0, m1, b.Now());
      return;
    }
    b.visits := b.visits + 1;
    ghost var m1 := b.Now();
    if depth > MAX_DEPTH {
      f := b.GiveUp(n.at, Meaning(src, n));
    } else if HasError(n) {
      f := Hide(b, n.at, ANY_OUTCOME);
    } else if Statement(n.kind) {
      f := WalkStatement(b, src, n, depth);
    } else if Operation(n.kind) {
      f := WalkOperation(b, src, n, depth);
    } else if Action(n.kind) {
      f := WalkAction(b, src, n, depth);
    } else {
      f := WalkPlain(b, src, n, depth);
    }
    LoweredEarlier(f, Meaning(src, n), m0, m1, b.Now());
  }

  method WalkPlain(b: Builder, src: Source, n: Java, depth: nat) returns (f: Flow)
    requires Fits(b, depth, Depth(n), WeightOf(n.children))
    requires b.Valid() && 1 <= b.visits <= MAX_VISITS && !HasError(n) && !Statement(n.kind) && !Operation(n.kind) && !Action(n.kind)
    modifies b
    ensures b.Valid() && Walked(f, PlainForm(src, n), old(b.Now()), b.Now(), old(b.visits), b.visits, WeightOf(n.children))
    decreases Weight(n), 1
  {
    var k := n.kind;
    if k.Deferred? || k.ClassBody? || k.OtherType? {
      f := Hide(b, n.at, {Normal});
    } else if k.BreakStatement? {
      f := Hide(b, n.at, {Break});
    } else if k.ContinueStatement? {
      f := Hide(b, n.at, {Continue});
    } else if k.YieldStatement? {
      f := Hide(b, n.at, {Exit});
    } else if k.Instanceof? && ByField(n, Pattern).Some? {
      f := b.Mask(n.at, OpaqueOutcomes(n));
    } else if k.Sequenced? {
      f := WalkChildren(b, src, n, depth);
    } else if k.Declarator? || k.Cast? {
      f := WalkField(b, src, n, Value, depth);
    } else if k.FieldAccess? {
      f := WalkField(b, src, n, Object, depth);
    } else if k.Instanceof? {
      f := WalkField(b, src, n, Left, depth);
    } else if k.Atom? {
      f := EMPTY_FLOW;
      EmptyLowered(b.Now());
    } else if k.Element? {
      f := b.Mask(n.at, {Normal});
    } else {
      f := b.Mask(n.at, OpaqueOutcomes(n));
    }
  }

  method WalkStatement(b: Builder, src: Source, n: Java, depth: nat) returns (f: Flow)
    requires Fits(b, depth, Depth(n), WeightOf(n.children))
    requires b.Valid() && 1 <= b.visits <= MAX_VISITS && !HasError(n) && Statement(n.kind)
    modifies b
    ensures b.Valid() && Walked(f, StatementForm(src, n), old(b.Now()), b.Now(), old(b.visits), b.visits, WeightOf(n.children))
    decreases Weight(n), 4
  {
    var k := n.kind;
    if k.LocalVariables? {
      f := WalkLocals(b, src, n, depth);
    } else if k.IfForm? {
      f := WalkIf(b, src, n, depth);
    } else if k.ReturnStatement? {
      f := WalkReturn(b, src, n, Return, depth);
    } else if k.ThrowStatement? {
      f := WalkReturn(b, src, n, Throw, depth);
    } else {
      f := LoopStep(b, src, n, depth);
    }
  }

  method WalkOperation(b: Builder, src: Source, n: Java, depth: nat) returns (f: Flow)
    requires Fits(b, depth, Depth(n), WeightOf(n.children))
    requires b.Valid() && 1 <= b.visits <= MAX_VISITS && !HasError(n) && Operation(n.kind)
    modifies b
    ensures b.Valid() && Walked(f, OperationForm(src, n), old(b.Now()), b.Now(), old(b.visits), b.visits, WeightOf(n.children))
    decreases Weight(n), 4
  {
    var k := n.kind;
    SidesApart(n);
    if k.ArrayAccess? {
      f := WalkPair(b, src, n, Field.Array, Index, depth);
    } else if k.BinaryExpression? {
      f := WalkPair(b, src, n, Left, Right, depth);
    } else {
      f := WalkShortCircuit(b, src, n, depth);
    }
  }

  method WalkAction(b: Builder, src: Source, n: Java, depth: nat) returns (f: Flow)
    requires Fits(b, depth, Depth(n), WeightOf(n.children))
    requires b.Valid() && 1 <= b.visits <= MAX_VISITS && !HasError(n) && Action(n.kind)
    modifies b
    ensures b.Valid() && Walked(f, ActionForm(src, n), old(b.Now()), b.Now(), old(b.visits), b.visits, WeightOf(n.children))
    decreases Weight(n), 4
  {
    var k := n.kind;
    if k.AssignmentExpression? {
      f := WalkAssignment(b, src, n, depth);
    } else if k.UpdateExpression? {
      f := WalkUpdate(b, src, n, depth);
    } else {
      f := WalkCall(b, src, n, k.hint, depth);
    }
  }

  // boundary for a deferred body, and the control transfers.
  method Hide(b: Builder, at: Range, allowed: set<Outcome>) returns (f: Flow)
    requires b.Valid() && allowed <= ANY_OUTCOME && allowed != {}
    modifies b`count, b`truncated
    ensures b.Valid() && Lowered(f, Hides(at, allowed), old(b.Now()), b.Now()) && (f.continues || f.exits)
  {
    ghost var m0 := b.Now();
    f := b.BoundaryAt(at);
    f := f.(continues := Normal in allowed, exits := allowed != {Normal});
    VeilLowered(f, at, allowed, m0, b.Now());
  }

  method WalkField(b: Builder, src: Source, n: Java, field: Field, depth: nat) returns (f: Flow)
    requires ByField(n, field).Some? ==>
               Fits(b, depth + 1, Depth(ByField(n, field).value), Weight(ByField(n, field).value))
    requires b.Valid() && b.visits <= MAX_VISITS
    modifies b
    ensures b.Valid() && Walked(f, Part(src, n, field), old(b.Now()), b.Now(), old(b.visits), b.visits, Load(n, field))
    decreases Weight(n), 0
  {
    var c := ByField(n, field);
    if c.Some? {
      f := Walk(b, src, c.value, depth + 1);
    } else {
      f := EMPTY_FLOW;
      EmptyLowered(b.Now());
    }
  }

  // ---- blocks ----

  // A block that does not admit to leave has visited each of its statements.
  method WalkBlock(b: Builder, src: Source, nodes: seq<Java>, depth: nat) returns (out: Flow)
    requires Fits(b, depth, Depths(nodes), Weights(nodes))
    requires b.Valid() && b.visits <= MAX_VISITS
    modifies b
    ensures b.Valid() && Walked(out, All(src, nodes), old(b.Now()), b.Now(), old(b.visits), b.visits, Weights(nodes))
    ensures out.exits || b.count >= MAX_STEPS || b.visits >= old(b.visits) + |nodes|
    decreases Weights(nodes), 8
  {
    out := EMPTY_FLOW;
    ghost var ps, m0, v0 := Meanings(src, nodes), b.Now(), b.visits;
    BlockStart(ps, m0);
    for i := 0 to |nodes|
      invariant b.Valid() && v0 <= b.visits <= MAX_VISITS && (out.exits || b.visits >= v0 + i)
      invariant b.visits + Weights(nodes[i..]) <= v0 + Weights(nodes)
      invariant out.continues && (i < |nodes| ==> !out.exits)
      invariant Upto(ps, i, out, m0, b.Now())
    {
      if b.count >= MAX_STEPS {
        b.CutShort(out, ps, i, m0);
        return;
      }
      out := WalkNext(b, src, nodes, i, out, depth, m0);
      if !out.continues {
        return;
      }
      if out.exits && i + 1 < |nodes| {
        WeightsShrink(nodes, i + 1);
        out := GuardSuffix(b, src, nodes, i + 1, out, depth, m0);
        return;
      }
    }
    BlockEnd(ps, out, m0, b.Now());
  }

  // One more node of a block.
  method WalkNext(b: Builder, src: Source, nodes: seq<Java>, i: nat, before: Flow, depth: nat, ghost m0: Mark) returns (out: Flow)
    requires i < |nodes| && Fits(b, depth, Depths(nodes), Weights(nodes[i..]))
    requires b.Valid() && b.visits <= MAX_VISITS && before.continues && !before.exits
    requires Upto(Meanings(src, nodes), i, before, m0, b.Now())
    modifies b
    ensures b.Valid() && Upto(Meanings(src, nodes), i + 1, out, m0, b.Now())
    ensures !out.continues ==> Lowered(out, All(src, nodes), m0, b.Now())
    ensures out.continues || out.exits || b.count >= MAX_STEPS
    ensures old(b.visits) <= b.visits <= MAX_VISITS && (out.exits || b.visits > old(b.visits))
    ensures b.visits + Weights(nodes[i + 1..]) <= old(b.visits) + Weights(nodes[i..])
    decreases Weights(nodes), 6
  {
    ghost var m1 := b.Now();
    WeightsSuffix(nodes, i);
    assert nodes[i..][0] == nodes[i] && nodes[i..][1..] == nodes[i + 1..];
    var f := Walk(b, src, nodes[i], depth + 1);
    MeaningsSuffix(src, nodes, i);
    BlockNext(Meanings(src, nodes), i, before, f, m0, m1, b.Now());
    out := Flow(before.steps + f.steps, f.continues, before.exits || f.exits);
    if !out.continues {
      BlockDead(Meanings(src, nodes), i + 1, out, m0, b.Now());
    }
  }

  // Where some path may have left, the rest of the block comes under a guard step.
  method GuardSuffix(b: Builder, src: Source, nodes: seq<Java>, i: nat, first: Flow, depth: nat, ghost m0: Mark) returns (out: Flow)
    requires 0 < i < |nodes| && Fits(b, depth, Depths(nodes), Weights(nodes[i..]))
    requires b.Valid() && b.visits <= MAX_VISITS && first.continues && first.exits
    requires Upto(Meanings(src, nodes), i, first, m0, b.Now())
    modifies b
    ensures b.Valid() && Walked(out, All(src, nodes), m0, b.Now(), old(b.visits), b.visits, Weights(nodes[i..])) && out.exits
    decreases Weights(nodes[i..]), 9
  {
    out := first;
    ghost var ps, m1 := Meanings(src, nodes), b.Now();
    MeaningsSuffix(src, nodes, i);
    if depth >= MAX_DEPTH {
      b.CutShort(out, ps, i, m0);
      return;
    }
    var s := b.NewStep(nodes[i].at, Branch(Guard));
    if s.Some? {
      ghost var m2 := b.Now();
      WeightsShrink(nodes, i);
      var rest := WalkBlock(b, src, nodes[i..], depth + 1);
      var guard := s.value.(children := rest.steps);
      BlockGuarded(ps, i, out, guard, rest, nodes[i].at, m0, m1, m2, b.Now());
      out := Flow(out.steps + [guard], rest.continues, out.exits || rest.exits);
    } else {
      BlockCut(ps, i, out, m0, m1, b.Now());
    }
  }

  lemma {:induction false} MeaningsPrefix(src: Source, nodes: seq<Java>, i: nat)
    requires i <= |nodes|
    ensures Meanings(src, nodes)[..i] == Meanings(src, nodes[..i])
    decreases i
  {
    if i > 0 {
      MeaningsPrefix(src, nodes[1..], i - 1);
      assert nodes[..i][1..] == nodes[1..][..i - 1];
    }
  }

  // At most MAX_VISITS children are collected; the rest of a wider node stays opaque.
  method WalkChildren(b: Builder, src: Source, n: Java, depth: nat) returns (f: Flow)
    requires Fits(b, depth, Depth(n), WeightOf(n.children))
    requires b.Valid() && b.visits <= MAX_VISITS
    modifies b
    ensures b.Valid() && Walked(f, All(src, Named(n)), old(b.Now()), b.Now(), old(b.visits), b.visits, WeightOf(n.children))
    decreases Weight(n), 0
  {
    ghost var m0 := b.Now();
    var nodes := Named(n);
    if |nodes| <= MAX_VISITS {
      f := WalkBlock(b, src, nodes, depth);
      return;
    }
    WeightsPrefix(nodes, MAX_VISITS);
    f := WalkBlock(b, src, nodes[..MAX_VISITS], depth);
    ghost var m1 := b.Now();
    ghost var ps := Meanings(src, nodes);
    MeaningsPrefix(src, nodes, MAX_VISITS);
    WeightsLength(nodes);
    var boundary := b.GiveUp(n.at, Fold(ps[MAX_VISITS..]));
    f := b.Then(f, boundary, n.at, Fold(ps[..MAX_VISITS]), Fold(ps[MAX_VISITS..]), m0, m1);
    BlockLoose(ps, MAX_VISITS, f, m0, b.Now());
  }

  // A list cut to MAX_VISITS nodes without a boundary of its own: one visit is already
  // spent, so the walk of the prefix runs out of budget and admits to leave.
  method WalkList(b: Builder, src: Source, nodes: seq<Java>, wide: bool, depth: nat) returns (f: Flow)
    requires Fits(b, depth, Depths(nodes), Weights(nodes))
    requires b.Valid() && 1 <= b.visits <= MAX_VISITS
    requires (|nodes| > MAX_VISITS ==> wide) && (wide ==> b.Loose())
    modifies b
    ensures b.Valid() && Walked(f, All(src, nodes), old(b.Now()), b.Now(), old(b.visits), b.visits, Weights(nodes))
    decreases Weights(nodes), 10
  {
    ghost var m0 := b.Now();
    if wide {
      b.Limit();
    }
    ghost var m1 := b.Now();
    if |nodes| <= MAX_VISITS {
      f := WalkBlock(b, src, nodes, depth);
    } else {
      f := WalkPrefix(b, src, nodes, depth);
    }
    LoweredEarlier(f, All(src, nodes), m0, m1, b.Now());
  }

  method WalkPrefix(b: Builder, src: Source, nodes: seq<Java>, depth: nat) returns (f: Flow)
    requires Fits(b, depth, Depths(nodes), Weights(nodes))
    requires b.Valid() && 1 <= b.visits <= MAX_VISITS && |nodes| > MAX_VISITS && b.truncated
    modifies b
    ensures b.Valid() && Walked(f, All(src, nodes), old(b.Now()), b.Now(), old(b.visits), b.visits, Weights(nodes))
    decreases Weights(nodes), 9
  {
    ghost var m0, ps := b.Now(), Meanings(src, nodes);
    WeightsPrefix(nodes, MAX_VISITS);
    WeightsLength(nodes);
    f := WalkBlock(b, src, nodes[..MAX_VISITS], depth);
    MeaningsPrefix(src, nodes, MAX_VISITS);
    FoundedLoose(f, Fold(ps[..MAX_VISITS]), Steps(Fold(ps[..MAX_VISITS])), Sum(ps[..MAX_VISITS]), m0, b.Now());
    BlockCut(ps, MAX_VISITS, f, m0, b.Now(), b.Now());
  }

  method WalkLocals(b: Builder, src: Source, n: Java, depth: nat) returns (f: Flow)
    requires Fits(b, depth, Depth(n), WeightOf(n.children))
    requires b.Valid() && 1 <= b.visits <= MAX_VISITS && n.kind.LocalVariables? && !HasError(n)
    modifies b
    ensures b.Valid() && Walked(f, Meaning(src, n), old(b.Now()), b.Now(), old(b.visits), b.visits, WeightOf(n.children))
    decreases Weight(n), 1
  {
    WeightsLength(Named(n));
    f := WalkList(b, src, Declarators(Named(n)), |Named(n)| > MAX_VISITS, depth);
  }

  method WalkFields(b: Builder, src: Source, n: Java, field: Field, depth: nat) returns (f: Flow)
    requires Fits(b, depth, Depth(n), Share(n, field))
    requires b.Valid() && 1 <= b.visits <= MAX_VISITS
    modifies b
    ensures b.Valid() && Walked(f, All(src, AllByField(n, field)), old(b.Now()), b.Now(), old(b.visits), b.visits, Share(n, field))
    decreases Weight(n), 0
  {
    WeightsLength(AllByField(n, field));
    f := WalkList(b, src, AllByField(n, field), |AllByField(n, field)| >= MAX_VISITS, depth);
  }

  // ---- expressions and statements ----

  method WalkPair(b: Builder, src: Source, n: Java, first: Field, second: Field, depth: nat) returns (f: Flow)
    requires Fits(b, depth, Depth(n), Load(n, first) + Load(n, second))
    requires b.Valid() && b.visits <= MAX_VISITS
    modifies b
    ensures b.Valid()
    ensures Walked(f, Both(Part(src, n, first), Part(src, n, second)), old(b.Now()), b.Now(), old(b.visits), b.visits, Load(n, first) + Load(n, second))
    decreases Weight(n), 1
  {
    ghost var m0 := b.Now();
    f := WalkField(b, src, n, first, depth);
    ghost var m1 := b.Now();
    var next := WalkField(b, src, n, second, depth);
    f := b.Then(f, next, n.at, Part(src, n, first), Part(src, n, second), m0, m1);
  }

  method WalkIf(b: Builder, src: Source, n: Java, depth: nat) returns (f: Flow)
    requires Fits(b, depth, Depth(n), WeightOf(n.children))
    requires b.Valid() && b.visits <= MAX_VISITS && n.kind.IfForm? && !HasError(n)
    modifies b
    ensures b.Valid() && Walked(f, StatementForm(src, n), old(b.Now()), b.Now(), old(b.visits), b.visits, WeightOf(n.children))
    decreases Weight(n), 2
  {
    ghost var m0 := b.Now();
    BranchesApart(n);
    var condition := WalkField(b, src, n, Condition, depth);
    ghost var m1 := b.Now();
    f := WalkFork(b, src, n, depth);
    f := b.Then(condition, f, n.at, Part(src, n, Condition), Either(n.at, Part(src, n, Consequence), Part(src, n, Alternative)), m0, m1);
  }

  method WalkFork(b: Builder, src: Source, n: Java, depth: nat) returns (f: Flow)
    requires Fits(b, depth, Depth(n), Load(n, Consequence) + Load(n, Alternative))
    requires b.Valid() && b.visits <= MAX_VISITS
    modifies b
    ensures b.Valid()
    ensures Walked(f, Either(n.at, Part(src, n, Consequence), Part(src, n, Alternative)), old(b.Now()), b.Now(), old(b.visits), b.visits, Load(n, Consequence) + Load(n, Alternative))
    decreases Weight(n), 1
  {
    ghost var m1 := b.Now();
    ghost var p, q := Part(src, n, Consequence), Part(src, n, Alternative);
    f := EMPTY_FLOW;
    var s := b.NewStep(n.at, Branch(Fork));
    if s.Some? {
      ghost var m2 := b.Now();
      var yes := WalkField(b, src, n, Consequence, depth);
      ghost var m3 := b.Now();
      var no := WalkField(b, src, n, Alternative, depth);
      var fork := s.value.(children := yes.steps, alternate := no.steps);
      f := Flow([fork], yes.continues || no.continues, yes.exits || no.exits);
      ForkLowered(fork, yes, no, f, p, q, m1, m2, m3, b.Now());
    } else {
      FullLowered(f, Either(n.at, p, q), m1, b.Now());
    }
  }

  method WalkShortCircuit(b: Builder, src: Source, n: Java, depth: nat) returns (f: Flow)
    requires Fits(b, depth, Depth(n), WeightOf(n.children))
    requires b.Valid() && b.visits <= MAX_VISITS && n.kind.ShortCircuit? && !HasError(n)
    modifies b
    ensures b.Valid() && Walked(f, OperationForm(src, n), old(b.Now()), b.Now(), old(b.visits), b.visits, WeightOf(n.children))
    decreases Weight(n), 2
  {
    ghost var m0 := b.Now();
    SidesApart(n);
    var left := WalkField(b, src, n, Left, depth);
    ghost var m1 := b.Now();
    f := WalkRight(b, src, n, depth);
    f := b.Then(left, f, n.at, Part(src, n, Left), Either(n.at, Part(src, n, Right), Pass), m0, m1);
  }

  method WalkRight(b: Builder, src: Source, n: Java, depth: nat) returns (f: Flow)
    requires Fits(b, depth, Depth(n), Load(n, Right))
    requires b.Valid() && b.visits <= MAX_VISITS
    modifies b
    ensures b.Valid()
    ensures Walked(f, Either(n.at, Part(src, n, Right), Pass), old(b.Now()), b.Now(), old(b.visits), b.visits, Load(n, Right))
    decreases Weight(n), 1
  {
    ghost var m1 := b.Now();
    ghost var p := Part(src, n, Right);
    f := EMPTY_FLOW;
    var s := b.NewStep(n.at, Branch(Fork));
    if s.Some? {
      ghost var m2 := b.Now();
      var right := WalkField(b, src, n, Right, depth);
      var fork := s.value.(children := right.steps);
      f := Flow([fork], true, right.exits);
      EmptyLowered(b.Now());
      ForkLowered(fork, right, EMPTY_FLOW, f, p, Pass, m1, m2, b.Now(), b.Now());
    } else {
      FullLowered(f, Either(n.at, p, Pass), m1, b.Now());
    }
  }

  method WalkReturn(b: Builder, src: Source, n: Java, deed: Deed, depth: nat) returns (f: Flow)
    requires Fits(b, depth, Depth(n), WeightOf(n.children))
    requires b.Valid() && b.visits <= MAX_VISITS && (deed == Return || deed == Throw)
    modifies b
    ensures b.Valid()
    ensures Walked(f, Both(All(src, Named(n)), Leaving(deed, n.at, Exit)), old(b.Now()), b.Now(), old(b.visits), b.visits, WeightOf(n.children))
    decreases Weight(n), 1
  {
    ghost var m0 := b.Now();
    var value := WalkChildren(b, src, n, depth);
    ghost var m1 := b.Now();
    f := b.Depart(n.at, deed);
    f := b.Then(value, f, n.at, All(src, Named(n)), Leaving(deed, n.at, Exit), m0, m1);
  }

  // The destination is evaluated before the right side, also in a compound assignment.
  method WalkAssignment(b: Builder, src: Source, n: Java, depth: nat) returns (f: Flow)
    requires Fits(b, depth, Depth(n), WeightOf(n.children))
    requires b.Valid() && b.visits <= MAX_VISITS
    modifies b
    ensures b.Valid()
    ensures Walked(f, Both(Both(Part(src, n, Left), Part(src, n, Right)), Does(Effect, n.at)),
                   old(b.Now()), b.Now(), old(b.visits), b.visits, WeightOf(n.children))
    decreases Weight(n), 2
  {
    ghost var m0 := b.Now();
    SidesApart(n);
    var values := WalkPair(b, src, n, Left, Right, depth);
    ghost var m1 := b.Now();
    f := b.Perform(n.at, Effect);
    f := b.Then(values, f, n.at, Both(Part(src, n, Left), Part(src, n, Right)), Does(Effect, n.at), m0, m1);
  }

  method WalkUpdate(b: Builder, src: Source, n: Java, depth: nat) returns (f: Flow)
    requires Fits(b, depth, Depth(n), WeightOf(n.children))
    requires b.Valid() && b.visits <= MAX_VISITS
    modifies b
    ensures b.Valid()
    ensures Walked(f, Both(All(src, Named(n)), Does(Effect, n.at)), old(b.Now()), b.Now(), old(b.visits), b.visits, WeightOf(n.children))
    decreases Weight(n), 1
  {
    ghost var m0 := b.Now();
    var values := WalkChildren(b, src, n, depth);
    ghost var m1 := b.Now();
    f := b.Perform(n.at, Effect);
    f := b.Then(values, f, n.at, All(src, Named(n)), Does(Effect, n.at), m0, m1);
  }

  method WalkCall(b: Builder, src: Source, n: Java, hint: string, depth: nat) returns (f: Flow)
    requires Fits(b, depth, Depth(n), WeightOf(n.children))
    requires b.Valid() && b.visits <= MAX_VISITS
    modifies b
    ensures b.Valid()
    ensures Walked(f, Both(Both(Receiver(src, n), Part(src, n, Arguments)), Invocation(src, n.at, {Normal, Exit})),
                   old(b.Now()), b.Now(), old(b.visits), b.visits, WeightOf(n.children))
    decreases Weight(n), 2
  {
    ghost var m0 := b.Now();
    ghost var p := Both(Receiver(src, n), Part(src, n, Arguments));
    f := WalkOperands(b, src, n, depth);
    ghost var m1 := b.Now();
    if !f.continues {
      LoweredDead(f, p, Invocation(src, n.at, {Normal, Exit}), m0, m1);
    } else {
      var call := b.Invoke(src, n.at, hint, {Normal, Exit});
      f := b.Then(f, call, n.at, p, Invocation(src, n.at, {Normal, Exit}), m0, m1);
    }
  }

  method WalkOperands(b: Builder, src: Source, n: Java, depth: nat) returns (f: Flow)
    requires Fits(b, depth, Depth(n), WeightOf(n.children))
    requires b.Valid() && b.visits <= MAX_VISITS
    modifies b
    ensures b.Valid()
    ensures Walked(f, Both(Receiver(src, n), Part(src, n, Arguments)), old(b.Now()), b.Now(), old(b.visits), b.visits, WeightOf(n.children))
    decreases Weight(n), 1
  {
    ghost var m0 := b.Now();
    ReceiverApart(n);
    f := WalkReceiver(b, src, n, depth);
    ghost var m1 := b.Now();
    var arguments := WalkField(b, src, n, Arguments, depth);
    f := b.Then(f, arguments, n.at, Receiver(src, n), Part(src, n, Arguments), m0, m1);
  }

  method WalkReceiver(b: Builder, src: Source, n: Java, depth: nat) returns (f: Flow)
    requires Fits(b, depth, Depth(n), ReceiverLoad(n))
    requires b.Valid() && b.visits <= MAX_VISITS
    modifies b
    ensures b.Valid() && Walked(f, Receiver(src, n), old(b.Now()), b.Now(), old(b.visits), b.visits, ReceiverLoad(n))
    decreases Weight(n), 0
  {
    var c := ReceiverOf(n);
    if c.Some? {
      f := Walk(b, src, c.value, depth + 1);
    } else {
      f := EMPTY_FLOW;
      EmptyLowered(b.Now());
    }
  }

  // ---- loops ----

  // A for statement with a continue runs its update in between, so it is kept opaque.
  method LoopStep(b: Builder, src: Source, n: Java, depth: nat) returns (f: Flow)
    requires Fits(b, depth, Depth(n), WeightOf(n.children))
    requires b.Valid() && 1 <= b.visits <= MAX_VISITS && !HasError(n)
    requires n.kind.WhileStatement? || n.kind.ForStatement? || n.kind.EnhancedFor?
    modifies b
    ensures b.Valid() && Walked(f, StatementForm(src, n), old(b.Now()), b.Now(), old(b.visits), b.visits, WeightOf(n.children))
    decreases Weight(n), 3
  {
    if n.kind.ForStatement? {
      var scan := ScanContinue(n);
      if scan == Exhausted {
        VisitsBound(ScanEnter(), n, 0);
        f := b.GiveUp(n.at, StatementForm(src, n));
        return;
      } else if scan == Found {
        f := b.Mask(n.at, OpaqueOutcomes(n));
        return;
      }
    }
    f := WalkIteration(b, src, n, depth);
  }

  method WalkIteration(b: Builder, src: Source, n: Java, depth: nat) returns (f: Flow)
    requires Fits(b, depth, Depth(n), WeightOf(n.children))
    requires b.Valid() && 1 <= b.visits <= MAX_VISITS && !HasError(n)
    requires n.kind.ForStatement? ==> !HasContinue(n, true)
    modifies b
    ensures b.Valid() && Walked(f, Iteration(src, n), old(b.Now()), b.Now(), old(b.visits), b.visits, WeightOf(n.children))
    decreases Weight(n), 2
  {
    ghost var m0 := b.Now();
    LoopApart(n);
    var init := WalkInit(b, src, n, depth);
    ghost var m1 := b.Now();
    f := Rounds(b, src, n, depth);
    f := b.Then(init, f, n.at, InitMeaning(src, n), Cycle(RoundMeaning(src, n), false), m0, m1);
  }

  method WalkInit(b: Builder, src: Source, n: Java, depth: nat) returns (init: Flow)
    requires Fits(b, depth, Depth(n), InitLoad(n))
    requires b.Valid() && 1 <= b.visits <= MAX_VISITS
    modifies b
    ensures b.Valid() && Walked(init, InitMeaning(src, n), old(b.Now()), b.Now(), old(b.visits), b.visits, InitLoad(n))
    decreases Weight(n), 1
  {
    if n.kind.ForStatement? {
      init := WalkFields(b, src, n, Init, depth);
    } else if n.kind.EnhancedFor? {
      init := WalkField(b, src, n, Value, depth);
    } else {
      init := EMPTY_FLOW;
      EmptyLowered(b.Now());
    }
  }

  method Rounds(b: Builder, src: Source, n: Java, depth: nat) returns (f: Flow)
    requires Fits(b, depth, Depth(n), Load(n, Condition) + BodyLoad(n))
    requires b.Valid() && 1 <= b.visits <= MAX_VISITS && !HasError(n)
    requires n.kind.ForStatement? ==> !HasContinue(n, true)
    modifies b
    ensures b.Valid() && Walked(f, Cycle(RoundMeaning(src, n), false), old(b.Now()), b.Now(), old(b.visits), b.visits, Load(n, Condition) + BodyLoad(n))
    decreases Weight(n), 1, 2
  {
    ghost var m0 := b.Now();
    f := Flow([], true, true);
    var s := b.NewStep(n.at, Repeat(false));
    if s.None? {
      FullLowered(f, Cycle(RoundMeaning(src, n), false), m0, b.Now());
      return;
    }
    ghost var m1 := b.Now();
    var children := RoundSteps(b, src, n, depth);
    var step := s.value.(children := children);
    f := f.(steps := [step]);
    LoopLowered(f, step, RoundMeaning(src, n), false, m0, m1, b.Now());
  }

  method RoundSteps(b: Builder, src: Source, n: Java, depth: nat) returns (children: seq<Step>)
    requires Fits(b, depth, Depth(n), Load(n, Condition) + BodyLoad(n))
    requires b.Valid() && 1 <= b.visits <= MAX_VISITS && !HasError(n)
    requires n.kind.ForStatement? ==> !HasContinue(n, true)
    modifies b
    ensures b.Valid() && old(b.Now()).UpTo(b.Now())
    ensures old(b.visits) <= b.visits <= MAX_VISITS && b.visits <= old(b.visits) + Load(n, Condition) + BodyLoad(n)
    ensures Unique(Tally(children), old(b.count), b.count) && Metered(Steps(RoundMeaning(src, n)), old(b.Now()), b.Now())
    ensures !b.truncated ==> Shows(Reading(children), Denote(RoundMeaning(src, n))) && Sketched(children, RoundMeaning(src, n))
    decreases Weight(n), 1, 1
  {
    ghost var m1 := b.Now();
    ghost var p, q := Part(src, n, Condition), BodyMeaning(src, n);
    var condition := WalkField(b, src, n, Condition, depth);
    ghost var m2 := b.Now();
    children := [];
    var each := b.NewStep(n.at, Branch(Each));
    if each.None? {
      RoundDropped(condition, n.at, p, q, m1, m2, b.Now());
      return;
    }
    ghost var m3 := b.Now();
    var body := WalkBody(b, src, n, depth);
    ghost var m4 := b.Now();
    var branch := each.value.(children := body.steps);
    GuardedUnique(condition.steps, branch, m1.count, m2.count, m3.count, m4.count);
    var inner := b.Compose(condition, Flow([branch], true, false), n.at, Denote(p), Choice(n.at, Denote(q), Stop(Done)), m1.count);
    children := inner.steps;
    RoundKept(condition, body, branch, inner, p, q, m1, m2, m3, m4, b.Now());
  }

  lemma {:induction false} RoundDropped(condition: Flow, at: Range, p: Form, q: Form, m1: Mark, m2: Mark, m: Mark)
    requires Lowered(condition, p, m1, m2) && m2.Full() && m == m2.(cut := true)
    ensures Metered(Steps(Round(at, p, q)), m1, m)
  {
    WayOutForm(at, p, q, Done);
  }

  lemma {:induction false} RoundKept(condition: Flow, body: Flow, branch: Step, inner: Flow, p: Form, q: Form,
                                     m1: Mark, m2: Mark, m3: Mark, m4: Mark, m: Mark)
    requires Lowered(condition, p, m1, m2) && m2.UpTo(m3) && m3 == m2.(count := m2.count + 1)
    requires Lowered(body, q, m3, m4) && Spent(m4, m) && WayOut(branch, body.steps, Done)
    requires ComposedShown(condition, Flow([branch], true, false), inner, Denote(p), Choice(branch.at, Denote(q), Stop(Done)), m)
    requires !m.cut ==> Joined(condition, Flow([branch], true, false), inner)
    ensures var f := Round(branch.at, p, q);
            Metered(Steps(f), m1, m) && (!m.cut ==> Shows(Reading(inner.steps), Denote(f)) && Sketched(inner.steps, f))
  {
    WayOutForm(branch.at, p, q, Done);
    MeteredSum(Steps(p), 1, m1, m2, m3);
    MeteredSum(Steps(p) + 1, Steps(q), m1, m3, m4);
    MeteredSum(Steps(p) + 1 + Steps(q), 1, m1, m4, m);
    WayOutLowered(condition, body, branch, inner, p, q, Done, m);
  }

  lemma {:induction false} GuardedUnique(condition: seq<Step>, branch: Step, c1: nat, c2: nat, c3: nat, c4: nat)
    requires c1 <= c2 && c3 == c2 + 1 && c3 <= c4
    requires Unique(Tally(condition), c1, c2) && Unique(Tally(branch.children), c3, c4)
    requires NumberOf(branch) == c3 && branch.alternate == []
    ensures Unique(Tally(condition) + Tally([branch]), c1, c4)
  {
    TallyOne(branch);
    UniqueSum(multiset{c3}, Tally(branch.children), c2, c3, c4);
    assert TallyStep(branch) == multiset{c3} + Tally(branch.children);
    UniqueSum(Tally(condition), TallyStep(branch), c1, c2, c4);
  }

  // The update runs after a body that can end; without a continue it can only follow one.
  method WalkBody(b: Builder, src: Source, n: Java, depth: nat) returns (f: Flow)
    requires Fits(b, depth, Depth(n), BodyLoad(n))
    requires b.Valid() && 1 <= b.visits <= MAX_VISITS && !HasError(n)
    requires n.kind.ForStatement? ==> !HasContinue(n, true)
    modifies b
    ensures b.Valid() && Walked(f, BodyMeaning(src, n), old(b.Now()), b.Now(), old(b.visits), b.visits, BodyLoad(n))
    decreases Weight(n), 1, 0
  {
    ghost var m0 := b.Now();
    f := WalkField(b, src, n, Body, depth);
    if n.kind.ForStatement? {
      ghost var m1 := b.Now();
      ghost var p, q := Resumes(Part(src, n, Body)), All(src, AllByField(n, Update));
      NoContinuePart(src, n, Body);
      ResumeIdle(Denote(Part(src, n, Body)));
      FoundedAlike(f, Part(src, n, Body), p, Steps(p), Steps(p), m0, m1);
      if f.continues {
        var update := WalkFields(b, src, n, Update, depth);
        f := b.Then(f, update, n.at, p, q, m0, m1);
      } else {
        LoweredDead(f, p, q, m0, m1);
      }
    }
  }
}
