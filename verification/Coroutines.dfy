// What the view of a Rust coroutine is worth when the coroutine is resumed after a yield.
module Coroutines {
  import opened Behaviour
  import opened Diagram
  import opened Forms
  import opened Lowering
  import opened Options
  import opened RustAdapter
  import opened Syntax

  // The form of a coroutine that may be resumed: a yield may also end normally.
  function Resumed(f: Form): Form {
    match f
    case Pauses(at) => Hides(at, ANY_OUTCOME)
    case Both(first, next) => Both(Resumed(first), Resumed(next))
    case Either(at, yes, no) => Either(at, Resumed(yes), Resumed(no))
    case Tries(at, arm, others) => Tries(at, Resumed(arm), Resumed(others))
    case Cycle(round, endless) => Cycle(Resumed(round), endless)
    case Resumes(body) => Resumes(Resumed(body))
    case _ => f
  }

  // Every run there was is still there.
  lemma {:induction false} ResumedMore(f: Form)
    ensures Within(Denote(f), Denote(Resumed(f)), false)
  {
    match f
    case Both(first, next) =>
      ResumedMore(first);
      ResumedMore(next);
      WithinSeq(Denote(first), Denote(Resumed(first)), Denote(next), Denote(Resumed(next)), false);
    case Either(at, yes, no) =>
      ResumedMore(yes);
      ResumedMore(no);
      WithinChoice(at, Denote(yes), Denote(Resumed(yes)), Denote(no), Denote(Resumed(no)), false);
    case Tries(at, arm, others) =>
      ResumedMore(arm);
      ResumedMore(others);
      var p, p', q, q' := Denote(arm), Denote(Resumed(arm)), Denote(others), Denote(Resumed(others));
      WithinOrElse(p, p', q, q', false);
      WithinChoice(at, OrElse(p, q), OrElse(p', q'), q, q', false);
    case Cycle(round, endless) =>
      ResumedMore(round);
      WithinLoop(Denote(round), Denote(Resumed(round)), endless, false);
    case Resumes(body) =>
      ResumedMore(body);
    case _ =>
  }

  // ---- the forms of the Rust adapter ----

  // It does nothing.
  predicate Idle(f: Form) {
    f.Pass? || (f.Both? && Idle(f.first) && Idle(f.next))
  }

  // A transfer comes after a deed or a test, a round does something, and nothing but a
  // loop takes up a continue. With pauses it may also yield.
  predicate Steady(f: Form, pauses: bool) {
    match f
    case Land(lands) => false
    case Hides(at, allowed) => allowed <= ANY_OUTCOME
    case Pauses(at) => pauses
    case Both(first, next) => Steady(first, pauses) && (Steady(next, pauses) || (next.Land? && first.Does?))
    case Either(at, yes, no) => Steady(yes, pauses) && (Steady(no, pauses) || no.Land?)
    case Tries(at, arm, others) => Steady(arm, pauses) && Steady(others, pauses)
    case Cycle(round, endless) => Steady(round, pauses) && !Idle(round)
    case Resumes(body) => false
    case _ => true
  }

  predicate YieldFree(n: Rust)
    decreases n, 0
  {
    !n.kind.YieldExpression? && forall i | 0 <= i < |n.children| :: YieldFreeIn(n.children[i])
  }

  predicate YieldFreeIn(c: Child<RustAdapter.Kind>)
    decreases c, 0
  {
    YieldFree(c.node)
  }

  predicate Quiet(n: Rust, pauses: bool) {
    pauses || YieldFree(n)
  }

  predicate AllQuiet(nodes: seq<Rust>, pauses: bool) {
    forall i | 0 <= i < |nodes| :: Quiet(nodes[i], pauses)
  }

  lemma {:induction false} QuietUnder(n: Rust, c: Rust, pauses: bool)
    requires Quiet(n, pauses) && Under(c, n.children)
    ensures Quiet(c, pauses)
  {
    var i :| 0 <= i < |n.children| && n.children[i].node == c;
    assert YieldFree(n) ==> YieldFreeIn(n.children[i]);
  }

  lemma {:induction false} QuietField(n: Rust, f: Field, pauses: bool)
    requires Quiet(n, pauses)
    ensures ByField(n, f).Some? ==> Quiet(ByField(n, f).value, pauses)
  {
    FirstWithUnder(n.children, f);
    if ByField(n, f).Some? {
      QuietUnder(n, ByField(n, f).value, pauses);
    }
  }

  lemma {:induction false} QuietNamed(n: Rust, pauses: bool)
    requires Quiet(n, pauses)
    ensures AllQuiet(Named(n), pauses)
  {
    forall i | 0 <= i < |Named(n)| ensures Quiet(Named(n)[i], pauses) {
      NamedUnder(n.children, Named(n)[i]);
      QuietUnder(n, Named(n)[i], pauses);
    }
  }

  lemma {:induction false} QuietArms(nodes: seq<Rust>, pauses: bool)
    requires AllQuiet(nodes, pauses)
    ensures AllQuiet(ArmsIn(nodes), pauses)
  {
    if nodes != [] {
      QuietArms(nodes[1..], pauses);
    }
  }

  // What the adapter makes of a tree is of this kind, and only a yield pauses.
  lemma {:induction false} RustSteady(src: Source, n: Rust, pauses: bool)
    requires Quiet(n, pauses)
    ensures Steady(Meaning(src, n), pauses)
    decreases Weight(n), 5
  {
    if HasError(n) {
    } else if RustAdapter.Control(n.kind) {
      ControlSteady(src, n, pauses);
    } else if RustAdapter.Operation(n.kind) {
      OperationSteady(src, n, pauses);
    } else {
      PlainSteady(src, n, pauses);
    }
  }

  lemma {:induction false} PartSteady(src: Source, n: Rust, f: Field, pauses: bool)
    requires Quiet(n, pauses)
    ensures Steady(Part(src, n, f), pauses)
    decreases Weight(n), 0
  {
    QuietField(n, f, pauses);
    if ByField(n, f).Some? {
      RustSteady(src, ByField(n, f).value, pauses);
    }
  }

  lemma {:induction false} AllSteady(src: Source, nodes: seq<Rust>, pauses: bool)
    requires AllQuiet(nodes, pauses)
    ensures Steady(All(src, nodes), pauses)
    decreases Weights(nodes), 6
  {
    if nodes != [] {
      RustSteady(src, nodes[0], pauses);
      AllSteady(src, nodes[1..], pauses);
      AllStep(src, nodes);
    }
  }

  lemma {:induction false} AllStep(src: Source, nodes: seq<Rust>)
    requires nodes != []
    ensures All(src, nodes) == Both(Meaning(src, nodes[0]), All(src, nodes[1..]))
  {
    MeaningsSuffix(src, nodes, 1);
    MeaningsSuffix(src, nodes, 0);
  }

  lemma {:induction false} ArmsSteady(src: Source, arms: seq<Rust>, pauses: bool)
    requires AllQuiet(arms, pauses)
    ensures Steady(RustAdapter.Arms(src, arms), pauses)
    decreases Weights(arms), 6
  {
    if arms != [] {
      ArmSteady(src, arms[0], pauses);
      ArmsSteady(src, arms[1..], pauses);
    }
  }

  lemma {:induction false} ArmSteady(src: Source, arm: Rust, pauses: bool)
    requires Quiet(arm, pauses)
    ensures Steady(ArmBody(src, arm), pauses)
    decreases Weight(arm), 1
  {
    PartSteady(src, arm, Value, pauses);
    QuietField(arm, Pattern, pauses);
    if GuardOf(arm).Some? {
      QuietField(ByField(arm, Pattern).value, Condition, pauses);
      RustSteady(src, GuardOf(arm).value, pauses);
      WaySteady(arm.at, Meaning(src, GuardOf(arm).value), Part(src, arm, Value), Reject, pauses);
    }
  }

  lemma {:induction false} WaySteady(at: Range, test: Form, body: Form, lands: Outcome, pauses: bool)
    requires Steady(test, pauses) && Steady(body, pauses)
    ensures var f := Both(test, Either(at, body, Land(lands))); Steady(f, pauses) && !Idle(f)
  {
    assert Land(lands).Land?;
    assert Steady(Either(at, body, Land(lands)), pauses);
  }

  lemma {:induction false} LeaveSteady(deed: Deed, at: Range, lands: Outcome, pauses: bool)
    ensures Steady(Leaving(deed, at, lands), pauses)
  {}

  lemma {:induction false} ControlSteady(src: Source, n: Rust, pauses: bool)
    requires RustAdapter.Control(n.kind) && Quiet(n, pauses)
    ensures Steady(ControlForm(src, n), pauses)
    decreases Weight(n), 4
  {
    var k := n.kind;
    if k.IfExpression? {
      PartSteady(src, n, Condition, pauses);
      PartSteady(src, n, Consequence, pauses);
      PartSteady(src, n, Alternative, pauses);
    } else if k.MatchExpression? {
      PartSteady(src, n, Value, pauses);
      QuietField(n, Body, pauses);
      if ByField(n, Body).Some? {
        QuietNamed(ByField(n, Body).value, pauses);
        QuietArms(Named(ByField(n, Body).value), pauses);
        ArmsSteady(src, ArmsIn(Named(ByField(n, Body).value)), pauses);
      }
    } else if k.ReturnExpression? || k.TryExpression? {
      QuietNamed(n, pauses);
      AllSteady(src, Named(n), pauses);
      LeaveSteady(Return, n.at, Exit, pauses);
      assert Steady(Either(n.at, Pass, Leaving(Return, n.at, Exit)), pauses);
    } else if !Labelled(Named(n)) {
      PartSteady(src, n, Value, pauses);
      PartSteady(src, n, Condition, pauses);
      PartSteady(src, n, Body, pauses);
      WaySteady(n.at, TestMeaning(src, n), Part(src, n, Body), Done, pauses);
      var cycle := Cycle(RoundMeaning(src, n), n.kind.LoopExpression?);
      assert Steady(cycle, pauses) && Steady(InitMeaning(src, n), pauses);
      assert ControlForm(src, n) == Both(InitMeaning(src, n), cycle);
    }
  }

  lemma {:induction false} OperationSteady(src: Source, n: Rust, pauses: bool)
    requires RustAdapter.Operation(n.kind) && Quiet(n, pauses)
    ensures Steady(OperationForm(src, n), pauses)
    decreases Weight(n), 4
  {
    if n.kind.CallExpression? || n.kind.AwaitExpression? {
      QuietNamed(n, pauses);
      AllSteady(src, Named(n), pauses);
    } else {
      PartSteady(src, n, Value, pauses);
      PartSteady(src, n, Left, pauses);
      PartSteady(src, n, Right, pauses);
    }
  }

  lemma {:induction false} PlainSteady(src: Source, n: Rust, pauses: bool)
    requires !RustAdapter.Control(n.kind) && !RustAdapter.Operation(n.kind) && Quiet(n, pauses)
    ensures Steady(PlainForm(src, n), pauses)
    decreases Weight(n), 4
  {
    QuietNamed(n, pauses);
    AllSteady(src, Named(n), pauses);
    PartSteady(src, n, Value, pauses);
    PartSteady(src, n, Function, pauses);
    PartSteady(src, n, Body, pauses);
  }

  // Without a yield the view is right whether or not anything is resumed.
  lemma {:induction false} YieldFreeSame(src: Source, n: Rust)
    requires YieldFree(n)
    ensures Resumed(Meaning(src, n)) == Meaning(src, n)
  {
    RustSteady(src, n, false);
    PauseFreeSame(Meaning(src, n));
  }

  lemma {:induction false} PauseFreeSame(f: Form)
    requires Steady(f, false) || f.Land?
    ensures Resumed(f) == f
  {
    match f
    case Both(first, next) =>
      PauseFreeSame(first);
      PauseFreeSame(next);
    case Either(at, yes, no) =>
      PauseFreeSame(yes);
      PauseFreeSame(no);
    case Tries(at, arm, others) =>
      PauseFreeSame(arm);
      PauseFreeSame(others);
    case Cycle(round, endless) =>
      PauseFreeSame(round);
    case _ =>
  }

  // ---- forms that do nothing ----

  // Every run does something.
  ghost predicate Vocal(p: Runs) {
    forall t, o :: p(t, o) ==> t != []
  }

  ghost predicate Told(p: Runs, idle: bool) {
    if idle then Same(p, Skip()) else Vocal(p)
  }

  lemma {:induction false} ToldSeq(p: Runs, q: Runs, a: bool, b: bool)
    requires Told(p, a) && Told(q, b)
    ensures Told(Seq(p, q), a && b)
  {
    if a {
      SameSeq(p, Skip(), q, q);
      SeqUnit(q);
    }
  }

  lemma {:induction false} VocalLoop(round: Runs, endless: bool)
    requires Vocal(round)
    ensures Vocal(Loop(round, endless))
  {}

  // A form does nothing at all, or something in every run.
  lemma {:induction false} IdleRuns(f: Form)
    requires Steady(f, true)
    ensures Told(Denote(f), Idle(f))
  {
    match f
    case Both(first, next) =>
      IdleRuns(first);
      if next.Land? {
        ToldFirst(Denote(first), Denote(next));
      } else {
        IdleRuns(next);
        ToldSeq(Denote(first), Denote(next), Idle(first), Idle(next));
      }
    case Cycle(round, endless) =>
      IdleRuns(round);
      VocalLoop(Denote(round), endless);
    case _ =>
  }

  lemma {:induction false} ToldFirst(p: Runs, q: Runs)
    requires Vocal(p)
    ensures Vocal(Seq(p, q))
  {}

  // A form that is resumed does nothing exactly when it did nothing before.
  lemma {:induction false} IdleKept(f: Form)
    requires Steady(f, true)
    ensures Idle(Resumed(f)) == Idle(f) && Steady(Resumed(f), true)
  {
    match f
    case Both(first, next) =>
      IdleKept(first);
      if !next.Land? {
        IdleKept(next);
      }
    case Either(at, yes, no) =>
      IdleKept(yes);
      if !no.Land? {
        IdleKept(no);
      }
    case Tries(at, arm, others) =>
      IdleKept(arm);
      IdleKept(others);
    case Cycle(round, endless) =>
      IdleKept(round);
    case _ =>
  }

  // ---- how a form can end ----

  // s has exactly the outcomes that runs of p end with.
  ghost predicate EndsIn(p: Runs, s: set<Outcome>) {
    forall o :: o in s <==> CanEnd(p, o)
  }

  ghost predicate CanEnd(p: Runs, o: Outcome) {
    exists t :: p(t, o)
  }

  function Then(a: set<Outcome>, b: set<Outcome>): set<Outcome> {
    if Normal in a then (a - {Normal}) + b else a
  }

  // After any number of rounds the last one breaks, leaves, or fails its test.
  function Rounded(round: set<Outcome>, endless: bool): set<Outcome> {
    (if Break in round || (!endless && Done in round) then {Normal} else {}) + (if Exit in round then {Exit} else {})
  }

  function Ends(f: Form): set<Outcome> {
    match f
    case Pass => {Normal}
    case Barred => {}
    case Land(lands) => {lands}
    case Does(deed, at) => {Normal}
    case Hides(at, allowed) => allowed
    case Pauses(at) => {Exit, Break, Continue}
    case Both(first, next) => Then(Ends(first), Ends(next))
    case Either(at, yes, no) => Ends(yes) + Ends(no)
    case Tries(at, arm, others) => Ends(arm) - {Reject} + Ends(others)
    case Cycle(round, endless) => Rounded(Ends(round), endless)
    case Resumes(body) => if Continue in Ends(body) then Ends(body) - {Continue} + {Normal} else Ends(body)
  }

  lemma {:induction false} OneEnds()
    ensures EndsIn(Skip(), {Normal}) && EndsIn(Nothing(), {})
    ensures forall e :: EndsIn(Emit(e), {Normal})
    ensures forall o :: EndsIn(Stop(o), {o})
    ensures forall at, allowed :: EndsIn(Veil(at, allowed), allowed)
  {
    assert Skip()([], Normal);
    forall e ensures EndsIn(Emit(e), {Normal}) {
      assert Emit(e)([e], Normal);
    }
    forall o ensures EndsIn(Stop(o), {o}) {
      assert Stop(o)([], o);
    }
    forall at, allowed ensures EndsIn(Veil(at, allowed), allowed) {
      forall o | o in allowed ensures CanEnd(Veil(at, allowed), o) {
        assert Veil(at, allowed)([Hidden(at)], o);
      }
    }
  }

  lemma {:induction false} SeqEnds(p: Runs, q: Runs, a: set<Outcome>, b: set<Outcome>)
    requires EndsIn(p, a) && EndsIn(q, b)
    ensures EndsIn(Seq(p, q), Then(a, b))
  {
    forall o ensures o in Then(a, b) <==> CanEnd(Seq(p, q), o) {
      if CanEnd(p, Normal) && CanEnd(q, o) {
        var t, u :| p(t, Normal) && q(u, o);
        assert Cut(t + u, |t|) && (t + u)[..|t|] == t && (t + u)[|t|..] == u;
        assert Seq(p, q)(t + u, o);
      }
      if o != Normal && CanEnd(p, o) {
        var t :| p(t, o);
        assert Seq(p, q)(t, o);
      }
    }
  }

  lemma {:induction false} ChoiceEnds(at: Range, p: Runs, q: Runs, a: set<Outcome>, b: set<Outcome>)
    requires EndsIn(p, a) && EndsIn(q, b)
    ensures EndsIn(Choice(at, p, q), a + b)
  {
    forall o ensures o in a + b <==> CanEnd(Choice(at, p, q), o) {
      if CanEnd(p, o) {
        var t :| p(t, o);
        assert ([Chose(at, true)] + t)[1..] == t;
        assert Choice(at, p, q)([Chose(at, true)] + t, o);
      }
      if CanEnd(q, o) {
        var t :| q(t, o);
        assert ([Chose(at, false)] + t)[1..] == t;
        assert Choice(at, p, q)([Chose(at, false)] + t, o);
      }
    }
  }

  lemma {:induction false} OrElseEnds(p: Runs, q: Runs, a: set<Outcome>, b: set<Outcome>)
    requires EndsIn(p, a) && EndsIn(q, b)
    ensures EndsIn(OrElse(p, q), if Reject in a then a - {Reject} + b else a)
  {
    forall o ensures o in (if Reject in a then a - {Reject} + b else a) <==> CanEnd(OrElse(p, q), o) {
      if CanEnd(p, Reject) && CanEnd(q, o) {
        var t, u :| p(t, Reject) && q(u, o);
        assert Cut(t + u, |t|) && (t + u)[..|t|] == t && (t + u)[|t|..] == u;
        assert OrElse(p, q)(t + u, o);
      }
      if o != Reject && CanEnd(p, o) {
        var t :| p(t, o);
        assert OrElse(p, q)(t, o);
      }
    }
  }

  lemma {:induction false} LoopEnds(round: Runs, endless: bool, a: set<Outcome>)
    requires EndsIn(round, a)
    ensures EndsIn(Loop(round, endless), Rounded(a, endless))
  {
    forall o ensures o in Rounded(a, endless) <==> CanEnd(Loop(round, endless), o) {
      if o in Rounded(a, endless) {
        var x := if o == Exit then Exit else if Break in a then Break else Done;
        assert CanEnd(round, x);
        var t :| round(t, x);
        OnceRound(round, endless, t, o);
      }
    }
  }

  lemma {:induction false} OnceRound(round: Runs, endless: bool, t: Trace, o: Outcome)
    requires LastRound(round, endless, t, o)
    ensures Loop(round, endless)(t, o)
  {
    var cuts: seq<nat> := [0];
    assert t[0..] == t;
    assert Laps(t, cuts) && GoesAround(round, t, cuts) && LastRound(round, endless, t[cuts[|cuts| - 1]..], o);
  }

  lemma {:induction false} ResumeEnds(p: Runs, a: set<Outcome>)
    requires EndsIn(p, a)
    ensures EndsIn(Resume(p), if Continue in a then a - {Continue} + {Normal} else a)
  {
    forall o ensures o in (if Continue in a then a - {Continue} + {Normal} else a) <==> CanEnd(Resume(p), o) {
      if o == Normal && CanEnd(p, Continue) {
        var t :| p(t, Continue);
        assert Resume(p)(t, Normal);
      }
      if o != Continue && CanEnd(p, o) {
        var t :| p(t, o);
        assert Resume(p)(t, o);
      }
    }
  }

  // The outcomes are computed exactly.
  lemma {:induction false} EndsExact(f: Form)
    ensures EndsIn(Denote(f), Ends(f))
  {
    OneEnds();
    match f
    case Both(first, next) =>
      EndsExact(first);
      EndsExact(next);
      SeqEnds(Denote(first), Denote(next), Ends(first), Ends(next));
    case Either(at, yes, no) =>
      EndsExact(yes);
      EndsExact(no);
      ChoiceEnds(at, Denote(yes), Denote(no), Ends(yes), Ends(no));
    case Tries(at, arm, others) =>
      EndsExact(arm);
      EndsExact(others);
      TriesEnds(at, Denote(arm), Denote(others), Ends(arm), Ends(others));
    case Cycle(round, endless) =>
      EndsExact(round);
      LoopEnds(Denote(round), endless, Ends(round));
    case Resumes(body) =>
      EndsExact(body);
      ResumeEnds(Denote(body), Ends(body));
    case _ =>
  }

  lemma {:induction false} TriesEnds(at: Range, p: Runs, q: Runs, a: set<Outcome>, b: set<Outcome>)
    requires EndsIn(p, a) && EndsIn(q, b)
    ensures EndsIn(Choice(at, OrElse(p, q), q), a - {Reject} + b)
  {
    var e := if Reject in a then a - {Reject} + b else a;
    OrElseEnds(p, q, a, b);
    ChoiceEnds(at, OrElse(p, q), q, e, b);
    assert e + b == a - {Reject} + b;
  }

  // ---- where a run happens ----

  ghost predicate Confined(p: Runs, places: set<Range>) {
    forall t, o :: p(t, o) ==> Inside(t, places)
  }

  ghost predicate Inside(t: Trace, places: set<Range>) {
    forall k | 0 <= k < |t| :: t[k].at in places
  }

  lemma {:induction false} InsideSplit(t: Trace, i: nat, places: set<Range>)
    requires i <= |t| && Inside(t[..i], places) && Inside(t[i..], places)
    ensures Inside(t, places)
  {
    forall k | 0 <= k < |t| ensures t[k].at in places {
      if k < i {
        assert t[..i][k] == t[k];
      } else {
        assert t[i..][k - i] == t[k];
      }
    }
  }

  lemma {:induction false} ConfinedSeq(p: Runs, q: Runs, places: set<Range>)
    requires Confined(p, places) && Confined(q, places)
    ensures Confined(Seq(p, q), places) && Confined(OrElse(p, q), places)
  {
    forall t, o | Seq(p, q)(t, o) ensures Inside(t, places) {
      if !(o != Normal && p(t, o)) {
        var i: nat :| Cut(t, i) && p(t[..i], Normal) && q(t[i..], o);
        InsideSplit(t, i, places);
      }
    }
    forall t, o | OrElse(p, q)(t, o) ensures Inside(t, places) {
      if !(o != Reject && p(t, o)) {
        var i: nat :| Cut(t, i) && p(t[..i], Reject) && q(t[i..], o);
        InsideSplit(t, i, places);
      }
    }
  }

  lemma {:induction false} ConfinedChoice(at: Range, p: Runs, q: Runs, places: set<Range>)
    requires Confined(p, places) && Confined(q, places) && at in places
    ensures Confined(Choice(at, p, q), places)
  {
    forall t, o | Choice(at, p, q)(t, o) ensures Inside(t, places) {
      assert t[..1] == [t[0]];
      InsideSplit(t, 1, places);
    }
  }

  lemma {:induction false} ConfinedLoop(round: Runs, endless: bool, places: set<Range>)
    requires Confined(round, places)
    ensures Confined(Loop(round, endless), places)
  {
    forall t, o | Loop(round, endless)(t, o) ensures Inside(t, places) {
      var cuts :| Laps(t, cuts) && GoesAround(round, t, cuts) && LastRound(round, endless, t[cuts[|cuts| - 1]..], o);
      LapsInside(round, t, cuts, |cuts| - 1, places);
      InsideSplit(t, cuts[|cuts| - 1], places);
    }
  }

  lemma {:induction false} LapsInside(round: Runs, t: Trace, cuts: seq<nat>, n: nat, places: set<Range>)
    requires Confined(round, places) && Laps(t, cuts) && GoesAround(round, t, cuts) && n < |cuts|
    ensures Inside(t[..cuts[n]], places)
  {
    if n > 0 {
      LapsInside(round, t, cuts, n - 1, places);
      var a, b := cuts[n - 1], cuts[n];
      assert t[..b][..a] == t[..a] && t[..b][a..] == t[a..b];
      InsideSplit(t[..b], a, places);
    }
  }

  // The places where anything may happen, and those that are drawn.
  function Places(f: Form, drawn: bool): set<Range> {
    match f
    case Does(deed, at) => {at}
    case Hides(at, allowed) => {at}
    case Pauses(at) => {at}
    case Both(first, next) => Places(first, drawn) + if drawn && !Goes(first) then {} else Places(next, drawn)
    case Either(at, yes, no) => {at} + Places(yes, drawn) + Places(no, drawn)
    case Tries(at, arm, others) => {at} + Places(arm, drawn) + Places(others, drawn)
    case Cycle(round, endless) => Places(round, drawn)
    case Resumes(body) => Places(body, drawn)
    case _ => {}
  }

  lemma {:induction false} ConfinedMore(p: Runs, few: set<Range>, places: set<Range>)
    requires Confined(p, few) && few <= places
    ensures Confined(p, places)
  {}

  lemma {:induction false} ResumedPlaces(f: Form)
    ensures Confined(Denote(Resumed(f)), Places(f, false))
  {
    var s := Places(f, false);
    match f
    case Both(first, next) =>
      ResumedPlaces(first);
      ResumedPlaces(next);
      ConfinedMore(Denote(Resumed(first)), Places(first, false), s);
      ConfinedMore(Denote(Resumed(next)), Places(next, false), s);
      ConfinedSeq(Denote(Resumed(first)), Denote(Resumed(next)), s);
    case Either(at, yes, no) =>
      ResumedPlaces(yes);
      ResumedPlaces(no);
      ConfinedMore(Denote(Resumed(yes)), Places(yes, false), s);
      ConfinedMore(Denote(Resumed(no)), Places(no, false), s);
      ConfinedChoice(at, Denote(Resumed(yes)), Denote(Resumed(no)), s);
    case Tries(at, arm, others) =>
      ResumedPlaces(arm);
      ResumedPlaces(others);
      ConfinedMore(Denote(Resumed(arm)), Places(arm, false), s);
      ConfinedMore(Denote(Resumed(others)), Places(others, false), s);
      ConfinedSeq(Denote(Resumed(arm)), Denote(Resumed(others)), s);
      ConfinedChoice(at, OrElse(Denote(Resumed(arm)), Denote(Resumed(others))), Denote(Resumed(others)), s);
    case Cycle(round, endless) =>
      ResumedPlaces(round);
      ConfinedLoop(Denote(Resumed(round)), endless, s);
    case Resumes(body) =>
      ResumedPlaces(body);
    case _ =>
  }

  lemma {:induction false} DrawnPlaces(f: Form)
    ensures Confined(Drawing(f), Places(f, true))
  {
    var s := Places(f, true);
    match f
    case Both(first, next) =>
      DrawnPlaces(first);
      DrawnPlaces(next);
      ConfinedMore(Drawing(first), Places(first, true), s);
      if Goes(first) {
        ConfinedMore(Drawing(next), Places(next, true), s);
        ConfinedSeq(Drawing(first), Drawing(next), s);
      }
    case Either(at, yes, no) =>
      DrawnPlaces(yes);
      DrawnPlaces(no);
      ConfinedMore(Drawing(yes), Places(yes, true), s);
      ConfinedMore(Drawing(no), Places(no, true), s);
      ConfinedChoice(at, Drawing(yes), Drawing(no), s);
    case Tries(at, arm, others) =>
      DrawnPlaces(arm);
      DrawnPlaces(others);
      ConfinedMore(Drawing(arm), Places(arm, true), s);
      ConfinedMore(Drawing(others), Places(others, true), s);
      ConfinedSeq(Drawing(arm), Drawing(others), s);
      ConfinedChoice(at, OrElse(Drawing(arm), Drawing(others)), Drawing(others), s);
    case Cycle(round, endless) =>
      DrawnPlaces(round);
      ConfinedLoop(Drawing(round), endless, s);
    case Resumes(body) =>
      DrawnPlaces(body);
    case _ =>
  }

  // ---- what a view loses ----

  // How the runs that a view misses can end when the coroutine is resumed. A part that is
  // drawn as going nowhere, but may end normally when it is resumed, loses what follows it,
  // unless that does nothing. What is lost in a part is lost in every run through it.
  function Lost(f: Form): set<Outcome> {
    match f
    case Both(first, next) =>
      var ends := Ends(Resumed(next));
      var dropped := if Goes(first) then Lost(next) else if Idle(next) then {} else ends;
      (Lost(first) - {Normal})
      + (if Normal in Lost(first) then ends else {})
      + (if Normal in Ends(Resumed(first)) then dropped else {})
    case Either(at, yes, no) => Lost(yes) + Lost(no)
    case Tries(at, arm, others) =>
      (Lost(arm) - {Reject}) + (if Reject in Lost(arm) then Ends(Resumed(others)) else {}) + Lost(others)
    case Cycle(round, endless) =>
      Rounded(Lost(round), endless)
      + (if Normal in Lost(round) || Continue in Lost(round) then Rounded(Ends(Resumed(round)), endless) else {})
    case _ => {}
  }

  // The places that are not drawn at all.
  function Missing(f: Form): set<Range> {
    match f
    case Both(first, next) => Missing(first) + if Goes(first) then Missing(next) else Places(next, false)
    case Either(at, yes, no) => Missing(yes) + Missing(no)
    case Tries(at, arm, others) => Missing(arm) + Missing(others)
    case Cycle(round, endless) => Missing(round)
    case _ => {}
  }

  // Every run of p that q lacks ends with one of these outcomes.
  ghost predicate LacksOnly(p: Runs, q: Runs, lost: set<Outcome>) {
    forall t, o :: p(t, o) && !q(t, o) ==> o in lost
  }

  lemma {:induction false} LacksSeq(p: Runs, p': Runs, q: Runs, q': Runs, a: set<Outcome>, b: set<Outcome>,
                                    ends: set<Outcome>, lost: set<Outcome>)
    requires LacksOnly(p, p', a) && LacksOnly(q, q', b) && EndsIn(q, ends)
    requires a - {Normal} <= lost && (Normal in a ==> ends <= lost) && (CanEnd(p, Normal) ==> b <= lost)
    ensures LacksOnly(Seq(p, q), Seq(p', q'), lost)
  {
    forall t, o | Seq(p, q)(t, o) && !Seq(p', q')(t, o) ensures o in lost {
      if o != Normal && p(t, o) {
        assert !p'(t, o);
      } else {
        var i: nat :| Cut(t, i) && p(t[..i], Normal) && q(t[i..], o);
        assert CanEnd(p, Normal) && CanEnd(q, o);
        assert !p'(t[..i], Normal) || !q'(t[i..], o);
      }
    }
  }

  // The second part is dropped.
  lemma {:induction false} LacksDropped(p: Runs, p': Runs, q: Runs, idle: bool, a: set<Outcome>, ends: set<Outcome>, lost: set<Outcome>)
    requires LacksOnly(p, p', a) && EndsIn(q, ends) && (idle ==> Same(q, Skip()))
    requires a - {Normal} <= lost && (Normal in a ==> ends <= lost) && (CanEnd(p, Normal) && !idle ==> ends <= lost)
    ensures LacksOnly(Seq(p, q), p', lost)
  {
    forall t, o | Seq(p, q)(t, o) && !p'(t, o) ensures o in lost {
      if !(o != Normal && p(t, o)) {
        var i: nat :| Cut(t, i) && p(t[..i], Normal) && q(t[i..], o);
        assert CanEnd(p, Normal) && CanEnd(q, o);
        if idle {
          assert t[i..] == [] && t[..i] == t;
        }
      }
    }
  }

  lemma {:induction false} LacksOrElse(p: Runs, p': Runs, q: Runs, q': Runs, a: set<Outcome>, b: set<Outcome>,
                                       ends: set<Outcome>, lost: set<Outcome>)
    requires LacksOnly(p, p', a) && LacksOnly(q, q', b) && EndsIn(q, ends)
    requires a - {Reject} <= lost && (Reject in a ==> ends <= lost) && b <= lost
    ensures LacksOnly(OrElse(p, q), OrElse(p', q'), lost)
  {
    forall t, o | OrElse(p, q)(t, o) && !OrElse(p', q')(t, o) ensures o in lost {
      if o != Reject && p(t, o) {
        assert !p'(t, o);
      } else {
        var i: nat :| Cut(t, i) && p(t[..i], Reject) && q(t[i..], o);
        assert CanEnd(q, o);
        assert !p'(t[..i], Reject) || !q'(t[i..], o);
      }
    }
  }

  lemma {:induction false} LacksChoice(at: Range, p: Runs, p': Runs, q: Runs, q': Runs, lost: set<Outcome>)
    requires LacksOnly(p, p', lost) && LacksOnly(q, q', lost)
    ensures LacksOnly(Choice(at, p, q), Choice(at, p', q'), lost)
  {}

  lemma {:induction false} LacksMore(p: Runs, q: Runs, few: set<Outcome>, lost: set<Outcome>)
    requires LacksOnly(p, q, few) && few <= lost
    ensures LacksOnly(p, q, lost)
  {}

  lemma {:induction false} LacksLoop(p: Runs, q: Runs, endless: bool, a: set<Outcome>, ends: set<Outcome>, lost: set<Outcome>)
    requires LacksOnly(p, q, a) && EndsIn(p, ends) && Rounded(a, endless) <= lost
    requires Normal in a || Continue in a ==> Rounded(ends, endless) <= lost
    ensures LacksOnly(Loop(p, endless), Loop(q, endless), lost)
  {
    forall t, o | Loop(p, endless)(t, o) && !Loop(q, endless)(t, o) ensures o in lost {
      var cuts :| Laps(t, cuts) && GoesAround(p, t, cuts) && LastRound(p, endless, t[cuts[|cuts| - 1]..], o);
      LastEnds(p, endless, t[cuts[|cuts| - 1]..], o, ends);
      if Normal !in a && Continue !in a {
        assert GoesAround(q, t, cuts);
        LastLacks(p, q, endless, t[cuts[|cuts| - 1]..], o, a);
      }
    }
  }

  lemma {:induction false} LastEnds(p: Runs, endless: bool, t: Trace, o: Outcome, ends: set<Outcome>)
    requires EndsIn(p, ends) && LastRound(p, endless, t, o)
    ensures o in Rounded(ends, endless)
  {
    assert p(t, Break) ==> CanEnd(p, Break);
    assert p(t, Done) ==> CanEnd(p, Done);
    assert p(t, Exit) ==> CanEnd(p, Exit);
  }

  lemma {:induction false} LastLacks(p: Runs, q: Runs, endless: bool, t: Trace, o: Outcome, a: set<Outcome>)
    requires LacksOnly(p, q, a) && LastRound(p, endless, t, o) && !LastRound(q, endless, t, o)
    ensures o in Rounded(a, endless)
  {}

  // Nothing else is lost.
  lemma {:induction false} LostOnly(f: Form)
    requires Steady(f, true) || f.Land?
    ensures LacksOnly(Denote(Resumed(f)), Drawing(f), Lost(f))
  {
    match f
    case Both(first, next) =>
      LostOnly(first);
      LostOnly(next);
      LostBoth(first, next);
    case Either(at, yes, no) =>
      LostOnly(yes);
      LostOnly(no);
      LacksMore(Denote(Resumed(yes)), Drawing(yes), Lost(yes), Lost(f));
      LacksMore(Denote(Resumed(no)), Drawing(no), Lost(no), Lost(f));
      LacksChoice(at, Denote(Resumed(yes)), Drawing(yes), Denote(Resumed(no)), Drawing(no), Lost(f));
    case Tries(at, arm, others) =>
      LostOnly(arm);
      LostOnly(others);
      LostTries(at, arm, others);
    case Cycle(round, endless) =>
      LostOnly(round);
      EndsExact(Resumed(round));
      LacksLoop(Denote(Resumed(round)), Drawing(round), endless, Lost(round), Ends(Resumed(round)), Lost(f));
    case _ =>
  }

  lemma {:induction false} LostBoth(first: Form, next: Form)
    requires Steady(Both(first, next), true)
    requires LacksOnly(Denote(Resumed(first)), Drawing(first), Lost(first))
    requires LacksOnly(Denote(Resumed(next)), Drawing(next), Lost(next))
    ensures LacksOnly(Denote(Resumed(Both(first, next))), Drawing(Both(first, next)), Lost(Both(first, next)))
  {
    var f := Both(first, next);
    EndsExact(Resumed(first));
    EndsExact(Resumed(next));
    var p, q, ends := Denote(Resumed(first)), Denote(Resumed(next)), Ends(Resumed(next));
    assert CanEnd(p, Normal) <==> Normal in Ends(Resumed(first));
    if Goes(first) {
      LacksSeq(p, Drawing(first), q, Drawing(next), Lost(first), Lost(next), ends, Lost(f));
    } else {
      IdleKept(next);
      IdleRuns(Resumed(next));
      LacksDropped(p, Drawing(first), q, Idle(next), Lost(first), ends, Lost(f));
    }
  }

  lemma {:induction false} LostTries(at: Range, arm: Form, others: Form)
    requires LacksOnly(Denote(Resumed(arm)), Drawing(arm), Lost(arm))
    requires LacksOnly(Denote(Resumed(others)), Drawing(others), Lost(others))
    ensures var f := Tries(at, arm, others); LacksOnly(Denote(Resumed(f)), Drawing(f), Lost(f))
  {
    var lost := Lost(Tries(at, arm, others));
    EndsExact(Resumed(others));
    var p, p', q, q' := Denote(Resumed(arm)), Drawing(arm), Denote(Resumed(others)), Drawing(others);
    LacksOrElse(p, p', q, q', Lost(arm), Lost(others), Ends(Resumed(others)), lost);
    LacksMore(q, q', Lost(others), lost);
    LacksChoice(at, OrElse(p, q), OrElse(p', q'), q, q', lost);
  }

  // p has a run that ends with o and goes through one of these places.
  ghost predicate Strays(p: Runs, o: Outcome, places: set<Range>) {
    exists t :: p(t, o) && Visits(t, places)
  }

  ghost predicate Visits(t: Trace, places: set<Range>) {
    exists k | 0 <= k < |t| :: t[k].at in places
  }

  lemma {:induction false} VisitsConcat(t: Trace, u: Trace, places: set<Range>)
    requires Visits(t, places) || Visits(u, places)
    ensures Visits(t + u, places)
  {
    if Visits(t, places) {
      var k :| 0 <= k < |t| && t[k].at in places;
      assert (t + u)[k] == t[k];
    } else {
      var k :| 0 <= k < |u| && u[k].at in places;
      assert (t + u)[|t| + k] == u[k];
    }
  }

  lemma {:induction false} StraysMore(p: Runs, o: Outcome, few: set<Range>, places: set<Range>)
    requires Strays(p, o, few) && few <= places
    ensures Strays(p, o, places)
  {
    var t :| p(t, o) && Visits(t, few);
    assert Visits(t, places);
  }

  // In sequence, and for the arms of a match.
  lemma {:induction false} StraysSeq(p: Runs, q: Runs, o: Outcome, places: set<Range>)
    requires (Strays(p, Normal, places) && CanEnd(q, o)) || (CanEnd(p, Normal) && Strays(q, o, places))
    ensures Strays(Seq(p, q), o, places)
  {
    var t, u :| p(t, Normal) && q(u, o) && (Visits(t, places) || Visits(u, places));
    VisitsConcat(t, u, places);
    assert Cut(t + u, |t|) && (t + u)[..|t|] == t && (t + u)[|t|..] == u;
    assert Seq(p, q)(t + u, o);
  }

  lemma {:induction false} StraysFirst(p: Runs, q: Runs, o: Outcome, places: set<Range>)
    requires o != Normal && Strays(p, o, places)
    ensures Strays(Seq(p, q), o, places)
  {
    var t :| p(t, o) && Visits(t, places);
    assert Seq(p, q)(t, o);
  }

  lemma {:induction false} StraysOrElse(p: Runs, q: Runs, o: Outcome, places: set<Range>)
    requires (o != Reject && Strays(p, o, places)) || (Strays(p, Reject, places) && CanEnd(q, o))
    ensures Strays(OrElse(p, q), o, places)
  {
    if o != Reject && Strays(p, o, places) {
      var t :| p(t, o) && Visits(t, places);
      assert OrElse(p, q)(t, o);
    } else {
      var t, u :| p(t, Reject) && q(u, o) && Visits(t, places);
      VisitsConcat(t, u, places);
      assert Cut(t + u, |t|) && (t + u)[..|t|] == t && (t + u)[|t|..] == u;
      assert OrElse(p, q)(t + u, o);
    }
  }

  lemma {:induction false} StraysChoice(at: Range, p: Runs, q: Runs, o: Outcome, places: set<Range>)
    requires Strays(p, o, places) || Strays(q, o, places)
    ensures Strays(Choice(at, p, q), o, places)
  {
    var yes := Strays(p, o, places);
    var t :| (if yes then p(t, o) else q(t, o)) && Visits(t, places);
    VisitsConcat([Chose(at, yes)], t, places);
    assert ([Chose(at, yes)] + t)[1..] == t;
    assert Choice(at, p, q)([Chose(at, yes)] + t, o);
  }

  // What the rounds of a loop miss shows in its last round, or in one before it.
  lemma {:induction false} StraysLast(p: Runs, endless: bool, x: Outcome, o: Outcome, places: set<Range>)
    requires Strays(p, x, places)
    requires (x == Exit && o == Exit) || (o == Normal && (x == Break || (x == Done && !endless)))
    ensures Strays(Loop(p, endless), o, places)
  {
    var t :| p(t, x) && Visits(t, places);
    OnceRound(p, endless, t, o);
  }

  lemma {:induction false} StraysBefore(p: Runs, endless: bool, x: Outcome, o: Outcome, u: Trace, places: set<Range>)
    requires Strays(p, x, places) && (x == Normal || x == Continue) && LastRound(p, endless, u, o)
    ensures Strays(Loop(p, endless), o, places)
  {
    var t :| p(t, x) && Visits(t, places);
    VisitsConcat(t, u, places);
    var cuts: seq<nat> := [0, |t|];
    var run := t + u;
    assert run[0..|t|] == t && run[|t|..] == u;
    assert Laps(run, cuts) && GoesAround(p, run, cuts) && LastRound(p, endless, run[cuts[|cuts| - 1]..], o);
    assert Loop(p, endless)(run, o);
  }

  lemma {:induction false} LastRun(p: Runs, endless: bool, ends: set<Outcome>, o: Outcome) returns (u: Trace)
    requires EndsIn(p, ends) && o in Rounded(ends, endless)
    ensures LastRound(p, endless, u, o)
  {
    var x := if o == Exit then Exit else if Break in ends then Break else Done;
    assert CanEnd(p, x);
    u :| p(u, x);
  }

  // Each of these is lost, by a run through a place that is not drawn.
  lemma {:induction false} LostStrays(f: Form, o: Outcome)
    requires Steady(f, true) && o in Lost(f)
    ensures Strays(Denote(Resumed(f)), o, Missing(f))
    decreases f, 1
  {
    match f
    case Both(first, next) =>
      BothStrays(first, next, o);
    case Either(at, yes, no) =>
      if o in Lost(yes) {
        LostStrays(yes, o);
        StraysMore(Denote(Resumed(yes)), o, Missing(yes), Missing(f));
      } else {
        LostStrays(no, o);
        StraysMore(Denote(Resumed(no)), o, Missing(no), Missing(f));
      }
      StraysChoice(at, Denote(Resumed(yes)), Denote(Resumed(no)), o, Missing(f));
    case Tries(at, arm, others) =>
      TriesStrays(at, arm, others, o);
    case Cycle(round, endless) =>
      CycleStrays(round, endless, o);
  }

  lemma {:induction false} BothStrays(first: Form, next: Form, o: Outcome)
    requires Steady(Both(first, next), true) && o in Lost(Both(first, next))
    ensures Strays(Denote(Resumed(Both(first, next))), o, Missing(Both(first, next)))
    decreases Both(first, next), 0
  {
    var p, q, missing := Denote(Resumed(first)), Denote(Resumed(next)), Missing(Both(first, next));
    EndsExact(Resumed(first));
    EndsExact(Resumed(next));
    if o != Normal && o in Lost(first) {
      LostStrays(first, o);
      StraysMore(p, o, Missing(first), missing);
      StraysFirst(p, q, o, missing);
    } else if Normal in Lost(first) && o in Ends(Resumed(next)) {
      LostStrays(first, Normal);
      StraysMore(p, Normal, Missing(first), missing);
      StraysSeq(p, q, o, missing);
    } else if Goes(first) {
      LostStrays(next, o);
      StraysMore(q, o, Missing(next), missing);
      StraysSeq(p, q, o, missing);
    } else {
      DroppedStrays(next, o);
      StraysMore(q, o, Places(next, false), missing);
      StraysSeq(p, q, o, missing);
    }
  }

  lemma {:induction false} DroppedStrays(f: Form, o: Outcome)
    requires Steady(f, true) && !Idle(f) && o in Ends(Resumed(f))
    ensures Strays(Denote(Resumed(f)), o, Places(f, false))
  {
    IdleKept(f);
    IdleRuns(Resumed(f));
    EndsExact(Resumed(f));
    ResumedPlaces(f);
    assert CanEnd(Denote(Resumed(f)), o);
    var t: Trace :| Denote(Resumed(f))(t, o);
    assert t[0].at in Places(f, false);
    assert Visits(t, Places(f, false));
  }

  lemma {:induction false} TriesStrays(at: Range, arm: Form, others: Form, o: Outcome)
    requires Steady(Tries(at, arm, others), true) && o in Lost(Tries(at, arm, others))
    ensures Strays(Denote(Resumed(Tries(at, arm, others))), o, Missing(Tries(at, arm, others)))
    decreases Tries(at, arm, others), 0
  {
    var p, q, missing := Denote(Resumed(arm)), Denote(Resumed(others)), Missing(Tries(at, arm, others));
    EndsExact(Resumed(others));
    if o in Lost(others) {
      LostStrays(others, o);
      StraysMore(q, o, Missing(others), missing);
    } else {
      var x := if o != Reject && o in Lost(arm) then o else Reject;
      LostStrays(arm, x);
      StraysMore(p, x, Missing(arm), missing);
      StraysOrElse(p, q, o, missing);
    }
    StraysChoice(at, OrElse(p, q), q, o, missing);
  }

  lemma {:induction false} CycleStrays(round: Form, endless: bool, o: Outcome)
    requires Steady(Cycle(round, endless), true) && o in Lost(Cycle(round, endless))
    ensures Strays(Denote(Resumed(Cycle(round, endless))), o, Missing(Cycle(round, endless)))
    decreases Cycle(round, endless), 0
  {
    var p := Denote(Resumed(round));
    EndsExact(Resumed(round));
    if o in Rounded(Lost(round), endless) {
      var x := if o == Exit then Exit else if Break in Lost(round) then Break else Done;
      LostStrays(round, x);
      StraysLast(p, endless, x, o, Missing(round));
    } else {
      var x := if Normal in Lost(round) then Normal else Continue;
      LostStrays(round, x);
      var u := LastRun(p, endless, Ends(Resumed(round)), o);
      StraysBefore(p, endless, x, o, u, Missing(round));
    }
  }

  // No place is drawn in one part and dropped in another.
  predicate Apart(f: Form) {
    Places(f, true) !! Missing(f)
  }

  // A view that was not cut is right about the resumed coroutine when nothing is lost. When
  // something is, a run of the coroutine is missing from the view.
  lemma {:induction false} ResumedShown(steps: seq<Step>, f: Form)
    requires Steady(f, true) && Shows(Reading(steps), Denote(f)) && Same(Reading(steps), Drawing(f))
    ensures Lost(f) == {} ==> Shows(Reading(steps), Denote(Resumed(f)))
    ensures Lost(f) != {} && Apart(f) ==> !Shows(Reading(steps), Denote(Resumed(f)))
  {
    ResumedMore(f);
    LostOnly(f);
    if Lost(f) != {} && Apart(f) {
      var o :| o in Lost(f);
      LostStrays(f, o);
      DrawnPlaces(f);
      var t: Trace :| Denote(Resumed(f))(t, o) && Visits(t, Missing(f));
      assert !Drawing(f)(t, o);
    }
  }

  // Right after a yield the condition needs no places: dropping what follows is right
  // exactly when that does nothing, or never comes to an end.
  lemma {:induction false} YieldSuffix(at: Range, rest: Form)
    requires Steady(rest, true)
    ensures var f := Both(Pauses(at), rest);
            Shows(Drawing(f), Denote(Resumed(f))) <==> Idle(rest) || Ends(Resumed(rest)) == {}
  {
    IdleKept(rest);
    IdleRuns(Resumed(rest));
    EndsExact(Resumed(rest));
    VeilThen(at, Denote(Resumed(rest)), Idle(rest), Ends(Resumed(rest)));
    assert Denote(Hides(at, ANY_OUTCOME)) == Veil(at, ANY_OUTCOME);
  }

  lemma {:induction false} VeilThen(at: Range, q: Runs, idle: bool, ends: set<Outcome>)
    requires Told(q, idle) && EndsIn(q, ends)
    ensures Shows(Veil(at, ANY_OUTCOME), Seq(Veil(at, ANY_OUTCOME), q)) <==> idle || ends == {}
  {
    var drawn, resumed := Veil(at, ANY_OUTCOME), Seq(Veil(at, ANY_OUTCOME), q);
    forall t: Trace, o | drawn(t, o) ensures !Plain(t) {
      assert t[0].Hidden?;
    }
    if idle || ends == {} {
      forall t, o | resumed(t, o) ensures drawn(t, o) {
        if !(o != Normal && drawn(t, o)) {
          var i: nat :| Cut(t, i) && drawn(t[..i], Normal) && q(t[i..], o);
          assert CanEnd(q, o) && t == t[..i] + t[i..];
        }
      }
    } else {
      var o :| o in ends;
      assert CanEnd(q, o);
      var t: Trace :| q(t, o);
      var run := [Hidden(at)] + t;
      assert Cut(run, 1) && run[..1] == [Hidden(at)] && run[1..] == t;
      assert resumed(run, o) && !drawn(run, o);
    }
  }

  // ---- a block that yields and then writes ----

  const YIELD: Rust := Node(YieldExpression, Range(3, 8), false, [])
  const YIELD_STATEMENT: Rust := Node(Sequenced, Range(3, 9), false, [Child(None, true, YIELD)])
  const YIELD_BLOCK: Rust := Node(RustAdapter.Kind.Block, Range(1, 11), false, [Child(None, true, YIELD_STATEMENT)])
  const PLACE: Rust := Node(RustAdapter.Kind.Atom, Range(12, 13), false, [])
  const VALUE: Rust := Node(RustAdapter.Kind.Atom, Range(16, 17), false, [])
  const WRITE: Rust :=
    Node(AssignmentExpression, Range(12, 17), false, [Child(Some(Left), true, PLACE), Child(Some(Right), true, VALUE)])
  const WRITE_STATEMENT: Rust := Node(Sequenced, Range(12, 18), false, [Child(None, true, WRITE)])

  // The yield is a statement of the block, or of a block in it.
  function YieldThenWrite(inner: bool): Rust {
    var first := if inner then YIELD_BLOCK else YIELD_STATEMENT;
    Node(RustAdapter.Kind.Block, Range(0, 20), false, [Child(None, true, first), Child(None, true, WRITE_STATEMENT)])
  }

  // A view of it that was not cut misses the write of a resumed coroutine.
  lemma {:induction false} YieldDropsWrite(src: Source, inner: bool, steps: seq<Step>)
    requires var f := Meaning(src, YieldThenWrite(inner)); Shows(Reading(steps), Denote(f)) && Same(Reading(steps), Drawing(f))
    ensures !Shows(Reading(steps), Denote(Resumed(Meaning(src, YieldThenWrite(inner)))))
  {
    var n := YieldThenWrite(inner);
    var first := if inner then YIELD_BLOCK else YIELD_STATEMENT;
    var y, w := Meaning(src, first), Meaning(src, WRITE_STATEMENT);
    FirstForm(src, inner);
    WriteForm(src);
    assert !HasError(first) && !HasError(WRITE_STATEMENT);
    TwoForm(src, n, first, WRITE_STATEMENT);
    NextLost(y, w);
    RustSteady(src, n, true);
    ResumedShown(steps, Meaning(src, n));
  }

  lemma {:induction false} NextLost(y: Form, w: Form)
    requires !Goes(y) && Normal in Ends(Resumed(y)) && Missing(y) == {} && Places(y, true) == {YIELD.at}
    requires !Idle(w) && Ends(Resumed(w)) == {Normal} && Places(w, false) == {WRITE.at}
    ensures var f := Both(y, Both(w, Pass)); Normal in Lost(f) && Apart(f)
  {
    PassAfter(w);
  }

  // Nothing after a form changes nothing about it.
  lemma {:induction false} PassAfter(f: Form)
    ensures var g := Both(f, Pass);
            && Goes(g) == Goes(f) && Idle(g) == Idle(f) && Ends(Resumed(g)) == Ends(Resumed(f))
            && Missing(g) == Missing(f) && forall drawn :: Places(g, drawn) == Places(f, drawn)
  {
    assert Resumed(Both(f, Pass)) == Both(Resumed(f), Pass) && Ends(Pass) == {Normal};
    assert Then(Ends(Resumed(f)), {Normal}) == Ends(Resumed(f));
    assert Missing(Pass) == {} && Places(Pass, true) == {} && Places(Pass, false) == {};
  }

  lemma {:induction false} FirstForm(src: Source, inner: bool)
    ensures var first := if inner then YIELD_BLOCK else YIELD_STATEMENT;
            var y := Meaning(src, first);
            && !HasError(first) && !Goes(y) && Normal in Ends(Resumed(y)) && Missing(y) == {} && Places(y, true) == {YIELD.at}
  {
    var y := Pauses(YIELD.at);
    assert !HasError(YIELD) && Meaning(src, YIELD) == y;
    assert Resumed(y) == Hides(YIELD.at, ANY_OUTCOME) && Ends(Resumed(y)) == ANY_OUTCOME;
    OneForm(src, YIELD_STATEMENT, YIELD);
    PassAfter(y);
    if inner {
      OneForm(src, YIELD_BLOCK, YIELD_STATEMENT);
      PassAfter(Both(y, Pass));
    }
  }

  lemma {:induction false} WriteForm(src: Source)
    ensures var w := Meaning(src, WRITE_STATEMENT);
            && !HasError(WRITE_STATEMENT) && !Idle(w)
            && Ends(Resumed(w)) == {Normal} && Places(w, false) == {WRITE.at}
  {
    WriteMeaning(src);
    OneForm(src, WRITE_STATEMENT, WRITE);
    var sides, write := Both(Pass, Pass), Does(Effect, WRITE.at);
    PassAfter(Pass);
    assert Resumed(Both(sides, write)) == Both(Resumed(sides), write) && Ends(write) == {Normal};
    assert !Idle(write) && Places(write, false) == {WRITE.at};
    PassAfter(Both(sides, write));
  }

  lemma {:induction false} WriteMeaning(src: Source)
    ensures !HasError(WRITE) && Meaning(src, WRITE) == Both(Both(Pass, Pass), Does(Effect, WRITE.at))
  {
    assert !HasError(PLACE) && !HasError(VALUE);
    assert Meaning(src, PLACE) == Pass && Meaning(src, VALUE) == Pass;
    AssignmentForm(src, WRITE, PLACE, VALUE);
  }

  lemma {:induction false} AssignmentForm(src: Source, n: Rust, left: Rust, right: Rust)
    requires n.kind.AssignmentExpression? && !n.error && !HasError(left) && !HasError(right)
    requires n.children == [Child(Some(Left), true, left), Child(Some(Right), true, right)]
    ensures !HasError(n) && Meaning(src, n) == Both(Both(Meaning(src, right), Meaning(src, left)), Does(Effect, n.at))
  {
    var cs := n.children;
    assert ErrorIn(cs[0]) == HasError(left) && ErrorIn(cs[1]) == HasError(right);
    assert FirstWith(cs[1..], Right) == Some(right);
    assert ByField(n, Left) == Some(left) && ByField(n, Right) == Some(right);
    assert Part(src, n, Left) == Meaning(src, left) && Part(src, n, Right) == Meaning(src, right);
  }

  lemma {:induction false} OneForm(src: Source, n: Rust, a: Rust)
    requires n.children == [Child(None, true, a)] && !n.error && !HasError(a) && (n.kind.Sequenced? || (n.kind.Block? && !a.kind.Label?))
    ensures !HasError(n) && Meaning(src, n) == Both(Meaning(src, a), Pass)
  {
    assert ErrorIn(n.children[0]) == HasError(a);
    assert n.children[1..] == [];
    assert Named(n) == [a] && [a][1..] == [];
    AllStep(src, [a]);
    assert All(src, []) == Pass;
  }

  lemma {:induction false} TwoForm(src: Source, n: Rust, a: Rust, c: Rust)
    requires n.children == [Child(None, true, a), Child(None, true, c)] && !n.error && !HasError(a) && !HasError(c)
    requires n.kind.Block? && !a.kind.Label? && !c.kind.Label?
    ensures !HasError(n) && Meaning(src, n) == Both(Meaning(src, a), Both(Meaning(src, c), Pass))
  {
    assert ErrorIn(n.children[0]) == HasError(a) && ErrorIn(n.children[1]) == HasError(c);
    assert n.children[1..] == [Child(None, true, c)] && n.children[1..][1..] == [];
    assert NamedOf(n.children[1..]) == [c] + NamedOf(n.children[1..][1..]) == [c];
    assert Named(n) == [a, c] && [a, c][1..] == [c] && [c][1..] == [];
    AllStep(src, [a, c]);
    AllStep(src, [c]);
    assert All(src, []) == Pass;
  }
}
