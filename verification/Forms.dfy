// The forms an evaluation is made of. An adapter says what a syntax node does by a form.
// A form has the runs it denotes, and it says everything that an uncut view of it draws.
module Forms {
  import opened Behaviour
  import opened Diagram

  //   Barred   no way at all, which is what is left when no arm of a match takes a value
  //   Land     a transfer without an event of its own
  //   Pauses   a yield: it leaves, unless it is resumed
  //   Tries    an arm of a match, and the arms after it
  //   Resumes  the body of a loop: a continue in it lands right after it
  datatype Form =
    | Pass
    | Barred
    | Land(lands: Outcome)
    | Does(deed: Deed, at: Range)
    | Hides(at: Range, allowed: set<Outcome>)
    | Pauses(at: Range)
    | Both(first: Form, next: Form)
    | Either(at: Range, yes: Form, no: Form)
    | Tries(at: Range, arm: Form, others: Form)
    | Cycle(round: Form, endless: bool)
    | Resumes(body: Form)

  function Leaving(deed: Deed, at: Range, lands: Outcome): Form {
    Both(Does(deed, at), Land(lands))
  }

  // One round: the test, then the body or the way out.
  function Round(at: Range, test: Form, body: Form): Form {
    Both(test, Either(at, body, Land(Done)))
  }

  // An arm whose guard may be false.
  function Guarding(at: Range, guard: Form, body: Form): Form {
    Both(guard, Either(at, body, Land(Reject)))
  }

  // Forms in the order of their evaluation.
  function Fold(fs: seq<Form>): Form {
    if fs == [] then Pass else Both(fs[0], Fold(fs[1..]))
  }

  ghost function Denote(f: Form): Runs {
    match f
    case Pass => Skip()
    case Barred => Nothing()
    case Land(lands) => Stop(lands)
    case Does(deed, at) => Emit(Did(deed, at))
    case Hides(at, allowed) => Veil(at, allowed)
    case Pauses(at) => Veil(at, {Exit, Break, Continue})
    case Both(first, next) => Seq(Denote(first), Denote(next))
    case Either(at, yes, no) => Choice(at, Denote(yes), Denote(no))
    case Tries(at, arm, others) => Choice(at, OrElse(Denote(arm), Denote(others)), Denote(others))
    case Cycle(round, endless) => Loop(Denote(round), endless)
    case Resumes(body) => Resume(Denote(body))
  }

  // ---- what an uncut view draws ----

  // Whether the drawn path goes on. Only a loop without a test that neither ends a round
  // nor hides anything is drawn as going nowhere.
  predicate Goes(f: Form) {
    match f
    case Pass => true
    case Barred => false
    case Land(lands) => false
    case Does(deed, at) => true
    case Hides(at, allowed) => Normal in allowed
    case Pauses(at) => false
    case Both(first, next) => Goes(first) && Goes(next)
    case Either(at, yes, no) => Goes(yes) || Goes(no)
    case Tries(at, arm, others) => Goes(arm) || Goes(others)
    case Cycle(round, endless) => !endless || Goes(round) || Veils(round)
    case Resumes(body) => Goes(body)
  }

  // Whether something is drawn that may transfer control out of sight.
  predicate Veils(f: Form) {
    match f
    case Pass => false
    case Barred => false
    case Land(lands) => false
    case Does(deed, at) => deed.Leave?
    case Hides(at, allowed) => true
    case Pauses(at) => true
    case Both(first, next) => Veils(first) || (Goes(first) && Veils(next))
    case Either(at, yes, no) => Veils(yes) || Veils(no)
    case Tries(at, arm, others) => Veils(arm) || Veils(others)
    case Cycle(round, endless) => Veils(round)
    case Resumes(body) => Veils(body)
  }

  // What the drawn steps say: an opaque form may end in any way, and nothing follows a
  // part that is drawn as going nowhere.
  ghost function Drawing(f: Form): Runs {
    match f
    case Pass => Skip()
    case Barred => Nothing()
    case Land(lands) => Stop(lands)
    case Does(deed, at) => Emit(Did(deed, at))
    case Hides(at, allowed) => Veil(at, ANY_OUTCOME)
    case Pauses(at) => Veil(at, ANY_OUTCOME)
    case Both(first, next) => if Goes(first) then Seq(Drawing(first), Drawing(next)) else Drawing(first)
    case Either(at, yes, no) => Choice(at, Drawing(yes), Drawing(no))
    case Tries(at, arm, others) => Choice(at, OrElse(Drawing(arm), Drawing(others)), Drawing(others))
    case Cycle(round, endless) => Loop(Drawing(round), endless)
    case Resumes(body) => Drawing(body)
  }

  // How many steps it takes at most, guards included.
  function Steps(f: Form): nat {
    match f
    case Pass => 0
    case Barred => 1
    case Land(lands) => 0
    case Does(deed, at) => 1
    case Hides(at, allowed) => 1
    case Pauses(at) => 1
    case Both(first, next) => Steps(first) + Steps(next) + 1
    case Either(at, yes, no) => 1 + Steps(yes) + Steps(no)
    case Tries(at, arm, others) => 1 + Steps(arm) + Steps(others)
    case Cycle(round, endless) => 1 + Steps(round)
    case Resumes(body) => Steps(body)
  }

  function Sum(fs: seq<Form>): nat {
    if fs == [] then 0 else Steps(fs[0]) + Sum(fs[1..])
  }

  // The steps say exactly what the form draws.
  ghost predicate Sketched(steps: seq<Step>, f: Form) {
    Same(Reading(steps), Drawing(f)) && HasBoundary(steps) == Veils(f)
  }

  ghost predicate Drafts(flow: Flow, f: Form) {
    Sketched(flow.steps, f) && flow.continues == Goes(f)
  }

  // Forms that mean and draw the same.
  ghost predicate Alike(f: Form, g: Form) {
    Same(Denote(f), Denote(g)) && Same(Drawing(f), Drawing(g)) && Goes(f) == Goes(g) && Veils(f) == Veils(g)
  }

  lemma {:induction false} LeavingForm(deed: Deed, at: Range, lands: Outcome)
    ensures var f := Leaving(deed, at, lands); !Goes(f) && Veils(f) == deed.Leave? && Steps(f) == 2
    ensures var f, p := Leaving(deed, at, lands), Seq(Emit(Did(deed, at)), Stop(lands)); Denote(f) == p && Drawing(f) == p
  {}

  // A round, or a guarded arm.
  lemma {:induction false} WayOutForm(at: Range, test: Form, body: Form, lands: Outcome)
    ensures var f := Both(test, Either(at, body, Land(lands)));
            Steps(f) == Steps(test) + Steps(body) + 2 && Denote(f) == Seq(Denote(test), Choice(at, Denote(body), Stop(lands)))
    ensures var f := Both(test, Either(at, body, Land(lands)));
            Goes(f) == (Goes(test) && Goes(body)) && Veils(f) == (Veils(test) || (Goes(test) && Veils(body)))
  {
    WayOutRuns(at, body, lands);
    assert Steps(Land(lands)) == 0 && !Goes(Land(lands)) && !Veils(Land(lands));
  }

  lemma {:induction false} WayOutRuns(at: Range, body: Form, lands: Outcome)
    ensures Denote(Either(at, body, Land(lands))) == Choice(at, Denote(body), Stop(lands))
  {
    assert Denote(Land(lands)) == Stop(lands);
  }

  lemma {:induction false} NeverBoth(f: Form, g: Form, x: Outcome)
    requires x != Normal && Never(Denote(f), x) && Never(Denote(g), x)
    ensures Never(Denote(Both(f, g)), x)
  {
    NeverSeq(Denote(f), Denote(g), x);
  }

  lemma {:induction false} NeverEither(at: Range, f: Form, g: Form, x: Outcome)
    requires Never(Denote(f), x) && Never(Denote(g), x)
    ensures Never(Denote(Either(at, f, g)), x)
  {
    NeverChoice(at, Denote(f), Denote(g), x);
  }

  // ---- sequences of forms ----

  lemma {:induction false} FoldConcat(fs: seq<Form>, gs: seq<Form>)
    ensures Alike(Both(Fold(fs), Fold(gs)), Fold(fs + gs))
    ensures Sum(fs + gs) == Sum(fs) + Sum(gs)
  {
    if fs == [] {
      assert fs + gs == gs;
      SeqUnit(Denote(Fold(gs)));
      SeqUnit(Drawing(Fold(gs)));
    } else {
      assert (fs + gs)[1..] == fs[1..] + gs && (fs + gs)[0] == fs[0];
      FoldConcat(fs[1..], gs);
      AlikeNext(fs[0], Both(Fold(fs[1..]), Fold(gs)), Fold(fs[1..] + gs));
      AlikeAssoc(fs[0], Fold(fs[1..]), Fold(gs));
    }
  }

  lemma {:induction false} AlikeAssoc(f: Form, g: Form, h: Form)
    ensures Alike(Both(Both(f, g), h), Both(f, Both(g, h)))
  {
    SeqAssoc(Denote(f), Denote(g), Denote(h));
    SeqAssoc(Drawing(f), Drawing(g), Drawing(h));
  }

  lemma {:induction false} AlikeNext(f: Form, g: Form, h: Form)
    requires Alike(g, h)
    ensures Alike(Both(f, g), Both(f, h))
  {
    SameSeq(Denote(f), Denote(f), Denote(g), Denote(h));
    SameSeq(Drawing(f), Drawing(f), Drawing(g), Drawing(h));
  }

  lemma {:induction false} AlikeUnit(f: Form)
    ensures Alike(Both(f, Pass), f)
  {
    SeqUnit(Denote(f));
    SeqUnit(Drawing(f));
  }

  lemma {:induction false} FoldSplit(fs: seq<Form>, i: nat)
    requires i <= |fs|
    ensures Alike(Both(Fold(fs[..i]), Fold(fs[i..])), Fold(fs))
    ensures Sum(fs) == Sum(fs[..i]) + Sum(fs[i..])
  {
    assert fs[..i] + fs[i..] == fs;
    FoldConcat(fs[..i], fs[i..]);
  }

  lemma {:induction false} FoldNext(fs: seq<Form>, i: nat)
    requires i < |fs|
    ensures Alike(Both(Fold(fs[..i]), fs[i]), Fold(fs[..i + 1]))
    ensures Sum(fs[..i + 1]) == Sum(fs[..i]) + Steps(fs[i])
  {
    var one := [fs[i]];
    assert fs[..i] + one == fs[..i + 1];
    assert one[1..] == [] && Fold(one) == Both(fs[i], Pass);
    FoldConcat(fs[..i], one);
    AlikeUnit(fs[i]);
    AlikeNext(Fold(fs[..i]), Fold(one), fs[i]);
  }

  lemma {:induction false} FoldSteps(fs: seq<Form>)
    ensures Steps(Fold(fs)) == Sum(fs) + |fs|
  {
    if fs != [] {
      FoldSteps(fs[1..]);
    }
  }

  // ---- steps that say what a form draws ----

  lemma {:induction false} HasBoundaryConcat(xs: seq<Step>, ys: seq<Step>)
    ensures HasBoundary(xs + ys) == (HasBoundary(xs) || HasBoundary(ys))
  {
    if HasBoundary(xs) {
      var i :| 0 <= i < |xs| && BoundaryIn(xs[i]);
      assert BoundaryIn((xs + ys)[i]);
    }
    if HasBoundary(ys) {
      var i :| 0 <= i < |ys| && BoundaryIn(ys[i]);
      assert BoundaryIn((xs + ys)[|xs| + i]);
    }
  }

  lemma {:induction false} HasBoundaryOne(s: Step)
    ensures HasBoundary([s]) == BoundaryIn(s)
  {
    assert [s][0] == s;
  }

  // Two flows in sequence, the second one dropped where the first goes nowhere.
  ghost predicate Joined(first: Flow, next: Flow, r: Flow) {
    if first.continues then
      && r.continues == next.continues
      && Same(Reading(r.steps), Seq(Reading(first.steps), Reading(next.steps)))
      && HasBoundary(r.steps) == (HasBoundary(first.steps) || HasBoundary(next.steps))
    else r == first
  }

  lemma {:induction false} JoinedPlain(first: Flow, next: Flow, exits: bool)
    requires first.continues
    ensures Joined(first, next, Flow(first.steps + next.steps, next.continues, exits))
  {
    ReadingConcat(first.steps, next.steps);
    HasBoundaryConcat(first.steps, next.steps);
  }

  lemma {:induction false} JoinedGuard(first: Flow, next: Flow, guard: Step, exits: bool)
    requires first.continues && guard.kind == Branch(Guard) && guard.children == next.steps && guard.alternate == []
    ensures Joined(first, next, Flow(first.steps + [guard], next.continues, exits))
  {
    ReadingConcat(first.steps, [guard]);
    HasBoundaryConcat(first.steps, [guard]);
    ReadingOne(guard);
    HasBoundaryOne(guard);
    SameSeq(Reading(first.steps), Reading(first.steps), Reading([guard]), Reading(next.steps));
  }

  lemma {:induction false} JoinedDrafts(first: Flow, next: Flow, r: Flow, f: Form, g: Form)
    requires Drafts(first, f) && Drafts(next, g) && Joined(first, next, r)
    ensures Drafts(r, Both(f, g))
  {
    SameSeq(Reading(first.steps), Drawing(f), Reading(next.steps), Drawing(g));
  }

  lemma {:induction false} DraftsAlike(flow: Flow, f: Form, g: Form)
    requires Drafts(flow, f) && Alike(f, g)
    ensures Drafts(flow, g)
  {}

  lemma {:induction false} SketchedOne(s: Step, f: Form)
    requires Same(ReadStep(s), Drawing(f)) && BoundaryIn(s) == Veils(f)
    ensures Sketched([s], f)
  {
    ReadingOne(s);
    HasBoundaryOne(s);
  }

  lemma {:induction false} SketchedFork(s: Step, f: Form, g: Form)
    requires s.kind == Branch(Fork) && Sketched(s.children, f) && Sketched(s.alternate, g)
    ensures Sketched([s], Either(s.at, f, g))
  {
    SameChoice(s.at, Reading(s.children), Drawing(f), Reading(s.alternate), Drawing(g));
    SketchedOne(s, Either(s.at, f, g));
  }

  // The branch under which a loop round or an arm runs its body.
  lemma {:induction false} SketchedBody(s: Step, f: Form, lands: Outcome)
    requires s.kind == (if lands == Done then Branch(Each) else Branch(Selected)) && (lands == Done || lands == Reject)
    requires Sketched(s.children, f) && s.alternate == []
    ensures Sketched([s], Either(s.at, f, Land(lands)))
  {
    SameChoice(s.at, Reading(s.children), Drawing(f), Stop(lands), Stop(lands));
    SketchedOne(s, Either(s.at, f, Land(lands)));
  }

  lemma {:induction false} SketchedLoop(s: Step, f: Form, endless: bool)
    requires s.kind == Repeat(endless) && Sketched(s.children, f) && s.alternate == []
    ensures Sketched([s], Cycle(f, endless))
  {
    SameLoop(Reading(s.children), Drawing(f), endless);
    assert Drawing(Cycle(f, endless)) == Loop(Drawing(f), endless);
    SketchedOne(s, Cycle(f, endless));
  }
}
