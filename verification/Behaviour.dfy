// Possible executions, shared by the three language adapters.
//
// Both sides of the sequence lowering are read as a set of runs: a syntax tree
// through the evaluation order of its language, a step tree through the meaning of
// its labels. The lowering is correct when the two readings have the same runs.
module Behaviour {

  // The byte range of a syntax node. Steps and events are anchored to one.
  datatype Range = Range(start: nat, end: nat)

  datatype Deed = Call | Effect | Return | Throw | Await | Definition | Leave

  // Hidden is the one event that stands for everything an opaque form may do.
  // Chose records which way a condition, a match arm or a loop test went.
  datatype Event =
    | Did(deed: Deed, at: Range)
    | Hidden(at: Range)
    | Chose(at: Range, taken: bool)

  // Reject and Done stay inside a match or a loop: an arm whose guard is false
  // rejects, and a loop whose test fails is done.
  datatype Outcome = Normal | Exit | Break | Continue | Reject | Done

  type Trace = seq<Event>

  // Has the completed executions: runs(t, o) when one emits t and ends with o.
  type Runs = (Trace, Outcome) -> bool

  // ---- the forms ----

  ghost function Skip(): Runs {
    (t: Trace, o: Outcome) => t == [] && o == Normal
  }

  ghost function Nothing(): Runs {
    (t: Trace, o: Outcome) => false
  }

  ghost function Emit(e: Event): Runs {
    (t: Trace, o: Outcome) => t == [e] && o == Normal
  }

  ghost function Stop(x: Outcome): Runs {
    (t: Trace, o: Outcome) => t == [] && o == x
  }

  const ANY_OUTCOME: set<Outcome> := {Normal, Exit, Break, Continue}

  // An opaque form: one marker, then any of the allowed outcomes.
  ghost function Veil(at: Range, allowed: set<Outcome>): Runs {
    (t: Trace, o: Outcome) => t == [Hidden(at)] && o in allowed
  }

  ghost function Seq(p: Runs, q: Runs): Runs {
    (t: Trace, o: Outcome) => InSeq(p, q, t, o)
  }

  // p left early, or p ended normally and q went on from there.
  ghost predicate InSeq(p: Runs, q: Runs, t: Trace, o: Outcome) {
    || (o != Normal && p(t, o))
    || exists i: nat :: Cut(t, i) && p(t[..i], Normal) && q(t[i..], o)
  }

  ghost function Choice(at: Range, yes: Runs, no: Runs): Runs {
    (t: Trace, o: Outcome) => InChoice(at, yes, no, t, o)
  }

  ghost predicate InChoice(at: Range, yes: Runs, no: Runs, t: Trace, o: Outcome) {
    && t != []
    && ((t[0] == Chose(at, true) && yes(t[1..], o)) || (t[0] == Chose(at, false) && no(t[1..], o)))
  }

  // q runs when p rejects.
  ghost function OrElse(p: Runs, q: Runs): Runs {
    (t: Trace, o: Outcome) => InOrElse(p, q, t, o)
  }

  ghost predicate InOrElse(p: Runs, q: Runs, t: Trace, o: Outcome) {
    || (o != Reject && p(t, o))
    || exists i: nat :: Cut(t, i) && p(t[..i], Reject) && q(t[i..], o)
  }

  // A continue in p lands right after p.
  ghost function Resume(p: Runs): Runs {
    (t: Trace, o: Outcome) => (o != Continue && p(t, o)) || (o == Normal && p(t, Continue))
  }

  // Finitely many rounds, the last of which leaves the loop. An endless loop has no
  // test, so only break and exit leave it.
  ghost function Loop(round: Runs, endless: bool): Runs {
    (t: Trace, o: Outcome) => InLoop(round, endless, t, o)
  }

  ghost predicate InLoop(round: Runs, endless: bool, t: Trace, o: Outcome) {
    exists cuts :: Laps(t, cuts) && GoesAround(round, t, cuts) && LastRound(round, endless, t[cuts[|cuts| - 1]..], o)
  }

  ghost predicate GoesAround(round: Runs, t: Trace, cuts: seq<nat>)
    requires Laps(t, cuts)
  {
    forall k | 0 <= k < |cuts| - 1 ::
      round(t[cuts[k]..cuts[k + 1]], Normal) || round(t[cuts[k]..cuts[k + 1]], Continue)
  }

  ghost predicate LastRound(round: Runs, endless: bool, t: Trace, o: Outcome) {
    || (o == Normal && (round(t, Break) || (!endless && round(t, Done))))
    || (o == Exit && round(t, Exit))
  }

  // A place where a trace divides between two consecutive parts.
  ghost predicate Cut(t: Trace, i: nat) {
    i <= |t|
  }

  // The places where the rounds of a loop start.
  ghost predicate Laps(t: Trace, cuts: seq<nat>) {
    && cuts != [] && cuts[0] == 0 && cuts[|cuts| - 1] <= |t|
    && forall j, k | 0 <= j < k < |cuts| :: cuts[j] <= cuts[k]
  }

  // ---- comparing runs ----

  // A trace that met no opaque form.
  ghost predicate Plain(t: Trace) {
    forall k | 0 <= k < |t| :: !t[k].Hidden?
  }

  // Every run of p, or every marker-free one, is a run of q.
  ghost predicate Within(p: Runs, q: Runs, plain: bool) {
    forall t, o :: p(t, o) && (plain ==> Plain(t)) ==> q(t, o)
  }

  ghost predicate Same(p: Runs, q: Runs) {
    forall t, o :: p(t, o) <==> q(t, o)
  }

  // q has every run of p, and none that p lacks without crossing an opaque marker.
  ghost predicate Shows(q: Runs, p: Runs) {
    Within(p, q, false) && Within(q, p, true)
  }

  ghost predicate Never(p: Runs, x: Outcome) {
    forall t :: !p(t, x)
  }

  // e happens in every run of p.
  ghost predicate Performs(p: Runs, e: Event) {
    forall t, o :: p(t, o) ==> e in t
  }

  // ---- the forms respect inclusion ----

  lemma WithinSeq(p: Runs, p': Runs, q: Runs, q': Runs, plain: bool)
    requires Within(p, p', plain) && Within(q, q', plain)
    ensures Within(Seq(p, q), Seq(p', q'), plain)
  {
    forall t, o | InSeq(p, q, t, o) && (plain ==> Plain(t)) ensures InSeq(p', q', t, o) {
      if !(o != Normal && p(t, o)) {
        var i: nat :| Cut(t, i) && p(t[..i], Normal) && q(t[i..], o);
        assert p'(t[..i], Normal) && q'(t[i..], o);
      }
    }
  }

  lemma WithinChoice(at: Range, p: Runs, p': Runs, q: Runs, q': Runs, plain: bool)
    requires Within(p, p', plain) && Within(q, q', plain)
    ensures Within(Choice(at, p, q), Choice(at, p', q'), plain)
  {}

  lemma WithinOrElse(p: Runs, p': Runs, q: Runs, q': Runs, plain: bool)
    requires Within(p, p', plain) && Within(q, q', plain)
    ensures Within(OrElse(p, q), OrElse(p', q'), plain)
  {
    forall t, o | InOrElse(p, q, t, o) && (plain ==> Plain(t)) ensures InOrElse(p', q', t, o) {
      if !(o != Reject && p(t, o)) {
        var i: nat :| Cut(t, i) && p(t[..i], Reject) && q(t[i..], o);
        assert p'(t[..i], Reject) && q'(t[i..], o);
      }
    }
  }

  lemma WithinLoop(p: Runs, p': Runs, endless: bool, plain: bool)
    requires Within(p, p', plain)
    ensures Within(Loop(p, endless), Loop(p', endless), plain)
  {
    forall t, o | InLoop(p, endless, t, o) && (plain ==> Plain(t)) ensures InLoop(p', endless, t, o) {
      var cuts :| Laps(t, cuts) && GoesAround(p, t, cuts) && LastRound(p, endless, t[cuts[|cuts| - 1]..], o);
      assert Laps(t, cuts) && GoesAround(p', t, cuts) && LastRound(p', endless, t[cuts[|cuts| - 1]..], o);
    }
  }

  // A loop without a test has no run that the same loop with a test lacks.
  lemma EndlessWithin(p: Runs)
    ensures Within(Loop(p, true), Loop(p, false), false)
  {
    forall t, o | InLoop(p, true, t, o) ensures InLoop(p, false, t, o) {
      var cuts :| Laps(t, cuts) && GoesAround(p, t, cuts) && LastRound(p, true, t[cuts[|cuts| - 1]..], o);
      assert LastRound(p, false, t[cuts[|cuts| - 1]..], o);
    }
  }

  lemma ShowsSeq(p: Runs, p': Runs, q: Runs, q': Runs)
    requires Shows(p', p) && Shows(q', q)
    ensures Shows(Seq(p', q'), Seq(p, q))
  {
    WithinSeq(p, p', q, q', false);
    WithinSeq(p', p, q', q, true);
  }

  lemma ShowsChoice(at: Range, p: Runs, p': Runs, q: Runs, q': Runs)
    requires Shows(p', p) && Shows(q', q)
    ensures Shows(Choice(at, p', q'), Choice(at, p, q))
  {
    WithinChoice(at, p, p', q, q', false);
    WithinChoice(at, p', p, q', q, true);
  }

  lemma ShowsOrElse(p: Runs, p': Runs, q: Runs, q': Runs)
    requires Shows(p', p) && Shows(q', q)
    ensures Shows(OrElse(p', q'), OrElse(p, q))
  {
    WithinOrElse(p, p', q, q', false);
    WithinOrElse(p', p, q', q, true);
  }

  lemma ShowsLoop(p: Runs, p': Runs, endless: bool)
    requires Shows(p', p)
    ensures Shows(Loop(p', endless), Loop(p, endless))
  {
    WithinLoop(p, p', endless, false);
    WithinLoop(p', p, endless, true);
  }

  lemma ShowsVeil(at: Range, allowed: set<Outcome>)
    requires allowed <= ANY_OUTCOME
    ensures Shows(Veil(at, ANY_OUTCOME), Veil(at, allowed))
  {
    forall t: Trace, o | Veil(at, ANY_OUTCOME)(t, o) ensures !Plain(t) {
      assert t[0].Hidden?;
    }
  }

  // ---- sequencing laws ----

  lemma SeqAssoc(p: Runs, q: Runs, r: Runs)
    ensures Same(Seq(Seq(p, q), r), Seq(p, Seq(q, r)))
  {
    forall t, o ensures InSeq(Seq(p, q), r, t, o) <==> InSeq(p, Seq(q, r), t, o) {
      if InSeq(Seq(p, q), r, t, o) {
        RotateRight(p, q, r, t, o);
      }
      if InSeq(p, Seq(q, r), t, o) {
        RotateLeft(p, q, r, t, o);
      }
    }
  }

  lemma RotateRight(p: Runs, q: Runs, r: Runs, t: Trace, o: Outcome)
    requires InSeq(Seq(p, q), r, t, o)
    ensures InSeq(p, Seq(q, r), t, o)
  {
    if o != Normal && InSeq(p, q, t, o) {
      if !p(t, o) {
        var j: nat :| Cut(t, j) && p(t[..j], Normal) && q(t[j..], o);
        assert Seq(q, r)(t[j..], o);
      }
    } else {
      var i: nat :| Cut(t, i) && Seq(p, q)(t[..i], Normal) && r(t[i..], o);
      assert InSeq(p, q, t[..i], Normal);
      var j: nat :| Cut(t[..i], j) && p(t[..i][..j], Normal) && q(t[..i][j..], Normal);
      assert t[..i][..j] == t[..j];
      assert t[j..][..i - j] == t[..i][j..] && t[j..][i - j..] == t[i..];
      assert Cut(t[j..], i - j) && Cut(t, j);
      assert InSeq(q, r, t[j..], o);
    }
  }

  lemma RotateLeft(p: Runs, q: Runs, r: Runs, t: Trace, o: Outcome)
    requires InSeq(p, Seq(q, r), t, o)
    ensures InSeq(Seq(p, q), r, t, o)
  {
    if o != Normal && p(t, o) {
      assert InSeq(p, q, t, o);
    } else {
      var i: nat :| Cut(t, i) && p(t[..i], Normal) && Seq(q, r)(t[i..], o);
      assert InSeq(q, r, t[i..], o);
      if o != Normal && q(t[i..], o) {
        assert InSeq(p, q, t, o);
      } else {
        var j: nat :| Cut(t[i..], j) && q(t[i..][..j], Normal) && r(t[i..][j..], o);
        assert t[..i + j][..i] == t[..i] && t[..i + j][i..] == t[i..][..j] && t[i..][j..] == t[i + j..];
        assert Cut(t[..i + j], i) && Cut(t, i + j);
        assert InSeq(p, q, t[..i + j], Normal);
      }
    }
  }

  lemma SeqUnit(p: Runs)
    ensures Same(Seq(Skip(), p), p) && Same(Seq(p, Skip()), p)
  {
    forall t, o ensures InSeq(Skip(), p, t, o) <==> p(t, o) {
      assert t[..0] == [] && t[0..] == t && Cut(t, 0);
    }
    forall t, o ensures InSeq(p, Skip(), t, o) <==> p(t, o) {
      assert t[..|t|] == t && t[|t|..] == [] && Cut(t, |t|);
      assert forall i: nat | Cut(t, i) :: t[i..] == [] ==> i == |t|;
    }
  }

  // What follows a part that never ends normally is unreachable.
  lemma SeqDead(p: Runs, q: Runs)
    requires Never(p, Normal)
    ensures Same(Seq(p, q), p)
  {}

  // Resuming after continue changes nothing where continue cannot occur.
  lemma ResumeIdle(p: Runs)
    requires Never(p, Continue)
    ensures Same(Resume(p), p)
  {}

  lemma SameSeq(p: Runs, p': Runs, q: Runs, q': Runs)
    requires Same(p, p') && Same(q, q')
    ensures Same(Seq(p, q), Seq(p', q'))
  {
    WithinSeq(p, p', q, q', false);
    WithinSeq(p', p, q', q, false);
  }

  lemma SameChoice(at: Range, p: Runs, p': Runs, q: Runs, q': Runs)
    requires Same(p, p') && Same(q, q')
    ensures Same(Choice(at, p, q), Choice(at, p', q'))
  {}

  lemma SameOrElse(p: Runs, p': Runs, q: Runs, q': Runs)
    requires Same(p, p') && Same(q, q')
    ensures Same(OrElse(p, q), OrElse(p', q'))
  {
    WithinOrElse(p, p', q, q', false);
    WithinOrElse(p', p, q', q, false);
  }

  lemma SameLoop(p: Runs, p': Runs, endless: bool)
    requires Same(p, p')
    ensures Same(Loop(p, endless), Loop(p', endless))
  {
    WithinLoop(p, p', endless, false);
    WithinLoop(p', p, endless, false);
  }

  lemma NeverSeq(p: Runs, q: Runs, x: Outcome)
    requires x != Normal && Never(p, x) && Never(q, x)
    ensures Never(Seq(p, q), x)
  {}

  lemma NeverChoice(at: Range, p: Runs, q: Runs, x: Outcome)
    requires Never(p, x) && Never(q, x)
    ensures Never(Choice(at, p, q), x)
  {}

  lemma NeverOrElse(p: Runs, q: Runs, x: Outcome)
    requires (x == Reject || Never(p, x)) && Never(q, x)
    ensures Never(OrElse(p, q), x)
  {}

  // An event of the part that runs first happens in every run.
  lemma PerformsFirst(p: Runs, q: Runs, e: Event)
    requires Performs(p, e)
    ensures Performs(Seq(p, q), e)
  {}

  // An event of the second part does too, when the first always ends normally.
  lemma PerformsSecond(p: Runs, q: Runs, e: Event)
    requires Performs(q, e) && forall t, o :: p(t, o) ==> o == Normal
    ensures Performs(Seq(p, q), e)
  {}
}
