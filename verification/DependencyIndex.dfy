// The dependency catalog of a daemon: refreshes replace each other, one driver builds the
// latest of them, and a build that was overtaken is dropped.
module DependencyIndex {
  import opened Options

  datatype Phase = Unavailable | Loading | Ready | Failed

  // Everything behind the mutex. A cancel flag is named by the generation it was made
  // for; cancelled holds the flags that are set. A catalog is named by its generation.
  datatype Index = Index(
    generation: nat, cancel: nat, cancelled: set<nat>, stopped: bool,
    workerRunning: bool, phase: Phase, catalog: Option<nat>)

  const NO_CATALOG := Index(0, 0, {}, false, false, Unavailable, None)

  // ---- the critical sections ----

  function Request(x: Index): Index {
    if x.stopped then x
    else Index(x.generation + 1, x.generation + 1, x.cancelled + {x.cancel}, false, true, Loading, None)
  }

  predicate Superseded(x: Index, generation: nat, cancel: nat) {
    x.stopped || x.generation != generation || cancel in x.cancelled
  }

  function Publish(x: Index, generation: nat, cancel: nat, built: bool): Index {
    if Superseded(x, generation, cancel) then x
    else if built then x.(phase := Ready, catalog := Some(generation))
    else x.(phase := Failed, catalog := None)
  }

  function Stop(x: Index): Index {
    x.(stopped := true, cancelled := x.cancelled + {x.cancel}, generation := x.generation + 1, catalog := None, phase := Failed)
  }

  function Retire(x: Index): Index {
    x.(workerRunning := false)
  }

  // The same as the daemon runs them, field by field.
  class Dependencies {
    var generation: nat
    var cancel: nat
    var cancelled: set<nat>
    var stopped: bool
    var workerRunning: bool
    var phase: Phase
    var catalog: Option<nat>

    ghost function Now(): Index
      reads this
    {
      Index(generation, cancel, cancelled, stopped, workerRunning, phase, catalog)
    }

    constructor ()
      ensures Now() == NO_CATALOG
    {
      generation, cancel, cancelled := 0, 0, {};
      stopped, workerRunning, phase, catalog := false, false, Unavailable, None;
    }

    // A refresh supersedes whatever is being built, and a driver is started when none is there.
    method RequestBuild() returns (start: bool)
      modifies this
      ensures Now() == Request(old(Now()))
      ensures start == (!old(stopped) && !old(workerRunning))
    {
      if stopped {
        return false;
      }
      cancelled := cancelled + {cancel};
      generation := generation + 1;
      cancel := generation;
      phase, catalog := Loading, None;
      start := !workerRunning;
      workerRunning := true;
    }

    method TakeWork() returns (work: Option<(nat, nat)>)
      modifies this
      ensures if old(stopped) then work.None? && Now() == Retire(old(Now()))
              else work == Some((old(generation), old(cancel))) && Now() == old(Now())
    {
      if stopped {
        workerRunning := false;
        return None;
      }
      return Some((generation, cancel));
    }

    method PublishBuild(generation: nat, cancel: nat, built: bool)
      modifies this
      ensures Now() == Publish(old(Now()), generation, cancel, built)
    {
      if stopped || this.generation != generation || cancel in cancelled {
        return;
      }
      if built {
        phase, catalog := Ready, Some(generation);
      } else {
        phase, catalog := Failed, None;
      }
    }

    method RetireUnlessOvertaken(generation: nat) returns (retired: bool)
      modifies this
      ensures retired == (old(stopped) || old(this.generation) == generation)
      ensures Now() == if retired then Retire(old(Now())) else old(Now())
    {
      retired := stopped || this.generation == generation;
      if retired {
        workerRunning := false;
      }
    }

    method CancelActive()
      modifies this
      ensures Now() == Stop(old(Now()))
    {
      stopped := true;
      cancelled := cancelled + {cancel};
      generation := generation + 1;
      catalog, phase := None, Failed;
    }
  }

  // ---- drivers and their workers, interleaved ----

  // Fresh: about to take work. Crashed: its worker has panicked and the driver is about
  // to publish the failure. Returned: about to retire or go round again.
  datatype Driver = Fresh | Building(generation: nat, cancel: nat) | Crashed(generation: nat, cancel: nat) | Returned(generation: nat)

  datatype System = System(index: Index, drivers: seq<Driver>, published: Option<nat>)

  datatype Action =
    | Refresh
    | Shutdown
    | Take(driver: nat)
    | Finish(driver: nat, built: bool)
    | Panic(driver: nat)
    | Report(driver: nat)
    | Recheck(driver: nat)

  predicate Enabled(s: System, a: Action) {
    match a
    case Refresh => true
    case Shutdown => true
    case Take(d) => d < |s.drivers| && s.drivers[d].Fresh?
    case Finish(d, _) => d < |s.drivers| && s.drivers[d].Building?
    case Panic(d) => d < |s.drivers| && s.drivers[d].Building?
    case Report(d) => d < |s.drivers| && s.drivers[d].Crashed?
    case Recheck(d) => d < |s.drivers| && s.drivers[d].Returned?
  }

  function Without(drivers: seq<Driver>, d: nat): seq<Driver>
    requires d < |drivers|
  {
    drivers[..d] + drivers[d + 1..]
  }

  function Published(s: System, d: nat, generation: nat, cancel: nat, built: bool): System
    requires d < |s.drivers|
  {
    System(Publish(s.index, generation, cancel, built), s.drivers[d := Returned(generation)],
           if Superseded(s.index, generation, cancel) then s.published else Some(generation))
  }

  function Apply(s: System, a: Action): System
    requires Enabled(s, a)
  {
    match a
    case Refresh =>
      var start := !s.index.stopped && !s.index.workerRunning;
      s.(index := Request(s.index), drivers := s.drivers + if start then [Fresh] else [])
    case Shutdown => s.(index := Stop(s.index))
    case Take(d) =>
      if s.index.stopped then s.(index := Retire(s.index), drivers := Without(s.drivers, d))
      else s.(drivers := s.drivers[d := Building(s.index.generation, s.index.cancel)])
    case Finish(d, built) => Published(s, d, s.drivers[d].generation, s.drivers[d].cancel, built)
    case Panic(d) => s.(drivers := s.drivers[d := Crashed(s.drivers[d].generation, s.drivers[d].cancel)])
    case Report(d) => Published(s, d, s.drivers[d].generation, s.drivers[d].cancel, false)
    case Recheck(d) =>
      if s.index.stopped || s.index.generation == s.drivers[d].generation then
        s.(index := Retire(s.index), drivers := Without(s.drivers, d))
      else s.(drivers := s.drivers[d := Fresh])
  }

  predicate Legal(log: seq<Action>)
    decreases |log|, 0
  {
    log == [] || (Legal(log[..|log| - 1]) && Enabled(After(log[..|log| - 1]), log[|log| - 1]))
  }

  function After(log: seq<Action>): System
    requires Legal(log)
    decreases |log|, 1
  {
    if log == [] then System(NO_CATALOG, [], None) else Apply(After(log[..|log| - 1]), log[|log| - 1])
  }

  // ---- what every interleaving keeps ----

  // Until shutdown the flag in force is the one of the current generation, and only the
  // flags of earlier generations are set.
  ghost predicate Flags(s: System) {
    && (!s.index.stopped ==> s.index.cancel == s.index.generation)
    && s.index.cancel <= s.index.generation
    && (forall c | c in s.index.cancelled :: c <= s.index.cancel && (!s.index.stopped ==> c < s.index.cancel))
  }

  ghost predicate OneDriver(s: System) {
    && |s.drivers| == (if s.index.workerRunning then 1 else 0)
    && forall d | 0 <= d < |s.drivers| && !s.drivers[d].Fresh? ::
         && s.drivers[d].generation <= s.index.generation
         && (!s.drivers[d].Returned? ==> s.drivers[d].cancel == s.drivers[d].generation)
  }

  ghost predicate Settled(s: System) {
    && s.published == Some(s.index.generation)
    && (s.index.phase == if s.index.catalog.Some? then Ready else Failed)
  }

  // A catalog belongs to the generation in force. A driver that has returned for it has
  // settled it, and when there is no driver somebody has.
  ghost predicate NothingLost(s: System) {
    && (s.index.catalog.Some? ==>
          !s.index.stopped && s.index.catalog == Some(s.index.generation) && Settled(s))
    && (!s.index.stopped && s.index.generation > 0 ==>
          Settled(s) || exists d :: Owes(s, d))
  }

  // The driver will still take up the generation in force, or settle it.
  ghost predicate Owes(s: System, d: nat) {
    d < |s.drivers| && !(s.drivers[d].Returned? && s.drivers[d].generation == s.index.generation)
  }

  ghost predicate Inv(s: System) {
    Flags(s) && OneDriver(s) && NothingLost(s)
  }

  lemma StepKeeps(s: System, a: Action)
    requires Inv(s) && Enabled(s, a)
    ensures Inv(Apply(s, a))
  {
    var t := Apply(s, a);
    assert forall d: nat :: Owes(s, d) ==> d == 0;
    if !t.index.stopped && t.index.generation > 0 {
      assert Settled(t) || Owes(t, 0);
    }
  }

  lemma {:induction false} RunKeeps(log: seq<Action>)
    requires Legal(log)
    ensures Inv(After(log))
    decreases |log|
  {
    if log != [] {
      RunKeeps(log[..|log| - 1]);
      StepKeeps(After(log[..|log| - 1]), log[|log| - 1]);
    }
  }

  // No refresh is lost: once no driver runs, the latest generation has been published, as
  // ready with its own catalog or as failed.
  lemma LatestPublished(log: seq<Action>)
    requires Legal(log)
    requires var s := After(log); !s.index.stopped && !s.index.workerRunning && s.index.generation > 0
    ensures var s := After(log);
            && s.drivers == [] && s.published == Some(s.index.generation)
            && (s.index.phase == Ready <==> s.index.catalog == Some(s.index.generation))
            && (s.index.phase == Failed <==> s.index.catalog.None?)
  {
    RunKeeps(log);
  }

  lemma OneDriverOneCatalog(log: seq<Action>)
    requires Legal(log)
    ensures |After(log).drivers| <= 1
    ensures After(log).index.catalog.Some? ==> After(log).index.catalog.value == After(log).index.generation
  {
    RunKeeps(log);
  }

  lemma {:induction false} StoppedStaysEmpty(log: seq<Action>, more: seq<Action>)
    requires Legal(log) && Legal(log + more) && After(log).index.stopped
    ensures After(log + more).index.stopped && After(log + more).index.catalog.None?
    decreases |more|
  {
    if more == [] {
      RunKeeps(log);
      assert log + more == log;
    } else {
      assert (log + more)[..|log + more| - 1] == log + more[..|more| - 1];
      StoppedStaysEmpty(log, more[..|more| - 1]);
    }
  }
}
