// Advisory filesystem hints of the leader, and the inventory that accounts for them. Edits
// and hints arrive between any two steps, also in the middle of a delivery.
module WatchHints {
  import opened Options

  const MAX_DIRTY_PATHS: nat := 256

  // What the classification of one event asks for; Broken is an error of the watcher.
  datatype Signal = Changed(paths: seq<string>, full: bool, urgent: bool) | Broken

  datatype DirtyBatch = DirtyBatch(generation: nat, full: bool, paths: set<string>)

  // The captured bytes of the workspace.
  type Content = string

  class WatchSignals {
    // Every content the workspace has had, the last one being what it is now, and for each
    // generation how far the workspace had come when its hint was counted. inventory is
    // the content that the acknowledged generation was accounted by.
    var contents: seq<Content>
    ghost var reached: seq<nat>
    ghost var inventory: nat

    // arriving: hints that are counted but not yet in the channel.
    var generation: nat
    var arriving: seq<Signal>
    var channel: seq<Signal>
    var overflow: bool
    var pending: DirtyBatch
    var acknowledged: nat
    var signalled: bool
    var urgent: bool
    var degraded: bool

    ghost function Now(): int
      reads this
    {
      |contents| - 1
    }

    ghost predicate Sane()
      reads this
    {
      && contents != [] && generation >= 1 && |reached| == generation + 1
      && (forall g, h | 0 <= g <= h < |reached| :: reached[g] <= reached[h])
      && (forall g | 0 <= g < |reached| :: reached[g] <= Now())
      && acknowledged <= generation && pending.generation <= generation
      && (acknowledged > 0 ==> reached[acknowledged] <= inventory <= Now())
      && (degraded ==> pending.full && urgent)
      && |channel| <= 4 * MAX_DIRTY_PATHS && |pending.paths| <= MAX_DIRTY_PATHS
    }

    // A hint that nothing has accounted for leaves something behind that wakes the leader.
    ghost predicate Awake()
      reads this
    {
      generation == acknowledged || arriving != [] || channel != [] || overflow || pending.full || urgent || signalled
    }

    ghost predicate Valid()
      reads this
    {
      Sane() && Awake()
    }

    // Every hint counted up to generation g had happened by content v.
    ghost predicate Covers(v: nat, g: nat)
      reads this
    {
      g < |reached| && forall h | 0 <= h <= g :: reached[h] <= v
    }

    // The first inventory of a new watcher is a full one.
    constructor (contents: seq<Content>, degraded: bool)
      requires contents != []
      ensures Valid() && generation == 1 && acknowledged == 0 && this.contents == contents
      ensures AcceptedUnacked()
    {
      this.contents := contents;
      reached := [0, |contents| - 1];
      inventory := 0;
      generation, arriving, channel, overflow := 1, [], [], false;
      pending := DirtyBatch(1, true, {});
      acknowledged, signalled, urgent := 0, false, true;
      this.degraded := degraded;
    }

    predicate AcceptedUnacked()
      reads this
    {
      if degraded then generation != acknowledged else pending.full || urgent || generation != acknowledged
    }

    // Quiet means that an inventory has accounted for every hint there ever was.
    lemma Settled()
      requires Valid() && !AcceptedUnacked()
      ensures Covers(inventory, generation)
    {}

    method Edit(content: Content)
      requires Sane()
      modifies this`contents
      ensures Sane() && contents == old(contents) + [content]
    {
      contents := contents + [content];
    }

    // A hint counts before it is sent.
    method Count(signal: Signal)
      requires Sane()
      modifies this`generation, this`reached, this`arriving
      ensures Sane() && Awake() && generation == old(generation) + 1 && old(reached) <= reached
    {
      generation := generation + 1;
      reached := reached + [|contents| - 1];
      arriving := arriving + [signal];
    }

    method Deliver()
      requires Sane() && arriving != []
      modifies this`arriving, this`channel, this`overflow
      ensures Sane() && Awake()
    {
      if |channel| < 4 * MAX_DIRTY_PATHS {
        channel := channel + [arriving[0]];
      } else {
        overflow := true;
      }
      arriving := arriving[1..];
    }

    // Edits, and hints on their way through the callback.
    method Elsewhere()
      requires Sane()
      modifies this`contents, this`reached, this`generation, this`arriving, this`channel, this`overflow
      ensures Sane() && (old(Awake()) || generation != old(generation) ==> Awake())
      ensures old(contents) <= contents && old(reached) <= reached && old(generation) <= generation
    {
      var n: nat :| 0 <= n;
      for i := 0 to n
        invariant Sane() && (old(Awake()) || generation != old(generation) ==> Awake())
        invariant old(contents) <= contents && old(reached) <= reached && old(generation) <= generation
      {
        var edit, count: bool := *, *;
        if edit {
          var content: Content := *;
          Edit(content);
        } else if count {
          var signal: Signal := *;
          Count(signal);
        } else if arriving != [] {
          Deliver();
        }
      }
    }

    method RequireFull()
      requires Sane()
      modifies this`generation, this`reached, this`pending, this`urgent
      ensures Valid() && AcceptedUnacked() && pending.full && urgent
      ensures generation == old(generation) + 1 && old(reached) <= reached
    {
      generation := generation + 1;
      reached := reached + [|contents| - 1];
      pending := pending.(full := true);
      urgent := true;
    }

    method Record(signal: Signal)
      modifies this`pending, this`signalled, this`urgent, this`degraded
      requires |pending.paths| <= MAX_DIRTY_PATHS && (degraded ==> pending.full && urgent)
      ensures |pending.paths| <= MAX_DIRTY_PATHS && pending.generation == old(pending.generation)
      ensures signalled || pending.full
      ensures (old(pending.full) ==> pending.full) && (old(urgent) ==> urgent) && (old(signalled) ==> signalled)
      ensures degraded ==> pending.full && urgent
    {
      if signal.Broken? {
        degraded, urgent := true, true;
        pending := pending.(full := true);
        return;
      }
      signalled := true;
      urgent := urgent || signal.urgent;
      pending := pending.(full := pending.full || signal.full);
      for i := 0 to |signal.paths|
        invariant |pending.paths| <= MAX_DIRTY_PATHS && pending.generation == old(pending.generation)
        invariant (old(pending.full) ==> pending.full) && (old(urgent) ==> urgent) && (degraded ==> pending.full && urgent)
        invariant signalled
      {
        pending := pending.(paths := pending.paths + {signal.paths[i]});
        if |pending.paths| > MAX_DIRTY_PATHS {
          pending := pending.(full := true, paths := {});
          urgent := true;
        }
      }
    }

    method Receive()
      requires Sane() && channel != []
      modifies this`channel, this`pending, this`signalled, this`urgent, this`degraded
      ensures Sane() && (signalled || pending.full)
    {
      var signal := channel[0];
      channel := channel[1..];
      Record(signal);
    }

    // Stops after a bounded number of messages, whoever goes on sending.
    method Empty()
      requires Sane()
      modifies this`contents, this`reached, this`generation, this`arriving, this`channel, this`overflow,
               this`pending, this`signalled, this`urgent, this`degraded
      ensures Sane() && (old(Awake()) || generation != old(generation) ==> Awake())
      ensures old(contents) <= contents && old(reached) <= reached && old(generation) <= generation
    {
      var taken := 0;
      while taken < MAX_DIRTY_PATHS && channel != []
        invariant Sane() && (old(Awake()) || generation != old(generation) ==> Awake())
        invariant old(contents) <= contents && old(reached) <= reached && old(generation) <= generation
        decreases MAX_DIRTY_PATHS - taken
      {
        Receive();
        Elsewhere();
        taken := taken + 1;
      }
    }

    method Overflowed()
      requires Sane()
      modifies this`overflow, this`pending, this`urgent
      ensures Sane() && (old(Awake()) ==> Awake())
    {
      if overflow {
        overflow := false;
        pending := pending.(full := true);
        urgent := true;
      }
    }

    // The generation is read last, so that a hint which is counted while the channel is
    // being emptied belongs to the batch although its paths do not.
    method Drain() returns (batch: DirtyBatch)
      requires Sane()
      modifies this`contents, this`reached, this`generation, this`arriving, this`channel, this`overflow,
               this`pending, this`signalled, this`urgent, this`degraded
      ensures Sane() && batch == pending && old(generation) <= batch.generation
      ensures old(Awake()) || generation != old(generation) ==> Awake()
      ensures old(contents) <= contents && old(reached) <= reached
    {
      Elsewhere();
      Empty();
      Overflowed();
      Elsewhere();
      batch := Stamp();
    }

    method Stamp() returns (batch: DirtyBatch)
      requires Sane()
      modifies this`pending, this`urgent
      ensures Sane() && batch == pending && batch.generation == generation && (old(Awake()) ==> Awake())
    {
      pending := pending.(generation := generation);
      if degraded {
        pending := pending.(full := true);
        urgent := true;
      }
      batch := pending;
    }

    // Only for a batch that content v accounts for. A hint counted after the batch makes
    // it fail, and never becomes acknowledged unseen.
    method Acknowledge(batch: DirtyBatch, ghost v: nat) returns (accounted: bool)
      requires Valid() && 1 <= batch.generation <= generation && reached[batch.generation] <= v <= Now()
      modifies this
      ensures Valid() && old(contents) <= contents && old(reached) <= reached
      ensures if accounted then acknowledged == batch.generation && inventory == v
              else acknowledged == old(acknowledged) && inventory == old(inventory)
    {
      var current := Drain();
      Elsewhere();
      if current.generation != batch.generation || (current.full && !batch.full) || generation != batch.generation {
        return false;
      }
      Clear();
      accounted := Confirm(batch.generation, v);
    }

    method Clear()
      requires Sane()
      modifies this`contents, this`reached, this`generation, this`arriving, this`channel, this`overflow,
               this`pending, this`signalled, this`urgent
      ensures Sane() && old(contents) <= contents && old(reached) <= reached && old(generation) <= generation
    {
      pending := pending.(full := degraded, paths := {});
      signalled, urgent := false, degraded;
      Elsewhere();
    }

    // An event that raced the clearing forces a full inventory.
    method Confirm(g: nat, ghost v: nat) returns (accounted: bool)
      requires Sane() && 1 <= g <= generation && reached[g] <= v <= Now()
      modifies this
      ensures Valid() && old(contents) <= contents && old(reached) <= reached
      ensures if accounted then acknowledged == g && inventory == v
              else acknowledged == old(acknowledged) && inventory == old(inventory)
    {
      accounted := generation == g;
      if accounted {
        acknowledged, inventory := g, v;
      } else {
        pending := pending.(full := true);
        urgent := true;
      }
      Elsewhere();
    }
  }

  datatype Error = CutoffChanged | Failure
  datatype Result<+T> = Ok(value: T) | Err(error: Error)

  class LeaderWork {
    var watch: WatchSignals
    var options: nat
    var lastAccounted: Option<nat>
    // What the selected head of the index was captured from.
    var head: Content

    ghost predicate Valid()
      reads this, watch
    {
      watch.Valid()
    }

    constructor (options: nat, contents: seq<Content>, head: Content, degraded: bool)
      requires contents != []
      ensures Valid() && fresh(watch) && watch.contents == contents && this.head == head
    {
      watch := new WatchSignals(contents, degraded);
      this.options, this.head, lastAccounted := options, head, None;
    }

    // The head is the content of an inventory made at or after content v, and it accounts
    // for every hint up to the acknowledged one.
    ghost predicate Accounted(v: int)
      reads this, watch
    {
      && lastAccounted == Some(watch.acknowledged) && watch.Covers(watch.inventory, watch.acknowledged)
      && v <= watch.inventory < |watch.contents| && head == watch.contents[watch.inventory]
    }

    // True: the selected head is the content of one inventory, captured during this call,
    // that accounts for every hint up to the acknowledged one. Anything else that was
    // tried leaves a full inventory pending. now carries the readings of the clock.
    method ReconcileDue(options: nat, force: bool, now: Clock) returns (r: Result<bool>, tried: bool)
      requires Valid()
      modifies this, watch
      ensures Valid() && (watch == old(watch) || fresh(watch)) && old(watch.contents) <= watch.contents
      ensures r == Ok(true) ==> Accounted(old(|watch.contents|) - 1)
      ensures tried && r != Ok(true) ==> watch.AcceptedUnacked() && watch.pending.full && watch.urgent
      ensures !tried ==> head == old(head) && r != Ok(true)
      ensures force && r.Ok? ==> tried
    {
      var fenced: bool := *;
      if fenced {
        return Err(Failure), false;
      }
      if this.options != options {
        var degraded: bool := *;
        watch := new WatchSignals(watch.contents, degraded);
        this.options, lastAccounted := options, None;
      }
      var batch := watch.Drain();
      var due := now.periodic || !((watch.degraded && lastAccounted == Some(batch.generation)) || !Ready(now.deadlinePassed));
      if !force && (now.retrying || !due) {
        return Ok(false), false;
      }
      r := Inventory(batch);
      tried := true;
    }

    predicate Ready(deadlinePassed: bool)
      reads this, watch
    {
      watch.urgent || watch.degraded || (watch.signalled && deadlinePassed)
    }

    method Inventory(batch: DirtyBatch) returns (r: Result<bool>)
      requires Valid() && batch == watch.pending && batch.generation >= 1
      modifies this`lastAccounted, this`head, watch
      ensures Valid() && old(watch.contents) <= watch.contents
      ensures r == Ok(true) ==> Accounted(old(|watch.contents|) - 1)
      ensures r != Ok(true) ==> watch.AcceptedUnacked() && watch.pending.full && watch.urgent
    {
      ghost var v: nat;
      r, v := Publish(batch);
      if r.Ok? {
        watch.Elsewhere();
        var accounted := watch.Acknowledge(batch, v);
        if accounted {
          lastAccounted := Some(batch.generation);
        } else {
          watch.RequireFull();
        }
        return Ok(accounted);
      }
      watch.RequireFull();
      return if r.error.CutoffChanged? then Ok(false) else r;
    }

    // A hint that was counted after the batch stops the publication.
    method Cutoff(batch: DirtyBatch) returns (ok: bool)
      requires Valid()
      modifies watch
      ensures Valid() && old(watch.contents) <= watch.contents && old(watch.reached) <= watch.reached
      ensures watch.acknowledged == old(watch.acknowledged) && watch.inventory == old(watch.inventory)
      ensures ok ==> watch.pending.generation == batch.generation
    {
      var current := watch.Drain();
      ok := current.generation == batch.generation;
    }

    // One capture, and the head it is found or made equal to. A failure may come after the
    // commit.
    method Publish(batch: DirtyBatch) returns (r: Result<bool>, ghost v: nat)
      requires Valid() && batch == watch.pending && batch.generation >= 1
      modifies this`head, watch
      ensures Valid() && old(watch.contents) <= watch.contents && old(watch.reached) <= watch.reached
      ensures r.Ok? ==>
                && old(|watch.contents|) - 1 <= v < |watch.contents| && watch.reached[batch.generation] <= v
                && head == watch.contents[v]
    {
      watch.Elsewhere();
      v := |watch.contents| - 1;
      var captured := watch.contents[|watch.contents| - 1];
      watch.Elsewhere();
      var broken: bool := *;
      if broken {
        return Err(Failure), v;
      }
      r := Select(batch, captured);
    }

    // The captured bytes are compared with the head, or published.
    method Select(batch: DirtyBatch, captured: Content) returns (r: Result<bool>)
      requires Valid()
      modifies this`head, watch
      ensures Valid() && old(watch.contents) <= watch.contents && old(watch.reached) <= watch.reached
      ensures r.Ok? ==> head == captured
    {
      var comparable, committed, attested: bool := *, *, *;
      var ok := Cutoff(batch);
      if !ok {
        return Err(CutoffChanged);
      }
      var same := comparable && head == captured;
      ok := Cutoff(batch);
      if !ok {
        return Err(CutoffChanged);
      }
      if same {
        return Ok(true);
      }
      if committed {
        head := captured;
      }
      return if committed && attested then Ok(true) else Err(Failure);
    }
  }

  datatype Clock = Clock(periodic: bool, retrying: bool, deadlinePassed: bool)
}
