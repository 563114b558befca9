// What has to be true of a configuration before put_sample can drop anything.
module AsyncLimits {
  import opened Arithmetic
  import opened QueueItems
  import opened AsyncProtocol
  import opened AsyncSafety
  import opened AsyncConservation
  import opened AsyncAge
  import opened AsyncEnd

  // The samples consumed per parameter version.
  function PerVersion(c: Config): int { c.required * c.trigger }

  // ---- counter resets ----

  // A reset comes after a sync, and a sync after a whole version's worth of batches.
  ghost predicate ResetInv(c: Config, s: State) {
    && s.trainer.copied >= c.startVersion
    && (!s.ver.update.Idle? || !s.history.handEmptyAtResets ==> s.trainer.copied > c.startVersion)
  }

  lemma {:induction false} ResetKept(c: Config, s: State, a: Action)
    requires c.maxRequired >= 1 && c.trigger >= 1 && LockInv(s) && VersionInv(c, s) && ResetInv(c, s)
    requires Enabled(c, s, a)
    ensures ResetInv(c, Apply(c, s, a))
  {
    match a
    case OfTrainer(n) => ResetTrainer(c, s, n);
    case OfUpdate(u) =>
    case _ => SameVersions(c, s, a);
  }

  lemma {:induction false} SameVersions(c: Config, s: State, a: Action)
    requires c.maxRequired >= 1 && Enabled(c, s, a) && !a.OfTrainer? && !a.OfUpdate?
    ensures var t := Apply(c, s, a);
      && t.trainer == s.trainer && t.ver.update == s.ver.update && t.ver.current == s.ver.current
      && t.history.handEmptyAtResets == s.history.handEmptyAtResets
      && t.history.trained == s.history.trained && t.history.consumed == s.history.consumed
  {}

  lemma {:induction false} ResetTrainer(c: Config, s: State, a: TrainerAction)
    requires c.trigger >= 1 && VersionInv(c, s) && ResetInv(c, s) && TrainerCan(c, s, a)
    ensures ResetInv(c, TrainerDo(c, s, a))
  {}

  // Before the end, versions broadcast are paid for by consumed samples.
  lemma {:induction false} ConsumedForVersions(c: Config, s: State)
    requires c.required >= 1 && c.trigger >= 1 && LockInv(s) && VersionInv(c, s) && BatchInv(c, s)
    requires !TrainerClosed(s.trainer.phase)
    ensures |s.history.consumed| >= (s.trainer.copied - c.startVersion) * PerVersion(c)
  {
    var n, v := |s.history.trained|, s.trainer.copied - c.startVersion;
    assert v <= n / c.trigger;
    BatchArithmetic(n, c.required, c.trigger);
    if v < 0 {
      Product(-v, PerVersion(c));
      assert (-v) * PerVersion(c) == -(v * PerVersion(c));
    } else {
      Monotone(v, n / c.trigger, PerVersion(c));
    }
  }

  // ---- samples taken ----

  // Samples taken from the pending queue.
  function Taken(s: State): int {
    Outstanding(s) + |s.history.consumed| + |s.history.dropped|
  }

  function Resets(c: Config, s: State): int {
    s.ver.current - c.startVersion - (if s.ver.update.Counting? || s.ver.update.Counted? then 1 else 0)
  }

  // As long as no counter reset has missed a sample, no more is taken per reset than can be
  // outstanding, and since the last one no more than the counter says.
  ghost predicate TakenInv(c: Config, s: State) {
    var before := Resets(c, s) * c.maxRequired;
    s.history.handEmptyAtResets ==>
      && Taken(s) <= before + s.ver.staleness && Taken(s) <= before + c.maxRequired
      && (s.worker.loc.AwaitPending? ==> Taken(s) < before + c.maxRequired)
  }

  lemma {:induction false} TakenProcessor(c: Config, s: State, a: ProcessorAction)
    requires HandInv(s.worker) && TakenInv(c, s) && ProcessorCan(s, a)
    requires s.worker.hand != [] ==> s.worker.hand[0] !in s.pool.running
    ensures TakenInv(c, ProcessorDo(c, s, a))
  {
    if a.Submit? { RunningSizes(s.pool.running, s.worker.hand[0], Generating); }
  }

  lemma {:induction false} TakenTask(c: Config, s: State, a: TaskAction)
    requires c.maxRequired >= 1 && TakenInv(c, s) && TaskCan(s, a) && !a.PutEnd?
    ensures TakenInv(c, TaskDo(c, s, a))
  {
    RunningSizes(s.pool.running, a.id, Finished(s.ver.current));
  }

  lemma {:induction false} TakenTrainer(c: Config, s: State, a: TrainerAction)
    requires TakenInv(c, s) && TrainerCan(c, s, a) && ClosedInv(s) && !s.gate.closed && LockInv(s)
    ensures TakenInv(c, TrainerDo(c, s, a))
  {
    assert TrainerDo(c, s, a).worker == s.worker && TrainerDo(c, s, a).ver.staleness == s.ver.staleness;
  }

  lemma {:induction false} TakenWrite(c: Config, s: State)
    requires c.maxRequired >= 1 && c.trigger >= 1 && VersionInv(c, s) && CounterInv(c, s)
    requires TakenInv(c, s) && s.ver.update.Counted?
    ensures TakenInv(c, UpdateDo(s, UpdateWrite))
  {
    var m, d := c.maxRequired, Resets(c, s);
    assert (d + 1) * m == d * m + m;
  }

  // If no more can be outstanding than one version consumes, then all that was taken has been
  // consumed by the time of the next reset.
  lemma {:induction false} HandIsEmpty(c: Config, s: State)
    requires c.required >= 1 && c.trigger >= 1 && PerVersion(c) == c.maxRequired
    requires LockInv(s) && VersionInv(c, s) && BatchInv(c, s)
    requires TakenInv(c, s) && s.history.handEmptyAtResets && s.ver.update.Counted?
    requires !TrainerClosed(s.trainer.phase)
    ensures s.worker.hand == []
  {
    hide IsBlock;
    var k, d := PerVersion(c), Resets(c, s);
    ConsumedForVersions(c, s);
    assert s.trainer.copied - c.startVersion == d + 1;
    assert (d + 1) * k == d * k + k;
  }

  lemma {:induction false} TakenUpdate(c: Config, s: State, a: UpdateAction)
    requires c.trigger >= 1 && VersionInv(c, s) && TakenInv(c, s) && UpdateCan(s, a) && !a.UpdateWrite?
    ensures TakenInv(c, UpdateDo(s, a))
  {}

  lemma {:induction false} TakenOther(c: Config, s: State, a: OtherAction)
    requires TakenInv(c, s) && OtherCan(c, s, a)
    ensures TakenInv(c, OtherDo(c, s, a))
  {}

  // ---- what a drop takes ----

  // Something is dropped before the final None only if there is a server, more samples can be
  // outstanding than one version consumes, and there is data for one version and one sample more
  // than can be outstanding.
  predicate CanLose(c: Config) {
    c.servers >= 1 && PerVersion(c) < c.maxRequired && FedTotal(c) > PerVersion(c) + c.maxRequired
  }

  ghost predicate Full(c: Config, s: State)
    requires c.required >= 1 && c.trigger >= 1
  {
    && EndingInv(c, s) && Aged(c, s) && ResetInv(c, s)
    && (!s.gate.closed ==> TakenInv(c, s))
    && (!s.gate.closed && PerVersion(c) == c.maxRequired ==> s.history.handEmptyAtResets)
    && (!s.gate.closed && s.history.dropped != [] ==> CanLose(c))
  }

  lemma {:induction false} FedAtMost(c: Config, f: FeedState)
    requires FeedInv(c, f)
    ensures f.fed <= FedTotal(c)
  {}

  lemma {:induction false} DropNeeds(c: Config, s: State, id: nat)
    requires c.required >= 1 && c.trigger >= 1 && c.maxRequired >= PerVersion(c) && Full(c, s)
    requires c.maxConcurrent == Min(c.servers * 16, c.maxRequired)
    requires !s.gate.closed && s.history.dropped == [] && TaskCan(s, PutSample(id))
    requires TaskDo(c, s, PutSample(id)).history.dropped != []
    ensures CanLose(c)
  {
    hide IsBlock, TaskInv, EntriesInv, FinalInv, PendingInv, RolloutsInv;
    CounterTask(c, s, PutSample(id));
    assert Outstanding(s) == c.maxRequired + 1;
    assert !s.history.handEmptyAtResets;
    ConsumedForVersions(c, s);
    var v, k := s.trainer.copied - c.startVersion, PerVersion(c);
    Product(c.required, c.trigger);
    assert v >= 1;
    Monotone(1, v, k);
    FedAtMost(c, s.feed);
    assert |s.pool.running| >= 1;
  }

  lemma {:induction false} TakenKept(c: Config, s: State, a: Action)
    requires c.required >= 1 && c.trigger >= 1 && c.maxRequired >= 1
    requires Full(c, s) && !s.gate.closed && Enabled(c, s, a) && !Apply(c, s, a).gate.closed
    ensures TakenInv(c, Apply(c, s, a))
  {
    hide TakenInv, IsBlock, TaskInv, EntriesInv, FinalInv, PendingInv, RolloutsInv, CounterInv, ConcurrencyInv;
    if s.worker.hand != [] { HandNotRunning(c, s); }
    match a
    case OfProcessor(p) => TakenProcessor(c, s, p);
    case OfTask(k) => OnlyPutsDrop(c, s, a); TakenTask(c, s, k);
    case OfTrainer(n) => TakenTrainer(c, s, n);
    case OfUpdate(u) => if u.UpdateWrite? { TakenWrite(c, s); } else { TakenUpdate(c, s, u); }
    case Other(o) => TakenOther(c, s, o);
  }

  lemma {:induction false} EmptyKept(c: Config, s: State, a: Action)
    requires c.required >= 1 && c.trigger >= 1 && c.maxRequired >= 1 && PerVersion(c) == c.maxRequired
    requires Full(c, s) && !s.gate.closed && Enabled(c, s, a)
    ensures Apply(c, s, a).history.handEmptyAtResets
  {
    hide TakenInv, IsBlock, TaskInv, EntriesInv, FinalInv, PendingInv, RolloutsInv, CounterInv, ConcurrencyInv;
    if a == OfUpdate(UpdateWrite) { HandIsEmpty(c, s); } else { OnlyWriteMisses(c, s, a); }
  }

  lemma {:induction false} OnlyWriteMisses(c: Config, s: State, a: Action)
    requires c.maxRequired >= 1 && Enabled(c, s, a) && a != OfUpdate(UpdateWrite)
    ensures Apply(c, s, a).history.handEmptyAtResets == s.history.handEmptyAtResets
  {
    hide ShouldPause;
  }

  lemma {:induction false} LossKept(c: Config, s: State, a: Action)
    requires c.required >= 1 && c.trigger >= 1 && c.maxRequired >= 1 && c.maxRequired >= PerVersion(c)
    requires c.maxConcurrent == Min(c.servers * 16, c.maxRequired)
    requires Full(c, s) && Enabled(c, s, a)
    ensures !Apply(c, s, a).gate.closed && Apply(c, s, a).history.dropped != [] ==> CanLose(c)
  {
    hide CanLose, EndingInv, Aged, ResetInv, TakenInv;
    ClosedStays(c, s, a);
    OnlyPutsDrop(c, s, a);
    if s.history.dropped == [] && a.OfTask? && a.k.PutSample? && !s.gate.closed {
      if TaskDo(c, s, a.k).history.dropped != [] { DropNeeds(c, s, a.k.id); }
    }
  }

  lemma {:induction false} ClosedStays(c: Config, s: State, a: Action)
    requires c.maxRequired >= 1 && Enabled(c, s, a)
    ensures s.gate.closed ==> Apply(c, s, a).gate.closed
    ensures a.OfTask? && !a.k.PutSample? && !Apply(c, s, a).gate.closed ==>
      Apply(c, s, a).history.dropped == s.history.dropped
  {}

  lemma {:induction false} AgedKept(c: Config, s: State, a: Action)
    requires c.maxRequired >= 1 && c.required >= 1 && c.trigger >= 1 && Aged(c, s) && Enabled(c, s, a)
    ensures Aged(c, Apply(c, s, a))
  {
    hide LockInv, BatchInv, VersionInv, TaskInv, EntriesInTime, Apply, Enabled;
    LockKept(c, s, a);
    BatchKept(c, s, a);
    VersionKept(c, s, a);
    TaskKept(c, s, a);
    EntriesKept(c, s, a);
  }

  lemma {:induction false} FullRun(c: Config, s: State, actions: seq<Action>)
    requires c.required >= 1 && c.trigger >= 1 && c.maxRequired >= 1 && c.maxRequired >= PerVersion(c)
    requires c.maxConcurrent == Min(c.servers * 16, c.maxRequired)
    requires Full(c, s) && Exec(c, s, actions).Reached?
    ensures Full(c, Exec(c, s, actions).state)
    decreases |actions|
  {
    hide EndingInv, ResetInv, TakenInv, CanLose, VersionInv, BatchInv, LockInv, TaskInv, EntriesInv, Enabled, Apply;
    if actions != [] {
      var a := actions[0];
      EndingKept(c, s, a);
      AgedKept(c, s, a);
      ResetKept(c, s, a);
      StaysClosed(c, s, a);
      if !Apply(c, s, a).gate.closed {
        TakenKept(c, s, a);
        if PerVersion(c) == c.maxRequired { EmptyKept(c, s, a); }
      }
      LossKept(c, s, a);
      FullRun(c, Apply(c, s, a), actions[1..]);
    }
  }

  lemma {:induction false} StaysClosed(c: Config, s: State, a: Action)
    requires c.maxRequired >= 1 && Enabled(c, s, a)
    ensures s.gate.closed ==> Apply(c, s, a).gate.closed
  {
    ClosedStays(c, s, a);
  }

  // max_required_samples covers at least one version.
  lemma {:induction false} CoversVersion(c: Config)
    requires Valid(c)
    ensures c.required >= 1 && c.trigger >= 1 && 1 <= PerVersion(c) <= c.maxRequired
  {
    var r, t, h := c.required as real, c.trigger as real, c.threshold;
    assert c.required * c.trigger >= 1;
    assert r * (h + 1.0) * t == (r * t) * (h + 1.0);
    assert (r * t) * (h + 1.0) >= r * t;
    assert r * t == (c.required * c.trigger) as real;
  }

  lemma {:induction false} FullAlways(c: Config, s: State)
    requires Reachable(c, s)
    ensures c.required >= 1 && c.trigger >= 1 && Full(c, s)
  {
    hide IsBlock, TaskInv, EntriesInv;
    MaxRequiredBounds(c);
    CoversVersion(c);
    var actions :| Exec(c, Init(c), actions) == Reached(s);
    assert Exec(c, Init(c), []) == Reached(Init(c));
    EndingAlways(c, Init(c));
    AgedAlways(c, Init(c));
    FullRun(c, Init(c), actions);
  }

  // No put_sample of any run drops anything unless the configuration can lose samples.
  lemma {:induction false} DropsOnlyIf(c: Config, s: State)
    requires Reachable(c, s) && !s.gate.closed && s.history.dropped != []
    ensures CanLose(c)
  {
    FullAlways(c, s);
  }
}
