// What a finished run has done: the final None is the last entry put and is never dropped, and
// the numbers of samples, batches and versions are determined by what was fed.
module AsyncEnd {
  import opened Arithmetic
  import opened QueueItems
  import opened AsyncProtocol
  import opened AsyncSafety
  import opened AsyncConservation
  import opened AsyncAge

  // ---- sizes ----

  // The number of samples in a queue whose only end marker is last.
  function Samples(q: seq<Item>): nat {
    if q != [] && q[|q| - 1].EndMark? then |q| - 1 else |q|
  }

  function Upstream(s: State): int {
    Samples(s.feed.pending) + |s.worker.hand| + |s.pool.running| + |s.pool.cancelQueue|
  }

  function Downstream(s: State): int {
    Samples(s.queue) + |s.history.consumed| + |s.history.dropped|
  }

  ghost predicate SizeInv(s: State) {
    s.feed.fed == Upstream(s) + Downstream(s)
  }

  lemma {:induction false} SizePut(c: Config, s: State, x: Item)
    requires c.maxRequired >= 1 && AllRollouts(s.queue)
    ensures Downstream(DoPut(c, s, x)) == Downstream(s) + if x.Rollout? then 1 else 0
  {}

  lemma {:induction false} SizeTask(c: Config, s: State, a: TaskAction)
    requires c.maxRequired >= 1 && ClosedInv(s) && SizeInv(s) && TaskCan(s, a)
    ensures SizeInv(TaskDo(c, s, a))
  {
    if a.PutEnd? {
      SizePut(c, s.(gate := s.gate.(closed := true)), EndMark);
    } else {
      RunningSizes(s.pool.running, a.id, Finished(s.ver.current));
      if a.PutSample? { SizePut(c, Finish(s, a.id), Rollout(a.id, s.pool.running[a.id].version)); }
    }
  }

  lemma {:induction false} SizeSubmit(c: Config, s: State, id: nat)
    requires ProcessorCan(s, Submit) && HandInv(s.worker) && id == s.worker.hand[0]
    requires id !in s.pool.running && SizeInv(s)
    ensures SizeInv(ProcessorDo(c, s, Submit))
  {
    assert s.pool.running[id := Generating].Keys == s.pool.running.Keys + {id};
    assert |s.pool.running[id := Generating]| == |s.pool.running| + 1;
  }

  lemma {:induction false} SizeProcessor(c: Config, s: State, a: ProcessorAction)
    requires ProcessorCan(s, a) && HandInv(s.worker) && PendingInv(s) && SizeInv(s)
    requires s.worker.hand != [] ==> s.worker.hand[0] !in s.pool.running
    ensures SizeInv(ProcessorDo(c, s, a))
  {
    match a
    case Submit => SizeSubmit(c, s, s.worker.hand[0]);
    case TakePending => SizeTake(s);
    case Look =>
    case _ => assert ProcessorDo(c, s, a).worker.hand == s.worker.hand;
  }

  lemma {:induction false} SizeTake(s: State)
    requires s.feed.pending != [] && s.worker.hand == [] && PendingInv(s) && SizeInv(s)
    ensures SizeInv(DoTakePending(s))
  {}

  lemma {:induction false} SizeOther(c: Config, s: State, a: OtherAction)
    requires OtherCan(c, s, a) && PendingInv(s) && SizeInv(s)
    ensures SizeInv(OtherDo(c, s, a))
  {}

  lemma {:induction false} SizeTrainer(c: Config, s: State, a: TrainerAction)
    requires TrainerCan(c, s, a) && ClosedInv(s) && SizeInv(s)
    ensures SizeInv(TrainerDo(c, s, a))
  {}

  // ---- the feeder ----

  ghost predicate FeedInv(c: Config, f: FeedState) {
    && f.fed <= c.epochItems
    && (f.phase.Feeding? ==> f.fed == 0 || c.firstStep + f.fed - 1 < c.totalSteps)
    && (f.phase.Ending? ==> Stops(c, f.fed))
    && (f.phase.Fed? ==>
          Stops(c, f.fed)
          || (f.fed == c.epochItems && (f.fed == 0 || c.firstStep + f.fed - 1 < c.totalSteps)))
  }

  // The step that stops the feeder is the first one at or above the total.
  predicate Stops(c: Config, fed: nat) {
    fed >= 1 && c.firstStep + fed - 1 >= c.totalSteps
    && (fed == 1 || c.firstStep + fed - 2 < c.totalSteps)
  }

  // At least one sample, at most up to the total, and no more than the iterator yields.
  function FedTotal(c: Config): nat {
    Min(c.epochItems, if c.totalSteps > c.firstStep then c.totalSteps - c.firstStep + 1 else 1)
  }

  // ---- the final None ----

  ghost predicate FinalInv(s: State) {
    && EndMarkLast(s.history.puts)
    && (s.gate.closed ==>
          s.history.puts != [] && s.history.puts[|s.history.puts| - 1].EndMark?)
    && (!s.gate.closed ==> AllRollouts(s.history.puts))
  }

  lemma {:induction false} FinalKept(c: Config, s: State, a: Action)
    requires c.maxRequired >= 1 && ClosedInv(s) && FinalInv(s) && Enabled(c, s, a)
    ensures FinalInv(Apply(c, s, a))
  {
    match a
    case OfTask(k) => FinalTask(c, s, k);
    case _ => NonePut(c, s, a);
  }

  lemma {:induction false} FinalTask(c: Config, s: State, a: TaskAction)
    requires c.maxRequired >= 1 && ClosedInv(s) && FinalInv(s) && TaskCan(s, a)
    ensures FinalInv(TaskDo(c, s, a))
  {
    if !a.PutEnd? { RunningSizes(s.pool.running, a.id, Generating); }
  }

  lemma {:induction false} FeedKept(c: Config, s: State, a: Action)
    requires c.maxRequired >= 1 && FeedInv(c, s.feed) && Enabled(c, s, a)
    ensures FeedInv(c, Apply(c, s, a).feed)
  {
    if !a.Other? {
      assert Apply(c, s, a).feed.fed == s.feed.fed && Apply(c, s, a).feed.phase == s.feed.phase;
    }
  }

  // ---- every run ----

  lemma {:induction false} SizeKept(c: Config, s: State, a: Action)
    requires c.maxRequired >= 1 && Safe(c, s) && SizeInv(s) && Enabled(c, s, a)
    requires s.worker.hand != [] ==> s.worker.hand[0] !in s.pool.running
    ensures SizeInv(Apply(c, s, a))
  {
    match a
    case OfProcessor(p) => SizeProcessor(c, s, p);
    case OfTask(k) => SizeTask(c, s, k);
    case OfTrainer(n) => SizeTrainer(c, s, n);
    case OfUpdate(u) => SizeUpdate(s, u);
    case Other(o) => SizeOther(c, s, o);
  }

  lemma {:induction false} SizeUpdate(s: State, a: UpdateAction)
    requires UpdateCan(s, a) && SizeInv(s)
    ensures SizeInv(UpdateDo(s, a))
  {}

  lemma {:induction false} HandNotRunning(c: Config, s: State)
    requires s.worker.hand != [] && Conserved(c, s, s.worker.hand[0])
    ensures s.worker.hand[0] !in s.pool.running
  {}

  ghost predicate EndingInv(c: Config, s: State) {
    Safe(c, s) && SizeInv(s) && FeedInv(c, s.feed) && FinalInv(s)
    && forall id: nat :: Conserved(c, s, id)
  }

  lemma {:induction false} EndingKept(c: Config, s: State, a: Action)
    requires c.maxRequired >= 1 && EndingInv(c, s) && Enabled(c, s, a)
    ensures EndingInv(c, Apply(c, s, a))
  {
    if s.worker.hand != [] { HandNotRunning(c, s); }
    SafeKept(c, s, a);
    SizeKept(c, s, a);
    FeedKept(c, s, a);
    FinalKept(c, s, a);
    forall id: nat ensures Conserved(c, Apply(c, s, a), id) { ConservationKept(c, s, a, id); }
  }

  lemma {:induction false} EndingRun(c: Config, s: State, actions: seq<Action>)
    requires c.maxRequired >= 1 && EndingInv(c, s) && Exec(c, s, actions).Reached?
    ensures EndingInv(c, Exec(c, s, actions).state)
    decreases |actions|
  {
    if actions != [] {
      EndingKept(c, s, actions[0]);
      EndingRun(c, Apply(c, s, actions[0]), actions[1..]);
    }
  }

  lemma {:induction false} EndingAlways(c: Config, s: State)
    requires Reachable(c, s)
    ensures EndingInv(c, s)
  {
    MaxRequiredBounds(c);
    var actions :| Exec(c, Init(c), actions) == Reached(s);
    EndingRun(c, Init(c), actions);
  }

  lemma {:induction false} BatchCount(c: Config, s: State)
    requires c.required >= 1 && c.trigger >= 1 && BatchInv(c, s) && |s.trainer.collected| < c.required
    ensures |s.history.trained| == |s.history.consumed| / c.required
  {
    Quotient(|s.history.consumed|, c.required, |s.history.trained|, |s.trainer.collected|);
  }

  // The final None is the last entry put, the only end marker, and never dropped.
  lemma {:induction false} FinalNone(c: Config, s: State)
    requires Reachable(c, s)
    ensures forall i :: 0 <= i < |s.history.puts| - 1 ==> s.history.puts[i].Rollout?
    ensures s.gate.closed ==> s.history.puts != [] && s.history.puts[|s.history.puts| - 1].EndMark?
    ensures AllRollouts(s.history.dropped)
    ensures TrainerClosed(s.trainer.phase) <==> s.gate.closed && s.queue == []
  {
    EndingAlways(c, s);
  }

  // Batch k is the k-th block of required_samples consecutive samples, in the order in which they
  // were consumed, and is trained on at version startVersion + k / trigger.
  lemma {:induction false} TrainedBlocks(c: Config, s: State, k: nat)
    requires Reachable(c, s) && k < |s.history.trained|
    ensures 0 <= k * c.required <= (k + 1) * c.required <= |s.history.consumed| && c.trigger >= 1
    ensures s.history.trained[k].batch == s.history.consumed[k * c.required..(k + 1) * c.required]
    ensures s.history.trained[k].version == c.startVersion + k / c.trigger
  {
    hide Reachable, LockInv, VersionInv, TaskInv, EntriesInv;
    AgedAlways(c, s);
    assert IsBlock(c, s.history, k);
  }

  // Between training steps the step counter is determined by the version and the local step.
  lemma {:induction false} StepFormula(c: Config, s: State)
    requires Reachable(c, s) && s.trainer.phase.Collecting?
    ensures s.trainer.globalSteps - 1 == s.trainer.version * c.trigger + (s.trainer.localStep - 1)
  {
    AgedAlways(c, s);
    var n := |s.history.trained|;
    assert n == (n / c.trigger) * c.trigger + n % c.trigger;
    assert s.trainer.version * c.trigger
        == c.startVersion * c.trigger + (n / c.trigger) * c.trigger;
  }

  // int(total_rollout_steps / (required_samples * trigger_parameter_sync_step))
  function TotalTrainSteps(c: Config): int
    requires c.required * c.trigger >= 1
  {
    c.totalSteps / (c.required * c.trigger)
  }

  // When the trainer has seen the end of a run whose processor ended normally, everything fed
  // was consumed except what was dropped or left in the cancel queue; the batches and the
  // regular syncs are the whole quotients.
  lemma {:induction false} EndOfRun(c: Config, s: State)
    requires Reachable(c, s) && s.trainer.phase.Closing? && s.worker.loc.Ended?
    ensures c.required >= 1 && c.trigger >= 1 && c.required * c.trigger >= 1
    ensures s.feed.fed == FedTotal(c)
    // the first step at or above the total is the last, unless the data ends before
    ensures s.feed.fed <= c.epochItems && (s.feed.fed < c.epochItems ==> c.firstStep + s.feed.fed > c.totalSteps)
    ensures s.feed.fed >= 2 ==> c.firstStep + s.feed.fed - 1 <= c.totalSteps
    ensures |s.history.consumed| == FedTotal(c) - |s.history.dropped| - |s.pool.cancelQueue|
    ensures |s.history.trained| == |s.history.consumed| / c.required
    ensures s.trainer.version - c.startVersion == |s.history.consumed| / (c.required * c.trigger)
  {
    EndingAlways(c, s);
    AgedAlways(c, s);
    Times(c.required, c.trigger);
    BatchCount(c, s);
    DivDiv(|s.history.consumed|, c.required, c.trigger);
    assert |s.pool.running| == 0;
  }

  // A fresh run over enough data that neither drops nor leaves a cancelled sample makes exactly
  // total_train_steps regular syncs.
  lemma {:induction false} AllTrainSteps(c: Config, s: State)
    requires Reachable(c, s) && s.trainer.phase.Closing? && s.worker.loc.Ended?
    requires s.history.dropped == [] && s.pool.cancelQueue == []
    requires c.firstStep == 1 && 1 <= c.totalSteps <= c.epochItems
    ensures c.required * c.trigger >= 1
    ensures s.trainer.version - c.startVersion == TotalTrainSteps(c) == c.totalSteps / (c.required * c.trigger)
  {
    EndOfRun(c, s);
  }

  // In particular a run whose counter resets all find the processor's hand empty does, if no
  // cancelled sample is left.
  lemma {:induction false} AllTrainStepsWithoutLoss(c: Config, s: State)
    requires Reachable(c, s) && s.trainer.phase.Closing? && s.worker.loc.Ended?
    requires s.history.handEmptyAtResets && s.pool.cancelQueue == []
    requires c.firstStep == 1 && 1 <= c.totalSteps <= c.epochItems
    ensures c.required * c.trigger >= 1 && s.history.dropped == []
    ensures s.trainer.version - c.startVersion == TotalTrainSteps(c)
  {
    hide Reachable, ClosedInv;
    NoLoss(c, s);
    AllTrainSteps(c, s);
  }
}
