// What the moves of the protocol wait for and what they take, over all actors at once; and when the
// sync at the end of a run happens.
module AsyncMoves {
  import opened QueueItems
  import opened AsyncProtocol
  import opened AsyncSafety
  import opened AsyncAge
  import opened AsyncLimits

  // ---- the start ----

  // A run starts with nothing fed, held or queued, the lock free, no pause, and the monitor allowed to
  // look; trainer, rollouter and rollout workers agree on the version, and the step is the one that
  // loading a checkpoint of that version computes.
  lemma {:induction false} Starts(c: Config)
    requires Valid(c)
    ensures Reachable(c, Init(c))
    ensures var s := Init(c);
      && s.feed.fed == 0 && s.feed.pending == [] && s.worker.hand == [] && s.worker.loc.Top?
      && s.Active() == 0 && s.pool.cancelQueue == [] && s.queue == [] && s.ver.staleness == 0 && s.ver.update.Idle?
      && s.gate.lock.Free? && !s.gate.paused && !s.gate.cancelling && s.gate.monitorTrigger && !s.gate.monitorWaiting
      && s.trainer.version == s.ver.current == s.trainer.copied == c.startVersion
      && s.trainer.phase.Collecting? && s.trainer.collected == [] && s.trainer.localStep == 1
      && s.trainer.globalSteps == c.startVersion * c.trigger + 1 && !s.gate.closed && !s.worker.doneBound
  {
    MaxRequiredBounds(c);
    assert Exec(c, Init(c), []) == Reached(Init(c));
  }

  // ---- the processor ----

  // There is room for one more sample.
  predicate Room(c: Config, s: State) { |s.queue| < c.maxRequired && s.ver.staleness < c.maxRequired }

  lemma {:induction false} OnlyProcessor(c: Config, s: State, a: Action)
    requires c.maxRequired >= 1 && Enabled(c, s, a)
    ensures !a.OfProcessor? ==> Apply(c, s, a).worker == s.worker
  {}

  // The processor goes to its pause only at a pause or without room; it rests there, or ends, only with
  // no task left, and gets to submitting only with a slot left.  It waits at the pending queue only with
  // room, outside a pause and with no cancelled sample to take up again.
  lemma {:induction false} ProcessorWaits(c: Config, s: State, a: Action)
    requires c.maxRequired >= 1 && Enabled(c, s, a)
    ensures var x, x' := s.worker.loc, Apply(c, s, a).worker.loc;
      && (x' == MarkPaused && x != x' ==> s.gate.paused || !Room(c, s))
      && (x' == AwaitPending && x != x' ==> !s.gate.paused && Room(c, s) && s.pool.cancelQueue == [])
      && (x' == WaitResume && x != x' ==> s.Active() == 0)
      && (x' == Ended && x != x' ==> s.Active() == 0)
      && (x' == Submitting && x != x' ==> s.Active() < c.maxConcurrent)
      && (x' == Top && x == WaitResume ==> !s.gate.paused)
  {
    OnlyProcessor(c, s, a);
  }

  // Cancelled samples are taken up first, in the order in which they were cancelled, and do not count
  // again; new ones in the order of the pending queue, and count.
  lemma {:induction false} HandTakes(c: Config, s: State, a: Action)
    requires c.maxRequired >= 1 && Enabled(c, s, a) && s.worker.hand == [] && Apply(c, s, a).worker.hand != []
    ensures var s' := Apply(c, s, a);
      if s.worker.loc == Top then
        && !s.gate.paused && Room(c, s) && s.pool.cancelQueue == s'.worker.hand + s'.pool.cancelQueue
        && s'.ver.staleness == s.ver.staleness && s'.feed == s.feed
      else
        && s.feed.pending != [] && s'.feed.pending == s.feed.pending[1..] && s.feed.pending[0].Rollout?
        && s'.worker.hand == [s.feed.pending[0].id] && s'.ver.staleness == s.ver.staleness + 1
  {
    OnlyProcessor(c, s, a);
  }

  // A task starts with the sample in hand, outside a pause and with the lock free.  It completes with
  // the version of that moment, unless the servers are cancelled from the end of a pause to the resume; or
  // it is cancelled, and then waits behind those cancelled before.
  lemma {:induction false} TaskMoves(c: Config, s: State, a: Action, id: nat)
    requires c.maxRequired >= 1 && Enabled(c, s, a)
    requires s.worker.hand != [] ==> s.worker.hand[0] !in s.pool.running
    ensures var s' := Apply(c, s, a);
      && (id in s'.pool.running && id !in s.pool.running ==>
            && s'.pool.running[id] == Generating && s.worker.hand == [id] + s.worker.hand[1..]
            && !s.gate.paused && s.gate.lock.Free?)
      && (id in s'.pool.running && id in s.pool.running && s'.pool.running[id] != s.pool.running[id] ==>
            && s.pool.running[id] == Generating && s'.pool.running[id] == Finished(s.ver.current)
            && (s.gate.cancelling ==> s.ver.update.Resuming? || !s.InWindow()))
      && (id in s.pool.running && id !in s'.pool.running ==>
            if s.pool.running[id].Finished? then
              s'.queue != [] && s'.queue[|s'.queue| - 1] == Rollout(id, s.pool.running[id].version)
            else s.gate.cancelling && s'.pool.cancelQueue == s.pool.cancelQueue + [id])
  {
    match a
    case OfTask(k) =>
    case OfProcessor(p) => if p.Submit? { assert s.worker.hand == [s.worker.hand[0]] + s.worker.hand[1..]; }
    case _ => assert Apply(c, s, a).pool.running == s.pool.running;
  }

  // ---- the staleness counter and the version ----

  // Apart from the draws the counter changes only when a reset is written, and a reset adds up the tasks
  // still held, those cancelled, and what is queued when it asks.  The version is that of the update,
  // taken with the free lock.
  lemma {:induction false} CounterMoves(c: Config, s: State, a: Action)
    requires c.maxRequired >= 1 && Enabled(c, s, a) && LockInv(s)
    ensures var s' := Apply(c, s, a);
      && (s'.ver.update.Counting? && !s.ver.update.Counting? ==>
            s'.ver.update.partialCount == |s.pool.running| + s.pool.finished + |s.pool.cancelQueue|)
      && (s'.ver.update.Counted? && !s.ver.update.Counted? ==>
            s.ver.update.Counting? && s'.ver.update.count == s.ver.update.partialCount + |s.queue|)
      && (s'.ver.staleness != s.ver.staleness ==>
            || (s.ver.update.Counted? && s'.ver.staleness == s.ver.update.count)
            || (s.worker.loc == AwaitPending && s.feed.pending != [] && s'.ver.staleness == s.ver.staleness + 1))
      && (s.ver.update.Counted? && !s'.ver.update.Counted? ==> s'.ver.staleness == s.ver.update.count)
      && (s.feed.pending != [] && s'.feed.pending == s.feed.pending[1..] ==> s'.ver.staleness == s.ver.staleness + 1)
      && (s'.ver.current != s.ver.current ==>
            s.ver.update.Requested? && s'.ver.current == s.ver.update.version && s.gate.lock.Free?)
  {
    match a
    case OfTask(k) => assert Apply(c, s, a).ver == s.ver;
    case _ =>
  }

  // ---- the feeder ----

  // It puts samples with consecutive numbers, up to the first at the total or above, or to the end of the
  // data, and then the end marker; it waits for nothing but room among 128 entries.
  lemma {:induction false} FeederMoves(c: Config, s: State, a: Action)
    requires c.maxRequired >= 1 && Enabled(c, s, a)
    ensures var f, f' := s.feed, Apply(c, s, a).feed;
      && (f'.fed != f.fed || f'.phase != f.phase ==> a.Other? && |f.pending| < 128)
      && (f'.fed != f.fed ==>
            && f.phase.Feeding? && f.fed < c.epochItems && f'.fed == f.fed + 1
            && f'.pending == f.pending + [Rollout(c.firstStep + f.fed, 0)]
            && f'.phase == if c.firstStep + f.fed < c.totalSteps then Feeding else Ending)
      && (f'.fed == f.fed && f'.phase != f.phase ==>
            f'.phase.Fed? && f'.pending == f.pending + [EndMark] && (f.phase.Ending? || f.fed == c.epochItems))
    ensures |s.feed.pending| <= 128 ==> |Apply(c, s, a).feed.pending| <= 128
    ensures |s.feed.pending| < 128 && !s.feed.phase.Fed? && s.feed.fed <= c.epochItems ==>
      Enabled(c, s, Other(Feed)) || Enabled(c, s, Other(FeedEnd))
  {
    if !a.Other? && a != OfProcessor(TakePending) { FeedStays(c, s, a); }
  }

  lemma {:induction false} FeedStays(c: Config, s: State, a: Action)
    requires c.maxRequired >= 1 && Enabled(c, s, a) && !a.Other? && a != OfProcessor(TakePending)
    ensures Apply(c, s, a).feed == s.feed
  {}

  // ---- the pause flag ----

  // Generation goes on after a pause when resume ends, or when the monitor has found room while it was
  // allowed to look, which is never between the end of a pause and the end of the resume after it.
  lemma {:induction false} GoesOnAgain(c: Config, s: State, a: Action)
    requires c.maxRequired >= 1 && Enabled(c, s, a) && LockInv(s)
    ensures var s' := Apply(c, s, a);
      && (s.gate.paused && !s'.gate.paused ==>
            (s.ver.update.Resuming? && s'.ver.update.Idle?) || (s.gate.monitorWaiting && s.gate.lock.Free?))
      && (s'.gate.monitorWaiting && !s.gate.monitorWaiting ==> s.gate.monitorTrigger && Room(c, s) && !s.InWindow())
      && (s'.gate.monitorTrigger && !s.gate.monitorTrigger ==> s.ver.update.Resuming?)
      && (!s'.gate.monitorTrigger && s.gate.monitorTrigger ==> s.trainer.phase.Pausing? && s.pool.running == map[])
      && (s'.gate.cancelling && !s.gate.cancelling ==> c.partial && s.trainer.phase.PauseRequested?)
  {
    hide ProcessorDo, TrainerDo, ProcessorCan, TrainerCan;
    match a
    case OfTask(k) => assert Apply(c, s, a).gate.(closed := false) == s.gate.(closed := false);
    case OfProcessor(p) => ProcessorGate(c, s, p);
    case OfTrainer(n) => TrainerGate(c, s, n);
    case _ =>
  }

  lemma {:induction false} ProcessorGate(c: Config, s: State, p: ProcessorAction)
    requires ProcessorCan(s, p)
    ensures var g := ProcessorDo(c, s, p).gate;
      g == s.gate.(paused := g.paused, lock := g.lock) && (s.gate.paused ==> g.paused)
  {
    hide ShouldPause;
  }

  lemma {:induction false} TrainerGate(c: Config, s: State, n: TrainerAction)
    requires TrainerCan(c, s, n)
    ensures var g := TrainerDo(c, s, n).gate;
      && g == s.gate.(paused := g.paused, lock := g.lock, monitorTrigger := g.monitorTrigger,
                      cancelling := g.cancelling)
      && (s.gate.paused ==> g.paused) && (g.monitorTrigger ==> s.gate.monitorTrigger)
      && (g.monitorTrigger || !s.gate.monitorTrigger || (s.trainer.phase.Pausing? && s.pool.running == map[]))
      && (g.cancelling ==> s.gate.cancelling || (c.partial && s.trainer.phase.PauseRequested?))
  {}

  // ---- the steps of a sync ----

  // A sync begins once the last update and resume are over; its pause takes the free lock, sets the flag
  // and cancels the servers with partial rollouts; it ends when no task runs, clears those completed and
  // keeps the monitor from looking.  Then the weights of the trainer's version are copied.
  predicate SyncRules(c: Config, s: State, s': State) {
    var p, p' := s.trainer.phase, s'.trainer.phase;
    && (p'.PauseRequested? && !p.PauseRequested? ==> p.AwaitLast? && s.ver.update.Idle?)
    && (p.Closing? && !p'.Closing? ==> s.ver.update.Idle?)
    && (p'.Pausing? && !p.Pausing? ==>
          && p.PauseRequested? && s.gate.lock.Free? && s'.gate.lock.ByPause? && s'.gate.paused
          && s'.gate.cancelling == c.partial)
    && (p.Pausing? && !p'.Pausing? ==>
          && p'.Copying? && s.pool.running == map[] && s'.Active() == 0 && s'.gate.lock.Free?
          && !s'.gate.monitorTrigger)
    && (p.Copying? && !p'.Copying? ==>
          && s'.trainer.copied == s.trainer.version && s'.ver.update == Requested(s.trainer.version)
          && if p.final then p' == Stopped else
               p' == Collecting && s'.trainer.globalSteps == s.trainer.globalSteps + 1)
  }

  lemma {:induction false} SyncMoves(c: Config, s: State, a: Action)
    requires c.maxRequired >= 1 && Enabled(c, s, a)
    ensures SyncRules(c, s, Apply(c, s, a))
  {
    match a
    case OfTrainer(n) => SyncTrainer(c, s, n);
    case _ => assert Apply(c, s, a).trainer == s.trainer;
  }

  lemma {:induction false} SyncTrainer(c: Config, s: State, n: TrainerAction)
    requires TrainerCan(c, s, n)
    ensures SyncRules(c, s, TrainerDo(c, s, n))
  {}

  // The update holds the lock from its start until it has been validated, and the resume until
  // generation goes on: then the flag is down, the servers work and the monitor may look again.
  lemma {:induction false} UpdateMoves(c: Config, s: State, a: Action)
    requires c.maxRequired >= 1 && Enabled(c, s, a) && LockInv(s)
    ensures var s' := Apply(c, s, a);
      var u, u' := s.ver.update, s'.ver.update;
      && (u.Requested? && u != u' ==> u'.Counting? && s.gate.lock.Free? && s'.gate.lock.ByUpdate?)
      && (u.Counting? && u != u' ==> u'.Counted? && s'.gate.lock.ByUpdate?)
      && (u.Counted? && u != u' ==> u'.Validating? && s'.gate.lock.ByUpdate?)
      && (u.Validating? && u != u' ==> u'.ResumeRequested? && s'.gate.lock.Free?)
      && (u.ResumeRequested? && u != u' ==> u'.Resuming? && s.gate.lock.Free? && s'.gate.lock.ByResume?)
      && (u.Resuming? && u != u' ==>
            && u'.Idle? && s'.gate.lock.Free? && !s'.gate.paused && s'.gate.monitorTrigger && !s'.gate.cancelling)
  {
    match a
    case OfTask(k) => assert Apply(c, s, a).ver == s.ver;
    case OfProcessor(p) => ProcessorUpdate(c, s, p);
    case _ =>
  }

  lemma {:induction false} ProcessorUpdate(c: Config, s: State, p: ProcessorAction)
    requires ProcessorCan(s, p)
    ensures ProcessorDo(c, s, p).ver.update == s.ver.update
  {
    hide ShouldPause;
  }

  // ---- the forced sync ----

  // What fit's last condition says, in terms of the batches trained on.
  predicate Forces(c: Config, n: nat)
    requires c.trigger >= 1
  {
    c.testFreq != 0 && ((c.startVersion + n / c.trigger) % c.testFreq != 0 || n % c.trigger != 0)
  }

  ghost predicate CloseInv(c: Config, s: State)
    requires c.trigger >= 1
  {
    var t, n := s.trainer, |s.history.trained|;
    && (InFinalSync(t.phase) ==> Forces(c, n))
    && (t.phase.Stopped? ==> t.version == c.startVersion + n / c.trigger + (if Forces(c, n) then 1 else 0))
  }

  lemma {:induction false} CloseTrainer(c: Config, s: State, a: TrainerAction)
    requires c.trigger >= 1 && VersionInv(c, s) && CloseInv(c, s) && TrainerCan(c, s, a)
    ensures CloseInv(c, TrainerDo(c, s, a))
  {}

  lemma {:induction false} CloseKept(c: Config, s: State, a: Action)
    requires c.maxRequired >= 1 && c.trigger >= 1 && VersionInv(c, s) && CloseInv(c, s) && Enabled(c, s, a)
    ensures CloseInv(c, Apply(c, s, a))
  {
    match a
    case OfTrainer(n) => CloseTrainer(c, s, n);
    case OfUpdate(u) =>
      assert Apply(c, s, a).trainer == s.trainer && Apply(c, s, a).history.trained == s.history.trained;
    case _ => TrainerUntouched(c, s, a);
  }

  lemma {:induction false} CloseRun(c: Config, s: State, actions: seq<Action>)
    requires c.maxRequired >= 1 && c.required >= 1 && c.trigger >= 1
    requires Aged(c, s) && CloseInv(c, s) && Exec(c, s, actions).Reached?
    ensures CloseInv(c, Exec(c, s, actions).state)
    decreases |actions|
  {
    hide LockInv, BatchInv, VersionInv, TaskInv, EntriesInv, CloseInv, Enabled, Apply;
    if actions != [] {
      var a := actions[0];
      CloseKept(c, s, a);
      AgedKept(c, s, a);
      CloseRun(c, Apply(c, s, a), actions[1..]);
    }
  }

  // When the trainer has stopped, the rollout workers hold its final version: one more than the regular
  // syncs made if that version is no multiple of the test frequency or batches came after the last
  // sync, and the frequency is not 0, where the source divides by it.
  lemma {:induction false} FinalVersion(c: Config, s: State)
    requires Reachable(c, s) && s.trainer.phase.Stopped?
    ensures c.trigger >= 1 && s.trainer.copied == s.trainer.version
    ensures var n := |s.history.trained|;
      var regular := c.startVersion + n / c.trigger;
      s.trainer.version == regular
        + (if c.testFreq != 0 && (regular % c.testFreq != 0 || n % c.trigger > 0) then 1 else 0)
  {
    MaxRequiredBounds(c);
    AgedAlways(c, s);
    AgedStart(c);
    var actions :| Exec(c, Init(c), actions) == Reached(s);
    CloseRun(c, Init(c), actions);
  }

  lemma {:induction false} AgedStart(c: Config)
    requires Valid(c)
    ensures Aged(c, Init(c))
  {
    MaxRequiredBounds(c);
    assert Exec(c, Init(c), []) == Reached(Init(c));
    AgedAlways(c, Init(c));
  }
}
