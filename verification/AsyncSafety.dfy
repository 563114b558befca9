// Safety of the asynchronous protocol over whole runs: who holds the lock, the concurrency bound,
// the bound on outstanding samples and when the message queue drops a sample.
module AsyncSafety {
  import opened QueueItems
  import opened AsyncProtocol

  // ---- who holds the lock ----

  ghost predicate LockInv(s: State) {
    && (s.gate.lock.ByProcessor? <==> s.worker.loc.Drain? && s.worker.loc.phase.Holding?)
    && (s.gate.lock.ByPause? <==> s.trainer.phase.Pausing?)
    && (s.gate.lock.ByUpdate? <==>
        s.ver.update.Counting? || s.ver.update.Counted? || s.ver.update.Validating?)
    && (s.gate.lock.ByResume? <==> s.ver.update.Resuming?)
    && (Syncing(s.trainer.phase) ==> s.ver.update.Idle?)
    && (s.InWindow() ==> !s.gate.monitorTrigger)
  }

  predicate Syncing(p: TrainerPhase) {
    p.PauseRequested? || p.Pausing? || p.Copying?
  }

  lemma {:induction false} LockProcessor(c: Config, s: State, a: ProcessorAction)
    requires LockInv(s) && ProcessorCan(s, a)
    ensures LockInv(ProcessorDo(c, s, a))
  {}

  lemma {:induction false} LockTask(c: Config, s: State, a: TaskAction)
    requires c.maxRequired >= 1 && LockInv(s) && TaskCan(s, a)
    ensures LockInv(TaskDo(c, s, a))
  {}

  lemma {:induction false} LockTrainer(c: Config, s: State, a: TrainerAction)
    requires LockInv(s) && TrainerCan(c, s, a)
    ensures LockInv(TrainerDo(c, s, a))
  {}

  lemma {:induction false} LockUpdate(s: State, a: UpdateAction)
    requires LockInv(s) && UpdateCan(s, a)
    ensures LockInv(UpdateDo(s, a))
  {}

  lemma {:induction false} LockOther(c: Config, s: State, a: OtherAction)
    requires LockInv(s) && OtherCan(c, s, a)
    ensures LockInv(OtherDo(c, s, a))
  {}

  lemma {:induction false} LockKept(c: Config, s: State, a: Action)
    requires c.maxRequired >= 1 && LockInv(s) && Enabled(c, s, a)
    ensures LockInv(Apply(c, s, a))
  {
    match a
    case OfProcessor(p) => LockProcessor(c, s, p);
    case OfTask(k) => LockTask(c, s, k);
    case OfTrainer(n) => LockTrainer(c, s, n);
    case OfUpdate(u) => LockUpdate(s, u);
    case Other(o) => LockOther(c, s, o);
  }

  // ---- the sample in hand ----

  predicate HoldsSample(l: Location) {
    (l.Drain? && l.why.ForSlot?) || l.Submitting?
  }

  ghost predicate HandInv(w: Worker) {
    && |w.hand| <= 1
    && (HoldsSample(w.loc) ==> |w.hand| == 1)
    && (w.hand != [] ==> HoldsSample(w.loc) || w.loc.Crashed?)
  }

  lemma {:induction false} HandKept(c: Config, s: State, a: Action)
    requires c.maxRequired >= 1 && HandInv(s.worker) && Enabled(c, s, a)
    ensures HandInv(Apply(c, s, a).worker)
  {
    if a.OfProcessor? { HandProcessor(c, s, a.p); }
    else { assert Apply(c, s, a).worker == s.worker; }
  }

  lemma {:induction false} HandProcessor(c: Config, s: State, a: ProcessorAction)
    requires HandInv(s.worker) && ProcessorCan(s, a)
    ensures HandInv(ProcessorDo(c, s, a).worker)
  {}

  // ---- where the end markers are ----

  // An end marker can only be the last entry of a queue.
  ghost predicate EndMarkLast(q: seq<Item>) {
    forall i :: 0 <= i < |q| - 1 ==> q[i].Rollout?
  }

  // The trainer has received the end marker.
  predicate TrainerClosed(p: TrainerPhase) {
    p.Closing? || p.Stopped? || ((p.AwaitLast? || Syncing(p)) && p.final)
  }

  predicate Draining(l: Location) {
    (l.Drain? && l.why.ForEnd?) || l.Ended?
  }

  ghost predicate PendingInv(s: State) {
    && EndMarkLast(s.feed.pending)
    && (!s.feed.phase.Fed? ==> AllRollouts(s.feed.pending))
    && (s.feed.phase.Fed? ==> s.feed.pending != [] || Draining(s.worker.loc) || s.worker.loc.Crashed?)
    && (s.feed.phase.Fed? && s.feed.pending != [] ==> s.feed.pending[|s.feed.pending| - 1].EndMark?)
    && (Draining(s.worker.loc) ==> s.feed.phase.Fed? && s.feed.pending == [])
  }

  ghost predicate ClosedInv(s: State) {
    && EndMarkLast(s.queue)
    && (s.worker.loc.Ended? || s.worker.loc.Crashed? ==> s.Active() == 0)
    && (s.gate.closed ==> s.worker.loc.Ended? || s.worker.loc.Crashed?)
    && (!s.gate.closed ==> AllRollouts(s.queue))
    && (s.gate.closed && s.queue != [] ==> s.queue[|s.queue| - 1].EndMark?)
    && (TrainerClosed(s.trainer.phase) <==> s.gate.closed && s.queue == [])
  }

  ghost predicate RolloutsInv(s: State) {
    AllRollouts(s.history.consumed) && AllRollouts(s.history.dropped) && AllRollouts(s.trainer.collected)
  }

  lemma {:induction false} PendingKept(c: Config, s: State, a: Action)
    requires c.maxRequired >= 1 && PendingInv(s) && Enabled(c, s, a)
    ensures PendingInv(Apply(c, s, a))
  {
    match a
    case OfProcessor(p) => PendingProcessor(c, s, p);
    case Other(o) =>
    case _ => assert Apply(c, s, a).feed == s.feed && Apply(c, s, a).worker == s.worker;
  }

  lemma {:induction false} PendingProcessor(c: Config, s: State, a: ProcessorAction)
    requires PendingInv(s) && ProcessorCan(s, a)
    ensures PendingInv(ProcessorDo(c, s, a))
  {}

  lemma {:induction false} ClosedProcessor(c: Config, s: State, a: ProcessorAction)
    requires ClosedInv(s) && ProcessorCan(s, a)
    ensures ClosedInv(ProcessorDo(c, s, a))
  {}

  lemma {:induction false} ClosedTask(c: Config, s: State, a: TaskAction)
    requires c.maxRequired >= 1 && ClosedInv(s) && TaskCan(s, a)
    ensures ClosedInv(TaskDo(c, s, a))
  {
    if !a.PutEnd? { RunningSizes(s.pool.running, a.id, Generating); }
  }

  lemma {:induction false} ClosedTrainer(c: Config, s: State, a: TrainerAction)
    requires ClosedInv(s) && TrainerCan(c, s, a)
    ensures ClosedInv(TrainerDo(c, s, a))
  {}

  lemma {:induction false} ClosedKept(c: Config, s: State, a: Action)
    requires c.maxRequired >= 1 && ClosedInv(s) && Enabled(c, s, a)
    ensures ClosedInv(Apply(c, s, a))
  {
    match a
    case OfProcessor(p) => ClosedProcessor(c, s, p);
    case OfTask(k) => ClosedTask(c, s, k);
    case OfTrainer(n) => ClosedTrainer(c, s, n);
    case OfUpdate(u) =>
    case Other(o) =>
  }

  lemma {:induction false} RolloutsTask(c: Config, s: State, a: TaskAction)
    requires c.maxRequired >= 1 && RolloutsInv(s) && ClosedInv(s) && TaskCan(s, a)
    ensures RolloutsInv(TaskDo(c, s, a))
  {
    if !a.PutEnd? { RunningSizes(s.pool.running, a.id, Generating); }
  }

  lemma {:induction false} RolloutsTrainer(c: Config, s: State, a: TrainerAction)
    requires RolloutsInv(s) && TrainerCan(c, s, a)
    ensures RolloutsInv(TrainerDo(c, s, a))
  {}

  lemma {:induction false} RolloutsKept(c: Config, s: State, a: Action)
    requires c.maxRequired >= 1 && RolloutsInv(s) && ClosedInv(s) && Enabled(c, s, a)
    ensures RolloutsInv(Apply(c, s, a))
  {
    hide ClosedInv, AllRollouts, ShouldPause;
    match a
    case OfTask(k) => RolloutsTask(c, s, k);
    case OfTrainer(n) => RolloutsTrainer(c, s, n);
    case OfProcessor(p) => assert ProcessorDo(c, s, p).trainer == s.trainer;
    case _ =>
  }

  // ---- concurrency: |active_tasks| <= max_concurrent_samples ----

  ghost predicate ConcurrencyInv(c: Config, s: State) {
    && s.Active() <= c.maxConcurrent
    && (s.worker.loc.Submitting? ==> s.Active() < c.maxConcurrent)
  }

  lemma {:induction false} RunningSizes(m: map<nat, Task>, id: nat, t: Task)
    ensures id in m ==> |m[id := t]| == |m| && |m - {id}| == |m| - 1
    ensures |m[id := t]| <= |m| + 1
  {
    assert m[id := t].Keys == m.Keys + {id};
    assert (m - {id}).Keys == m.Keys - {id};
    assert |m| == |m.Keys| && |m - {id}| == |(m - {id}).Keys| && |m[id := t]| == |m[id := t].Keys|;
  }

  lemma {:induction false} ConcurrencyProcessor(c: Config, s: State, a: ProcessorAction)
    requires ConcurrencyInv(c, s) && ProcessorCan(s, a)
    ensures ConcurrencyInv(c, ProcessorDo(c, s, a))
  {
    if a.Submit? { RunningSizes(s.pool.running, s.worker.hand[0], Generating); }
  }

  lemma {:induction false} ConcurrencyTask(c: Config, s: State, a: TaskAction)
    requires c.maxRequired >= 1 && ConcurrencyInv(c, s) && TaskCan(s, a)
    ensures ConcurrencyInv(c, TaskDo(c, s, a))
    ensures TaskDo(c, s, a).Active() == s.Active()
  {
    if !a.PutEnd? { RunningSizes(s.pool.running, a.id, Finished(s.ver.current)); }
  }

  lemma {:induction false} ConcurrencyKept(c: Config, s: State, a: Action)
    requires c.maxRequired >= 1 && ConcurrencyInv(c, s) && Enabled(c, s, a)
    ensures ConcurrencyInv(c, Apply(c, s, a))
  {
    match a
    case OfProcessor(p) => ConcurrencyProcessor(c, s, p);
    case OfTask(k) => ConcurrencyTask(c, s, k);
    case OfTrainer(n) =>
    case _ => assert Apply(c, s, a).pool == s.pool && Apply(c, s, a).worker == s.worker;
  }

  // ---- outstanding samples ----

  // In hand, running, in the cancel queue or in the message queue.
  function Outstanding(s: State): nat {
    |s.worker.hand| + |s.pool.running| + |s.pool.cancelQueue| + |s.queue|
  }

  // The counter lags behind by at most the sample in hand, and a counter reset in progress
  // counts everything but that sample.
  ghost predicate CounterInv(c: Config, s: State) {
    && Outstanding(s) <= s.ver.staleness + 1
    && Outstanding(s) <= c.maxRequired + 1
    && (s.worker.loc.AwaitPending? ==> Outstanding(s) <= c.maxRequired)
    && (s.ver.update.Counting? ==>
          |s.pool.running| + |s.pool.cancelQueue| <= s.ver.update.partialCount)
    && (s.ver.update.Counted? ==>
          |s.pool.running| + |s.pool.cancelQueue| + |s.queue| <= s.ver.update.count)
    && (s.history.handEmptyAtResets ==>
          && Outstanding(s) <= s.ver.staleness
          && Outstanding(s) <= c.maxRequired
          && (s.worker.loc.AwaitPending? || Draining(s.worker.loc) ==> Outstanding(s) < c.maxRequired)
          && s.history.dropped == [])
  }

  lemma {:induction false} CounterLook(c: Config, s: State)
    requires HandInv(s.worker) && CounterInv(c, s) && s.worker.loc.Top?
    ensures CounterInv(c, DoLook(c, s))
  {}

  lemma {:induction false} CounterTake(c: Config, s: State)
    requires HandInv(s.worker) && CounterInv(c, s) && s.worker.loc.AwaitPending? && s.feed.pending != []
    ensures CounterInv(c, DoTakePending(s))
  {}

  lemma {:induction false} CounterSubmit(c: Config, s: State)
    requires LockInv(s) && HandInv(s.worker) && CounterInv(c, s) && ProcessorCan(s, Submit)
    ensures CounterInv(c, ProcessorDo(c, s, Submit))
  {
    RunningSizes(s.pool.running, s.worker.hand[0], Generating);
  }

  lemma {:induction false} CounterProcessor(c: Config, s: State, a: ProcessorAction)
    requires LockInv(s) && HandInv(s.worker) && CounterInv(c, s) && ProcessorCan(s, a)
    ensures CounterInv(c, ProcessorDo(c, s, a))
  {
    match a
    case Look => CounterLook(c, s);
    case TakePending => CounterTake(c, s);
    case Submit => CounterSubmit(c, s);
    case _ =>
      var s' := ProcessorDo(c, s, a);
      assert s'.worker.hand == s.worker.hand && s'.pool.running == s.pool.running;
  }

  lemma {:induction false} CounterTask(c: Config, s: State, a: TaskAction)
    requires c.maxRequired >= 1 && CounterInv(c, s) && TaskCan(s, a) && !a.PutEnd?
    ensures CounterInv(c, TaskDo(c, s, a))
    // put_sample drops only with exactly max_required_samples + 1 samples outstanding
    ensures TaskDo(c, s, a).history.dropped != s.history.dropped ==>
              Outstanding(s) == c.maxRequired + 1 && |s.queue| == c.maxRequired
  {
    RunningSizes(s.pool.running, a.id, Finished(s.ver.current));
  }

  lemma {:induction false} CounterTrainer(c: Config, s: State, a: TrainerAction)
    requires LockInv(s) && CounterInv(c, s) && TrainerCan(c, s, a)
    ensures CounterInv(c, TrainerDo(c, s, a))
  {}

  lemma {:induction false} CounterUpdate(c: Config, s: State, a: UpdateAction)
    requires LockInv(s) && HandInv(s.worker) && CounterInv(c, s) && UpdateCan(s, a)
    ensures CounterInv(c, UpdateDo(s, a))
  {}

  lemma {:induction false} CounterOther(c: Config, s: State, a: OtherAction)
    requires CounterInv(c, s) && OtherCan(c, s, a)
    ensures CounterInv(c, OtherDo(c, s, a))
  {}

  lemma {:induction false} CounterKept(c: Config, s: State, a: Action)
    requires c.maxRequired >= 1 && LockInv(s) && HandInv(s.worker) && Enabled(c, s, a)
    requires !s.gate.closed ==> CounterInv(c, s)
    ensures !Apply(c, s, a).gate.closed ==> CounterInv(c, Apply(c, s, a))
  {
    if s.gate.closed { Closes(c, s, a); return; }
    match a
    case OfProcessor(p) => CounterProcessor(c, s, p);
    case OfTask(k) => if !k.PutEnd? { CounterTask(c, s, k); }
    case OfTrainer(n) => CounterTrainer(c, s, n);
    case OfUpdate(u) => CounterUpdate(c, s, u);
    case Other(o) => CounterOther(c, s, o);
  }

  // Once the final None has been put; a processor that ended normally left room for it.
  ghost predicate NoneInv(s: State) {
    s.gate.closed && s.history.handEmptyAtResets && !s.worker.loc.Crashed? ==> s.history.dropped == []
  }

  lemma {:induction false} NoneKept(c: Config, s: State, a: Action)
    requires c.maxRequired >= 1 && ClosedInv(s) && NoneInv(s) && Enabled(c, s, a)
    requires !s.gate.closed ==> CounterInv(c, s)
    ensures NoneInv(Apply(c, s, a))
  {
    hide CounterInv, Outstanding, ClosedInv, Enabled, Apply;
    if a.OfTask? {
      TaskIs(c, s, a);
      NoneTask(c, s, a.k);
    } else {
      NonePut(c, s, a);
    }
  }

  lemma {:induction false} TaskIs(c: Config, s: State, a: Action)
    requires c.maxRequired >= 1 && Enabled(c, s, a) && a.OfTask?
    ensures TaskCan(s, a.k) && Apply(c, s, a) == TaskDo(c, s, a.k)
  {}

  predicate NotPut(s: State, s': State) {
    && s'.history.dropped == s.history.dropped && s'.history.puts == s.history.puts
    && (s'.history.handEmptyAtResets ==> s.history.handEmptyAtResets)
    && s'.gate.closed == s.gate.closed && (s.worker.loc.Crashed? ==> s'.worker.loc.Crashed?)
  }

  lemma {:induction false} NotPutProcessor(c: Config, s: State, a: ProcessorAction)
    requires ProcessorCan(s, a)
    ensures NotPut(s, ProcessorDo(c, s, a))
  {}

  lemma {:induction false} NotPutTrainer(c: Config, s: State, a: TrainerAction)
    requires TrainerCan(c, s, a)
    ensures NotPut(s, TrainerDo(c, s, a))
  {}

  lemma {:induction false} NotPutUpdate(s: State, a: UpdateAction)
    requires UpdateCan(s, a)
    ensures NotPut(s, UpdateDo(s, a))
  {}

  lemma {:induction false} NotPutOther(c: Config, s: State, a: OtherAction)
    requires OtherCan(c, s, a)
    ensures NotPut(s, OtherDo(c, s, a))
  {}

  // Only tasks put anything.
  lemma {:induction false} NonePut(c: Config, s: State, a: Action)
    requires c.maxRequired >= 1 && Enabled(c, s, a) && !a.OfTask?
    ensures NotPut(s, Apply(c, s, a))
  {
    hide NotPut;
    match a
    case OfProcessor(p) => NotPutProcessor(c, s, p);
    case OfTrainer(n) => NotPutTrainer(c, s, n);
    case OfUpdate(u) => NotPutUpdate(s, u);
    case Other(o) => NotPutOther(c, s, o);
  }

  lemma {:induction false} NoneTask(c: Config, s: State, a: TaskAction)
    requires c.maxRequired >= 1 && ClosedInv(s) && NoneInv(s) && TaskCan(s, a)
    requires !s.gate.closed ==> CounterInv(c, s)
    ensures NoneInv(TaskDo(c, s, a))
  {}

  lemma {:induction false} Closes(c: Config, s: State, a: Action)
    requires c.maxRequired >= 1 && s.gate.closed && Enabled(c, s, a)
    ensures Apply(c, s, a).gate.closed
  {}

  // ---- every run ----

  ghost predicate Safe(c: Config, s: State) {
    && LockInv(s) && HandInv(s.worker) && PendingInv(s) && ClosedInv(s) && RolloutsInv(s)
    && ConcurrencyInv(c, s)
    && (!s.gate.closed ==> CounterInv(c, s)) && NoneInv(s)
  }

  lemma {:induction false} SafeKept(c: Config, s: State, a: Action)
    requires c.maxRequired >= 1 && Safe(c, s) && Enabled(c, s, a)
    ensures Safe(c, Apply(c, s, a))
  {
    LockKept(c, s, a);
    HandKept(c, s, a);
    PendingKept(c, s, a);
    ClosedKept(c, s, a);
    RolloutsKept(c, s, a);
    ConcurrencyKept(c, s, a);
    CounterKept(c, s, a);
    NoneKept(c, s, a);
  }

  lemma {:induction false} SafeRun(c: Config, s: State, actions: seq<Action>)
    requires c.maxRequired >= 1 && Safe(c, s) && Exec(c, s, actions).Reached?
    ensures Safe(c, Exec(c, s, actions).state)
    decreases |actions|
  {
    if actions != [] {
      SafeKept(c, s, actions[0]);
      SafeRun(c, Apply(c, s, actions[0]), actions[1..]);
    }
  }

  lemma {:induction false} SafeAlways(c: Config, s: State)
    requires Reachable(c, s)
    ensures c.maxRequired >= 1 && Safe(c, s)
  {
    MaxRequiredBounds(c);
    var actions :| Exec(c, Init(c), actions) == Reached(s);
    SafeRun(c, Init(c), actions);
  }

  // The number of active tasks never exceeds max_concurrent_samples.
  lemma {:induction false} ConcurrencyBound(c: Config, s: State)
    requires Reachable(c, s)
    ensures s.Active() <= c.maxConcurrent
  {
    SafeAlways(c, s);
  }

  // Before the final None at most max_required_samples + 1 samples are outstanding, and never
  // more than one above the staleness counter.
  lemma {:induction false} OutstandingBound(c: Config, s: State)
    requires Reachable(c, s) && !s.gate.closed
    ensures Outstanding(s) <= c.maxRequired + 1
    ensures Outstanding(s) <= s.ver.staleness + 1
  {
    SafeAlways(c, s);
  }

  lemma {:induction false} OnlyPutsDrop(c: Config, s: State, a: Action)
    requires c.maxRequired >= 1 && Enabled(c, s, a)
    ensures !a.OfTask? ==> Apply(c, s, a).history.dropped == s.history.dropped
    ensures a == OfTask(PutEnd) ==> Apply(c, s, a).gate.closed
  {}

  lemma {:induction false} OneKey(m: map<nat, Task>, id: nat)
    requires id in m && |m| <= 1
    ensures m.Keys == {id}
  {
    assert |m.Keys - {id}| == |m.Keys| - 1;
  }

  // Before the final None, put_sample drops only in a state with exactly
  // max_required_samples + 1 samples outstanding: the full queue and the sample being put.
  lemma {:induction false} DropsOnlyWhenOverfull(c: Config, s: State, a: Action)
    requires Reachable(c, s) && !s.gate.closed && c.maxRequired >= 1 && Enabled(c, s, a)
    requires Apply(c, s, a).history.dropped != s.history.dropped && !Apply(c, s, a).gate.closed
    ensures a.OfTask? && a.k.PutSample?
    ensures Outstanding(s) == c.maxRequired + 1 && |s.queue| == c.maxRequired
    ensures s.worker.hand == [] && s.pool.cancelQueue == [] && s.pool.running.Keys == {a.k.id}
  {
    SafeAlways(c, s);
    OnlyPutsDrop(c, s, a);
    CounterTask(c, s, a.k);
    OneKey(s.pool.running, a.k.id);
  }

  // A run whose counter resets all find the processor's hand empty drops nothing: no put_sample does,
  // and the final None finds room in the queue unless the processor has crashed.
  lemma {:induction false} NoLoss(c: Config, s: State)
    requires Reachable(c, s) && s.history.handEmptyAtResets
    requires s.gate.closed ==> !s.worker.loc.Crashed?
    ensures s.history.dropped == []
    ensures !s.gate.closed ==> Outstanding(s) <= c.maxRequired
  {
    SafeAlways(c, s);
  }

  // The final None displaces a sample exactly when it finds the queue full; then nothing else is
  // outstanding but possibly what a crash left behind, and either some counter reset has missed a
  // sample in the processor's hand or the processor has crashed.
  lemma {:induction false} NoneDisplaces(c: Config, s: State)
    requires Reachable(c, s) && TaskCan(s, PutEnd) && c.maxRequired >= 1
    ensures TaskDo(c, s, PutEnd).history.dropped != s.history.dropped <==> |s.queue| >= c.maxRequired
    ensures |s.queue| >= c.maxRequired ==>
      && |s.queue| <= c.maxRequired + 1 && s.pool.running == map[] && s.queue[0].Rollout?
      && TaskDo(c, s, PutEnd).history.dropped == s.history.dropped + [s.queue[0]]
      && (s.worker.loc.Crashed? || !s.history.handEmptyAtResets)
  {
    SafeAlways(c, s);
  }
}
