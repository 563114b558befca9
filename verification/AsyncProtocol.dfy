// The fully asynchronous rollout/train protocol of recipe/fully_async_policy as a labelled
// transition system.  An action is a piece of a coroutine without a point in it where the coroutine
// may suspend; whether it does suspend between two actions is left open, so the runs here include
// all of asyncio's and more (AsyncLoop says which are asyncio's).  The asyncio lock of the rollouter
// is the explicit field `lock`.

// What travels through the two queues of the protocol: a rollout sample (its number in feeding
// order and the `param_version` it carries), or an end marker ("DONE" in the pending queue,
// None in the message queue).
module QueueItems {
  datatype Item = Rollout(id: nat, version: int) | EndMark

  // How often sample `id` occurs in a queue.
  ghost function Count(q: seq<Item>, id: nat): nat {
    if q == [] then 0 else One(q[0], id) + Count(q[1..], id)
  }

  ghost function One(x: Item, id: nat): nat {
    if x.Rollout? && x.id == id then 1 else 0
  }

  ghost predicate AllRollouts(q: seq<Item>) {
    forall i :: 0 <= i < |q| ==> q[i].Rollout?
  }

  lemma {:induction false} CountAppend(q: seq<Item>, x: Item, id: nat)
    ensures Count(q + [x], id) == Count(q, id) + One(x, id)
  {
    var qx := q + [x];
    if q == [] {
      assert qx == [x] && qx[1..] == [];
    } else {
      assert qx[0] == q[0] && qx[1..] == q[1..] + [x];
      CountAppend(q[1..], x, id);
    }
  }

  // put_sample on a full queue removes the oldest entry first.
  function Put(q: seq<Item>, capacity: nat, x: Item): (r: seq<Item>)
    requires capacity >= 1
  {
    (if |q| >= capacity then q[1..] else q) + [x]
  }
}

module AsyncProtocol {
  import opened QueueItems

  // What the protocol reads of the configuration.  `required` is ppo_mini_batch_size *
  // require_batches; `epochItems` is how many batches the dataloader iterator still yields;
  // `maxRequired` and `maxConcurrent` are the fields set_max_required_samples assigns
  // (max_queue_size is the same number as maxRequired).
  datatype Config = Config(
    required: int, trigger: int, threshold: real, servers: nat,
    firstStep: nat, totalSteps: int, epochItems: nat,
    partial: bool, startVersion: int, testFreq: int,
    maxRequired: int, maxConcurrent: int)

  // The assertions of FullyAsyncRollouter.__init__, a non-empty mini batch, and
  // set_max_required_samples.
  predicate Valid(c: Config) {
    && c.required >= 1 && c.trigger >= 1 && c.threshold >= 0.0
    && c.maxRequired == MaxRequired(c.required, c.threshold, c.trigger)
    && c.maxConcurrent == Min(c.servers * 16, c.maxRequired)
  }

  // int() truncates; the product is not negative.
  function MaxRequired(required: int, threshold: real, trigger: int): int {
    (required as real * (threshold + 1.0) * trigger as real).Floor
  }

  function Min(a: int, b: int): int { if a <= b then a else b }

  datatype Owner = Free | ByProcessor | ByPause | ByUpdate | ByResume

  datatype FeedPhase = Feeding | Ending | Fed

  // Why the processor is waiting for running tasks, and where it is in that loop.
  datatype Why = ForPause | ForSlot | ForEnd
  datatype Phase = Test | WantLock | Holding
  datatype Location =
    | Top
    | MarkPaused
    | Drain(why: Why, phase: Phase)
    | WaitResume
    | AwaitPending
    | Submitting
    | Ended
    | Crashed

  datatype Task = Generating | Finished(version: int)

  // The update_param_version / resume pair that sync_weights leaves running.
  datatype Update =
    | Idle
    | Requested(version: int)
    | Counting(partialCount: int)
    | Counted(count: int)
    | Validating
    | ResumeRequested
    | Resuming

  datatype TrainerPhase =
    | Collecting
    | Closing
    | AwaitLast(final: bool)
    | PauseRequested(final: bool)
    | Pausing(final: bool)
    | Copying(final: bool)
    | Stopped

  datatype TrainStep = TrainStep(version: int, batch: seq<Item>)

  // _feed_samples and its queue.
  datatype FeedState = FeedState(phase: FeedPhase, fed: nat, pending: seq<Item>)

  // The processor coroutine.  `hand` holds the sample taken from a queue and not yet made a
  // task (at most one); `doneBound` says whether the local `done_tasks` has been assigned.
  datatype Worker = Worker(loc: Location, hand: seq<nat>, doneBound: bool)

  // active_tasks (the running tasks and the number of finished ones still in the set) and
  // cancel_queue.  A task is finished once its sample is in the message queue, or cancelled; the
  // reply to its put may still be on its way, so that a harvest can leave some in the set.
  datatype Pool = Pool(running: map<nat, Task>, finished: nat, cancelQueue: seq<nat>)

  // The flags of the rollouter; `closed` is set once the final None has been put.
  datatype Gate = Gate(
    paused: bool, lock: Owner, monitorTrigger: bool, monitorWaiting: bool, cancelling: bool,
    closed: bool)

  // staleness_samples, current_param_version and the update in progress.
  datatype Version = Version(staleness: int, current: int, update: Update)

  // The trainer, and the version of the weights last copied to the rollout workers.
  datatype Trainer = Trainer(
    phase: TrainerPhase, version: int, localStep: int, globalSteps: int,
    collected: seq<Item>, copied: int)

  // What has happened so far; read by the properties only.
  datatype History = History(
    puts: seq<Item>, consumed: seq<Item>, dropped: seq<Item>, trained: seq<TrainStep>,
    strayed: bool, handEmptyAtResets: bool)

  datatype State = State(
    feed: FeedState, worker: Worker, pool: Pool, gate: Gate, ver: Version,
    queue: seq<Item>, trainer: Trainer, history: History)
  {
    // len(active_tasks)
    function Active(): nat { |pool.running| + pool.finished }

    // From the end of pause to the end of resume.
    predicate InWindow() { trainer.phase.Copying? || !ver.update.Idle? }

    // The servers have been cancelled and not yet resumed: they return a new request at once.
    predicate Refuses() { gate.cancelling && InWindow() && !ver.update.Resuming? }
  }

  // The state once the initial sync_weights and wait_last_valid have returned.
  function Init(c: Config): State {
    State(
      FeedState(Feeding, 0, []), Worker(Top, [], false), Pool(map[], 0, []),
      Gate(false, Free, true, false, false, false), Version(0, c.startVersion, Idle), [],
      Trainer(Collecting, c.startVersion, 1, c.startVersion * c.trigger + 1, [], c.startVersion),
      History([], [], [], [], false, true))
  }

  datatype ProcessorAction =
    Look | SetPaused | DrainTest | DrainLock | Harvest(left: nat) | Wake | TakePending | Submit
  datatype TaskAction = Generate(id: nat) | Cancel(id: nat) | PutSample(id: nat) | PutEnd
  datatype TrainerAction = GetSample | Train | Close | SyncBegin | PauseStart | PauseEnd | CopyWeights
  datatype UpdateAction = UpdateStart | UpdateRead | UpdateWrite | UpdateEnd | ResumeStart | ResumeEnd
  datatype OtherAction = Feed | FeedEnd | MonitorTest | MonitorWrite
  datatype Action =
    | OfProcessor(p: ProcessorAction)
    | OfTask(k: TaskAction)
    | OfTrainer(n: TrainerAction)
    | OfUpdate(u: UpdateAction)
    | Other(o: OtherAction)

  // _should_pause_generation
  predicate ShouldPause(c: Config, s: State) {
    |s.queue| >= c.maxRequired || s.ver.staleness >= c.maxRequired
  }

  // ---- processor ----

  predicate ProcessorCan(s: State, a: ProcessorAction) {
    match a
    case Look => s.worker.loc.Top?
    case SetPaused => s.worker.loc.MarkPaused? && s.gate.lock.Free?
    case DrainTest => s.worker.loc.Drain? && s.worker.loc.phase.Test?
    case DrainLock => s.worker.loc.Drain? && s.worker.loc.phase.WantLock? && s.gate.lock.Free?
    case Harvest(left) => s.worker.loc.Drain? && s.worker.loc.phase.Holding? && left < s.pool.finished
    case Wake => s.worker.loc.WaitResume? && s.gate.lock.Free? && !s.gate.paused
    case TakePending => s.worker.loc.AwaitPending? && s.feed.pending != []
    case Submit =>
      s.worker.loc.Submitting? && s.gate.lock.Free? && !s.gate.paused && s.worker.hand != []
  }

  function At(s: State, loc: Location): State {
    s.(worker := s.worker.(loc := loc))
  }

  // The head of the _processor_worker loop, up to its next suspension.
  function DoLook(c: Config, s: State): State {
    if s.gate.paused || ShouldPause(c, s) then
      At(s, MarkPaused)
    else if s.pool.cancelQueue != [] then
      s.(worker := s.worker.(hand := [s.pool.cancelQueue[0]], loc := Drain(ForSlot, Test)),
         pool := s.pool.(cancelQueue := s.pool.cancelQueue[1..]))
    else
      At(s, AwaitPending)
  }

  // The test of one of the three loops that wait for active tasks.
  function DoDrainTest(c: Config, s: State): State
    requires s.worker.loc.Drain?
  {
    var why := s.worker.loc.why;
    var wait := if why.ForSlot? then s.Active() >= c.maxConcurrent else s.Active() > 0;
    At(s, if wait then Drain(why, WantLock)
          else match why case ForSlot => Submitting case ForPause => WaitResume case ForEnd => Ended)
  }

  // The body of such a loop once it has the lock.  With no task left, `done_tasks` is read
  // although this turn has not assigned it; if no earlier turn has either, the coroutine ends
  // with UnboundLocalError.
  function DoDrainLock(s: State): State
    requires s.worker.loc.Drain?
  {
    if s.Active() > 0 then
      At(s, Drain(s.worker.loc.why, Holding)).(gate := s.gate.(lock := ByProcessor))
    else if s.worker.doneBound then
      At(s, Drain(s.worker.loc.why, Test))
    else
      At(s, Crashed)
  }

  // pending_queue.get() returns and the counter is raised, before the end marker is recognised.
  function DoTakePending(s: State): State
    requires s.feed.pending != []
  {
    var s' := s.(feed := s.feed.(pending := s.feed.pending[1..]),
                 ver := s.ver.(staleness := s.ver.staleness + 1));
    match s.feed.pending[0]
    case Rollout(id, _) => s'.(worker := s.worker.(hand := [id], loc := Drain(ForSlot, Test)))
    case EndMark => At(s', Drain(ForEnd, Test))
  }

  function ProcessorDo(c: Config, s: State, a: ProcessorAction): State
    requires ProcessorCan(s, a)
  {
    match a
    case Look => DoLook(c, s)
    case SetPaused => At(s, Drain(ForPause, Test)).(gate := s.gate.(paused := true))
    case DrainTest => DoDrainTest(c, s)
    case DrainLock => DoDrainLock(s)
    case Harvest(left) =>
      s.(worker := s.worker.(doneBound := true, loc := Drain(s.worker.loc.why, Test)),
         pool := s.pool.(finished := left), gate := s.gate.(lock := Free))
    case Wake => At(s, Top)
    case TakePending => DoTakePending(s)
    case Submit =>
      s.(worker := s.worker.(hand := [], loc := Top),
         pool := s.pool.(running := s.pool.running[s.worker.hand[0] := Generating]))
  }

  // ---- generation tasks and the end of _streaming_generation_main ----

  predicate TaskCan(s: State, a: TaskAction) {
    match a
    case Generate(id) => id in s.pool.running && s.pool.running[id].Generating? && !s.Refuses()
    case Cancel(id) => s.gate.cancelling && id in s.pool.running && s.pool.running[id].Generating?
    case PutSample(id) => id in s.pool.running && s.pool.running[id].Finished?
    case PutEnd =>
      !s.gate.closed
      && (s.worker.loc.Crashed? || (s.worker.loc.Ended? && s.feed.phase.Fed?))
  }

  // A task leaves the running state and stays in active_tasks until it is harvested.
  function Finish(s: State, id: nat): State {
    s.(pool := s.pool.(running := s.pool.running - {id}, finished := s.pool.finished + 1))
  }

  // MessageQueue.put_sample
  function DoPut(c: Config, s: State, x: Item): State
    requires c.maxRequired >= 1
  {
    var full := |s.queue| >= c.maxRequired;
    s.(queue := Put(s.queue, c.maxRequired, x),
       history := s.history.(
         puts := s.history.puts + [x],
         dropped := if full then s.history.dropped + [s.queue[0]] else s.history.dropped))
  }

  function TaskDo(c: Config, s: State, a: TaskAction): State
    requires c.maxRequired >= 1 && TaskCan(s, a)
  {
    match a
    case Generate(id) =>
      s.(pool := s.pool.(running := s.pool.running[id := Finished(s.ver.current)]))
    case Cancel(id) =>
      var s' := Finish(s, id);
      s'.(pool := s'.pool.(cancelQueue := s'.pool.cancelQueue + [id]))
    case PutSample(id) => DoPut(c, Finish(s, id), Rollout(id, s.pool.running[id].version))
    case PutEnd => DoPut(c, s.(gate := s.gate.(closed := true)), EndMark)
  }

  // ---- trainer and parameter synchronizer ----

  predicate TrainerCan(c: Config, s: State, a: TrainerAction) {
    match a
    case GetSample =>
      s.trainer.phase.Collecting? && |s.trainer.collected| < c.required && s.queue != []
    case Train => s.trainer.phase.Collecting? && |s.trainer.collected| == c.required
    case Close => s.trainer.phase.Closing? && s.ver.update.Idle?
    case SyncBegin => s.trainer.phase.AwaitLast? && s.ver.update.Idle?
    case PauseStart => s.trainer.phase.PauseRequested? && s.gate.lock.Free?
    case PauseEnd => s.trainer.phase.Pausing? && s.pool.running == map[]
    case CopyWeights => s.trainer.phase.Copying?
  }

  // One turn of the loop of _get_samples_from_queue.
  function DoGet(s: State): State
    requires s.queue != []
  {
    var x, t := s.queue[0], s.trainer;
    if x.EndMark? then
      s.(queue := s.queue[1..], trainer := t.(phase := Closing))
    else
      s.(queue := s.queue[1..], trainer := t.(collected := t.collected + [x]),
         history := s.history.(consumed := s.history.consumed + [x]))
  }

  // A training step, then _trigger_parameter_sync_after_step up to wait_last_valid.
  function DoTrain(c: Config, s: State): State {
    var t := s.trainer;
    s.(history := s.history.(trained := s.history.trained + [TrainStep(t.version, t.collected)]),
       trainer :=
         if t.localStep < c.trigger then
           t.(collected := [], localStep := t.localStep + 1, globalSteps := t.globalSteps + 1)
         else
           t.(collected := [], localStep := 1, version := t.version + 1, phase := AwaitLast(false)))
  }

  // The end of FullyAsyncTrainer.fit; a test frequency of 0 raises ZeroDivisionError.
  function DoClose(c: Config, s: State): State {
    var t := s.trainer;
    s.(trainer :=
         if c.testFreq != 0 && (t.version % c.testFreq != 0 || t.localStep > 1) then
           t.(version := t.version + 1, localStep := 1, phase := AwaitLast(true))
         else
           t.(phase := Stopped))
  }

  // sync_rollout_weights on both sides; the update and resume calls are left running.
  function DoCopy(s: State): State
    requires s.trainer.phase.Copying?
  {
    var t := s.trainer;
    s.(ver := s.ver.(update := Requested(t.version)),
       trainer :=
         if t.phase.final then t.(copied := t.version, phase := Stopped)
         else t.(copied := t.version, globalSteps := t.globalSteps + 1, phase := Collecting))
  }

  function TrainerDo(c: Config, s: State, a: TrainerAction): State
    requires TrainerCan(c, s, a)
  {
    match a
    case GetSample => DoGet(s)
    case Train => DoTrain(c, s)
    case Close => DoClose(c, s)
    case SyncBegin => s.(trainer := s.trainer.(phase := PauseRequested(s.trainer.phase.final)))
    case PauseStart =>
      s.(gate := s.gate.(paused := true, lock := ByPause, cancelling := c.partial),
         trainer := s.trainer.(phase := Pausing(s.trainer.phase.final)))
    case PauseEnd =>
      s.(pool := s.pool.(finished := 0), gate := s.gate.(monitorTrigger := false, lock := Free),
         trainer := s.trainer.(phase := Copying(s.trainer.phase.final)))
    case CopyWeights => DoCopy(s)
  }

  // ---- update_param_version and resume ----

  predicate UpdateCan(s: State, a: UpdateAction) {
    match a
    case UpdateStart => s.ver.update.Requested? && s.gate.lock.Free?
    case UpdateRead => s.ver.update.Counting?
    case UpdateWrite => s.ver.update.Counted?
    case UpdateEnd => s.ver.update.Validating?
    case ResumeStart => s.ver.update.ResumeRequested? && s.gate.lock.Free?
    case ResumeEnd => s.ver.update.Resuming?
  }

  function UpdateDo(s: State, a: UpdateAction): State
    requires UpdateCan(s, a)
  {
    match a
    case UpdateStart =>
      s.(gate := s.gate.(lock := ByUpdate),
         ver := s.ver.(current := s.ver.update.version,
                       update := Counting(s.Active() + |s.pool.cancelQueue|)))
    case UpdateRead =>
      s.(ver := s.ver.(update := Counted(s.ver.update.partialCount + |s.queue|)))
    case UpdateWrite =>
      s.(ver := s.ver.(staleness := s.ver.update.count, update := Validating),
         history := s.history.(
           handEmptyAtResets := s.history.handEmptyAtResets && s.worker.hand == []))
    case UpdateEnd =>
      s.(gate := s.gate.(lock := Free), ver := s.ver.(update := ResumeRequested))
    case ResumeStart =>
      s.(gate := s.gate.(lock := ByResume), ver := s.ver.(update := Resuming))
    case ResumeEnd =>
      s.(gate := s.gate.(paused := false, monitorTrigger := true, cancelling := false, lock := Free),
         ver := s.ver.(update := Idle))
  }

  // ---- feeder and monitor ----

  predicate OtherCan(c: Config, s: State, a: OtherAction) {
    match a
    case Feed => s.feed.phase.Feeding? && s.feed.fed < c.epochItems && |s.feed.pending| < 128
    case FeedEnd =>
      (s.feed.phase.Ending? || (s.feed.phase.Feeding? && s.feed.fed == c.epochItems))
      && |s.feed.pending| < 128
    case MonitorTest => s.gate.monitorTrigger && !s.gate.monitorWaiting && !ShouldPause(c, s)
    case MonitorWrite => s.gate.monitorWaiting && s.gate.lock.Free?
  }

  // _feed_samples: one turn of the for loop.
  function DoFeed(c: Config, f: FeedState): FeedState {
    var step := c.firstStep + f.fed;
    FeedState(if step >= c.totalSteps then Ending else Feeding, f.fed + 1,
              f.pending + [Rollout(step, 0)])
  }

  function DoMonitorWrite(s: State): State {
    s.(gate := s.gate.(paused := false, monitorWaiting := false),
       history := s.history.(strayed := s.history.strayed || s.InWindow()))
  }

  function OtherDo(c: Config, s: State, a: OtherAction): State
    requires OtherCan(c, s, a)
  {
    match a
    case Feed => s.(feed := DoFeed(c, s.feed))
    case FeedEnd => s.(feed := s.feed.(phase := Fed, pending := s.feed.pending + [EndMark]))
    case MonitorTest => s.(gate := s.gate.(monitorWaiting := true))
    case MonitorWrite => DoMonitorWrite(s)
  }

  // ---- the whole system ----

  predicate Enabled(c: Config, s: State, a: Action) {
    match a
    case OfProcessor(p) => ProcessorCan(s, p)
    case OfTask(k) => TaskCan(s, k)
    case OfTrainer(n) => TrainerCan(c, s, n)
    case OfUpdate(u) => UpdateCan(s, u)
    case Other(o) => OtherCan(c, s, o)
  }

  function Apply(c: Config, s: State, a: Action): State
    requires c.maxRequired >= 1
    requires Enabled(c, s, a)
  {
    match a
    case OfProcessor(p) => ProcessorDo(c, s, p)
    case OfTask(k) => TaskDo(c, s, k)
    case OfTrainer(n) => TrainerDo(c, s, n)
    case OfUpdate(u) => UpdateDo(s, u)
    case Other(o) => OtherDo(c, s, o)
  }

  // The state after a sequence of actions from s; Stuck when some action is not enabled.
  datatype Outcome = Reached(state: State) | Stuck

  function Exec(c: Config, s: State, actions: seq<Action>): Outcome
    requires c.maxRequired >= 1
    decreases |actions|
  {
    if actions == [] then Reached(s)
    else if Enabled(c, s, actions[0]) then Exec(c, Apply(c, s, actions[0]), actions[1..])
    else Stuck
  }

  // max_required_samples is positive and at most (threshold + 1) times the samples consumed per
  // parameter version.
  lemma MaxRequiredBounds(c: Config)
    requires Valid(c)
    ensures 1 <= c.maxRequired
    ensures c.maxRequired as real <= (c.required * c.trigger) as real * (c.threshold + 1.0)
  {
    var r, t, h := c.required as real, c.trigger as real, c.threshold + 1.0;
    assert r * h >= 1.0 * 1.0;
    assert r * h * t >= 1.0;
    assert r * h * t == (r * t) * h;
    assert r * t == (c.required * c.trigger) as real;
  }

  // The two sizes in the configuration's own fields: (threshold + 1) times the samples consumed per
  // parameter version, rounded down, and 16 slots a server unless that is more.
  lemma SizesAre(c: Config)
    requires Valid(c)
    ensures var all := (c.required * c.trigger) as real * (c.threshold + 1.0);
      all - 1.0 < c.maxRequired as real <= all
    ensures c.maxConcurrent <= 16 * c.servers && c.maxConcurrent <= c.maxRequired
    ensures c.maxConcurrent == 16 * c.servers || c.maxConcurrent == c.maxRequired
  {
    var r, t, h := c.required as real, c.trigger as real, c.threshold + 1.0;
    assert r * h * t == (r * t) * h;
    assert r * t == (c.required * c.trigger) as real;
  }

  // s can be reached by some run under a valid configuration.
  ghost predicate Reachable(c: Config, s: State) {
    Valid(c) && (MaxRequiredBounds(c); exists actions :: Exec(c, Init(c), actions) == Reached(s))
  }
}
