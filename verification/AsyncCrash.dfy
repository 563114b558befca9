// When the processor ends with UnboundLocalError: `done_tasks` is read in a turn of a waiting loop
// that found no active task although no earlier turn assigned it.
module AsyncCrash {
  import opened QueueItems
  import opened AsyncProtocol
  import opened AsyncSafety
  import opened AsyncConservation
  import opened AsyncEnd
  import opened AsyncLimits
  import opened AsyncLoop
  import opened AsyncPlay

  // ---- every interleaving ----

  // The processor is about to take the lock of a waiting loop for the first time, and nothing is left.
  predicate Doomed(s: State) {
    s.worker.loc.Drain? && s.worker.loc.phase.WantLock? && !s.worker.doneBound && s.Active() == 0
  }

  predicate Lost(s: State) { Doomed(s) || s.worker.loc.Crashed? }

  // A pause is about to clear finished tasks that the processor has just seen and never harvested.
  predicate Exposed(s: State) {
    && s.worker.loc.Drain? && s.worker.loc.phase.WantLock? && !s.worker.doneBound && s.pool.finished > 0
  }

  lemma {:induction false} CrashStep(c: Config, s: State, a: Action)
    requires c.maxRequired >= 1 && Enabled(c, s, a) && !s.worker.loc.Crashed?
    ensures Apply(c, s, a).worker.loc.Crashed? <==> a == OfProcessor(DrainLock) && Doomed(s)
  {
    if !a.OfProcessor? { WorkerStays(c, s, a); }
  }

  lemma {:induction false} WorkerStays(c: Config, s: State, a: Action)
    requires c.maxRequired >= 1 && Enabled(c, s, a) && !a.OfProcessor?
    ensures Apply(c, s, a).worker == s.worker
    ensures !a.OfTask? && a != OfTrainer(PauseEnd) ==> Apply(c, s, a).pool == s.pool
  {}

  lemma {:induction false} TaskActive(c: Config, s: State, a: TaskAction)
    requires c.maxRequired >= 1 && TaskCan(s, a)
    ensures TaskDo(c, s, a).Active() == s.Active()
  {
    if !a.PutEnd? { RunningSizes(s.pool.running, a.id, Finished(s.ver.current)); }
  }

  // A processor that is lost stays so.
  lemma {:induction false} LostStays(c: Config, s: State, a: Action)
    requires c.maxRequired >= 1 && Enabled(c, s, a) && Lost(s)
    ensures Lost(Apply(c, s, a))
  {
    if !a.OfProcessor? {
      WorkerStays(c, s, a);
      if a.OfTask? { TaskActive(c, s, a.k); }
    }
  }

  // With room for at least one task, only such a pause loses it.
  lemma {:induction false} LostEnters(c: Config, s: State, a: Action)
    requires c.maxRequired >= 1 && c.maxConcurrent >= 1 && Enabled(c, s, a) && !Lost(s)
    ensures Lost(Apply(c, s, a)) <==> a == OfTrainer(PauseEnd) && Exposed(s)
  {
    match a
    case OfProcessor(p) => LostProcessor(c, s, p);
    case OfTask(k) => WorkerStays(c, s, a); TaskActive(c, s, k);
    case _ => WorkerStays(c, s, a);
  }

  lemma {:induction false} LostProcessor(c: Config, s: State, a: ProcessorAction)
    requires c.maxConcurrent >= 1 && ProcessorCan(s, a) && !Lost(s)
    ensures !Lost(ProcessorDo(c, s, a))
  {}

  // Action k of the run is such a pause.
  ghost predicate Cuts(c: Config, s: State, actions: seq<Action>, k: nat)
    requires c.maxRequired >= 1
  {
    && k < |actions| && actions[k] == OfTrainer(PauseEnd)
    && Exec(c, s, actions[..k]).Reached? && Exposed(Exec(c, s, actions[..k]).state)
  }

  // A run under a configuration with a server has lost the processor if and only if a pause ended
  // in it between the test and the lock of the processor's first waiting loop, with a finished
  // task in the set it cleared.
  lemma {:induction false} LostIff(c: Config, s: State, actions: seq<Action>)
    requires c.maxRequired >= 1 && c.maxConcurrent >= 1 && Exec(c, s, actions).Reached? && !Lost(s)
    ensures Lost(Exec(c, s, actions).state) <==> exists k: nat :: Cuts(c, s, actions, k)
    decreases |actions|
  {
    hide Lost, Exposed, Enabled, Apply;
    if actions != [] {
      var a, rest := actions[0], actions[1..];
      var s' := Apply(c, s, a);
      LostEnters(c, s, a);
      assert actions[..0] == [] && Exec(c, s, []) == Reached(s);
      if Lost(s') {
        LostRun(c, s', rest);
        assert Cuts(c, s, actions, 0);
      } else {
        LostIff(c, s', rest);
        CutsShift(c, s, actions);
      }
    }
  }

  lemma {:induction false} LostRun(c: Config, s: State, actions: seq<Action>)
    requires c.maxRequired >= 1 && Exec(c, s, actions).Reached? && Lost(s)
    ensures Lost(Exec(c, s, actions).state)
    decreases |actions|
  {
    hide Lost, Enabled, Apply;
    if actions != [] {
      LostStays(c, s, actions[0]);
      LostRun(c, Apply(c, s, actions[0]), actions[1..]);
    }
  }

  lemma {:induction false} CutsShift(c: Config, s: State, actions: seq<Action>)
    requires c.maxRequired >= 1 && actions != [] && Enabled(c, s, actions[0])
    requires !(actions[0] == OfTrainer(PauseEnd) && Exposed(s))
    ensures (exists k: nat :: Cuts(c, s, actions, k))
       <==> (exists k: nat :: Cuts(c, Apply(c, s, actions[0]), actions[1..], k))
  {
    hide Exposed, Enabled, Apply;
    var s', rest := Apply(c, s, actions[0]), actions[1..];
    forall k: nat ensures Cuts(c, s, actions, k + 1) <==> Cuts(c, s', rest, k) {
      if k < |rest| {
        assert actions[..k + 1][0] == actions[0] && actions[..k + 1][1..] == rest[..k];
      }
    }
    assert actions[..0] == [] && Exec(c, s, []) == Reached(s);
    if k: nat :| Cuts(c, s, actions, k) {
      assert k > 0;
      assert Cuts(c, s', rest, k - 1);
    }
    if k: nat :| Cuts(c, s', rest, k) {
      assert Cuts(c, s, actions, k + 1);
    }
  }

  // ---- under asyncio ----

  // The pending queue does not run empty in the processor's first stretch.
  predicate NeverEmpties(c: Config) {
    c.maxConcurrent < 128 || c.maxRequired <= 128 || FedTotal(c) < 128
  }

  predicate Quiet(s: State) {
    && s.gate.lock.Free? && !s.gate.closed && s.pool.finished == 0 && s.pool.cancelQueue == []
    && s.queue == [] && s.trainer.phase.Collecting? && s.trainer.collected == [] && s.ver.update.Idle?
    && forall id :: id in s.pool.running ==> s.pool.running[id].Generating?
  }

  // Before the processor's first stretch.
  predicate Before(l: Loop) {
    && !l.going && l.waiters == [] && l.ready != [] && l.ready[0] == Wake.First && Quiet(l.s)
    && l.s.worker.loc.Top? && !l.s.gate.paused && l.s.ver.staleness == 0
    && l.s.pool.running == map[] && l.s.worker.hand == [] && |l.s.feed.pending| <= 128
  }

  // What is left of the 128 entries the feeder can put ahead.
  predicate Stock(s: State) {
    s.feed.phase.Fed? || |s.feed.pending| + s.ver.staleness == 128
  }

  predicate Route(c: Config, s: State) {
    match s.worker.loc
    case Top => true
    case AwaitPending => s.ver.staleness < c.maxRequired
    case Submitting => true
    case MarkPaused => s.Active() > 0
    case Drain(why, phase) => !phase.Holding? && (why.ForPause? || phase.WantLock? ==> s.Active() > 0)
    case _ => false
  }

  // In the processor's first stretch.
  predicate InFirst(c: Config, l: Loop) { l.going && l.waiters == [] && FirstState(c, l.s) }

  predicate FirstState(c: Config, s: State) {
    && Quiet(s) && (s.gate.paused ==> s.worker.loc.Drain? && s.worker.loc.why.ForPause?)
    && s.ver.staleness == |s.pool.running| + |s.worker.hand| + (if Draining(s.worker.loc) then 1 else 0)
    && Stock(s) && Route(c, s)
  }

  // Waiting for the first task to complete, with the lock.
  predicate Held(s: State) {
    s.worker.loc.Drain? && s.worker.loc.phase.Holding? && s.Active() > 0
  }

  predicate Sound(c: Config, l: Loop) {
    && !l.s.worker.loc.Crashed?
    && (l.s.worker.doneBound || l.s.worker.loc.Ended? || Held(l.s) || Before(l) || InFirst(c, l))
  }

  lemma {:induction false} BeforeStep(c: Config, l: Loop, e: Event)
    requires c.maxRequired >= 1 && c.required >= 1 && EndingInv(c, l.s) && Before(l) && May(c, l, e)
    ensures Before(Next(c, l, e)) || InFirst(c, Next(c, l, e))
  {
    hide FeedInv, FinalInv, Conserved, ConcurrencyInv, CounterInv, NoneInv, RolloutsInv, ClosedInv, HandInv;
    if e.Run? { FeederAhead(c, l.s); }
  }

  lemma {:induction false} FeederAhead(c: Config, s: State)
    requires EndingInv(c, s) && FeederRests(c, s) && s.worker.loc.Top? && s.ver.staleness == 0
    requires s.pool.running == map[] && s.worker.hand == [] && |s.feed.pending| <= 128
    ensures Stock(s)
  {}

  // AwaitPending never waits in the first stretch.
  lemma {:induction false} Stocked(c: Config, s: State)
    requires EndingInv(c, s) && NeverEmpties(c) && Stock(s) && s.worker.loc.AwaitPending?
    requires s.ver.staleness == |s.pool.running| && s.ver.staleness < c.maxRequired
    ensures s.feed.pending != []
  {
    FedAtMost(c, s.feed);
  }

  lemma {:induction false} FirstSubmits(c: Config, s: State)
    requires EndingInv(c, s) && FirstState(c, s) && ProcessorCan(s, Submit)
    ensures FirstState(c, ProcessorDo(c, s, Submit))
  {
    hide Safe, SizeInv, FeedInv, FinalInv, Quiet, Stock;
    HandNotRunning(c, s);
    NewKey(s.pool.running, s.worker.hand[0]);
    OneInHand(c, s);
    QuietStock(s, ProcessorDo(c, s, Submit));
  }

  lemma {:induction false} OneInHand(c: Config, s: State)
    requires Safe(c, s)
    ensures |s.worker.hand| <= 1
  {}

  lemma {:induction false} QuietStock(s: State, s': State)
    requires Quiet(s) && s'.gate.lock == s.gate.lock && s'.gate.closed == s.gate.closed
    requires s'.pool.finished == s.pool.finished && s'.pool.cancelQueue == s.pool.cancelQueue
    requires s'.queue == s.queue && s'.trainer == s.trainer && s'.ver.update == s.ver.update
    requires forall id :: id in s'.pool.running ==>
      (id in s.pool.running && s'.pool.running[id] == s.pool.running[id]) || s'.pool.running[id].Generating?
    ensures Quiet(s')
    ensures Stock(s) && s'.feed == s.feed && s'.ver.staleness == s.ver.staleness ==> Stock(s')
  {}

  lemma {:induction false} FirstTakes(c: Config, s: State)
    requires HandInv(s.worker) && PendingInv(s) && FirstState(c, s) && ProcessorCan(s, TakePending)
    ensures FirstState(c, ProcessorDo(c, s, TakePending))
  {
    hide Quiet;
    QuietStock(s, ProcessorDo(c, s, TakePending));
  }

  lemma {:induction false} FirstTests(c: Config, s: State)
    requires EndingInv(c, s) && FirstState(c, s) && ProcessorCan(s, DrainTest)
    requires c.maxConcurrent >= 1 || FedTotal(c) == 0
    ensures var s' := ProcessorDo(c, s, DrainTest); FirstState(c, s') || s'.worker.loc.Ended?
  {
    hide FinalInv, Conserved, Quiet, CounterInv, NoneInv, RolloutsInv, LockInv, ClosedInv;
    QuietStock(s, ProcessorDo(c, s, DrainTest));
    FedAtMost(c, s.feed);
  }

  lemma {:induction false} FirstLooks(c: Config, s: State)
    requires HandInv(s.worker) && c.maxRequired >= 1 && FirstState(c, s) && ProcessorCan(s, Look)
    ensures FirstState(c, ProcessorDo(c, s, Look))
  {}

  lemma {:induction false} FirstLocks(c: Config, s: State, p: ProcessorAction)
    requires FirstState(c, s) && ProcessorCan(s, p)
    requires !p.Look? && !p.TakePending? && !p.DrainTest? && !p.Submit?
    ensures FirstState(c, ProcessorDo(c, s, p)) || Held(ProcessorDo(c, s, p))
  {}

  lemma {:induction false} FirstDo(c: Config, s: State, p: ProcessorAction)
    requires c.maxRequired >= 1 && EndingInv(c, s) && FirstState(c, s) && ProcessorCan(s, p)
    requires c.maxConcurrent >= 1 || FedTotal(c) == 0
    ensures var s' := ProcessorDo(c, s, p); FirstState(c, s') || Held(s') || s'.worker.loc.Ended?
  {
    hide SizeInv, FeedInv, FinalInv, Conserved, FirstState, Held;
    if p.Look? { FirstLooks(c, s); }
    else if p.TakePending? { FirstTakes(c, s); }
    else if p.DrainTest? { FirstTests(c, s); }
    else if p.Submit? { FirstSubmits(c, s); }
    else { FirstLocks(c, s, p); }
  }

  lemma {:induction false} FirstAct(c: Config, l: Loop, p: ProcessorAction)
    requires c.maxRequired >= 1 && EndingInv(c, l.s) && InFirst(c, l) && May(c, l, Go(p))
    requires c.maxConcurrent >= 1 || FedTotal(c) == 0
    ensures var l' := Next(c, l, Go(p)); InFirst(c, l') || Held(l'.s) || l'.s.worker.loc.Ended?
  {
    hide EndingInv, Quiet, Stock, ProcessorDo;
    FirstDo(c, l.s, p);
    if FirstState(c, ProcessorDo(c, l.s, p)) { GoesOn(c, ProcessorDo(c, l.s, p)); }
  }

  lemma {:induction false} GoesOn(c: Config, s: State)
    requires FirstState(c, s)
    ensures !GivesUp(s.worker.loc)
  {}

  // In that stretch the processor never has to wait, and nobody else does anything but become ready.
  lemma {:induction false} OnlyProcessor(c: Config, l: Loop, e: Event)
    requires c.maxRequired >= 1 && c.required >= 1 && EndingInv(c, l.s) && NeverEmpties(c)
    requires InFirst(c, l) && May(c, l, e)
    ensures e.Go? || e.Arrive?
  {
    hide SizeInv, FeedInv, FinalInv, Conserved, ConcurrencyInv, CounterInv, NoneInv, RolloutsInv, ClosedInv;
    if l.s.worker.loc.AwaitPending? { Stocked(c, l.s); }
  }

  lemma {:induction false} FirstStep(c: Config, l: Loop, e: Event)
    requires c.maxRequired >= 1 && c.required >= 1 && EndingInv(c, l.s) && NeverEmpties(c)
    requires c.maxConcurrent >= 1 || FedTotal(c) == 0
    requires InFirst(c, l) && May(c, l, e)
    ensures var l' := Next(c, l, e); InFirst(c, l') || Held(l'.s) || l'.s.worker.loc.Ended?
  {
    hide EndingInv, Quiet, Stock, CanArrive;
    OnlyProcessor(c, l, e);
    if e.Go? { FirstAct(c, l, e.p); }
  }

  // Nobody but the processor touches it, and only the end of a pause clears tasks.
  predicate Untouched(s: State, s': State) {
    s'.worker == s.worker && (s'.Active() == s.Active() || s.trainer.phase.Pausing?)
  }

  lemma {:induction false} ActUntouched(c: Config, s: State, a: Action)
    requires c.maxRequired >= 1 && Enabled(c, s, a) && !a.OfProcessor?
    ensures Untouched(s, Apply(c, s, a))
  {
    WorkerStays(c, s, a);
    if a.OfTask? { TaskActive(c, s, a.k); }
  }

  lemma {:induction false} TakesUntouched(c: Config, l: Loop, w: Waiter)
    requires c.maxRequired >= 1 && l.s.gate.lock.Free?
    ensures Untouched(l.s, Takes(c, l, w).s)
  {
    hide Apply;
    match w
    case Pause => if Enabled(c, l.s, OfTrainer(PauseStart)) { StartUntouched(c, l.s); }
    case Update => if Enabled(c, l.s, OfUpdate(UpdateStart)) { ActUntouched(c, l.s, OfUpdate(UpdateStart)); }
    case Resume => if Enabled(c, l.s, OfUpdate(ResumeStart)) { ResumeUntouched(c, l); }
    case Monitor => if Enabled(c, l.s, Other(MonitorWrite)) { ActUntouched(c, l.s, Other(MonitorWrite)); }
    case _ =>
  }

  lemma {:induction false} StartUntouched(c: Config, s: State)
    requires c.maxRequired >= 1 && Enabled(c, s, OfTrainer(PauseStart))
    ensures Untouched(s, Apply(c, s, OfTrainer(PauseStart)))
  {}

  lemma {:induction false} ResumeUntouched(c: Config, l: Loop)
    requires c.maxRequired >= 1 && l.s.gate.lock.Free? && Enabled(c, l.s, OfUpdate(ResumeStart))
    ensures Untouched(l.s, Takes(c, l, Resume).s)
  {}

  lemma {:induction false} TickUntouched(c: Config, l: Loop)
    requires c.maxRequired >= 1
    ensures Untouched(l.s, Ticked(c, l).s)
  {}

  lemma {:induction false} AnswerUntouched(c: Config, l: Loop, a: Action)
    requires c.maxRequired >= 1 && Enabled(c, l.s, a) && IsReply(a)
    ensures Untouched(l.s, Answered(c, l, a).s)
  {
    hide Apply, Enabled;
    ActUntouched(c, l.s, a);
  }

  lemma {:induction false} RunUntouched(c: Config, l: Loop)
    requires c.maxRequired >= 1 && CanRun(c, l)
    ensures Untouched(l.s, Ran(c, l).s)
  {
    hide Apply, Enabled, Takes, Answered, Ticked, Untouched;
    Same(l.s);
    var rest := l.(ready := l.ready[1..]);
    match l.ready[0]
    case Hand =>
      if l.s.gate.lock.Free? && l.waiters != [] {
        TakesUntouched(c, rest.(waiters := l.waiters[1..]), l.waiters[0]);
      }
    case Call(w) => if Available(l) { TakesUntouched(c, rest, w); }
    case Timer => TickUntouched(c, rest);
    case Reply(a) => if Enabled(c, l.s, a) && IsReply(a) { AnswerUntouched(c, rest, a); }
    case _ =>
  }

  lemma {:induction false} Same(s: State)
    ensures Untouched(s, s)
  {}

  lemma {:induction false} FillUntouched(c: Config, l: Loop, o: OtherAction)
    requires OtherCan(c, l.s, o)
    ensures Untouched(l.s, Filled(c, l, o).s)
  {}

  lemma {:induction false} OthersLeave(c: Config, l: Loop, e: Event)
    requires c.maxRequired >= 1 && May(c, l, e) && !e.Go?
    ensures Untouched(l.s, Next(c, l, e).s)
  {
    hide Apply, Enabled, Untouched, Ran;
    Same(l.s);
    match e
    case Remote(a) => ActUntouched(c, l.s, a);
    case Fill(o) => FillUntouched(c, l, o);
    case Run => RunUntouched(c, l);
    case _ =>
  }

  lemma {:induction false} HeldStep(c: Config, l: Loop, e: Event)
    requires c.maxRequired >= 1 && LockInv(l.s) && Held(l.s) && May(c, l, e)
    ensures Held(Next(c, l, e).s) || (Next(c, l, e).s.worker.doneBound && !Next(c, l, e).s.worker.loc.Crashed?)
  {
    if !e.Go? {
      hide Apply, Enabled, Next, May;
      OthersLeave(c, l, e);
    }
  }

  lemma {:induction false} BoundStep(c: Config, l: Loop, e: Event)
    requires c.maxRequired >= 1 && May(c, l, e) && !l.s.worker.loc.Crashed?
    requires l.s.worker.doneBound || l.s.worker.loc.Ended?
    ensures var w := Next(c, l, e).s.worker; !w.loc.Crashed? && (w.doneBound || w.loc.Ended?)
  {
    if !e.Go? {
      hide Apply, Enabled, Next, May;
      OthersLeave(c, l, e);
    }
  }

  lemma {:induction false} SoundStep(c: Config, l: Loop, e: Event)
    requires c.maxRequired >= 1 && c.required >= 1 && EndingInv(c, l.s) && NeverEmpties(c)
    requires c.maxConcurrent >= 1 || FedTotal(c) == 0
    requires Sound(c, l) && May(c, l, e)
    ensures Sound(c, Next(c, l, e))
  {
    hide SizeInv, FeedInv, FinalInv, Conserved, Quiet, Stock, Enabled, Apply, May, Next;
    if l.s.worker.doneBound || l.s.worker.loc.Ended? {
      BoundStep(c, l, e);
    } else if Held(l.s) {
      HeldStep(c, l, e);
    } else if Before(l) {
      BeforeStep(c, l, e);
    } else {
      FirstStep(c, l, e);
    }
  }

  lemma {:induction false} SoundPlay(c: Config, l: Loop, events: seq<Event>)
    requires c.maxRequired >= 1 && c.required >= 1 && NeverEmpties(c)
    requires c.maxConcurrent >= 1 || FedTotal(c) == 0
    requires Reachable(c, l.s) && Sound(c, l) && Play(c, l, events).Arrived?
    ensures Sound(c, Play(c, l, events).loop)
    decreases |events|
  {
    hide Reachable, EndingInv, Sound, May, Next;
    if events != [] {
      EndingAlways(c, l.s);
      SoundStep(c, l, events[0]);
      StepReaches(c, l, events[0]);
      SoundPlay(c, Next(c, l, events[0]), events[1..]);
    }
  }

  // With at least one server, or nothing to do, no run asyncio admits ends in the crash.
  lemma {:induction false} NoCrash(c: Config, s: State)
    requires Admitted(c, s) && NeverEmpties(c) && (c.servers >= 1 || FedTotal(c) == 0)
    ensures !s.worker.loc.Crashed?
  {
    hide Reachable, Sound;
    StartReachable(c);
    var l :| Leads(c, Start(c), l) && l.s == s;
    var events :| Play(c, Start(c), events) == Arrived(l);
    StartSound(c);
    SoundPlay(c, Start(c), events);
    assert Sound(c, l) ==> !l.s.worker.loc.Crashed? by { SoundNotCrashed(c, l); }
  }

  lemma {:induction false} StartSound(c: Config)
    ensures Sound(c, Start(c))
  {}

  lemma {:induction false} SoundNotCrashed(c: Config, l: Loop)
    ensures Sound(c, l) ==> !l.s.worker.loc.Crashed?
  {}

  // Without a server the first sample finds no slot and no task to wait for.
  lemma {:induction false} CrashRun(c: Config) returns (s: State)
    requires Valid(c) && c.servers == 0 && FedTotal(c) >= 1
    ensures Admitted(c, s) && s.worker.loc.Crashed?
  {
    hide Goes, Reachable, Admitted;
    var o := Start(c);
    var l := FirstTurn(c);
    GoesFacts(c, o, l);
    var m, id := TakeOne(c, l);
    Onward(c, o, l, m);
    m := Do(c, o, m, Go(DrainTest));
    m := Do(c, o, m, Go(DrainLock));
    GoesAdmits(c, m);
    s := m.s;
  }

  // Under asyncio the processor can crash if and only if there is data and no server.
  lemma {:induction false} CrashIff(c: Config)
    requires Valid(c) && NeverEmpties(c)
    ensures (exists s :: Admitted(c, s) && s.worker.loc.Crashed?) <==> c.servers == 0 && FedTotal(c) >= 1
  {
    hide Admitted;
    if c.servers == 0 && FedTotal(c) >= 1 {
      var s := CrashRun(c);
    } else {
      forall s | Admitted(c, s) ensures !s.worker.loc.Crashed? { NoCrash(c, s); }
    }
  }
}
