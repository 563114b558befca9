// Which runs of the protocol asyncio admits.  The rollouter's coroutines share one event loop, which
// resumes them in the order in which they became ready.  A coroutine gives up its turn only where it
// really waits: on an empty or full queue, on a lock that is held or has waiters, on the condition, on
// `asyncio.wait`, and on a remote call.  Releasing the lock makes its first waiter ready at once, and
// so do notifying the condition and filling an empty queue.  What comes from outside (replies, remote
// calls, the end of the monitor's sleep) becomes ready behind all that is, at any time.
module AsyncLoop {
  import opened QueueItems
  import opened AsyncProtocol

  // Who waits for the lock.  The monitor waits for it in two places: to write, or, as `Check`, at
  // the head of its loop to read `running`.
  datatype Waiter = Processor | Pause | Update | Resume | Monitor | Check

  // What is ready to run.
  datatype Wake =
    | First             // the processor's first step
    | Getter            // the processor: there is an entry in the pending queue
    | Tasks             // the processor: asyncio.wait has returned
    | Notice            // the processor: the condition has been notified
    | Hand              // the first waiter of the lock, which is free
    | Begun(id: nat)    // the first step of a task, up to its remote call
    | Call(w: Waiter)   // the first step of pause, update_param_version or resume
    | Timer             // the monitor, after its sleep
    | Reply(a: Action)  // a coroutine whose remote call has come back

  // `going`: the processor is in the middle of a stretch.
  datatype Loop = Loop(s: State, going: bool, waiters: seq<Waiter>, ready: seq<Wake>)

  datatype Event =
    | Remote(a: Action)       // a step of the trainer, the synchroniser or the message queue
    | Fill(o: OtherAction)    // the feeder puts an entry
    | Arrive(h: Wake)         // something from outside becomes ready
    | Run                     // the first of what is ready runs
    | Go(p: ProcessorAction)  // the processor goes on
    | Suspend                 // the processor waits

  function Start(c: Config): Loop { Loop(Init(c), false, [], [First]) }

  // ---- the lock and the condition ----

  // The processor, in a stretch, can take the lock: nobody waits for it, or the processor has been
  // handed it.
  predicate Mine(l: Loop) {
    l.s.gate.lock.Free? && (l.waiters == [] || l.waiters[0].Processor?)
  }

  // Anybody else can.
  predicate Available(l: Loop) { l.s.gate.lock.Free? && l.waiters == [] }

  function Popped(ws: seq<Waiter>): seq<Waiter> { if ws == [] then [] else ws[1..] }

  // The lock has been released.
  function Released(l: Loop): Loop {
    if l.s.gate.lock.Free? && l.waiters != [] then l.(ready := l.ready + [Hand]) else l
  }

  // The processor waits on the condition.
  predicate Sleeping(l: Loop) {
    && !l.going && (l.s.worker.loc.Submitting? || l.s.worker.loc.WaitResume?)
    && Processor !in l.waiters && Notice !in l.ready
  }

  function Notified(l: Loop): Loop {
    if Sleeping(l) then l.(ready := l.ready + [Notice]) else l
  }

  // ---- the coroutines other than the processor ----

  // The monitor goes back to the head of its loop, and to sleep if it gets the lock at once.
  function Looked(l: Loop): Loop {
    if Available(l) then l else l.(waiters := l.waiters + [Check])
  }

  function Wrote(c: Config, l: Loop): Loop
    requires Enabled(c, l.s, Other(MonitorWrite)) && c.maxRequired >= 1
  {
    Looked(Released(Notified(l.(s := Apply(c, l.s, Other(MonitorWrite))))))
  }

  // The end of the monitor's sleep.
  function Ticked(c: Config, l: Loop): Loop
    requires c.maxRequired >= 1
  {
    if !Enabled(c, l.s, Other(MonitorTest)) then Looked(l)
    else
      var tested := l.(s := Apply(c, l.s, Other(MonitorTest)));
      if Available(l) then Wrote(c, tested) else tested.(waiters := l.waiters + [Monitor])
  }

  // A coroutine takes the free lock.
  function Takes(c: Config, l: Loop, w: Waiter): Loop
    requires c.maxRequired >= 1 && l.s.gate.lock.Free?
  {
    match w
    case Pause => if Enabled(c, l.s, OfTrainer(PauseStart)) then Did(c, l, OfTrainer(PauseStart)) else l
    case Update => if Enabled(c, l.s, OfUpdate(UpdateStart)) then Did(c, l, OfUpdate(UpdateStart)) else l
    case Resume =>
      if !Enabled(c, l.s, OfUpdate(ResumeStart)) then l
      else
        var begun := Did(c, l, OfUpdate(ResumeStart));
        // without partial rollouts there is nothing to wait for
        if c.partial then begun else Answered(c, begun, OfUpdate(ResumeEnd))
    case Monitor => if Enabled(c, l.s, Other(MonitorWrite)) then Wrote(c, l) else l
    case Check => Released(l)
    case Processor => l.(going := true)
  }

  function Did(c: Config, l: Loop, a: Action): Loop
    requires c.maxRequired >= 1 && Enabled(c, l.s, a)
  {
    l.(s := Apply(c, l.s, a))
  }

  // A coroutine goes on after a remote call; pause, update_param_version and resume end then.
  function Answered(c: Config, l: Loop, a: Action): Loop
    requires c.maxRequired >= 1 && Enabled(c, l.s, a)
  {
    var done := Did(c, l, a);
    match a
    case OfTrainer(PauseEnd) => Released(done)
    case OfUpdate(UpdateEnd) => Released(done)
    case OfUpdate(ResumeEnd) => Released(Notified(done))
    case _ => done
  }

  // ---- what can happen ----

  predicate IsRemote(a: Action) {
    match a
    case OfTask(PutSample(_)) => true
    case OfTask(PutEnd) => true
    case OfTrainer(n) => !n.PauseStart? && !n.PauseEnd?
    case OfUpdate(UpdateRead) => true
    case _ => false
  }

  // The feeder waits for room in the pending queue, or is done.
  predicate FeederRests(c: Config, s: State) {
    !OtherCan(c, s, Feed) && !OtherCan(c, s, FeedEnd)
  }

  // The steps that a reply to a remote call allows.
  predicate IsReply(a: Action) {
    match a
    case OfTask(k) => k.Generate? || k.Cancel?
    case OfTrainer(n) => n.PauseEnd?
    case OfUpdate(u) => u.UpdateWrite? || u.UpdateEnd? || u.ResumeEnd?
    case _ => false
  }

  // A task calls out in its first step.
  predicate HasCalled(l: Loop, a: Action) {
    a.OfTask? && (a.k.Generate? || a.k.Cancel?) ==> Begun(a.k.id) !in l.ready
  }

  predicate IsCalled(s: State, w: Waiter) {
    match w
    case Pause => s.trainer.phase.PauseRequested?
    case Update => s.ver.update.Requested?
    case Resume => s.ver.update.ResumeRequested?
    case _ => false
  }

  predicate CanArrive(c: Config, l: Loop, h: Wake) {
    match h
    case Tasks =>
      && !l.going && l.s.worker.loc.Drain? && l.s.worker.loc.phase.Holding? && l.s.pool.finished > 0
      && Tasks !in l.ready
    case Call(w) =>
      && w !in l.waiters && Call(w) !in l.ready
      && IsCalled(l.s, w)
    case Timer => Timer !in l.ready && Monitor !in l.waiters && Check !in l.waiters
    case Reply(a) => Enabled(c, l.s, a) && IsReply(a) && HasCalled(l, a) && Reply(a) !in l.ready
    case _ => false
  }

  predicate ForProcessor(l: Loop, h: Wake) {
    match h
    case First => true
    case Getter => true
    case Tasks => true
    case Notice => true
    case Hand => l.waiters != [] && l.waiters[0].Processor?
    case _ => false
  }

  // The feeder, which the processor wakes by taking samples, runs before it does again.
  predicate CanRun(c: Config, l: Loop) {
    !l.going && l.ready != [] && (ForProcessor(l, l.ready[0]) ==> FeederRests(c, l.s))
  }

  function Ran(c: Config, l: Loop): Loop
    requires c.maxRequired >= 1 && CanRun(c, l)
  {
    var rest := l.(ready := l.ready[1..]);
    match l.ready[0]
    case Hand =>
      if !l.s.gate.lock.Free? || l.waiters == [] then rest
      else if l.waiters[0].Processor? then rest.(going := true)
      else Takes(c, rest.(waiters := l.waiters[1..]), l.waiters[0])
    case Call(w) => if Available(l) then Takes(c, rest, w) else rest.(waiters := l.waiters + [w])
    case Timer => Ticked(c, rest)
    case Reply(a) => if Enabled(c, l.s, a) && IsReply(a) then Answered(c, rest, a) else rest
    case Begun(_) => rest
    case _ => rest.(going := true)
  }

  // ---- the processor ----

  predicate LockPoint(x: Location) {
    x.MarkPaused? || (x.Drain? && x.phase.WantLock?) || x.WaitResume? || x.Submitting?
  }

  predicate TakesLock(p: ProcessorAction) { p.SetPaused? || p.DrainLock? || p.Wake? || p.Submit? }

  // asyncio.wait always suspends.
  predicate GivesUp(x: Location) {
    (x.Drain? && x.phase.Holding?) || x.Ended? || x.Crashed?
  }

  function Went(c: Config, l: Loop, p: ProcessorAction): Loop
    requires c.maxRequired >= 1 && ProcessorCan(l.s, p)
  {
    var s' := ProcessorDo(c, l.s, p);
    var next := Loop(s', !GivesUp(s'.worker.loc), if TakesLock(p) then Popped(l.waiters) else l.waiters,
                     if p.Submit? then l.ready + [Begun(l.s.worker.hand[0])] else l.ready);
    if TakesLock(p) || p.Harvest? then Released(next) else next
  }

  predicate CanSuspend(l: Loop) {
    && l.going
    && ((l.s.worker.loc.AwaitPending? && l.s.feed.pending == [])
        || (LockPoint(l.s.worker.loc) && !Mine(l))
        || ((l.s.worker.loc.WaitResume? || l.s.worker.loc.Submitting?) && Mine(l) && l.s.gate.paused))
  }

  // It queues for the lock, or waits on the condition (or on the empty queue).
  function Suspended(l: Loop): Loop {
    if LockPoint(l.s.worker.loc) && !Mine(l) then
      l.(going := false, waiters := l.waiters + [Processor])
    else if LockPoint(l.s.worker.loc) then
      Released(l.(going := false, waiters := Popped(l.waiters)))
    else
      l.(going := false)
  }

  // A put on the empty queue wakes the processor waiting there.
  function Filled(c: Config, l: Loop, o: OtherAction): Loop
    requires OtherCan(c, l.s, o)
  {
    l.(s := OtherDo(c, l.s, o),
       ready := if l.s.worker.loc.AwaitPending? && l.s.feed.pending == [] then l.ready + [Getter] else l.ready)
  }

  predicate May(c: Config, l: Loop, e: Event) {
    match e
    case Remote(a) => Enabled(c, l.s, a) && IsRemote(a)
    case Fill(o) => !l.going && (o.Feed? || o.FeedEnd?) && OtherCan(c, l.s, o)
    case Arrive(h) => CanArrive(c, l, h)
    case Run => CanRun(c, l)
    case Go(p) => l.going && ProcessorCan(l.s, p) && (TakesLock(p) ==> Mine(l))
    case Suspend => CanSuspend(l)
  }

  function Next(c: Config, l: Loop, e: Event): Loop
    requires c.maxRequired >= 1 && May(c, l, e)
  {
    match e
    case Remote(a) => Did(c, l, a)
    case Fill(o) => Filled(c, l, o)
    case Arrive(h) => l.(ready := l.ready + [h])
    case Run => Ran(c, l)
    case Go(p) => Went(c, l, p)
    case Suspend => Suspended(l)
  }

  // ---- plays ----

  datatype Played = Arrived(loop: Loop) | Refused

  function Play(c: Config, l: Loop, events: seq<Event>): Played
    requires c.maxRequired >= 1
    decreases |events|
  {
    if events == [] then Arrived(l)
    else if May(c, l, events[0]) then Play(c, Next(c, l, events[0]), events[1..])
    else Refused
  }

  ghost predicate Leads(c: Config, l: Loop, l': Loop)
    requires c.maxRequired >= 1
  {
    exists events :: Play(c, l, events) == Arrived(l')
  }

  // Some run of the event loop and the other processes gets to s.
  ghost predicate Admitted(c: Config, s: State) {
    Valid(c) && (MaxRequiredBounds(c); exists l :: Leads(c, Start(c), l) && l.s == s)
  }

  lemma {:induction false} Joined(c: Config, a: Loop, b: Loop, d: Loop, es: seq<Event>, fs: seq<Event>)
    requires c.maxRequired >= 1 && Play(c, a, es) == Arrived(b) && Play(c, b, fs) == Arrived(d)
    ensures Play(c, a, es + fs) == Arrived(d)
    decreases |es|
  {
    hide May, Next;
    if es == [] {
      assert es + fs == fs;
    } else {
      assert (es + fs)[0] == es[0] && (es + fs)[1..] == es[1..] + fs;
      Joined(c, Next(c, a, es[0]), b, d, es[1..], fs);
    }
  }

  lemma {:induction false} Chain(c: Config, a: Loop, b: Loop, d: Loop)
    requires c.maxRequired >= 1 && Leads(c, a, b) && Leads(c, b, d)
    ensures Leads(c, a, d)
  {
    var es :| Play(c, a, es) == Arrived(b);
    var fs :| Play(c, b, fs) == Arrived(d);
    Joined(c, a, b, d, es, fs);
  }

  lemma {:induction false} Still(c: Config, l: Loop)
    requires c.maxRequired >= 1
    ensures Leads(c, l, l)
  {
    assert Play(c, l, []) == Arrived(l);
  }

  lemma {:induction false} OneStep(c: Config, l: Loop, e: Event)
    requires c.maxRequired >= 1 && May(c, l, e)
    ensures Leads(c, l, Next(c, l, e))
  {
    hide May, Next;
    var l' := Next(c, l, e);
    assert Play(c, l', []) == Arrived(l');
    assert [e][1..] == [];
    assert Play(c, l, [e]) == Arrived(l');
  }

  // ---- every admitted run is a run ----

  lemma {:induction false} ExecAppend(c: Config, s: State, actions: seq<Action>, a: Action)
    requires c.maxRequired >= 1 && Exec(c, s, actions).Reached?
    requires Enabled(c, Exec(c, s, actions).state, a)
    ensures Exec(c, s, actions + [a]) == Reached(Apply(c, Exec(c, s, actions).state, a))
    decreases |actions|
  {
    hide Enabled, Apply;
    var more := actions + [a];
    if actions == [] {
      assert more == [a] && more[1..] == [];
      assert Exec(c, Apply(c, s, a), []) == Reached(Apply(c, s, a));
    } else {
      assert more[0] == actions[0] && more[1..] == actions[1..] + [a];
      ExecAppend(c, Apply(c, s, actions[0]), actions[1..], a);
    }
  }

  lemma {:induction false} ReachedNext(c: Config, s: State, a: Action)
    requires Reachable(c, s) && c.maxRequired >= 1 && Enabled(c, s, a)
    ensures Reachable(c, Apply(c, s, a))
  {
    hide Enabled, Apply, Valid;
    var actions :| Exec(c, Init(c), actions) == Reached(s);
    ExecAppend(c, Init(c), actions, a);
  }

  lemma {:induction false} DidReaches(c: Config, l: Loop, a: Action)
    requires Reachable(c, l.s) && c.maxRequired >= 1 && Enabled(c, l.s, a)
    ensures Reachable(c, Did(c, l, a).s) && Reachable(c, Answered(c, l, a).s)
  {
    hide Reachable, Apply, Enabled;
    ReachedNext(c, l.s, a);
  }

  lemma {:induction false} TakesReaches(c: Config, l: Loop, w: Waiter)
    requires Reachable(c, l.s) && c.maxRequired >= 1 && l.s.gate.lock.Free?
    ensures Reachable(c, Takes(c, l, w).s)
  {
    hide Reachable, Apply;
    match w
    case Pause => if Enabled(c, l.s, OfTrainer(PauseStart)) { DidReaches(c, l, OfTrainer(PauseStart)); }
    case Update => if Enabled(c, l.s, OfUpdate(UpdateStart)) { DidReaches(c, l, OfUpdate(UpdateStart)); }
    case Resume =>
      if Enabled(c, l.s, OfUpdate(ResumeStart)) {
        DidReaches(c, l, OfUpdate(ResumeStart));
        ResumeGoesOn(c, l);
        if !c.partial { DidReaches(c, Did(c, l, OfUpdate(ResumeStart)), OfUpdate(ResumeEnd)); }
      }
    case Monitor => if Enabled(c, l.s, Other(MonitorWrite)) { ReachedNext(c, l.s, Other(MonitorWrite)); }
    case _ =>
  }

  lemma {:induction false} ResumeGoesOn(c: Config, l: Loop)
    requires c.maxRequired >= 1 && Enabled(c, l.s, OfUpdate(ResumeStart))
    ensures Enabled(c, Did(c, l, OfUpdate(ResumeStart)).s, OfUpdate(ResumeEnd))
  {}

  lemma {:induction false} RanReaches(c: Config, l: Loop)
    requires Reachable(c, l.s) && c.maxRequired >= 1 && CanRun(c, l)
    ensures Reachable(c, Ran(c, l).s)
  {
    hide Reachable, Apply, Enabled, Takes, Answered;
    var rest := l.(ready := l.ready[1..]);
    match l.ready[0]
    case Hand =>
      if l.s.gate.lock.Free? && l.waiters != [] {
        TakesReaches(c, rest.(waiters := l.waiters[1..]), l.waiters[0]);
      }
    case Call(w) => if Available(l) { TakesReaches(c, rest, w); }
    case Timer => TickReaches(c, rest);
    case Reply(a) => if Enabled(c, l.s, a) && IsReply(a) { DidReaches(c, rest, a); }
    case _ =>
  }

  lemma {:induction false} TickReaches(c: Config, l: Loop)
    requires Reachable(c, l.s) && c.maxRequired >= 1
    ensures Reachable(c, Ticked(c, l).s)
  {
    hide Reachable;
    var test, write := Other(MonitorTest), Other(MonitorWrite);
    if Enabled(c, l.s, test) {
      ReachedNext(c, l.s, test);
      if Available(l) { ReachedNext(c, Apply(c, l.s, test), write); }
    }
  }

  lemma {:induction false} StepReaches(c: Config, l: Loop, e: Event)
    requires Reachable(c, l.s) && c.maxRequired >= 1 && May(c, l, e)
    ensures Reachable(c, Next(c, l, e).s)
  {
    hide Reachable;
    match e
    case Remote(a) => ReachedNext(c, l.s, a);
    case Fill(o) => ReachedNext(c, l.s, Other(o));
    case Run => RanReaches(c, l);
    case Go(p) => ReachedNext(c, l.s, OfProcessor(p));
    case _ =>
  }

  lemma {:induction false} PlayReaches(c: Config, l: Loop, events: seq<Event>)
    requires Reachable(c, l.s) && c.maxRequired >= 1 && Play(c, l, events).Arrived?
    ensures Reachable(c, Play(c, l, events).loop.s)
    decreases |events|
  {
    hide Reachable, May, Next;
    if events != [] {
      StepReaches(c, l, events[0]);
      PlayReaches(c, Next(c, l, events[0]), events[1..]);
    }
  }

  lemma {:induction false} LeadsReaches(c: Config, l: Loop, l': Loop)
    requires Reachable(c, l.s) && c.maxRequired >= 1 && Leads(c, l, l')
    ensures Reachable(c, l'.s)
  {
    hide Reachable;
    var events :| Play(c, l, events) == Arrived(l');
    PlayReaches(c, l, events);
  }

  lemma {:induction false} StartReachable(c: Config)
    requires Valid(c)
    ensures c.maxRequired >= 1 && Reachable(c, Start(c).s)
  {
    MaxRequiredBounds(c);
    assert Exec(c, Init(c), []) == Reached(Init(c));
  }

  // Everything proved of reachable states holds of the runs asyncio admits.
  lemma {:induction false} AdmittedIsReachable(c: Config, s: State)
    requires Admitted(c, s)
    ensures Reachable(c, s)
  {
    hide Reachable;
    StartReachable(c);
    var l :| Leads(c, Start(c), l) && l.s == s;
    LeadsReaches(c, Start(c), l);
  }
}
