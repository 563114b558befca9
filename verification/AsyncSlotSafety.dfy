// What has to hold before asyncio can drop anything when there is a slot for every sample that may
// be outstanding: until then no counter reset finds the processor with a sample in its hand.
module AsyncSlotSafety {
  import opened Arithmetic
  import opened QueueItems
  import opened AsyncProtocol
  import opened AsyncSafety
  import opened AsyncConservation
  import opened AsyncAge
  import opened AsyncEnd
  import opened AsyncLimits
  import opened AsyncLoop
  import opened AsyncReady
  import opened AsyncPlay
  import opened AsyncCrash
  import opened AsyncDrops
  import opened AsyncSlots

  predicate FullSlots(c: Config) {
    && c.required >= 1 && c.trigger >= 1 && 1 <= PerVersion(c) <= c.maxRequired
    && c.maxConcurrent == c.maxRequired <= 128
  }

  // ---- samples taken ----

  // Samples drawn from the pending queue.
  function Drawn(s: State): int { s.feed.fed - Samples(s.feed.pending) }

  lemma {:induction false} DrawnIsTaken(c: Config, s: State)
    requires EndingInv(c, s) && !s.gate.closed
    ensures Drawn(s) == Taken(s)
  {}

  // None has been since the last counter reset.
  predicate NoneSince(c: Config, s: State) { Drawn(s) <= Resets(c, s) * c.maxRequired }

  // A whole version may be left over.
  predicate LeftOver(c: Config, s: State)
    requires c.required >= 1 && c.trigger >= 1
  {
    c.partial && 1 <= PerVersion(c) < c.maxRequired && Resets(c, s) >= Lead(c)
  }

  // ---- where the processor and the lock are ----

  predicate Drained(s: State) { s.pool.running == map[] && s.pool.finished == 0 }

  predicate Stocked(s: State) {
    s.feed.phase.Fed? || |s.feed.pending| + s.ver.staleness >= 128
  }

  // The counter covers what is active, cancelled or in hand.
  predicate Covered(s: State) {
    s.Active() + |s.pool.cancelQueue| + |s.worker.hand| <= s.ver.staleness
  }

  // Before the first stretch.
  predicate Beginning(l: Loop) {
    Before(l) && !l.s.gate.monitorWaiting && (l.ready == [Wake.First] || l.ready == [Wake.First, Timer])
  }

  // In a stretch, with nobody at the lock.
  predicate Runs(c: Config, l: Loop) { l.going && l.waiters == [] && RunsState(c, l.s) }

  predicate RunsState(c: Config, s: State) {
    && s.gate.lock.Free? && s.ver.update.Idle? && !s.trainer.phase.Copying?
    && Stocked(s) && Covered(s) && RunsAt(c, s)
  }

  predicate RunsAt(c: Config, s: State) {
    match s.worker.loc
    case Top => !s.gate.paused
    case AwaitPending => !s.gate.paused && s.ver.staleness < c.maxRequired
    case Submitting => !s.gate.paused
    case MarkPaused => !s.gate.paused && s.ver.staleness >= c.maxRequired
    case WaitResume => s.gate.paused ==> s.ver.staleness >= c.maxRequired
    case Drain(ForSlot, Test) => !s.gate.paused && s.ver.staleness <= c.maxRequired
    case Drain(ForPause, Test) => s.gate.paused && s.ver.staleness >= c.maxRequired
    case Drain(ForPause, WantLock) => s.gate.paused && s.ver.staleness >= c.maxRequired && s.Active() > 0
    case _ => false
  }

  // It has paused itself and waits, until a sync has ended its pause.
  predicate Pauses(c: Config, l: Loop) {
    && l.s.gate.paused && l.s.ver.staleness >= c.maxRequired && l.s.ver.update.Idle?
    && !l.s.trainer.phase.Copying? && Notice !in l.ready
    && (l.going ==> l.s.gate.lock.Free? || l.s.gate.lock.ByProcessor?)
    && (match l.s.worker.loc
        case WaitResume => true
        case Drain(ForPause, Test) => l.going && Processor !in l.waiters
        case Drain(ForPause, WantLock) => l.going || Processor in l.waiters
        case Drain(ForPause, Holding) => true
        case _ => false)
  }

  // Then the update is on its way; it will not find the processor behind the monitor.
  predicate ToUpdate(l: Loop) {
    && l.s.gate.paused && l.s.gate.lock.Free? && Drained(l.s) && Notice !in l.ready
    && (l.s.trainer.phase.Copying? || l.s.ver.update.Requested?)
    && (match l.s.worker.loc
        case WaitResume => UpdateOrder(l.going, l.waiters)
        case Drain(ForPause, Test) => l.going && Processor !in l.waiters && Tail(l.waiters)
        case Drain(ForPause, WantLock) => WantsOrder(l)
        case _ => false)
  }

  // Behind the processor.
  predicate Tail(ws: seq<Waiter>) {
    ws == [] || ws == [Check] || ws == [Update] || ws == [Check, Update]
  }

  predicate UpdateOrder(going: bool, ws: seq<Waiter>) {
    ws != [Update, Check, Processor] && (going ==> Tail(ws) || (ws != [] && ws[0].Processor?))
  }

  predicate WantsOrder(l: Loop) {
    var ws := l.waiters;
    if l.going then
      ws != [] && ws[0].Processor? && Tail(ws[1..])
    else
      || ws == [Processor, Check] || ws == [Check, Processor]
      || ws == [Processor, Check, Update] || ws == [Check, Processor, Update]
      || (ws == [Processor, Update] && Ahead(l.ready, Hand, Timer))
      || (ws == [Processor] && (Ahead(l.ready, Hand, Timer) || Ahead(l.ready, Hand, Call(Update))))
  }

  // Or it has the lock.
  predicate InUpdate(c: Config, l: Loop) {
    && l.s.gate.paused && l.s.gate.lock.ByUpdate? && Drained(l.s) && Notice !in l.ready
    && !l.going && l.s.worker.loc.WaitResume?
    && (l.waiters == [] || l.waiters == [Check] || AtHead(l.waiters))
    && (l.s.ver.update.Validating? ==> NoneSince(c, l.s))
  }

  predicate AtHead(ws: seq<Waiter>) { ws == [Processor] || ws == [Processor, Check] }

  // Or the resume is on its way; it will find the processor asleep.
  predicate ToResume(c: Config, l: Loop) {
    && l.s.gate.paused && l.s.gate.lock.Free? && Drained(l.s) && Notice !in l.ready
    && l.s.ver.update.ResumeRequested? && l.s.worker.loc.WaitResume? && NoneSince(c, l.s)
    && if l.going then AtHead(l.waiters)
       else
         || (AtHead(l.waiters) && Ahead(l.ready, Hand, Call(Resume)))
         || l.waiters == [] || l.waiters == [Check] || l.waiters == [Check, Resume]
         || (l.waiters == [Resume] && Ahead(l.ready, Hand, Timer))
  }

  // Or, with partial rollouts, the resume has the lock.
  predicate InResume(c: Config, l: Loop) {
    && c.partial && l.s.gate.paused && l.s.gate.lock.ByResume? && Drained(l.s) && Notice !in l.ready
    && !l.going && l.s.worker.loc.WaitResume? && NoneSince(c, l.s)
    && (l.waiters == [] || l.waiters == [Check])
  }

  // It has been notified.
  predicate Wakes(c: Config, l: Loop) {
    && !l.s.gate.paused && l.s.gate.lock.Free? && Drained(l.s) && l.s.ver.update.Idle?
    && !l.s.trainer.phase.Copying? && !l.going && l.s.worker.loc.WaitResume? && NoneSince(c, l.s)
    && Ahead(l.ready, Notice, Call(Pause))
    && (l.waiters == [] || (c.partial && l.waiters == [Check] && Ahead(l.ready, Notice, Hand)))
  }

  // Or, with partial rollouts, it has found the monitor before it at the lock.
  predicate BehindCheck(c: Config, l: Loop) {
    && c.partial && !l.s.gate.paused && l.s.gate.lock.Free? && Drained(l.s) && l.s.ver.update.Idle?
    && !l.s.trainer.phase.Copying? && l.s.worker.loc.WaitResume? && NoneSince(c, l.s)
    && if l.going then Stocked(l.s) && (l.waiters == [Check] || l.waiters == [Processor])
       else l.waiters == [Check, Processor] || (l.waiters == [Processor] && Ahead(l.ready, Hand, Timer))
  }

  // It takes nothing any more.
  predicate Over(l: Loop) {
    Draining(l.s.worker.loc) || (l.s.worker.loc.Crashed? && l.s.worker.hand == [])
  }

  predicate InSync(c: Config, l: Loop) {
    ToUpdate(l) || InUpdate(c, l) || ToResume(c, l) || InResume(c, l) || Wakes(c, l) || BehindCheck(c, l)
  }

  predicate Tidy(c: Config, l: Loop) {
    Beginning(l) || Over(l) || (Formed(l) && (Runs(c, l) || Pauses(c, l) || InSync(c, l)))
  }

  // ---- the first step ----

  lemma {:induction false} BeginningStep(c: Config, l: Loop, e: Event)
    requires FullSlots(c) && EndingInv(c, l.s) && Beginning(l) && May(c, l, e)
    ensures Beginning(Next(c, l, e)) || (Runs(c, Next(c, l, e)) && Formed(Next(c, l, e)))
  {
    hide EndingInv, Next, May;
    if e.Run? { BeginningRun(c, l); } else { BeginningWaits(c, l, e); }
  }

  lemma {:induction false} BeginningRun(c: Config, l: Loop)
    requires FullSlots(c) && EndingInv(c, l.s) && Beginning(l) && May(c, l, Run)
    ensures Runs(c, Next(c, l, Run)) && Formed(Next(c, l, Run))
  {
    hide EndingInv;
    RestsStocked(c, l.s);
    assert l.ready[1..] == [] || l.ready[1..] == [Timer];
  }

  lemma {:induction false} BeginningWaits(c: Config, l: Loop, e: Event)
    requires FullSlots(c) && Beginning(l) && May(c, l, e) && !e.Run?
    ensures Beginning(Next(c, l, e))
  {
    assert [Wake.First, Timer][1] == Timer;
    if e.Arrive? { assert e.h == Timer; assert l.ready == [Wake.First]; }
  }

  lemma {:induction false} RestsStocked(c: Config, s: State)
    requires EndingInv(c, s) && FeederRests(c, s) && s.ver.staleness >= 0
    ensures Stocked(s)
  {}

  // ---- a stretch ----

  lemma {:induction false} RunsOnly(c: Config, l: Loop, e: Event)
    requires FullSlots(c) && PendingInv(l.s) && Formed(l) && Runs(c, l) && May(c, l, e)
    ensures e.Go? || e.Arrive? || e.Remote? || (e.Suspend? && Pauses(c, Suspended(l)))
  {}

  lemma {:induction false} RunsRemote(c: Config, l: Loop, a: Action)
    requires c.maxRequired >= 1 && LockInv(l.s) && Runs(c, l) && Enabled(c, l.s, a) && IsRemote(a)
    ensures Runs(c, Did(c, l, a))
  {
    hide Enabled, Apply, LockInv;
    RemoteFrame(c, l.s, a);
  }

  lemma {:induction false} RunsLook(c: Config, s: State)
    requires FullSlots(c) && CounterInv(c, s) && s.history.handEmptyAtResets && RunsState(c, s)
    requires HandInv(s.worker) && ProcessorCan(s, Look)
    ensures RunsState(c, ProcessorDo(c, s, Look))
  {}

  lemma {:induction false} RunsTake(c: Config, s: State)
    requires FullSlots(c) && RunsState(c, s) && HandInv(s.worker) && ProcessorCan(s, TakePending)
    ensures var s' := ProcessorDo(c, s, TakePending); RunsState(c, s') || Draining(s'.worker.loc)
  {}

  lemma {:induction false} RunsSubmit(c: Config, s: State)
    requires RunsState(c, s) && HandInv(s.worker) && ProcessorCan(s, Submit)
    requires s.worker.hand[0] !in s.pool.running
    ensures RunsState(c, ProcessorDo(c, s, Submit))
  {
    NewKey(s.pool.running, s.worker.hand[0]);
  }

  // A pause the processor has made itself.
  predicate PausesState(c: Config, s: State) {
    && s.gate.paused && s.ver.staleness >= c.maxRequired && s.ver.update.Idle? && !s.trainer.phase.Copying?
    && s.worker.loc == Drain(ForPause, Holding)
  }

  lemma {:induction false} RunsElse(c: Config, s: State, p: ProcessorAction)
    requires FullSlots(c) && RunsState(c, s) && HandInv(s.worker) && ProcessorCan(s, p)
    requires !p.Look? && !p.TakePending? && !p.Submit? && (p.Wake? ==> !s.gate.paused)
    ensures var s' := ProcessorDo(c, s, p); RunsState(c, s') || PausesState(c, s')
  {}

  lemma {:induction false} RunsDo(c: Config, s: State, p: ProcessorAction)
    requires FullSlots(c) && EndingInv(c, s) && s.history.handEmptyAtResets && !s.gate.closed
    requires RunsState(c, s) && ProcessorCan(s, p)
    ensures var s' := ProcessorDo(c, s, p); RunsState(c, s') || PausesState(c, s') || Draining(s'.worker.loc)
  {
    hide SizeInv, FeedInv, FinalInv, Conserved, PendingInv, RunsState, PausesState, ProcessorDo, HandInv, CounterInv;
    if s.worker.hand != [] { HandNotRunning(c, s); }
    match p
    case Look => RunsLook(c, s);
    case TakePending => RunsTake(c, s);
    case Submit => RunsSubmit(c, s);
    case _ => RunsElse(c, s, p);
  }

  lemma {:induction false} RunsGo(c: Config, l: Loop, p: ProcessorAction)
    requires FullSlots(c) && EndingInv(c, l.s) && l.s.history.handEmptyAtResets && !l.s.gate.closed
    requires Formed(l) && Runs(c, l) && May(c, l, Go(p))
    ensures var l' := Next(c, l, Go(p)); Runs(c, l') || Pauses(c, l') || Over(l')
  {
    hide EndingInv, RunsState, ProcessorDo, Distinct, NoDup;
    RunsDo(c, l.s, p);
    RunsGoesOn(c, ProcessorDo(c, l.s, p));
    RunsFree(c, l.s);
  }

  lemma {:induction false} RunsGoesOn(c: Config, s: State)
    ensures RunsState(c, s) ==> !GivesUp(s.worker.loc) && s.gate.lock.Free?
  {}

  lemma {:induction false} RunsFree(c: Config, s: State)
    ensures RunsState(c, s) ==> s.gate.lock.Free?
  {}

  // ---- in its own pause ----

  lemma {:induction false} PausesRemote(c: Config, l: Loop, a: Action)
    requires c.maxRequired >= 1 && LockInv(l.s) && Pauses(c, l) && Enabled(c, l.s, a) && IsRemote(a)
    ensures Pauses(c, Did(c, l, a))
  {
    hide Enabled, Apply, LockInv;
    RemoteFrame(c, l.s, a);
  }

  lemma {:induction false} PausesGo(c: Config, l: Loop, p: ProcessorAction)
    requires FullSlots(c) && LockInv(l.s) && HandInv(l.s.worker) && Formed(l) && Pauses(c, l) && May(c, l, Go(p))
    ensures var l' := Next(c, l, Go(p)); Pauses(c, l') || Over(l')
  {
    hide Distinct, NoDup;
    if p.DrainLock? && l.waiters != [] { FirstLeaves(l.waiters); }
  }

  lemma {:induction false} PausesSuspend(c: Config, l: Loop)
    requires LockInv(l.s) && Formed(l) && Pauses(c, l) && CanSuspend(l)
    ensures Pauses(c, Suspended(l))
  {
    hide Distinct, NoDup;
  }

  lemma {:induction false} PausesRun(c: Config, l: Loop)
    requires FullSlots(c) && LockInv(l.s) && Formed(l) && Pauses(c, l) && CanRun(c, l)
    ensures Pauses(c, Ran(c, l)) || ToUpdate(Ran(c, l))
  {
    hide Distinct, NoDup;
    PopFormed(l);
    assert l.ready[0] in l.ready;
    match l.ready[0]
    case Hand => FirstLeaves(l.waiters);
    case Reply(a) => if a == OfTrainer(PauseEnd) && Enabled(c, l.s, a) { PauseIsOver(c, l); }
    case _ =>
  }

  lemma {:induction false} PauseIsOver(c: Config, l: Loop)
    requires FullSlots(c) && LockInv(l.s) && Formed(l) && Pauses(c, l) && CanRun(c, l)
    requires l.ready[0] == Reply(OfTrainer(PauseEnd)) && Enabled(c, l.s, OfTrainer(PauseEnd))
    ensures ToUpdate(Ran(c, l))
  {
    hide Distinct;
    PopFormed(l);
    FewWait(l.waiters);
    AheadLast(l.ready[1..], Hand, Call(Update));
  }

  lemma {:induction false} FewWait(ws: seq<Waiter>)
    requires NoDup(ws) && forall w :: w in ws ==> w.Processor? || w.Check?
    ensures ws == [] || ws == [Processor] || ws == [Check] || ws == [Processor, Check] || ws == [Check, Processor]
  {
    if |ws| >= 3 {
      TwoKinds(ws);
    } else {
      assert |ws| >= 1 ==> ws[0] in ws;
      assert |ws| == 2 ==> ws[1] in ws;
    }
  }

  lemma {:induction false} TwoKinds(ws: seq<Waiter>)
    requires |ws| >= 3 && forall w :: w in ws ==> w.Processor? || w.Check?
    ensures ws[0] == ws[1] || ws[1] == ws[2] || ws[0] == ws[2]
  {
    assert ws[0] in ws && ws[1] in ws && ws[2] in ws;
  }

  // ---- before the update ----

  lemma {:induction false} ToUpdateRemote(c: Config, l: Loop, a: Action)
    requires c.maxRequired >= 1 && LockInv(l.s) && ToUpdate(l) && Enabled(c, l.s, a) && IsRemote(a)
    ensures ToUpdate(Did(c, l, a))
  {
    hide Enabled, Apply, LockInv, Ahead;
    RemoteFrame(c, l.s, a);
  }

  lemma {:induction false} ToUpdateArrive(l: Loop, h: Wake)
    requires ToUpdate(l) && !h.Notice?
    ensures ToUpdate(l.(ready := l.ready + [h]))
  {
    if Ahead(l.ready, Hand, Timer) { AheadMore(l.ready, Hand, Timer, h); }
    if Ahead(l.ready, Hand, Call(Update)) { AheadMore(l.ready, Hand, Call(Update), h); }
  }

  lemma {:induction false} ToUpdateGo(c: Config, l: Loop, p: ProcessorAction)
    requires FullSlots(c) && LockInv(l.s) && HandInv(l.s.worker) && Formed(l) && ToUpdate(l) && May(c, l, Go(p))
    ensures var l' := Next(c, l, Go(p)); ToUpdate(l') || Over(l')
  {
    hide Distinct, NoDup, Ahead;
    if p.DrainLock? { FirstLeaves(l.waiters); }
  }

  lemma {:induction false} ToUpdateSuspend(c: Config, l: Loop)
    requires LockInv(l.s) && Formed(l) && ToUpdate(l) && CanSuspend(l)
    ensures ToUpdate(Suspended(l))
  {
    hide Distinct, NoDup, Ahead;
    if Mine(l) {
      if l.waiters != [] {
        FirstLeaves(l.waiters);
        assert [Update, Check, Processor][2] == Processor;
      }
    } else {
      assert (l.waiters + [Processor])[0] == l.waiters[0];
      assert |l.waiters| == 2 ==> (l.waiters + [Processor])[1] == l.waiters[1];
    }
  }

  lemma {:induction false} ToUpdateHand(c: Config, l: Loop)
    requires FullSlots(c) && LockInv(l.s) && Formed(l) && ToUpdate(l) && CanRun(c, l) && l.ready[0].Hand?
    ensures ToUpdate(Ran(c, l)) || InUpdate(c, Ran(c, l))
  {
    hide Distinct, NoDup, Ahead;
    PopFormed(l);
    assert l.ready[0] in l.ready;
    FirstLeaves(l.waiters);
    assert l.waiters[0] in l.waiters;
    var ws := l.waiters[1..];
    match l.waiters[0]
    case Check => AheadLast(l.ready[1..], Hand, Timer);
    case Update => FewWait(ws);
    case _ =>
  }

  lemma {:induction false} ToUpdateCall(c: Config, l: Loop)
    requires FullSlots(c) && LockInv(l.s) && Formed(l) && ToUpdate(l) && CanRun(c, l) && l.ready[0].Call?
    ensures ToUpdate(Ran(c, l)) || InUpdate(c, Ran(c, l))
  {
    hide Distinct, NoDup;
    PopFormed(l);
    assert l.ready[0] in l.ready;
    assert (l.waiters + [Update])[|l.waiters|] == Update;
  }

  lemma {:induction false} ToUpdateTimer(c: Config, l: Loop)
    requires FullSlots(c) && LockInv(l.s) && Formed(l) && ToUpdate(l) && CanRun(c, l) && l.ready[0].Timer?
    ensures ToUpdate(Ran(c, l))
  {
    hide Distinct, NoDup;
    PopFormed(l);
    assert l.ready[0] in l.ready;
    assert (l.waiters + [Check])[|l.waiters|] == Check;
  }

  lemma {:induction false} ToUpdateRun(c: Config, l: Loop)
    requires FullSlots(c) && LockInv(l.s) && Formed(l) && ToUpdate(l) && CanRun(c, l)
    ensures ToUpdate(Ran(c, l)) || InUpdate(c, Ran(c, l))
  {
    hide Distinct, NoDup, Takes, Ticked;
    PopFormed(l);
    assert l.ready[0] in l.ready;
    match l.ready[0]
    case Hand => ToUpdateHand(c, l);
    case Call(_) => ToUpdateCall(c, l);
    case Timer => ToUpdateTimer(c, l);
    case _ =>
  }

  // ---- from the update to the resume ----

  lemma {:induction false} UpdatesRemote(c: Config, l: Loop, a: Action)
    requires c.maxRequired >= 1 && LockInv(l.s) && InUpdate(c, l) && Enabled(c, l.s, a) && IsRemote(a)
    ensures InUpdate(c, Did(c, l, a))
  {
    hide Enabled, Apply, LockInv;
    RemoteFrame(c, l.s, a);
  }

  // The reset that is due covers all that has been drawn.
  predicate Due(c: Config, s: State) {
    s.ver.update.Counted? ==> Drawn(s) <= (Resets(c, s) + 1) * c.maxRequired
  }

  lemma {:induction false} ResetDue(c: Config, s: State)
    requires FullSlots(c) && Full(c, s) && s.history.handEmptyAtResets && !s.gate.closed
    ensures Due(c, s)
  {
    hide EndingInv, Aged, ResetInv;
    DrawnIsTaken(c, s);
    assert (Resets(c, s) + 1) * c.maxRequired == Resets(c, s) * c.maxRequired + c.maxRequired;
  }

  lemma {:induction false} UpdatesRun(c: Config, l: Loop)
    requires FullSlots(c) && LockInv(l.s) && Due(c, l.s)
    requires Formed(l) && InUpdate(c, l) && CanRun(c, l)
    ensures InUpdate(c, Ran(c, l)) || ToResume(c, Ran(c, l))
  {
    hide Distinct, NoDup, Ahead, Answered;
    PopFormed(l);
    assert l.ready[0] in l.ready;
    match l.ready[0]
    case Reply(a) => if Enabled(c, l.s, a) && IsReply(a) { UpdatesReply(c, l.(ready := l.ready[1..]), a); }
    case _ =>
  }

  lemma {:induction false} UpdatesReply(c: Config, l: Loop, a: Action)
    requires FullSlots(c) && LockInv(l.s) && Due(c, l.s) && Formed(l) && InUpdate(c, l)
    requires Enabled(c, l.s, a) && IsReply(a)
    ensures InUpdate(c, Answered(c, l, a)) || ToResume(c, Answered(c, l, a))
  {
    hide Distinct, NoDup, Ahead;
    if a == OfUpdate(UpdateEnd) { AheadLast(l.ready, Hand, Call(Resume)); }
  }

  lemma {:induction false} ToResumeRemote(c: Config, l: Loop, a: Action)
    requires c.maxRequired >= 1 && LockInv(l.s) && ToResume(c, l) && Enabled(c, l.s, a) && IsRemote(a)
    ensures ToResume(c, Did(c, l, a))
  {
    hide Enabled, Apply, Ahead;
    RemoteFrame(c, l.s, a);
  }

  lemma {:induction false} ToResumeArrive(c: Config, l: Loop, h: Wake)
    requires ToResume(c, l) && !h.Notice?
    ensures ToResume(c, l.(ready := l.ready + [h]))
  {
    hide NoneSince;
    if Ahead(l.ready, Hand, Timer) { AheadMore(l.ready, Hand, Timer, h); }
    if Ahead(l.ready, Hand, Call(Resume)) { AheadMore(l.ready, Hand, Call(Resume), h); }
  }

  // The processor, next in line, goes back to sleep.
  lemma {:induction false} ToResumeSuspend(c: Config, l: Loop)
    requires LockInv(l.s) && Formed(l) && ToResume(c, l) && CanSuspend(l)
    ensures ToResume(c, Suspended(l))
  {
    hide Distinct, NoDup, Ahead;
    assert l.waiters[1..] == [] || l.waiters[1..] == [Check];
  }

  lemma {:induction false} ToResumeHand(c: Config, l: Loop)
    requires FullSlots(c) && LockInv(l.s) && Formed(l) && ToResume(c, l) && CanRun(c, l) && l.ready[0].Hand?
    ensures ToResume(c, Ran(c, l)) || InResume(c, Ran(c, l)) || Wakes(c, Ran(c, l))
  {
    hide Distinct, NoDup, Ahead, Takes;
    PopFormed(l);
    assert l.ready[0] in l.ready;
    FirstLeaves(l.waiters);
    var next := l.(ready := l.ready[1..], waiters := l.waiters[1..]);
    if l.waiters[0].Resume? {
      ResumeTakes(c, next);
    } else if l.waiters[0].Check? {
      CheckTakes(c, next);
    }
  }

  lemma {:induction false} CheckTakes(c: Config, l: Loop)
    requires FullSlots(c) && l.s.gate.lock.Free? && Timer !in l.ready
    requires l.waiters == [] || l.waiters == [Resume]
    ensures Takes(c, l, Check) == l.(ready := Takes(c, l, Check).ready)
    ensures Notice !in l.ready ==> Notice !in Takes(c, l, Check).ready
    ensures l.waiters == [Resume] ==> Ahead(Takes(c, l, Check).ready, Hand, Timer)
  {
    AheadLast(l.ready, Hand, Timer);
  }

  // With nobody else in line.
  lemma {:induction false} ResumeTakes(c: Config, l: Loop)
    requires FullSlots(c) && LockInv(l.s) && l.waiters == [] && !l.going
    requires l.s.gate.paused && l.s.gate.lock.Free? && Drained(l.s) && Notice !in l.ready
    requires l.s.ver.update.ResumeRequested? && l.s.worker.loc.WaitResume? && NoneSince(c, l.s)
    requires Call(Pause) !in l.ready
    ensures InResume(c, Takes(c, l, Resume)) || Wakes(c, Takes(c, l, Resume))
  {
    hide Ahead;
    AheadLast(l.ready, Notice, Call(Pause));
  }

  lemma {:induction false} ToResumeCall(c: Config, l: Loop)
    requires FullSlots(c) && LockInv(l.s) && Formed(l) && ToResume(c, l) && CanRun(c, l) && l.ready[0].Call?
    ensures ToResume(c, Ran(c, l)) || InResume(c, Ran(c, l)) || Wakes(c, Ran(c, l))
  {
    hide Distinct, NoDup, Takes;
    PopFormed(l);
    assert l.ready[0] in l.ready;
    if Available(l) { ResumeTakes(c, l.(ready := l.ready[1..])); }
  }

  lemma {:induction false} ToResumeTimer(c: Config, l: Loop)
    requires FullSlots(c) && LockInv(l.s) && Formed(l) && ToResume(c, l) && CanRun(c, l) && l.ready[0].Timer?
    ensures ToResume(c, Ran(c, l))
  {
    hide Distinct, NoDup;
    PopFormed(l);
    assert l.ready[0] in l.ready;
  }

  lemma {:induction false} ToResumeRun(c: Config, l: Loop)
    requires FullSlots(c) && LockInv(l.s) && Formed(l) && ToResume(c, l) && CanRun(c, l)
    ensures ToResume(c, Ran(c, l)) || InResume(c, Ran(c, l)) || Wakes(c, Ran(c, l))
  {
    hide Distinct, NoDup, Takes, Ticked;
    PopFormed(l);
    assert l.ready[0] in l.ready;
    match l.ready[0]
    case Hand => ToResumeHand(c, l);
    case Call(_) => ToResumeCall(c, l);
    case Timer => ToResumeTimer(c, l);
    case _ =>
  }

  lemma {:induction false} ResumesRemote(c: Config, l: Loop, a: Action)
    requires c.maxRequired >= 1 && LockInv(l.s) && InResume(c, l) && Enabled(c, l.s, a) && IsRemote(a)
    ensures InResume(c, Did(c, l, a))
  {
    hide Enabled, Apply, LockInv;
    RemoteFrame(c, l.s, a);
  }

  lemma {:induction false} ResumesRun(c: Config, l: Loop)
    requires FullSlots(c) && LockInv(l.s) && Formed(l) && InResume(c, l) && CanRun(c, l)
    ensures InResume(c, Ran(c, l)) || Wakes(c, Ran(c, l))
  {
    hide Distinct, NoDup, Ahead, Answered;
    PopFormed(l);
    assert l.ready[0] in l.ready;
    match l.ready[0]
    case Reply(a) => if Enabled(c, l.s, a) && IsReply(a) { ResumesReply(c, l.(ready := l.ready[1..]), a); }
    case _ =>
  }

  lemma {:induction false} ResumesReply(c: Config, l: Loop, a: Action)
    requires FullSlots(c) && LockInv(l.s) && Formed(l) && InResume(c, l)
    requires Enabled(c, l.s, a) && IsReply(a)
    ensures Wakes(c, Answered(c, l, a))
  {
    hide Distinct, NoDup, Ahead;
    AheadLast(l.ready, Notice, Call(Pause));
    AheadLast(l.ready, Notice, Hand);
    AheadMore(l.ready + [Notice], Notice, Hand, Hand);
    AheadMore(l.ready + [Notice], Notice, Call(Pause), Hand);
  }

  // ---- notified ----

  lemma {:induction false} WakesRemote(c: Config, l: Loop, a: Action)
    requires c.maxRequired >= 1 && LockInv(l.s) && Enabled(c, l.s, a) && IsRemote(a)
    ensures Wakes(c, l) ==> Wakes(c, Did(c, l, a))
    ensures BehindCheck(c, l) ==> BehindCheck(c, Did(c, l, a))
  {
    hide Enabled, Apply, Ahead;
    RemoteFrame(c, l.s, a);
  }

  lemma {:induction false} WakesArrive(c: Config, l: Loop, h: Wake)
    ensures Wakes(c, l) ==> Wakes(c, l.(ready := l.ready + [h]))
    ensures BehindCheck(c, l) ==> BehindCheck(c, l.(ready := l.ready + [h]))
  {
    hide NoneSince;
    if Ahead(l.ready, Hand, Timer) { AheadMore(l.ready, Hand, Timer, h); }
    if Ahead(l.ready, Notice, Hand) { AheadMore(l.ready, Notice, Hand, h); }
    if Ahead(l.ready, Notice, Call(Pause)) { AheadMore(l.ready, Notice, Call(Pause), h); }
  }

  lemma {:induction false} WakesNotice(c: Config, l: Loop)
    requires FullSlots(c) && EndingInv(c, l.s) && l.s.history.handEmptyAtResets && !l.s.gate.closed
    requires Formed(l) && Wakes(c, l) && CanRun(c, l) && l.ready[0].Notice?
    ensures Runs(c, Ran(c, l)) || BehindCheck(c, Ran(c, l))
  {
    hide Distinct, NoDup, Ahead, SizeInv, FeedInv, FinalInv, Conserved;
    RestsStocked(c, l.s);
  }

  lemma {:induction false} WakesTimer(c: Config, l: Loop)
    requires FullSlots(c) && LockInv(l.s) && Formed(l) && Wakes(c, l) && CanRun(c, l) && l.ready[0].Timer?
    ensures Wakes(c, Ran(c, l))
  {
    hide Distinct, NoDup;
    AheadIn(l.ready, Notice, Call(Pause));
    PopFormed(l);
    assert l.ready[0] in l.ready;
  }

  lemma {:induction false} WakesRun(c: Config, l: Loop)
    requires FullSlots(c) && EndingInv(c, l.s) && l.s.history.handEmptyAtResets && !l.s.gate.closed
    requires Formed(l) && Wakes(c, l) && CanRun(c, l)
    ensures var l' := Ran(c, l); Wakes(c, l') || Runs(c, l') || BehindCheck(c, l')
  {
    hide Distinct, NoDup, SizeInv, FeedInv, FinalInv, Conserved, Takes, Ticked;
    PopFormed(l);
    assert l.ready[0] in l.ready;
    match l.ready[0]
    case Notice => WakesNotice(c, l);
    case Timer => WakesTimer(c, l);
    case _ =>
  }

  // ---- behind the monitor ----

  lemma {:induction false} BehindGo(c: Config, l: Loop, p: ProcessorAction)
    requires FullSlots(c) && CounterInv(c, l.s) && HandInv(l.s.worker) && l.s.history.handEmptyAtResets
    requires BehindCheck(c, l) && May(c, l, Go(p))
    ensures Runs(c, Next(c, l, Go(p)))
  {
    hide Ahead;
  }

  lemma {:induction false} BehindSuspend(c: Config, l: Loop)
    requires BehindCheck(c, l) && CanSuspend(l)
    ensures BehindCheck(c, Suspended(l))
  {
    hide Ahead;
  }

  lemma {:induction false} BehindHand(c: Config, l: Loop)
    requires FullSlots(c) && EndingInv(c, l.s) && l.s.history.handEmptyAtResets && !l.s.gate.closed
    requires Formed(l) && BehindCheck(c, l) && CanRun(c, l) && l.ready[0].Hand?
    ensures BehindCheck(c, Ran(c, l))
  {
    hide Distinct, NoDup, Ahead, SizeInv, FeedInv, FinalInv, Conserved;
    PopFormed(l);
    assert l.ready[0] in l.ready && l.waiters[0] in l.waiters;
    if l.waiters == [Check, Processor] {
      AheadLast(l.ready[1..], Hand, Timer);
      assert l.waiters[1..] == [Processor];
    } else {
      RestsStocked(c, l.s);
    }
  }

  // If the next pause comes by, a whole version has been left over.
  lemma {:induction false} VersionLeft(c: Config, s: State)
    requires FullSlots(c) && Full(c, s) && s.history.handEmptyAtResets && !s.gate.closed
    requires c.partial && NoneSince(c, s) && s.trainer.phase.PauseRequested?
    ensures LeftOver(c, s)
  {
    hide EndingInv, Aged, TakenInv, ResetInv, PerVersion, Lead;
    DrawnIsTaken(c, s);
    OneMore(c, s);
    MustLead(c, Resets(c, s));
  }

  lemma {:induction false} MustLead(c: Config, d: int)
    requires 1 <= PerVersion(c) <= c.maxRequired && (d + 1) * PerVersion(c) <= d * c.maxRequired
    ensures PerVersion(c) < c.maxRequired && d >= Lead(c)
  {
    hide PerVersion, Lead, Gain;
    var k, m := PerVersion(c), c.maxRequired;
    assert (d + 1) * k == d * k + k;
    assert d * m - d * k == d * (m - k);
    GainIs(c);
    LeadIs(c, d);
  }

  // The next pause has been paid for by one version more than the resets so far.
  lemma {:induction false} OneMore(c: Config, s: State)
    requires FullSlots(c) && Full(c, s) && !s.gate.closed && s.trainer.phase.PauseRequested?
    ensures |s.history.consumed| >= (Resets(c, s) + 1) * PerVersion(c)
  {
    hide SizeInv, FeedInv, FinalInv, Conserved, PendingInv, TaskInv, EntriesInv, IsBlock, CounterInv, TakenInv;
    var n := |s.history.trained|;
    BatchArithmetic(n, c.required, c.trigger);
    assert n / c.trigger == Resets(c, s) + 1;
  }

  lemma {:induction false} BehindRun(c: Config, l: Loop)
    requires FullSlots(c) && Full(c, l.s) && l.s.history.handEmptyAtResets && !l.s.gate.closed
    requires Formed(l) && BehindCheck(c, l) && CanRun(c, l)
    ensures BehindCheck(c, Ran(c, l)) || LeftOver(c, l.s)
  {
    hide Distinct, NoDup, SizeInv, FeedInv, FinalInv, Conserved, Takes, Ticked;
    PopFormed(l);
    assert l.ready[0] in l.ready;
    match l.ready[0]
    case Hand => BehindHand(c, l);
    case Call(w) => VersionLeft(c, l.s);
    case _ =>
  }

  // ---- taking nothing any more ----

  lemma {:induction false} OverStep(c: Config, l: Loop, e: Event)
    requires c.maxRequired >= 1 && HandInv(l.s.worker) && Over(l) && May(c, l, e)
    ensures Over(Next(c, l, e))
  {
    if !e.Go? {
      hide Apply, Enabled, Next, May;
      OthersLeave(c, l, e);
    }
  }

  // ---- one step ----

  lemma {:induction false} TidyTame(c: Config, l: Loop)
    requires FullSlots(c) && LockInv(l.s) && Formed(l) && (Runs(c, l) || Pauses(c, l) || InSync(c, l))
    ensures Tame(c, l)
  {
    hide Distinct, NoDup, Stocked, Covered, NoneSince;
    if BehindCheck(c, l) || Wakes(c, l) {
      if l.ready != [] && l.ready[0].Timer? { assert l.ready[0] in l.ready; }
    }
  }


  lemma {:induction false} RunsStep(c: Config, l: Loop, e: Event)
    requires FullSlots(c) && EndingInv(c, l.s) && l.s.history.handEmptyAtResets && !l.s.gate.closed
    requires Formed(l) && Runs(c, l) && May(c, l, e)
    ensures var l' := Next(c, l, e); Runs(c, l') || Pauses(c, l') || Over(l')
  {
    hide SizeInv, FeedInv, FinalInv, Conserved, CounterInv, HandInv, PendingInv, Formed, RunsState;
    hide Enabled, Apply, Pauses, Over, CanArrive, Went;
    RunsOnly(c, l, e);
    match e
    case Remote(a) => RunsRemote(c, l, a);
    case Go(p) => RunsGo(c, l, p);
    case _ =>
  }

  lemma {:induction false} PausesStep(c: Config, l: Loop, e: Event)
    requires FullSlots(c) && EndingInv(c, l.s) && Formed(l) && Pauses(c, l) && May(c, l, e)
    ensures var l' := Next(c, l, e); Pauses(c, l') || InSync(c, l') || Over(l')
  {
    hide InUpdate, ToResume, InResume, Wakes, BehindCheck;
    hide SizeInv, FeedInv, FinalInv, Conserved, CounterInv, HandInv, PendingInv, LockInv, Formed;
    hide Enabled, Apply, Ran, Went, Suspended, ToUpdate;
    match e
    case Remote(a) => PausesRemote(c, l, a);
    case Fill(o) => FillOnly(c, l, o);
    case Run => PausesRun(c, l);
    case Go(p) => PausesGo(c, l, p);
    case Suspend => PausesSuspend(c, l);
    case _ =>
  }

  // An entry in the pending queue changes nothing else unless the processor waits for it.
  lemma {:induction false} FillOnly(c: Config, l: Loop, o: OtherAction)
    requires OtherCan(c, l.s, o) && (o.Feed? || o.FeedEnd?) && !l.s.worker.loc.AwaitPending?
    ensures var l' := Filled(c, l, o); l' == l.(s := l.s.(feed := l'.s.feed))
    ensures PendingInv(l.s) ==> Drawn(Filled(c, l, o).s) == Drawn(l.s)
  {}

  lemma {:induction false} FillKeeps(c: Config, l: Loop, o: OtherAction)
    requires c.maxRequired >= 1 && PendingInv(l.s) && InSync(c, l) && May(c, l, Fill(o))
    ensures InSync(c, Filled(c, l, o))
  {
    hide PendingInv, Drawn, Filled, OtherCan, Ahead;
    FillOnly(c, l, o);
  }

  lemma {:induction false} ToUpdateStep(c: Config, l: Loop, e: Event)
    requires FullSlots(c) && EndingInv(c, l.s) && Formed(l) && ToUpdate(l) && May(c, l, e)
    ensures var l' := Next(c, l, e); InSync(c, l') || Over(l')
  {
    hide SizeInv, FeedInv, FinalInv, Conserved, CounterInv, HandInv, PendingInv, LockInv, Formed, Enabled, Apply;
    hide ToUpdate, InUpdate, ToResume, InResume, Wakes, BehindCheck, Over, Ran, Went, Suspended, Filled;
    match e
    case Remote(a) => ToUpdateRemote(c, l, a);
    case Fill(o) => FillKeeps(c, l, o);
    case Arrive(h) => ToUpdateArrive(l, h);
    case Run => ToUpdateRun(c, l);
    case Go(p) => ToUpdateGo(c, l, p);
    case Suspend => ToUpdateSuspend(c, l);
  }

  lemma {:induction false} UpdatesStep(c: Config, l: Loop, e: Event)
    requires FullSlots(c) && EndingInv(c, l.s) && Due(c, l.s) && Formed(l) && InUpdate(c, l) && May(c, l, e)
    ensures InSync(c, Next(c, l, e))
  {
    hide SizeInv, FeedInv, FinalInv, Conserved, CounterInv, HandInv, PendingInv, LockInv, Formed, Enabled, Apply, Due;
    hide ToUpdate, ToResume, InResume, Wakes, BehindCheck, Ran, Went, Suspended, Filled;
    match e
    case Remote(a) => UpdatesRemote(c, l, a);
    case Fill(o) => FillKeeps(c, l, o);
    case Run => UpdatesRun(c, l);
    case _ =>
  }

  lemma {:induction false} ToResumeGo(c: Config, l: Loop, p: ProcessorAction)
    requires ToResume(c, l)
    ensures !May(c, l, Go(p))
  {}

  lemma {:induction false} ToResumeStep(c: Config, l: Loop, e: Event)
    requires FullSlots(c) && EndingInv(c, l.s) && Formed(l) && ToResume(c, l) && May(c, l, e)
    ensures InSync(c, Next(c, l, e))
  {
    hide SizeInv, FeedInv, FinalInv, Conserved, CounterInv, HandInv, PendingInv, LockInv, Formed, Enabled, Apply;
    hide ToUpdate, InUpdate, ToResume, InResume, Wakes, BehindCheck, Ran, Went, Suspended, Filled;
    match e
    case Remote(a) => ToResumeRemote(c, l, a);
    case Fill(o) => FillKeeps(c, l, o);
    case Arrive(h) => ToResumeArrive(c, l, h);
    case Run => ToResumeRun(c, l);
    case Go(p) => ToResumeGo(c, l, p);
    case Suspend => ToResumeSuspend(c, l);
  }

  lemma {:induction false} ResumesStep(c: Config, l: Loop, e: Event)
    requires FullSlots(c) && EndingInv(c, l.s) && Formed(l) && InResume(c, l) && May(c, l, e)
    ensures InSync(c, Next(c, l, e))
  {
    hide SizeInv, FeedInv, FinalInv, Conserved, CounterInv, HandInv, PendingInv, LockInv, Formed, Enabled, Apply;
    hide ToUpdate, InUpdate, ToResume, Wakes, BehindCheck, Ran, Went, Suspended, Filled;
    match e
    case Remote(a) => ResumesRemote(c, l, a);
    case Fill(o) => FillKeeps(c, l, o);
    case Run => ResumesRun(c, l);
    case _ =>
  }

  lemma {:induction false} WakesStep(c: Config, l: Loop, e: Event)
    requires FullSlots(c) && EndingInv(c, l.s) && l.s.history.handEmptyAtResets && !l.s.gate.closed
    requires Formed(l) && Wakes(c, l) && May(c, l, e)
    ensures var l' := Next(c, l, e); Runs(c, l') || InSync(c, l')
  {
    hide SizeInv, FeedInv, FinalInv, Conserved, CounterInv, HandInv, PendingInv, LockInv, Formed, Enabled, Apply;
    hide ToUpdate, InUpdate, ToResume, InResume, BehindCheck, Runs, Ran, Went, Suspended, Filled, Ahead;
    match e
    case Remote(a) => WakesRemote(c, l, a);
    case Fill(o) => FillKeeps(c, l, o);
    case Arrive(h) => WakesArrive(c, l, h);
    case Run => WakesRun(c, l);
    case _ =>
  }

  lemma {:induction false} BehindStep(c: Config, l: Loop, e: Event)
    requires FullSlots(c) && Full(c, l.s) && l.s.history.handEmptyAtResets && !l.s.gate.closed
    requires Formed(l) && BehindCheck(c, l) && May(c, l, e)
    ensures var l' := Next(c, l, e); Runs(c, l') || InSync(c, l') || LeftOver(c, l.s)
  {
    hide SizeInv, FeedInv, FinalInv, Conserved, CounterInv, HandInv, PendingInv, LockInv, Formed, Enabled, Apply;
    hide ToUpdate, InUpdate, ToResume, InResume, Wakes, BehindCheck, Runs, Ran, Went, Suspended, Filled, Ahead;
    hide Aged, TakenInv, ResetInv, LeftOver;
    match e
    case Remote(a) => WakesRemote(c, l, a);
    case Fill(o) => FillKeeps(c, l, o);
    case Arrive(h) => WakesArrive(c, l, h);
    case Run => BehindRun(c, l);
    case Go(p) => BehindGo(c, l, p);
    case Suspend => BehindSuspend(c, l);
  }

  lemma {:induction false} SyncStep(c: Config, l: Loop, e: Event)
    requires FullSlots(c) && Full(c, l.s) && l.s.history.handEmptyAtResets && !l.s.gate.closed
    requires Formed(l) && InSync(c, l) && May(c, l, e)
    ensures var l' := Next(c, l, e); Runs(c, l') || InSync(c, l') || Over(l') || LeftOver(c, l.s)
  {
    hide EndingInv, Formed, May, Next, Aged, TakenInv, ResetInv, LeftOver, Runs, Over;
    hide ToUpdate, InUpdate, ToResume, InResume, Wakes, BehindCheck;
    ResetDue(c, l.s);
    if ToUpdate(l) { ToUpdateStep(c, l, e); }
    else if InUpdate(c, l) { UpdatesStep(c, l, e); }
    else if ToResume(c, l) { ToResumeStep(c, l, e); }
    else if InResume(c, l) { ResumesStep(c, l, e); }
    else if Wakes(c, l) { WakesStep(c, l, e); }
    else { BehindStep(c, l, e); }
  }

  lemma {:induction false} TidyStep(c: Config, l: Loop, e: Event)
    requires FullSlots(c) && Full(c, l.s) && l.s.history.handEmptyAtResets && !l.s.gate.closed
    requires Tidy(c, l) && May(c, l, e)
    ensures Tidy(c, Next(c, l, e)) || LeftOver(c, l.s)
  {
    hide SizeInv, FeedInv, FinalInv, Conserved, CounterInv, HandInv, PendingInv, LockInv;
    hide Formed, May, Next, Aged, TakenInv, ResetInv, LeftOver, Beginning, Runs, Pauses, InSync, Over;
    if Beginning(l) {
      BeginningStep(c, l, e);
    } else if Over(l) {
      OverStep(c, l, e);
    } else {
      TidyTame(c, l);
      StepFormed(c, l, e);
      if Runs(c, l) { RunsStep(c, l, e); }
      else if Pauses(c, l) { PausesStep(c, l, e); }
      else { SyncStep(c, l, e); }
    }
  }

  // ---- what any step keeps ----

  // A reset that misses a sample is made with that sample in the processor's hand.
  predicate Grown(c: Config, s: State, s': State) {
    && Resets(c, s) <= Resets(c, s') && |s.history.consumed| <= |s'.history.consumed|
    && (s.gate.closed ==> s'.gate.closed)
    && (!s.history.handEmptyAtResets ==> !s'.history.handEmptyAtResets)
    && (s.history.handEmptyAtResets && !s'.history.handEmptyAtResets ==>
          s.ver.update.Counted? && s.worker.hand != [])
  }

  lemma {:induction false} GrownTrainer(c: Config, s: State, a: TrainerAction)
    requires LockInv(s) && TrainerCan(c, s, a)
    ensures Grown(c, s, TrainerDo(c, s, a)) && TrainerDo(c, s, a).history.dropped == s.history.dropped
  {}

  lemma {:induction false} GrownAct(c: Config, s: State, a: Action)
    requires c.maxRequired >= 1 && c.trigger >= 1 && LockInv(s) && VersionInv(c, s) && Enabled(c, s, a)
    ensures Grown(c, s, Apply(c, s, a))
    ensures !(a.OfTask? && !a.k.Generate? && !a.k.Cancel?) ==> Apply(c, s, a).history.dropped == s.history.dropped
  {
    if a.OfTrainer? { GrownTrainer(c, s, a.n); }
  }

  predicate Kept(c: Config, s: State, s': State) { Grown(c, s, s') && s'.history.dropped == s.history.dropped }

  lemma {:induction false} GrownTakes(c: Config, l: Loop, w: Waiter)
    requires c.maxRequired >= 1 && c.trigger >= 1 && LockInv(l.s) && VersionInv(c, l.s) && l.s.gate.lock.Free?
    ensures Kept(c, l.s, Takes(c, l, w).s)
  {
    hide Apply, VersionInv;
    match w
    case Pause => if Enabled(c, l.s, OfTrainer(PauseStart)) { GrownAct(c, l.s, OfTrainer(PauseStart)); }
    case Update => if Enabled(c, l.s, OfUpdate(UpdateStart)) { GrownAct(c, l.s, OfUpdate(UpdateStart)); }
    case Resume => if Enabled(c, l.s, OfUpdate(ResumeStart)) { GrownResume(c, l); }
    case Monitor => if Enabled(c, l.s, Other(MonitorWrite)) { GrownAct(c, l.s, Other(MonitorWrite)); }
    case _ =>
  }

  lemma {:induction false} GrownResume(c: Config, l: Loop)
    requires c.maxRequired >= 1 && l.s.gate.lock.Free? && Enabled(c, l.s, OfUpdate(ResumeStart))
    ensures Kept(c, l.s, Takes(c, l, Resume).s)
  {}

  lemma {:induction false} GrownTick(c: Config, l: Loop)
    requires c.maxRequired >= 1
    ensures Kept(c, l.s, Ticked(c, l).s)
  {}

  lemma {:induction false} GrownAnswer(c: Config, l: Loop, a: Action)
    requires c.maxRequired >= 1 && c.trigger >= 1 && LockInv(l.s) && VersionInv(c, l.s)
    requires Enabled(c, l.s, a) && IsReply(a)
    ensures Kept(c, l.s, Answered(c, l, a).s)
  {
    hide Apply, Enabled, VersionInv;
    GrownAct(c, l.s, a);
  }

  lemma {:induction false} GrownRun(c: Config, l: Loop)
    requires c.maxRequired >= 1 && c.trigger >= 1 && LockInv(l.s) && VersionInv(c, l.s) && CanRun(c, l)
    ensures Kept(c, l.s, Ran(c, l).s)
  {
    hide Apply, Enabled, Takes, Answered, Ticked, Kept, VersionInv;
    KeptSame(c, l.s);
    var rest := l.(ready := l.ready[1..]);
    match l.ready[0]
    case Hand =>
      if l.s.gate.lock.Free? && l.waiters != [] {
        GrownTakes(c, rest.(waiters := l.waiters[1..]), l.waiters[0]);
      }
    case Call(w) => if Available(l) { GrownTakes(c, rest, w); }
    case Timer => GrownTick(c, rest);
    case Reply(a) => if Enabled(c, l.s, a) && IsReply(a) { GrownAnswer(c, rest, a); }
    case _ =>
  }

  lemma {:induction false} KeptSame(c: Config, s: State)
    ensures Kept(c, s, s)
  {}

  lemma {:induction false} GrownStep(c: Config, l: Loop, e: Event)
    requires c.maxRequired >= 1 && c.trigger >= 1 && LockInv(l.s) && VersionInv(c, l.s) && May(c, l, e)
    ensures Grown(c, l.s, Next(c, l, e).s)
    ensures !e.Remote? || e.a.OfTrainer? || e.a.OfUpdate? ==> Next(c, l, e).s.history.dropped == l.s.history.dropped
  {
    hide Enabled, Ran, VersionInv, LockInv, Grown, ProcessorDo, OtherDo, TaskDo, TrainerDo, UpdateDo;
    KeptSame(c, l.s);
    match e
    case Remote(a) => GrownAct(c, l.s, a);
    case Fill(o) => GrownAct(c, l.s, Other(o));
    case Go(p) => GrownAct(c, l.s, OfProcessor(p));
    case Run => GrownRun(c, l);
    case _ =>
  }

  // ---- the invariant of all runs ----

  predicate Paid(c: Config, s: State) {
    c.partial && 1 <= PerVersion(c) < c.maxRequired && |s.history.consumed| >= (Lead(c) + 1) * PerVersion(c)
  }

  predicate Secure(c: Config, l: Loop)
    requires c.required >= 1 && c.trigger >= 1
  {
    !l.s.gate.closed ==>
      && (if l.s.history.handEmptyAtResets then LeftOver(c, l.s) || Tidy(c, l) else Paid(c, l.s))
      && (l.s.history.dropped != [] ==> CanLoseFull(c))
  }

  // Partial rollouts, more samples that can be outstanding than one version consumes, and the data.
  predicate CanLoseFull(c: Config) { c.partial && 1 <= PerVersion(c) < c.maxRequired && EnoughData(c) }

  lemma {:induction false} TidyCounted(c: Config, l: Loop)
    requires LockInv(l.s) && HandInv(l.s.worker) && Tidy(c, l) && l.s.ver.update.Counted?
    ensures l.s.worker.hand == []
  {
    hide Formed, Ahead, NoneSince;
  }

  // A reset that misses a sample has been paid for.
  lemma {:induction false} MissPaid(c: Config, s: State)
    requires FullSlots(c) && Full(c, s) && !s.gate.closed && LeftOver(c, s) && s.ver.update.Counted?
    ensures Paid(c, s)
  {
    hide EndingInv, TakenInv, ResetInv, TaskInv, EntriesInv, IsBlock, PerVersion, Lead;
    NotClosed(c, s);
    ConsumedForVersions(c, s) by { EndingLock(c, s); }
    Product(c.required, c.trigger);
    assert s.trainer.copied - c.startVersion == Resets(c, s) + 1;
    Monotone(Lead(c) + 1, Resets(c, s) + 1, PerVersion(c));
  }

  lemma {:induction false} NotClosed(c: Config, s: State)
    requires EndingInv(c, s) && !s.gate.closed
    ensures !TrainerClosed(s.trainer.phase)
  {}

  lemma {:induction false} EndingLock(c: Config, s: State)
    requires EndingInv(c, s)
    ensures LockInv(s)
  {}

  lemma {:induction false} PaidGrows(c: Config, s: State, s': State)
    requires c.required >= 1 && c.trigger >= 1 && Grown(c, s, s')
    ensures Paid(c, s) ==> Paid(c, s')
    ensures LeftOver(c, s) ==> LeftOver(c, s')
  {
    hide PerVersion, Lead;
  }

  lemma {:induction false} DropPaid(c: Config, s: State, a: Action)
    requires FullSlots(c) && Full(c, s) && !s.gate.closed && s.history.dropped == []
    requires !s.history.handEmptyAtResets ==> Paid(c, s)
    requires a.OfTask? && Enabled(c, s, a) && !Apply(c, s, a).gate.closed && Apply(c, s, a).history.dropped != []
    ensures CanLoseFull(c)
  {
    hide SizeInv, FeedInv, FinalInv, Conserved, TaskInv, EntriesInv, IsBlock, TakenInv, PerVersion, Lead;
    OnlyPutsDrop(c, s, a);
    CounterTask(c, s, a.k);
    DrawnIsTaken(c, s);
    FedAtMost(c, s.feed);
  }

  lemma {:induction false} GrownOf(c: Config, l: Loop, e: Event)
    requires FullSlots(c) && Full(c, l.s) && May(c, l, e)
    ensures Grown(c, l.s, Next(c, l, e).s)
    ensures !e.Remote? || e.a.OfTrainer? || e.a.OfUpdate? ==> Next(c, l, e).s.history.dropped == l.s.history.dropped
  {
    hide Grown, May, Next, TakenInv, ResetInv, BatchInv, TaskInv, EntriesInv, SizeInv, FeedInv, FinalInv, Conserved;
    GrownStep(c, l, e);
  }

  lemma {:induction false} SecureHand(c: Config, l: Loop, e: Event)
    requires FullSlots(c) && Full(c, l.s) && Secure(c, l) && May(c, l, e)
    requires l.s.history.handEmptyAtResets && !l.s.gate.closed && !Next(c, l, e).s.gate.closed
    ensures var l' := Next(c, l, e);
      if l'.s.history.handEmptyAtResets then LeftOver(c, l'.s) || Tidy(c, l') else Paid(c, l'.s)
  {
    hide EndingInv, Aged, TakenInv, ResetInv, LeftOver, Tidy, Paid, May, Next, CanLoseFull, Grown;
    var l' := Next(c, l, e);
    GrownOf(c, l, e);
    PaidGrows(c, l.s, l'.s);
    if LeftOver(c, l.s) {
      if !l'.s.history.handEmptyAtResets { Misses(c, l.s, l'.s); MissPaid(c, l.s); }
    } else {
      TidyStep(c, l, e);
      if !l'.s.history.handEmptyAtResets { Misses(c, l.s, l'.s); TidyHand(c, l); }
    }
  }

  lemma {:induction false} Misses(c: Config, s: State, s': State)
    requires Grown(c, s, s') && s.history.handEmptyAtResets && !s'.history.handEmptyAtResets
    ensures s.ver.update.Counted? && s.worker.hand != []
  {}

  lemma {:induction false} TidyHand(c: Config, l: Loop)
    requires EndingInv(c, l.s) && Tidy(c, l) && l.s.ver.update.Counted?
    ensures l.s.worker.hand == []
  {
    hide Tidy;
    TidyCounted(c, l);
  }

  lemma {:induction false} SecureDrop(c: Config, l: Loop, e: Event)
    requires FullSlots(c) && Full(c, l.s) && Secure(c, l) && May(c, l, e)
    requires !l.s.gate.closed && !Next(c, l, e).s.gate.closed
    requires l.s.history.dropped == [] && Next(c, l, e).s.history.dropped != []
    ensures CanLoseFull(c)
  {
    hide EndingInv, Aged, TakenInv, ResetInv, LeftOver, Tidy, Paid, CanLoseFull, Grown, Enabled, Apply;
    GrownOf(c, l, e);
    DropPaid(c, l.s, e.a);
  }

  lemma {:induction false} SecureStep(c: Config, l: Loop, e: Event)
    requires FullSlots(c) && Full(c, l.s) && Secure(c, l) && May(c, l, e)
    ensures Secure(c, Next(c, l, e))
  {
    hide EndingInv, Aged, TakenInv, ResetInv, LeftOver, Tidy, Paid, May, Next, CanLoseFull, Grown;
    var l' := Next(c, l, e);
    GrownOf(c, l, e);
    PaidGrows(c, l.s, l'.s);
    GrownFlags(c, l.s, l'.s);
    if !l'.s.gate.closed {
      if l.s.history.handEmptyAtResets { SecureHand(c, l, e); }
      if l.s.history.dropped == [] && l'.s.history.dropped != [] { SecureDrop(c, l, e); }
    }
  }

  lemma {:induction false} GrownFlags(c: Config, s: State, s': State)
    requires Grown(c, s, s')
    ensures s.gate.closed ==> s'.gate.closed
    ensures !s.history.handEmptyAtResets ==> !s'.history.handEmptyAtResets
  {}

  lemma {:induction false} SecurePlay(c: Config, l: Loop, events: seq<Event>)
    requires FullSlots(c) && Reachable(c, l.s) && Secure(c, l) && Play(c, l, events).Arrived?
    ensures Secure(c, Play(c, l, events).loop)
    decreases |events|
  {
    hide Reachable, Full, Secure, May, Next;
    if events != [] {
      FullAlways(c, l.s);
      SecureStep(c, l, events[0]);
      StepReaches(c, l, events[0]);
      SecurePlay(c, Next(c, l, events[0]), events[1..]);
    }
  }

  // With a slot for every sample that may be outstanding asyncio drops something before the final
  // None only with partial rollouts, and with data for the versions until a whole one is left over.
  lemma {:induction false} FullSlotsOnlyIf(c: Config, s: State)
    requires Admitted(c, s) && !s.gate.closed && s.history.dropped != []
    requires c.maxRequired <= c.servers * 16 && c.maxRequired <= 128
    ensures CanLoseFull(c)
  {
    hide Reachable, CanLoseFull, PerVersion;
    StartReachable(c);
    CoversVersion(c);
    var l :| Leads(c, Start(c), l) && l.s == s;
    var events :| Play(c, Start(c), events) == Arrived(l);
    StartTidy(c);
    SecurePlay(c, Start(c), events);
  }

  lemma {:induction false} StartTidy(c: Config)
    requires c.required >= 1 && c.trigger >= 1
    ensures Secure(c, Start(c))
  {}

  // ---- the exact condition ----

  // Which configurations asyncio can lose a sample under.
  predicate AdmitsLoss(c: Config) {
    if c.servers * 16 < c.maxRequired then CanLose(c) else CanLoseFull(c)
  }

  // Under asyncio put_sample can drop something before the final None exactly under the
  // configurations AdmitsLoss describes: with fewer slots than samples that may be outstanding
  // those of DropIff, and otherwise those with partial rollouts and enough data.
  lemma {:induction false} AdmittedDropIff(c: Config)
    requires Valid(c) && (c.servers * 16 < c.maxRequired || c.maxRequired <= 128)
    ensures (exists s :: Admitted(c, s) && !s.gate.closed && s.history.dropped != []) <==> AdmitsLoss(c)
  {
    hide Reachable, CanLose, CanLoseFull, Admitted, PerVersion;
    if AdmitsLoss(c) {
      if c.servers * 16 < c.maxRequired {
        var s := DropRun(c);
      } else {
        var s := LosesRun(c);
      }
    } else {
      forall s | Admitted(c, s) && !s.gate.closed ensures s.history.dropped == [] {
        if s.history.dropped != [] {
          if c.servers * 16 < c.maxRequired {
            AdmittedIsReachable(c, s);
            DropsOnlyIf(c, s);
          } else {
            FullSlotsOnlyIf(c, s);
          }
        }
      }
    }
  }

  lemma {:induction false} LosesRun(c: Config) returns (s: State)
    requires Valid(c) && c.maxRequired <= c.servers * 16 && CanLoseFull(c)
    ensures Admitted(c, s) && !s.gate.closed && s.history.dropped != []
  {
    hide Admitted;
    s := FullSlotRun(c);
  }
}
