// What holds of the ready queue and of the waiters in a run under asyncio as long as the monitor
// never has to wait for its write.
module AsyncReady {
  import opened QueueItems
  import opened AsyncProtocol
  import opened AsyncSafety
  import opened AsyncLoop

  // There is an h, and before it no k.
  predicate Ahead(ready: seq<Wake>, h: Wake, k: Wake) {
    ready != [] && (ready[0] == h || (ready[0] != k && Ahead(ready[1..], h, k)))
  }

  lemma {:induction false} AheadMore(ready: seq<Wake>, h: Wake, k: Wake, x: Wake)
    requires Ahead(ready, h, k)
    ensures Ahead(ready + [x], h, k)
  {
    var more := ready + [x];
    assert more[0] == ready[0];
    if ready[0] != h {
      assert more[1..] == ready[1..] + [x];
      AheadMore(ready[1..], h, k, x);
    }
  }

  lemma {:induction false} AheadLast(ready: seq<Wake>, h: Wake, k: Wake)
    requires k !in ready
    ensures Ahead(ready + [h], h, k)
  {
    var more := ready + [h];
    if ready == [] {
      assert more[0] == h;
    } else {
      assert more[0] == ready[0] && more[1..] == ready[1..] + [h];
      assert ready[0] in ready;
      AheadLast(ready[1..], h, k);
    }
  }

  lemma {:induction false} AheadIn(ready: seq<Wake>, h: Wake, k: Wake)
    requires Ahead(ready, h, k)
    ensures h in ready
  {
    if ready[0] != h {
      AheadIn(ready[1..], h, k);
    }
  }

  predicate Single(h: Wake) { !h.Begun? && !h.Reply? }

  predicate Distinct(ready: seq<Wake>) {
    forall i, j :: 0 <= i < j < |ready| && Single(ready[i]) ==> ready[i] != ready[j]
  }

  lemma {:induction false} DistinctRest(ready: seq<Wake>)
    requires Distinct(ready) && ready != []
    ensures Distinct(ready[1..]) && (Single(ready[0]) ==> ready[0] !in ready[1..])
    ensures forall h :: h in ready[1..] ==> h in ready
  {
    forall h | h in ready[1..] ensures h in ready {
      var i :| 0 <= i < |ready[1..]| && ready[1..][i] == h;
      assert ready[i + 1] == h;
    }
  }

  lemma {:induction false} DistinctMore(ready: seq<Wake>, x: Wake)
    requires Distinct(ready) && (Single(x) ==> x !in ready)
    ensures Distinct(ready + [x])
    ensures forall h :: h in ready + [x] <==> h in ready || h == x
  {
    var more := ready + [x];
    forall i, j | 0 <= i < j < |more| && Single(more[i]) ensures more[i] != more[j] {
      assert ready[i] in ready && more[i] == ready[i];
    }
  }

  predicate NoDup(ws: seq<Waiter>) { forall i, j :: 0 <= i < j < |ws| ==> ws[i] != ws[j] }

  predicate Formed(l: Loop) { FormedReady(l) && FormedWaiters(l) }

  predicate FormedReady(l: Loop) {
    && Distinct(l.ready) && Wake.First !in l.ready && Getter !in l.ready
    && (Hand in l.ready ==>
          l.s.gate.lock.Free? && l.waiters != [] && !(l.going && l.waiters[0].Processor?))
    && (Timer in l.ready ==> Check !in l.waiters)
    && (Tasks in l.ready ==> !l.going && l.s.gate.lock.ByProcessor?)
    && (Notice in l.ready ==> !l.going && Processor !in l.waiters && l.s.worker.loc.WaitResume?)
    && (forall w :: Call(w) in l.ready ==> IsCalled(l.s, w) && w !in l.waiters)
  }

  predicate FormedWaiters(l: Loop) {
    && NoDup(l.waiters) && !l.s.gate.monitorWaiting
    && (forall w :: w in l.waiters && !w.Processor? && !w.Check? ==> IsCalled(l.s, w))
    && (Processor in l.waiters ==> !l.s.gate.lock.ByProcessor?)
    && (Processor in l.waiters && l.going ==> l.s.gate.lock.Free? && l.waiters[0].Processor?)
  }

  // The processor rests only in its drain or on the condition, and the monitor gets the lock when
  // it wants to write.
  predicate Tame(c: Config, l: Loop) {
    && (l.going || (l.s.worker.loc.Drain? && l.s.worker.loc.why.ForPause?) || l.s.worker.loc.WaitResume?)
    && (l.ready != [] && l.ready[0].Timer? ==> l.going || Available(l) || !Enabled(c, l.s, Other(MonitorTest)))
  }

  // ---- waiters ----

  lemma {:induction false} FirstLeaves(ws: seq<Waiter>)
    requires ws != [] && NoDup(ws)
    ensures NoDup(ws[1..]) && ws[0] !in ws[1..]
    ensures forall w :: w in ws[1..] ==> w in ws
  {
    forall w | w in ws[1..] ensures w in ws {
      var i :| 0 <= i < |ws[1..]| && ws[1..][i] == w;
      assert ws[i + 1] == w;
    }
  }

  lemma {:induction false} Joins(ws: seq<Waiter>, w: Waiter)
    requires NoDup(ws) && w !in ws
    ensures NoDup(ws + [w]) && (forall v :: v in ws + [w] <==> v in ws || v == w)
  {}

  // ---- others and arrivals ----

  lemma {:induction false} RemoteFormed(c: Config, l: Loop, a: Action)
    requires c.maxRequired >= 1 && LockInv(l.s) && Formed(l) && Enabled(c, l.s, a) && IsRemote(a)
    ensures Formed(Did(c, l, a))
  {
    hide Distinct, NoDup;
    RemoteFrame(c, l.s, a);
  }

  // What the other processes leave alone.
  predicate Framed(s: State, s': State) {
    && s'.worker == s.worker && s'.feed == s.feed && s'.gate == s.gate.(closed := s'.gate.closed)
    && s'.ver == s.ver.(update := s'.ver.update) && s'.Active() == s.Active()
    && s'.pool.cancelQueue == s.pool.cancelQueue && (s.pool.running == map[] ==> s'.pool == s.pool)
    && (s'.trainer.phase.Pausing? <==> s.trainer.phase.Pausing?)
    && (s'.trainer.phase.Copying? ==> s.trainer.phase.Copying?)
    && (s'.ver.update == s.ver.update
        || (s.ver.update.Counting? && s'.ver.update.Counted?)
        || (s.trainer.phase.Copying? && s'.ver.update.Requested?))
    && (s.trainer.phase.Copying? ==> s'.trainer.phase.Copying? || s'.ver.update.Requested?)
    && (forall w :: IsCalled(s, w) ==> IsCalled(s', w))
  }

  lemma {:induction false} RemoteFrame(c: Config, s: State, a: Action)
    requires c.maxRequired >= 1 && LockInv(s) && Enabled(c, s, a) && IsRemote(a)
    ensures Framed(s, Apply(c, s, a))
  {
    match a
    case OfTask(k) => TaskFrame(c, s, k);
    case OfTrainer(n) => TrainerFrame(c, s, n);
    case _ =>
  }

  lemma {:induction false} TaskFrame(c: Config, s: State, a: TaskAction)
    requires c.maxRequired >= 1 && TaskCan(s, a) && (a.PutSample? || a.PutEnd?)
    ensures Framed(s, TaskDo(c, s, a))
  {
    if !a.PutEnd? { RunningSizes(s.pool.running, a.id, Finished(s.ver.current)); }
  }

  lemma {:induction false} TrainerFrame(c: Config, s: State, a: TrainerAction)
    requires LockInv(s) && TrainerCan(c, s, a) && !a.PauseStart? && !a.PauseEnd?
    ensures Framed(s, TrainerDo(c, s, a))
  {}

  lemma {:induction false} ArriveFormed(c: Config, l: Loop, h: Wake)
    requires LockInv(l.s) && Formed(l) && CanArrive(c, l, h)
    ensures Formed(l.(ready := l.ready + [h]))
  {
    hide Distinct, NoDup;
    DistinctMore(l.ready, h);
  }

  lemma {:induction false} FillFormed(c: Config, l: Loop, o: OtherAction)
    requires Formed(l) && OtherCan(c, l.s, o) && (o.Feed? || o.FeedEnd?) && !l.s.worker.loc.AwaitPending?
    ensures Formed(Filled(c, l, o))
  {
    hide Distinct, NoDup;
  }

  // ---- releases ----

  lemma {:induction false} ReleaseFormed(l: Loop)
    requires Formed(l) && Hand !in l.ready
    requires l.waiters != [] && l.going ==> !l.waiters[0].Processor?
    ensures Formed(Released(l))
  {
    hide Distinct, NoDup;
    DistinctMore(l.ready, Hand);
  }

  lemma {:induction false} NoticeFormed(l: Loop)
    requires Formed(l) && (!l.going ==> !l.s.worker.loc.Submitting?)
    ensures Formed(Notified(l)) && Notified(l) == l.(ready := Notified(l).ready)
    ensures Hand !in l.ready ==> Hand !in Notified(l).ready
  {
    hide Distinct, NoDup;
    if Sleeping(l) { DistinctMore(l.ready, Notice); }
  }

  // ---- taking the lock ----

  // A coroutine that has been next in line, or has just called, takes the lock.
  predicate HasTurn(l: Loop, w: Waiter) {
    && Formed(l) && Hand !in l.ready && l.s.gate.lock.Free? && !l.going
    && w !in l.waiters && Call(w) !in l.ready && (!w.Check? ==> IsCalled(l.s, w))
  }

  lemma {:induction false} PauseFormed(c: Config, l: Loop)
    requires c.maxRequired >= 1 && HasTurn(l, Pause)
    ensures Formed(Takes(c, l, Pause))
  {
    hide Distinct, NoDup;
  }

  lemma {:induction false} UpdateFormed(c: Config, l: Loop)
    requires c.maxRequired >= 1 && HasTurn(l, Update)
    ensures Formed(Takes(c, l, Update))
  {
    hide Distinct, NoDup;
  }

  lemma {:induction false} ResumeFormed(c: Config, l: Loop)
    requires c.maxRequired >= 1 && LockInv(l.s) && HasTurn(l, Resume) && !l.s.worker.loc.Submitting?
    ensures Formed(Takes(c, l, Resume))
  {
    hide Distinct, NoDup;
    var begun := Did(c, l, OfUpdate(ResumeStart));
    if !c.partial { EndFormed(c, begun); }
  }

  lemma {:induction false} EndFormed(c: Config, l: Loop)
    requires c.maxRequired >= 1 && LockInv(l.s) && Formed(l) && l.s.ver.update.Resuming?
    requires !l.going && !l.s.worker.loc.Submitting?
    ensures Formed(Answered(c, l, OfUpdate(ResumeEnd)))
  {
    hide Distinct, NoDup;
    var done := Did(c, l, OfUpdate(ResumeEnd));
    NoticeFormed(done);
    ReleaseFormed(Notified(done));
  }

  lemma {:induction false} TakesFormed(c: Config, l: Loop, w: Waiter)
    requires c.maxRequired >= 1 && LockInv(l.s) && HasTurn(l, w) && !l.s.worker.loc.Submitting?
    ensures Formed(Takes(c, l, w))
  {
    hide Formed;
    match w
    case Pause => PauseFormed(c, l);
    case Update => UpdateFormed(c, l);
    case Resume => ResumeFormed(c, l);
    case Check => ReleaseFormed(l);
    case _ =>
  }

  // ---- what runs ----

  lemma {:induction false} PopFormed(l: Loop)
    requires Formed(l) && l.ready != []
    ensures Formed(l.(ready := l.ready[1..]))
    ensures Single(l.ready[0]) ==> l.ready[0] !in l.ready[1..]
    ensures forall h :: h in l.ready[1..] ==> h in l.ready
  {
    hide Distinct, NoDup;
    DistinctRest(l.ready);
  }

  lemma {:induction false} HandFormed(c: Config, l: Loop)
    requires c.maxRequired >= 1 && LockInv(l.s) && Formed(l) && Tame(c, l) && CanRun(c, l) && l.ready[0].Hand?
    ensures Formed(Ran(c, l))
  {
    hide Distinct, NoDup, Takes;
    PopFormed(l);
    FirstLeaves(l.waiters);
    assert l.ready[0] in l.ready;
    var rest := l.(ready := l.ready[1..]);
    if !l.waiters[0].Processor? {
      var next := rest.(waiters := l.waiters[1..]);
      assert l.waiters[0] in l.waiters;
      TakesFormed(c, next, l.waiters[0]);
    }
  }

  lemma {:induction false} CallFormed(c: Config, l: Loop)
    requires c.maxRequired >= 1 && LockInv(l.s) && Formed(l) && Tame(c, l) && CanRun(c, l) && l.ready[0].Call?
    ensures Formed(Ran(c, l))
  {
    hide Distinct, NoDup, Takes;
    PopFormed(l);
    assert l.ready[0] in l.ready;
    var rest, w := l.(ready := l.ready[1..]), l.ready[0].w;
    if Available(l) { TakesFormed(c, rest, w); } else { Joins(l.waiters, w); }
  }

  lemma {:induction false} TimerFormed(c: Config, l: Loop)
    requires c.maxRequired >= 1 && LockInv(l.s) && Formed(l) && Tame(c, l) && CanRun(c, l) && l.ready[0].Timer?
    ensures Formed(Ran(c, l))
  {
    hide Distinct, NoDup;
    PopFormed(l);
    assert l.ready[0] in l.ready;
    var rest := l.(ready := l.ready[1..]);
    if Enabled(c, l.s, Other(MonitorTest)) {
      var tested := rest.(s := Apply(c, l.s, Other(MonitorTest)));
      NoticeFormed(tested.(s := Apply(c, tested.s, Other(MonitorWrite))));
    } else if !Available(l) {
      Joins(l.waiters, Check);
    }
  }

  lemma {:induction false} ReplyFormed(c: Config, l: Loop)
    requires c.maxRequired >= 1 && LockInv(l.s) && Formed(l) && Tame(c, l) && CanRun(c, l) && l.ready[0].Reply?
    ensures Formed(Ran(c, l))
  {
    hide Distinct, NoDup;
    PopFormed(l);
    var rest, a := l.(ready := l.ready[1..]), l.ready[0].a;
    if Enabled(c, l.s, a) && IsReply(a) {
      hide Formed;
      if a == OfUpdate(ResumeEnd) { EndFormed(c, rest); }
      else if a == OfTrainer(PauseEnd) || a == OfUpdate(UpdateEnd) { UnlockFormed(c, rest, a); }
      else { PlainFormed(c, rest, a); }
    }
  }

  lemma {:induction false} UnlockFormed(c: Config, l: Loop, a: Action)
    requires c.maxRequired >= 1 && LockInv(l.s) && Formed(l) && Enabled(c, l.s, a) && !l.going
    requires a == OfTrainer(PauseEnd) || a == OfUpdate(UpdateEnd)
    ensures Formed(Answered(c, l, a))
  {
    hide Distinct, NoDup;
    ReleaseFormed(Did(c, l, a));
  }

  lemma {:induction false} PlainFormed(c: Config, l: Loop, a: Action)
    requires c.maxRequired >= 1 && LockInv(l.s) && Formed(l) && Enabled(c, l.s, a) && IsReply(a)
    requires a != OfTrainer(PauseEnd) && a != OfUpdate(UpdateEnd) && a != OfUpdate(ResumeEnd)
    ensures Formed(Answered(c, l, a))
  {
    hide Distinct, NoDup;
  }

  lemma {:induction false} RunFormed(c: Config, l: Loop)
    requires c.maxRequired >= 1 && LockInv(l.s) && Formed(l) && Tame(c, l) && CanRun(c, l)
    ensures Formed(Ran(c, l))
  {
    hide Distinct, NoDup, Takes, Answered, Ticked;
    match l.ready[0]
    case Hand => HandFormed(c, l);
    case Call(_) => CallFormed(c, l);
    case Timer => TimerFormed(c, l);
    case Reply(_) => ReplyFormed(c, l);
    case Tasks => WorkFormed(c, l);
    case Notice => WorkFormed(c, l);
    case Begun(_) => PopFormed(l);
    case _ =>
  }

  lemma {:induction false} WorkFormed(c: Config, l: Loop)
    requires c.maxRequired >= 1 && LockInv(l.s) && Formed(l) && CanRun(c, l)
    requires l.ready[0].Tasks? || l.ready[0].Notice?
    ensures Formed(Ran(c, l))
  {
    hide Distinct, NoDup;
    PopFormed(l);
    assert l.ready[0] in l.ready;
  }

  // ---- the processor ----

  lemma {:induction false} GoFormed(c: Config, l: Loop, p: ProcessorAction)
    requires c.maxRequired >= 1 && LockInv(l.s) && Formed(l) && May(c, l, Go(p))
    ensures Formed(Next(c, l, Go(p)))
  {
    hide Distinct, NoDup, Formed, ProcessorDo, LockInv;
    var s' := ProcessorDo(c, l.s, p);
    GateStays(c, l.s, p);
    if TakesLock(p) {
      var ready' := if p.Submit? then l.ready + [Begun(l.s.worker.hand[0])] else l.ready;
      LeavesFormed(l, s', !GivesUp(s'.worker.loc), ready');
      ReleaseFormed(Loop(s', !GivesUp(s'.worker.loc), Popped(l.waiters), ready'));
    } else {
      StaysFormed(l, s', !GivesUp(s'.worker.loc));
      if p.Harvest? { ReleaseFormed(Loop(s', !GivesUp(s'.worker.loc), l.waiters, l.ready)); }
    }
  }

  lemma {:induction false} GateStays(c: Config, s: State, p: ProcessorAction)
    requires LockInv(s) && ProcessorCan(s, p)
    ensures var s' := ProcessorDo(c, s, p);
      && s'.trainer == s.trainer && s'.ver.update == s.ver.update
      && s'.gate.monitorWaiting == s.gate.monitorWaiting
      && (s'.gate.lock.ByProcessor? ==> GivesUp(s'.worker.loc))
      && (!TakesLock(p) && !p.Harvest? ==> s'.gate.lock == s.gate.lock)
      && (p.Harvest? ==> s.gate.lock.ByProcessor? && s'.gate.lock.Free?)
      && (TakesLock(p) ==> s'.gate.lock.Free? || s'.gate.lock.ByProcessor?)
  {}

  // The processor, which has the lock or next to it, leaves the line.
  lemma {:induction false} LeavesFormed(l: Loop, s': State, going: bool, ready: seq<Wake>)
    requires Formed(l) && l.going && Mine(l)
    requires ready == l.ready || exists id :: ready == l.ready + [Begun(id)]
    requires s'.trainer == l.s.trainer && s'.ver.update == l.s.ver.update
    requires s'.gate.monitorWaiting == l.s.gate.monitorWaiting
    requires s'.gate.lock.Free? || s'.gate.lock.ByProcessor?
    requires s'.gate.lock.ByProcessor? ==> !going
    ensures Formed(Loop(s', going, Popped(l.waiters), ready)) && Hand !in ready
    ensures Popped(l.waiters) != [] ==> !Popped(l.waiters)[0].Processor?
  {
    hide Distinct, NoDup;
    if l.waiters != [] {
      FirstLeaves(l.waiters);
      assert Popped(l.waiters) != [] ==> Popped(l.waiters)[0] in Popped(l.waiters);
    }
    if ready != l.ready {
      var id :| ready == l.ready + [Begun(id)];
      DistinctMore(l.ready, Begun(id));
    }
  }

  lemma {:induction false} StaysFormed(l: Loop, s': State, going: bool)
    requires Formed(l) && l.going
    requires s'.trainer == l.s.trainer && s'.ver.update == l.s.ver.update
    requires s'.gate.monitorWaiting == l.s.gate.monitorWaiting
    requires s'.gate.lock == l.s.gate.lock || (l.s.gate.lock.ByProcessor? && s'.gate.lock.Free?)
    ensures Formed(Loop(s', going, l.waiters, l.ready))
    ensures l.s.gate.lock.ByProcessor? ==> Hand !in l.ready && (l.waiters != [] ==> !l.waiters[0].Processor?)
  {
    hide Distinct, NoDup;
  }

  lemma {:induction false} SuspendFormed(c: Config, l: Loop)
    requires LockInv(l.s) && Formed(l) && CanSuspend(l)
    ensures Formed(Suspended(l))
  {
    hide Distinct, NoDup;
    if LockPoint(l.s.worker.loc) && !Mine(l) {
      Joins(l.waiters, Processor);
    } else if LockPoint(l.s.worker.loc) {
      if l.waiters != [] { FirstLeaves(l.waiters); }
      ReleaseFormed(l.(going := false, waiters := Popped(l.waiters)));
    }
  }

  lemma {:induction false} StepFormed(c: Config, l: Loop, e: Event)
    requires c.maxRequired >= 1 && LockInv(l.s) && Formed(l) && Tame(c, l) && May(c, l, e)
    ensures Formed(Next(c, l, e))
  {
    hide Formed, Ran, LockInv, Enabled, Apply;
    match e
    case Remote(a) => RemoteFormed(c, l, a);
    case Fill(o) => FillFormed(c, l, o);
    case Arrive(h) => ArriveFormed(c, l, h);
    case Run => RunFormed(c, l);
    case Go(p) => GoFormed(c, l, p);
    case Suspend => SuspendFormed(c, l);
  }
}
