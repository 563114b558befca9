// Runs in which a sample older than 1 + ceil(threshold) is trained on, and with AsyncAgeLimits the
// exact amount of data that makes one possible when the threshold is a positive whole number.
module AsyncOld {
  import opened Arithmetic
  import opened QueueItems
  import opened AsyncProtocol
  import opened AsyncSafety
  import opened AsyncConservation
  import opened AsyncAge
  import opened AsyncEnd
  import opened AsyncLimits
  import opened AsyncAgeLimits
  import opened AsyncLoop
  import opened AsyncPlay

  // ---- rounds: one version is consumed after another ----

  // The processor is about to look for work and nothing runs.
  predicate Alive(c: Config, l: Loop) {
    Working(c, l) && l.s.pool.running == map[] && l.s.ver.staleness == |l.s.queue|
  }

  // The processor has ended and everything fed has been put.
  predicate Over(c: Config, l: Loop) {
    && AtRest(l) && l.waiters == [] && l.s.worker.loc.Ended? && l.s.gate.lock.Free? && !l.s.gate.closed
    && l.s.pool.running == map[] && Used(l.s) == FedTotal(c)
  }

  predicate Station(c: Config, l: Loop) {
    && (Alive(c, l) || Over(c, l)) && Fresh(l.s.trainer) && l.s.ver.update.Idle? && |l.s.queue| <= c.maxRequired
    && l.s.history.dropped == [] && Used(l.s) <= FedTotal(c)
  }

  // One version later, with the first n entries gone.
  predicate Later(s: State, s': State, n: nat) {
    && n <= |s.queue| && s.queue[n..] <= s'.queue && s'.trainer.version == s.trainer.version + 1
    && |s'.history.consumed| == |s.history.consumed| + n
  }

  lemma {:induction false} FullRound(c: Config, l: Loop) returns (l': Loop)
    requires Reachable(c, l.s) && Station(c, l) && Alive(c, l) && |l.s.queue| < c.maxRequired
    requires Used(l.s) + c.maxRequired - |l.s.queue| <= FedTotal(c) && 1 <= PerVersion(c) <= |l.s.queue|
    ensures Goes(c, l, l') && Station(c, l') && Later(l.s, l'.s, PerVersion(c))
    ensures Alive(c, l') && |l'.s.queue| == c.maxRequired - PerVersion(c)
  {
    hide Goes, FedTotal, PerVersion, Consumes;
    l' := PushMany(c, l, c.maxRequired - |l.s.queue|, -1);
    GoesFacts(c, l, l');
    var h := HoldPause(c, l');
    Onward(c, l, l', h);
    l' := FinishMany(c, l, h, |h.s.pool.running|, -1);
    NoKeys(l'.s.pool.running);
    var t := TrainAll(c, l, l');
    ConsumedFacts(l'.s, t.s, PerVersion(c));
    l' := DrainedSync(c, l, t);
  }

  // The same when nothing more may be outstanding: the processor waits out the version.
  lemma {:induction false} StillRound(c: Config, l: Loop) returns (l': Loop)
    requires Reachable(c, l.s) && Station(c, l) && Alive(c, l) && |l.s.queue| == c.maxRequired
    requires 1 <= PerVersion(c) <= |l.s.queue|
    ensures Goes(c, l, l') && Station(c, l') && Later(l.s, l'.s, PerVersion(c))
    ensures Alive(c, l') && |l'.s.queue| == c.maxRequired - PerVersion(c)
  {
    hide Goes, FedTotal, PerVersion, Consumes, Safe, Valid, Reachable;
    Here(c, l);
    l' := RestPaused(c, l);
    var t := TrainAll(c, l, l');
    ConsumedFacts(l'.s, t.s, PerVersion(c));
    GoesFacts(c, l, t);
    l' := Do(c, l, t, Remote(OfTrainer(SyncBegin)));
    l' := PauseThrough(c, l, l');
    l' := Broadcast(c, l, l');
    l' := WokenUp(c, l, l');
  }

  lemma {:induction false} RestPaused(c: Config, l: Loop) returns (l': Loop)
    requires Reachable(c, l.s) && Working(c, l) && ShouldPause(c, l.s) && l.s.pool.running == map[]
    ensures Goes(c, l, l')
    ensures l' == l.(going := false, ready := [], s := l.s.(
      worker := l.s.worker.(loc := WaitResume), gate := l.s.gate.(paused := true)))
    ensures Sleeping(l')
  {
    hide Goes, ShouldPause, Safe, Valid, Reachable, AllBegun;
    l' := SetsPaused(c, l);
    GoesFacts(c, l, l');
    l' := Do(c, l, l', Go(DrainTest));
    l' := Do(c, l, l', Suspend);
    l' := Settled(c, l, l');
  }

  // ---- the last samples ----

  lemma {:induction false} NoSupply(c: Config, s: State)
    requires Reachable(c, s) && !s.gate.closed && !Draining(s.worker.loc) && !s.worker.loc.Crashed?
    requires s.worker.hand == [] && s.pool.cancelQueue == [] && Used(s) == FedTotal(c)
    requires s.feed.pending != [] || FeederRests(c, s)
    ensures s.feed.pending != [] && s.feed.pending[0].EndMark?
  {
    hide Reachable, FinalInv, LockInv, ConcurrencyInv, CounterInv, NoneInv, RolloutsInv, Conserved;
    EndingAlways(c, s);
    FedAtMost(c, s.feed);
  }

  // Everything is used up: the processor takes the end marker.
  lemma {:induction false} TakeEnd(c: Config, l: Loop) returns (l': Loop)
    requires Reachable(c, l.s) && Working(c, l) && !ShouldPause(c, l.s) && Used(l.s) == FedTotal(c)
    ensures Goes(c, l, l')
    ensures l' == l.(ready := l'.ready, s := l.s.(
      feed := l'.s.feed, worker := l.s.worker.(loc := Drain(ForEnd, Test)),
      ver := l.s.ver.(staleness := l.s.ver.staleness + 1)))
    ensures AllBegun(l'.ready)
  {
    hide Goes, Reachable, Valid, Used, FedTotal, Safe, ShouldPause, FeederRests, AllBegun;
    Here(c, l);
    GoesFacts(c, l, l);
    var m := Do(c, l, l, Go(Look));
    UsedSame(c, l.s, m.s);
    m := EndReady(c, l, m);
    l' := Do(c, l, m, Go(TakePending));
  }

  lemma {:induction false} EndReady(c: Config, o: Loop, l: Loop) returns (l': Loop)
    requires Goes(c, o, l) && l.going && l.s.worker.loc.AwaitPending? && AllBegun(l.ready)
    requires l.s.worker.hand == [] && l.s.pool.cancelQueue == [] && !l.s.gate.closed && Used(l.s) == FedTotal(c)
    ensures Goes(c, o, l') && l' == l.(ready := l'.ready, s := l.s.(feed := l'.s.feed)) && AllBegun(l'.ready)
    ensures l'.s.feed.pending != [] && l'.s.feed.pending[0].EndMark?
  {
    hide Goes, Reachable, Valid, Used, FedTotal, Safe, FeederRests;
    GoesFacts(c, o, l);
    l' := l;
    if l.s.feed.pending == [] {
      l' := Do(c, o, l, Suspend);
      GoesFacts(c, o, l');
      if FeederRests(c, l'.s) { NoSupply(c, l'.s) by { UsedSame(c, l.s, l'.s); } }
      var f := FeederWakes(c, l');
      Onward(c, o, l', f);
      f := Settle(c, o, f, [Getter], l.ready);
      l' := GetterRuns(c, o, f);
    }
    GoesFacts(c, o, l');
    NoSupply(c, l'.s) by { UsedSame(c, l.s, l'.s); }
  }

  lemma {:induction false} EndNow(c: Config, l: Loop) returns (l': Loop)
    requires Reachable(c, l.s) && Station(c, l) && Alive(c, l)
    requires FedTotal(c) - Used(l.s) < c.maxRequired - |l.s.queue|
    ensures Goes(c, l, l') && Station(c, l') && Over(c, l') && l.s.queue <= l'.s.queue
    ensures l'.s.trainer == l.s.trainer && l'.s.history.consumed == l.s.history.consumed
  {
    hide Goes, FedTotal, Fresh;
    var m := PushMany(c, l, FedTotal(c) - Used(l.s), -1);
    GoesFacts(c, l, m);
    var e := TakeEnd(c, m);
    Onward(c, l, m, e);
    if m.s.pool.running == map[] {
      l' := Do(c, l, e, Go(DrainTest));
      l' := Settled(c, l, l');
    } else {
      l' := EndDrained(c, l, e);
    }
  }

  lemma {:induction false} EndDrained(c: Config, o: Loop, l: Loop) returns (l': Loop)
    requires Goes(c, o, l) && l.going && l.s.worker.loc == Drain(ForEnd, Test) && l.waiters == [] && AllBegun(l.ready)
    requires l.s.gate.lock.Free? && !l.s.gate.closed && l.s.pool.running != map[] && l.s.pool.finished == 0
    requires |l.s.queue| + |l.s.pool.running| <= c.maxRequired && !l.s.Refuses()
    ensures Goes(c, o, l') && OnlyWork(l.s, l'.s, -1) && AtRest(l') && l'.waiters == []
    ensures l'.s.worker.loc.Ended? && l'.s.pool.running == map[]
    ensures |l'.s.queue| == |l.s.queue| + |l.s.pool.running|
  {
    hide Goes, Apply, Enabled;
    var m := EndHolding(c, o, l);
    l' := FinishMany(c, o, m, |m.s.pool.running|, -1);
    NoKeys(l'.s.pool.running);
    l' := DrainHarvested(c, o, l');
  }

  lemma {:induction false} EndHolding(c: Config, o: Loop, l: Loop) returns (l': Loop)
    requires Goes(c, o, l) && l.going && l.s.worker.loc == Drain(ForEnd, Test) && l.waiters == [] && AllBegun(l.ready)
    requires l.s.gate.lock.Free? && l.s.pool.running != map[]
    ensures Goes(c, o, l') && AtRest(l')
    ensures l' == l.(ready := l'.ready, going := l'.going, s := l.s.(gate := l'.s.gate, worker := l'.s.worker))
    ensures l'.s.gate == l.s.gate.(lock := l'.s.gate.lock) && l'.s.worker == l.s.worker.(loc := l'.s.worker.loc)
    ensures l'.s.worker.loc.Drain? && l'.s.worker.loc.why.ForEnd? && l'.s.worker.loc.phase.Holding?
  {
    hide Goes, ShouldPause, Valid, Reachable, Safe, FeederRests;
    GoesFacts(c, o, l);
    l' := Do(c, o, l, Go(DrainTest));
    l' := Do(c, o, l', Go(DrainLock));
    l' := Settled(c, o, l');
  }

  lemma {:induction false} OverRound(c: Config, l: Loop) returns (l': Loop)
    requires Reachable(c, l.s) && Station(c, l) && Over(c, l) && 1 <= PerVersion(c) <= |l.s.queue|
    ensures Goes(c, l, l') && Station(c, l') && Later(l.s, l'.s, PerVersion(c)) && Over(c, l')
  {
    hide Goes, FedTotal, PerVersion, Consumes, Safe, Valid, Reachable;
    Here(c, l);
    var t := TrainAll(c, l, l);
    ConsumedFacts(l.s, t.s, PerVersion(c));
    GoesFacts(c, l, t);
    l' := Do(c, l, t, Remote(OfTrainer(SyncBegin)));
    l' := PauseThrough(c, l, l');
    l' := Broadcast(c, l, l');
  }

  // One version later, from wherever the processor is.
  lemma {:induction false} Round(c: Config, l: Loop) returns (l': Loop)
    requires Reachable(c, l.s) && Station(c, l) && 1 <= PerVersion(c) <= |l.s.queue|
    ensures Goes(c, l, l') && Station(c, l') && Later(l.s, l'.s, PerVersion(c))
    ensures Alive(c, l') ==> |l'.s.queue| == c.maxRequired - PerVersion(c)
  {
    hide Goes, Reachable, FedTotal, PerVersion, Used, Fresh;
    if Over(c, l) {
      l' := OverRound(c, l);
    } else if |l.s.queue| == c.maxRequired {
      l' := StillRound(c, l);
    } else if FedTotal(c) - Used(l.s) >= c.maxRequired - |l.s.queue| {
      l' := FullRound(c, l);
    } else {
      var e := EndNow(c, l);
      GoesFacts(c, l, e);
      l' := OverRound(c, e);
      Onward(c, l, e, l');
    }
  }

  // n versions later; entry i, if it is not before, is n versions further on.
  lemma {:induction false} Rounds(c: Config, l: Loop, n: nat, i: nat, x: Item) returns (l': Loop)
    requires Reachable(c, l.s) && Station(c, l) && 1 <= PerVersion(c)
    requires n * PerVersion(c) <= i < |l.s.queue| && l.s.queue[i] == x
    requires n == 0 && Alive(c, l) ==> |l.s.queue| == c.maxRequired - PerVersion(c)
    ensures Goes(c, l, l') && Station(c, l') && l'.s.trainer.version == l.s.trainer.version + n
    ensures |l'.s.history.consumed| == |l.s.history.consumed| + n * PerVersion(c)
    ensures i - n * PerVersion(c) < |l'.s.queue| && l'.s.queue[i - n * PerVersion(c)] == x
    ensures Alive(c, l') ==> |l'.s.queue| == c.maxRequired - PerVersion(c)
    decreases n
  {
    hide Goes, Reachable, PerVersion, Station, Alive;
    var k := PerVersion(c);
    if n == 0 {
      Here(c, l);
      l' := l;
    } else {
      assert n * k == (n - 1) * k + k;
      Product(n - 1, k);
      var m := Round(c, l);
      GoesFacts(c, l, m);
      assert m.s.queue[i - k] == l.s.queue[k..][i - k] == x;
      l' := Rounds(c, m, n - 1, i - k, x);
      Onward(c, l, m, l');
    }
  }

  // ---- how a sample gets so old ----

  // A positive whole threshold, a server, and room for all slots beside one version, or themselves.
  predicate Roomy(c: Config) {
    && c.servers >= 1 && Max(c.servers * 16, PerVersion(c)) + c.servers * 16 < c.maxRequired
    && Ceil(c.threshold) >= 1 && c.maxRequired == PerVersion(c) * (1 + Ceil(c.threshold))
  }

  lemma {:induction false} RoomyFacts(c: Config)
    requires Valid(c) && Roomy(c)
    ensures 1 <= PerVersion(c) && 16 <= c.maxConcurrent == c.servers * 16
    ensures Max(c.maxConcurrent, PerVersion(c)) + c.maxConcurrent + 1 <= c.maxRequired
    ensures c.maxRequired == PerVersion(c) + Ceil(c.threshold) * PerVersion(c)
    ensures PerVersion(c) <= Ceil(c.threshold) * PerVersion(c)
    ensures PerVersion(c) * (2 + Ceil(c.threshold)) == PerVersion(c) + c.maxRequired
  {
    hide Valid;
    CoversVersion(c);
    ConcurrentIs(c);
    var k, h := PerVersion(c), Ceil(c.threshold);
    assert k * (1 + h) == k + h * k;
    assert k * (2 + h) == k + k * (1 + h);
    Monotone(1, h, k);
  }

  lemma {:induction false} ConcurrentIs(c: Config)
    requires Valid(c)
    ensures c.maxConcurrent == Min(c.servers * 16, c.maxRequired)
  {}

  // The first sync, with the processor at work between its pause and its resume.
  predicate Midway(c: Config, s: State) {
    && s.gate.lock.Free? && !s.gate.paused && !s.gate.closed && !s.gate.cancelling && s.pool.cancelQueue == []
    && s.ver.current == c.startVersion && s.ver.update.Idle? && s.trainer.phase == Copying(false)
    && s.trainer.collected == [] && s.trainer.localStep == 1 && s.trainer.version == c.startVersion + 1
    && s.history.dropped == [] && |s.history.consumed| == PerVersion(c)
    && |s.queue| == Max(c.maxConcurrent, PerVersion(c)) - PerVersion(c)
  }

  // The monitor has tested before the pause and writes after it; the processor, which has waited
  // behind it with sample x in hand, is next.
  lemma {:induction false} Strays(c: Config) returns (l: Loop, x: nat)
    requires Valid(c) && Roomy(c) && FedTotal(c) > PerVersion(c) + c.maxRequired && !c.partial
    ensures Goes(c, Start(c), l) && Midway(c, l.s) && !l.going && l.ready == [Hand] && l.waiters == [Processor, Check]
    ensures l.s.worker.loc.Submitting? && l.s.worker.hand == [x] && l.s.pool == Pool(map[], 0, [])
    ensures l.s.ver.staleness == Max(c.maxConcurrent, PerVersion(c)) + 1
  {
    hide Goes, FedTotal, PerVersion, Roomy, Valid, Reachable, Safe, FeederRests;
    RoomyFacts(c);
    var o := Start(c);
    l, x := Opening(c);
    GoesFacts(c, o, l);
    l := Do(c, o, l, Remote(OfTrainer(SyncBegin)));
    l := Called(c, o, l, Pause);
    l := Ticks(c, o, l);
    l := PauseOver(c, o, l, x, [Monitor]);
    l := MonitorWrites(c, o, l);
  }

  lemma {:induction false} MonitorWrites(c: Config, o: Loop, l: Loop) returns (l': Loop)
    requires Goes(c, o, l) && !l.going && l.ready == [Hand] && l.waiters == [Monitor, Processor]
    requires l.s.gate.lock.Free? && l.s.gate.monitorWaiting
    ensures Goes(c, o, l')
    ensures l' == l.(ready := [Hand], waiters := [Processor, Check], s := l.s.(
      gate := l.s.gate.(paused := false, monitorWaiting := false),
      history := l.s.history.(strayed := l.s.history.strayed || l.s.InWindow())))
  {
    hide Goes, Valid, Reachable, Safe, FeederRests, ShouldPause;
    GoesFacts(c, o, l);
    l' := Handed(c, o, l);
  }

  // x is submitted, and the next sample once the monitor has passed.
  lemma {:induction false} OpensWindow(c: Config) returns (l: Loop, x: nat)
    requires Valid(c) && Roomy(c) && FedTotal(c) > PerVersion(c) + c.maxRequired && !c.partial
    ensures Goes(c, Start(c), l) && Midway(c, l.s) && Working(c, l)
    ensures |l.s.pool.running| == 2 && x in l.s.pool.running && l.s.pool.running[x].Generating?
    ensures l.s.ver.staleness == Max(c.maxConcurrent, PerVersion(c)) + 2
  {
    hide Goes, FedTotal, PerVersion, Roomy, Valid, Reachable, Safe, FeederRests;
    RoomyFacts(c);
    var o := Start(c);
    l, x := Strays(c);
    l := Resumed(c, o, l);
    RestsSame(c, l.s, l.s);
    var f := l.s;
    l := SubmitNow(c, o, l, x);
    RestsSame(c, f, l.s);
    GoesFacts(c, o, l);
    var m, y := TakeAhead(c, l);
    Onward(c, o, l, m);
    OneGenerating(x);
    l := BehindMonitor(c, o, m, x);
    l := SubmitNow(c, o, l, y);
  }

  lemma {:induction false} BehindMonitor(c: Config, o: Loop, l: Loop, x: nat) returns (l': Loop)
    requires Goes(c, o, l) && l.going && l.waiters == [Check] && l.ready == [Begun(x), Hand] && l.s.gate.lock.Free?
    requires l.s.worker.loc == Drain(ForSlot, Test) && l.s.Active() < c.maxConcurrent
    ensures Goes(c, o, l')
    ensures l' == l.(waiters := [Processor], ready := [], s := l.s.(
      feed := l'.s.feed, worker := l.s.worker.(loc := Submitting)))
  {
    hide Goes, Valid, Reachable, Safe, FeederRests, ShouldPause;
    GoesFacts(c, o, l);
    l' := Do(c, o, l, Go(DrainTest));
    l' := Do(c, o, l', Suspend);
    l' := RunBegun(c, o, l');
    l' := Handed(c, o, l');
    l' := Resumed(c, o, l');
  }

  // With all slots taken and sample z in hand it holds the lock when the update comes.  Meanwhile x
  // is generated with the old version.
  lemma {:induction false} OldVersion(c: Config) returns (l: Loop, x: nat, z: nat)
    requires Valid(c) && Roomy(c) && FedTotal(c) > PerVersion(c) + c.maxRequired && !c.partial
    ensures Goes(c, Start(c), l) && AtRest(l) && l.waiters == [Update]
    ensures l.s.worker.loc == Drain(ForSlot, Holding) && l.s.worker.hand == [z] && z !in l.s.pool.running
    ensures l.s.gate.lock.ByProcessor? && !l.s.gate.paused && !l.s.gate.closed && !l.s.gate.cancelling
    ensures x in l.s.pool.running && l.s.pool.running[x] == Finished(c.startVersion)
    ensures |l.s.pool.running| == c.maxConcurrent && l.s.pool.finished == 0 && l.s.pool.cancelQueue == []
    ensures l.s.ver.update == Requested(c.startVersion + 1) && Fresh(l.s.trainer)
    ensures l.s.trainer.version == c.startVersion + 1 && l.s.history.dropped == []
    ensures |l.s.history.consumed| == PerVersion(c)
    ensures |l.s.queue| == Max(c.maxConcurrent, PerVersion(c)) - PerVersion(c)
  {
    hide Goes, FedTotal, PerVersion, Roomy, Valid, Reachable, Safe, FeederRests;
    RoomyFacts(c);
    var o := Start(c);
    l, x := OpensWindow(c);
    GoesFacts(c, o, l);
    var m := PushMany(c, l, c.maxConcurrent - 2, x);
    Onward(c, o, l, m);
    GoesFacts(c, o, m);
    l, z := HoldSlot(c, m);
    Onward(c, o, m, l);
    l := Do(c, o, l, Remote(OfTrainer(CopyWeights)));
    l := Called(c, o, l, Update);
    l := Replied(c, o, l, OfTask(Generate(x)));
    Regenerated(m.s.pool.running, x, Finished(c.startVersion));
  }

  lemma {:induction false} Regenerated(m: map<nat, Task>, x: nat, t: Task)
    requires x in m
    ensures |m[x := t]| == |m|
  {
    assert m[x := t].Keys == m.Keys;
    assert |m[x := t]| == |m[x := t].Keys| == |m.Keys|;
  }

  // Another task completes: the processor harvests, and waits behind whoever wants the lock.
  lemma {:induction false} StepsAside(c: Config, o: Loop, l: Loop, x: nat, w: Waiter) returns (l': Loop)
    requires Goes(c, o, l) && AtRest(l) && l.waiters == [w] && !w.Processor? && |l.s.queue| < c.maxRequired
    requires l.s.worker.loc == Drain(ForSlot, Holding) && l.s.gate.lock.ByProcessor? && !l.s.Refuses()
    requires 2 <= |l.s.pool.running| <= c.maxConcurrent && x in l.s.pool.running
    ensures Goes(c, o, l') && !l'.going && l'.ready == [Hand] && l'.waiters == [w, Processor]
    ensures l'.s == l.s.(feed := l'.s.feed, pool := l'.s.pool, queue := l'.s.queue, history := l'.s.history,
                         worker := l.s.worker.(loc := Submitting, doneBound := true),
                         gate := l.s.gate.(lock := Free))
    ensures l'.s.history == l.s.history.(puts := l'.s.history.puts)
    ensures |l'.s.pool.running| == |l.s.pool.running| - 1 && l'.s.pool.running.Keys <= l.s.pool.running.Keys
    ensures x in l'.s.pool.running && l'.s.pool.running[x] == l.s.pool.running[x]
    ensures l'.s.pool.finished == 0 && l'.s.pool.cancelQueue == l.s.pool.cancelQueue
    ensures |l'.s.queue| == |l.s.queue| + 1 && l.s.queue <= l'.s.queue
  {
    hide Goes, Valid, Reachable, Safe, FeederRests, ShouldPause;
    var y := AnotherTask(l.s.pool.running, x);
    var v;
    l', v := FinishTask(c, o, l, y);
    l' := Harvested(c, o, l');
    l' := Do(c, o, l', Suspend);
  }

  // The update goes ahead of z and does not count it.
  lemma {:induction false} SlipsPast(c: Config) returns (l: Loop, x: nat)
    requires Valid(c) && Roomy(c) && FedTotal(c) > PerVersion(c) + c.maxRequired && !c.partial
    ensures Goes(c, Start(c), l) && Working(c, l) && !l.s.gate.cancelling
    ensures x in l.s.pool.running && l.s.pool.running[x] == Finished(c.startVersion)
    ensures |l.s.pool.running| == c.maxConcurrent
    ensures l.s.ver == Version(c.maxConcurrent + |l.s.queue| - 1, c.startVersion + 1, ResumeRequested)
    ensures Fresh(l.s.trainer) && l.s.trainer.version == c.startVersion + 1 && l.s.history.dropped == []
    ensures |l.s.history.consumed| == PerVersion(c)
    ensures |l.s.queue| == Max(c.maxConcurrent, PerVersion(c)) - PerVersion(c) + 1
  {
    hide Goes, FedTotal, PerVersion, Roomy, Valid, Reachable, Safe, FeederRests;
    RoomyFacts(c);
    var o := Start(c);
    var z;
    l, x, z := OldVersion(c);
    l := StepsAside(c, o, l, x, Update);
    GoesFacts(c, o, l);
    l := Handed(c, o, l);
    l := Renews(c, o, l);
    l := Resumed(c, o, l);
    l := SubmitNow(c, o, l, z);
  }

  lemma {:induction false} BackToWork(c: Config) returns (l: Loop, x: nat)
    requires Valid(c) && Roomy(c) && FedTotal(c) > PerVersion(c) + c.maxRequired && !c.partial
    ensures Goes(c, Start(c), l) && Working(c, l)
    ensures x in l.s.pool.running && l.s.pool.running[x] == Finished(c.startVersion)
    ensures |l.s.pool.running| == c.maxConcurrent
    ensures l.s.ver == Version(c.maxConcurrent + |l.s.queue| - 1, c.startVersion + 1, Idle)
    ensures Fresh(l.s.trainer) && l.s.trainer.version == c.startVersion + 1 && l.s.history.dropped == []
    ensures |l.s.history.consumed| == PerVersion(c)
    ensures |l.s.queue| == Max(c.maxConcurrent, PerVersion(c)) - PerVersion(c) + 2
  {
    hide Goes, FedTotal, PerVersion, Roomy, Valid, Reachable, Safe, FeederRests;
    RoomyFacts(c);
    var o := Start(c);
    var w;
    l, x := SlipsPast(c);
    GoesFacts(c, o, l);
    var m;
    m, w := HoldSlot(c, l);
    Onward(c, o, l, m);
    m := Called(c, o, m, Resume);
    m := StepsAside(c, o, m, x, Resume);
    GoesFacts(c, o, m);
    l := Handed(c, o, m);
    l := Resumed(c, o, l);
    l := SubmitNow(c, o, l, w);
  }

  // All others complete, a version is consumed, and x is put just before the next pause.
  lemma {:induction false} PutsLast(c: Config) returns (l: Loop, x: nat)
    requires Valid(c) && Roomy(c) && FedTotal(c) > PerVersion(c) + c.maxRequired && !c.partial
    ensures Goes(c, Start(c), l) && Station(c, l) && l.s.trainer.version == c.startVersion + 2
    ensures |l.s.queue| == c.maxRequired - PerVersion(c) + 1
    ensures l.s.queue[c.maxRequired - PerVersion(c)] == Rollout(x, c.startVersion)
    ensures |l.s.history.consumed| == 2 * PerVersion(c)
  {
    hide Goes, FedTotal, PerVersion, Roomy, Valid, Reachable, Safe, FeederRests, Consumes;
    RoomyFacts(c);
    var o, k := Start(c), PerVersion(c);
    var v;
    l, x := BackToWork(c);
    GoesFacts(c, o, l);
    var m := PushMany(c, l, c.maxRequired - l.s.ver.staleness, x);
    Onward(c, o, l, m);
    GoesFacts(c, o, m);
    var h := HoldPause(c, m);
    Onward(c, o, m, h);
    h := FinishMany(c, o, h, |h.s.pool.running| - 1, x);
    var t := TrainAll(c, o, h);
    ConsumedFacts(h.s, t.s, k);
    t, v := FinishTask(c, o, t, x);
    NoKeys(t.s.pool.running);
    l := DrainedSync(c, o, t);
  }

  // asyncio admits a run that trains on a sample 2 + ceil(threshold) versions old.
  lemma {:induction false} OldRun(c: Config) returns (s: State, k: nat)
    requires Valid(c) && Roomy(c) && CanBeOld(c)
    ensures Admitted(c, s) && k < |s.history.trained| && |s.history.trained[k].batch| > 0
    ensures s.history.trained[k].batch[0].Rollout? && Age(s, k, 0) == 2 + Ceil(c.threshold)
  {
    hide Goes, FedTotal, PerVersion, Valid, Reachable, Admitted, Station, Consumes;
    RoomyFacts(c);
    RequiredIs(c);
    var o, h := Start(c), Ceil(c.threshold);
    var l, x := PutsLast(c);
    GoesFacts(c, o, l);
    var m := Rounds(c, l, h, c.maxRequired - PerVersion(c), Rollout(x, c.startVersion));
    Onward(c, o, l, m);
    LastBatch(c, m, 2 * PerVersion(c) + h * PerVersion(c));
    k := |m.s.history.trained|;
    var b := Batch(c, o, m);
    GoesAdmits(c, b);
    s := b.s;
  }

  lemma {:induction false} RequiredIs(c: Config)
    requires Valid(c)
    ensures c.required >= 1 && c.required <= PerVersion(c)
  {
    assert c.required * c.trigger >= c.required by { Monotone(1, c.trigger, c.required); }
  }

  // There are enough samples for the batch that begins with x.
  lemma {:induction false} LastBatch(c: Config, l: Loop, n: int)
    requires Station(c, l) && |l.s.history.consumed| == n && FedTotal(c) >= n + c.required
    requires Alive(c, l) ==> |l.s.queue| >= c.required
    ensures |l.s.queue| >= c.required && l.s.trainer.phase.Collecting? && !l.s.gate.closed
    ensures l.s.trainer.collected == []
  {}

  // Some run asyncio admits trains on a sample older than 1 + ceil(threshold) if and only if rollouts
  // are not partial and there is data for 2 + ceil(threshold) versions and one batch more.
  lemma {:induction false} OldIff(c: Config)
    requires Valid(c) && Roomy(c)
    ensures (exists s, k: nat, j: nat :: Admitted(c, s) && TooOld(c, s, k, j))
       <==> !c.partial && FedTotal(c) >= PerVersion(c) * (2 + Ceil(c.threshold)) + c.required
  {
    hide Reachable, Admitted, FedTotal, PerVersion;
    RoomyFacts(c);
    if CanBeOld(c) {
      var s, k := OldRun(c);
      assert TooOld(c, s, k, 0);
    } else {
      forall s, k: nat, j: nat | Admitted(c, s) ensures !TooOld(c, s, k, j) {
        AdmittedIsReachable(c, s);
        if TooOld(c, s, k, j) { OldOnlyIf(c, s, k, j); }
      }
    }
  }

  // Sample j of batch k was more than 1 + ceil(threshold) versions old when it was trained on.
  ghost predicate TooOld(c: Config, s: State, k: nat, j: nat) {
    && k < |s.history.trained| && j < |s.history.trained[k].batch|
    && s.history.trained[k].batch[j].Rollout? && Age(s, k, j) > 1 + Ceil(c.threshold)
  }
}
