// Runs that lose a sample, and with AsyncLimits the exact configurations that have one.
module AsyncDrops {
  import opened Arithmetic
  import opened QueueItems
  import opened AsyncProtocol
  import opened AsyncSafety
  import opened AsyncEnd
  import opened AsyncLimits
  import opened AsyncLoop
  import opened AsyncPlay

  // The processor waits for the lock with a sample in hand; a pause has just ended.
  predicate Stranded(c: Config, l: Loop, id: nat) {
    && !l.going && l.ready == [Hand] && l.waiters == [Processor] && l.s.gate.lock.Free? && l.s.gate.paused
    && !l.s.gate.closed
    && l.s.worker.loc.Submitting? && l.s.worker.hand == [id]
    && l.s.pool.running == map[] && l.s.pool.finished == 0 && l.s.pool.cancelQueue == []
    && l.s.trainer.phase == Copying(false) && |l.s.queue| < c.maxRequired && l.s.history.dropped == []
  }

  // The reset then misses that sample.
  lemma {:induction false} Missed(c: Config, o: Loop, l: Loop, id: nat) returns (l': Loop)
    requires Goes(c, o, l) && Stranded(c, l, id) && c.maxConcurrent >= 2
    ensures Goes(c, o, l') && Working(c, l') && l'.s.history.dropped == []
    ensures l'.s.queue == l.s.queue && l'.s.history.consumed == l.s.history.consumed
    ensures l'.s.pool.running == map[id := Generating] && l'.s.ver.staleness == |l.s.queue|
  {
    hide Goes;
    l' := WaitsOn(c, o, l);
    l' := Broadcast(c, o, l');
    l' := Woken(c, o, l');
    l' := SubmitNow(c, o, l', id);
  }

  // So that one sample too many gets out, and one is dropped when all have completed.
  lemma {:induction false} LoseOne(c: Config, o: Loop, l: Loop, id: nat) returns (l': Loop)
    requires Goes(c, o, l) && Stranded(c, l, id) && c.maxConcurrent >= 2
    requires |l.s.history.consumed| + c.maxRequired < FedTotal(c)
    ensures Goes(c, o, l') && !l'.s.gate.closed && l'.s.history.dropped != []
  {
    hide Goes, FedTotal;
    var m := Missed(c, o, l, id);
    GoesFacts(c, o, m);
    var n := c.maxRequired - |m.s.queue|;
    OneGenerating(id);
    l' := PushMany(c, m, n, id);
    Onward(c, o, m, l');
    GoesFacts(c, o, l');
    var h := HoldPause(c, l');
    Onward(c, o, l', h);
    l' := FinishMany(c, o, h, |h.s.pool.running| - 1, id);
    l' := Overflow(c, o, l', id);
  }

  lemma {:induction false} Overflow(c: Config, o: Loop, l: Loop, id: nat) returns (l': Loop)
    requires Goes(c, o, l) && AtRest(l) && !l.s.gate.closed && |l.s.queue| == c.maxRequired
    requires id in l.s.pool.running && l.s.pool.running[id].Generating? && !l.s.Refuses()
    ensures Goes(c, o, l') && !l'.s.gate.closed && l'.s.history.dropped != []
  {
    hide Goes;
    GoesFacts(c, o, l);
    l' := Replied(c, o, l, OfTask(Generate(id)));
    l' := Do(c, o, l', Remote(OfTask(PutSample(id))));
  }

  // asyncio admits a run that drops if the slots are fewer than max_required_samples.
  lemma {:induction false} DropRun(c: Config) returns (s: State)
    requires Valid(c) && CanLose(c) && c.servers * 16 < c.maxRequired
    ensures Admitted(c, s) && !s.gate.closed && s.history.dropped != []
  {
    hide Goes, Admitted, FedTotal, PerVersion;
    CoversVersion(c);
    var o := Start(c);
    var l, id := Opening(c);
    GoesFacts(c, o, l);
    var q := |l.s.pool.running|;
    l := Do(c, o, l, Remote(OfTrainer(SyncBegin)));
    l := Called(c, o, l, Pause);
    l := PauseOver(c, o, l, id, []);
    l := LoseOne(c, o, l, id);
    GoesAdmits(c, l);
    s := l.s;
  }

  // With a slot for every sample that may be outstanding, the run has the processor resume from a
  // queue that is not empty only after the pause has begun; asyncio would resume it at once.
  lemma {:induction false} SlowRun(c: Config) returns (s: State)
    requires Valid(c) && CanLose(c) && c.servers * 16 >= c.maxRequired
    ensures Reachable(c, s) && !s.gate.closed && s.history.dropped != []
  {
    hide Goes, FedTotal, PerVersion, Reachable;
    CoversVersion(c);
    var l := Behind(c);
    l := Late(c, l);
    Here(c, l);
    var l' := LoseOne(c, l, l, l.s.worker.hand[0]);
    GoesFacts(c, l, l');
    s := l'.s;
  }

  // One version is consumed while the processor rests at the pending queue; the pause begins.
  lemma {:induction false} Behind(c: Config) returns (l: Loop)
    requires Valid(c) && 2 <= c.maxConcurrent == c.maxRequired && 1 <= PerVersion(c) < c.maxRequired
    requires PerVersion(c) < FedTotal(c)
    ensures Reachable(c, l.s) && AtRest(l) && l.waiters == []
    ensures l.s.worker.loc.AwaitPending? && l.s.worker.hand == [] && l.s.pool.cancelQueue == []
    ensures l.s.gate.lock.ByPause? && l.s.gate.paused && !l.s.gate.closed
    ensures l.s.trainer.phase == Pausing(false) && l.s.pool.running == map[]
    ensures l.s.pool.finished < c.maxConcurrent
    ensures l.s.queue == [] && l.s.history.dropped == [] && |l.s.history.consumed| == PerVersion(c)
  {
    hide Goes, FedTotal, PerVersion, Consumes, Valid, Reachable, Safe;
    var o, k := Start(c), PerVersion(c);
    var f := FirstTurn(c);
    GoesFacts(c, o, f);
    var m := PushMany(c, f, k, -1);
    Onward(c, o, f, m);
    GoesFacts(c, o, m);
    m := Do(c, o, m, Go(Look));
    GoesFacts(c, o, m);
    var r := Loop(m.s, false, [], []);
    Here(c, r);
    l := NoneAtZero(c, r, k);
    var t := TrainAll(c, r, l);
    ConsumedFacts(l.s, t.s, k);
    GoesFacts(c, r, t);
    l := Do(c, r, t, Remote(OfTrainer(SyncBegin)));
    l := Called(c, r, l, Pause);
    GoesFacts(c, r, l);
  }

  lemma {:induction false} NoneAtZero(c: Config, o: Loop, k: nat) returns (l: Loop)
    requires Goes(c, o, o) && AtRest(o) && |o.s.pool.running| == k && |o.s.queue| + k <= c.maxRequired
    requires !o.s.Refuses()
    ensures Goes(c, o, l) && l == o.(s := o.s.(pool := l.s.pool, queue := l.s.queue, history := l.s.history))
    ensures l.s.pool == Pool(map[], o.s.pool.finished + k, o.s.pool.cancelQueue)
    ensures |l.s.queue| == |o.s.queue| + k && l.s.history == o.s.history.(puts := l.s.history.puts)
  {
    hide Goes;
    l := FinishMany(c, o, o, k, -1);
    NoKeys(l.s.pool.running);
  }

  // Now the processor takes a sample, and the pause ends.
  lemma {:induction false} Late(c: Config, l: Loop) returns (l': Loop)
    requires Reachable(c, l.s) && AtRest(l) && l.waiters == [] && c.maxConcurrent >= 1
    requires l.s.worker.loc.AwaitPending? && l.s.worker.hand == [] && l.s.pool.cancelQueue == []
    requires l.s.gate.lock.ByPause? && l.s.gate.paused && !l.s.gate.closed
    requires l.s.trainer.phase == Pausing(false) && l.s.pool.running == map[]
    requires l.s.pool.finished < c.maxConcurrent
    requires l.s.queue == [] && l.s.history.dropped == [] && |l.s.history.consumed| < FedTotal(c)
    ensures Reachable(c, l'.s) && l'.s.worker.hand != [] && Stranded(c, l', l'.s.worker.hand[0])
    ensures l'.s.history.consumed == l.s.history.consumed
  {
    hide Goes, FedTotal, Valid, Reachable, Safe, FeederRests;
    var m := LateFed(c, l);
    var r := Loop(m.s, true, [], []);
    Here(c, r);
    l' := LateTakes(c, r);
    GoesFacts(c, r, l');
  }

  lemma {:induction false} LateFed(c: Config, l: Loop) returns (l': Loop)
    requires Reachable(c, l.s) && AtRest(l) && l.s.worker.loc.AwaitPending? && !l.s.gate.closed
    requires l.s.worker.hand == [] && l.s.pool.cancelQueue == [] && Used(l.s) < FedTotal(c)
    ensures Reachable(c, l'.s) && l'.s == l.s.(feed := l'.s.feed)
    ensures l'.s.feed.pending != [] && l'.s.feed.pending[0].Rollout?
  {
    hide Goes, FedTotal, Valid, Reachable, Safe, FeederRests, Used;
    l' := l;
    if l.s.feed.pending == [] {
      if FeederRests(c, l.s) { Supply(c, l.s); }
      l' := FeederWakes(c, l);
      GoesFacts(c, l, l');
      UsedSame(c, l.s, l'.s);
    }
    Supply(c, l'.s);
  }

  lemma {:induction false} LateTakes(c: Config, l: Loop) returns (l': Loop)
    requires Goes(c, l, l) && l.going && l.ready == [] && l.waiters == [] && c.maxConcurrent >= 1
    requires l.s.worker.loc.AwaitPending? && l.s.worker.hand == [] && l.s.pool.cancelQueue == []
    requires l.s.gate.lock.ByPause? && l.s.gate.paused && !l.s.gate.closed
    requires l.s.trainer.phase == Pausing(false) && l.s.pool.running == map[]
    requires l.s.pool.finished < c.maxConcurrent && l.s.queue == [] && l.s.history.dropped == []
    requires l.s.feed.pending != [] && l.s.feed.pending[0].Rollout?
    ensures Goes(c, l, l') && l'.s.worker.hand != [] && Stranded(c, l', l'.s.worker.hand[0])
    ensures l'.s.history.consumed == l.s.history.consumed
  {
    hide Goes, FedTotal, Valid, Reachable, Safe, FeederRests, ShouldPause;
    GoesFacts(c, l, l);
    l' := Do(c, l, l, Go(TakePending));
    l' := Do(c, l, l', Go(DrainTest));
    l' := Do(c, l, l', Suspend);
    l' := PauseEnds(c, l, l');
  }

  // put_sample can drop something before the final None exactly under the configurations CanLose
  // describes: there is a server, more samples can be outstanding than one version consumes, and
  // there is data for one version and one sample more than can be outstanding.
  lemma {:induction false} DropIff(c: Config)
    requires Valid(c)
    ensures (exists s :: Reachable(c, s) && !s.gate.closed && s.history.dropped != []) <==> CanLose(c)
  {
    hide Reachable, CanLose, Admitted;
    if CanLose(c) {
      if c.servers * 16 < c.maxRequired {
        var s := DropRun(c);
        AdmittedIsReachable(c, s);
      } else {
        var s := SlowRun(c);
      }
    } else {
      forall s | Reachable(c, s) && !s.gate.closed ensures s.history.dropped == [] {
        if s.history.dropped != [] { DropsOnlyIf(c, s); }
      }
    }
  }
}
