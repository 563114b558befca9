// Dropping runs under asyncio when there is a slot for every sample that may be outstanding.
module AsyncSlots {
  import opened Arithmetic
  import opened QueueItems
  import opened AsyncProtocol
  import opened AsyncSafety
  import opened AsyncEnd
  import opened AsyncLimits
  import opened AsyncLoop
  import opened AsyncPlay
  import opened AsyncDrops

  // ---- the trainer, one sample after another ----

  // In the middle of a version, with p samples of it consumed.
  predicate InVersion(c: Config, t: Trainer, p: int) {
    && t.phase.Collecting? && 1 <= t.localStep <= c.trigger && |t.collected| < c.required
    && p == (t.localStep - 1) * c.required + |t.collected|
  }

  predicate Synching(t: Trainer) {
    t.phase == AwaitLast(false) && t.localStep == 1 && t.collected == []
  }

  // Where n more samples bring it.
  predicate Trained(c: Config, t: Trainer, t': Trainer, p: int) {
    && t'.copied == t.copied
    && (if p < PerVersion(c) then InVersion(c, t', p) && t'.version == t.version
        else Synching(t') && t'.version == t.version + 1)
  }

  predicate Ate(s: State, s': State, n: nat) {
    && n <= |s.queue| && s' == s.(queue := s.queue[n..], trainer := s'.trainer, history := s'.history)
    && s'.history == s.history.(consumed := s.history.consumed + s.queue[..n], trained := s'.history.trained)
  }

  lemma {:induction false} AteMore(s: State, m: State, s': State, n: nat, k: nat)
    requires Ate(s, m, n) && Ate(m, s', k)
    ensures Ate(s, s', n + k)
  {
    var q := s.queue;
    assert q[n..][k..] == q[n + k..];
    assert q[..n] + q[n..][..k] == q[..n + k];
    assert s.history.consumed + q[..n] + q[n..][..k] == s.history.consumed + q[..n + k];
  }

  lemma {:induction false} VersionEnds(c: Config, t: Trainer, p: int)
    requires c.required >= 1 && InVersion(c, t, p)
    ensures p < PerVersion(c) && t.localStep * c.required == (t.localStep - 1) * c.required + c.required
    ensures p + 1 == PerVersion(c) <==> t.localStep == c.trigger && |t.collected| + 1 == c.required
  {
    Monotone(t.localStep, c.trigger, c.required);
    assert c.trigger * c.required == PerVersion(c);
    if t.localStep < c.trigger { Monotone(t.localStep + 1, c.trigger, c.required); }
    assert (t.localStep + 1) * c.required == t.localStep * c.required + c.required;
  }

  lemma {:induction false} EatOne(c: Config, o: Loop, l: Loop, p: int) returns (l': Loop)
    requires Goes(c, o, l) && InVersion(c, l.s.trainer, p) && l.s.queue != [] && !l.s.gate.closed
    ensures Goes(c, o, l') && l' == l.(s := l'.s) && Ate(l.s, l'.s, 1)
    ensures Trained(c, l.s.trainer, l'.s.trainer, p + 1)
  {
    hide Goes, PerVersion;
    GoesFacts(c, o, l);
    VersionEnds(c, l.s.trainer, p);
    l' := GetMany(c, o, l, 1);
    if |l'.s.trainer.collected| == c.required {
      l' := Do(c, o, l', Remote(OfTrainer(Train)));
    }
  }

  lemma {:induction false} Eat(c: Config, o: Loop, l: Loop, p: int, n: nat) returns (l': Loop)
    requires Goes(c, o, l) && InVersion(c, l.s.trainer, p) && !l.s.gate.closed
    requires n <= |l.s.queue| && p + n <= PerVersion(c)
    ensures Goes(c, o, l') && l' == l.(s := l'.s) && Ate(l.s, l'.s, n)
    ensures Trained(c, l.s.trainer, l'.s.trainer, p + n)
    decreases n
  {
    hide Goes, PerVersion, InVersion, Ate;
    GoesFacts(c, o, l);
    VersionEnds(c, l.s.trainer, p);
    l' := l;
    if n == 0 {
      AteNothing(l.s);
    } else {
      var m := EatOne(c, o, l, p);
      AteFacts(l.s, m.s, 1);
      if n == 1 {
        l' := m;
      } else {
        l' := Eat(c, o, m, p + 1, n - 1);
        AteMore(l.s, m.s, l'.s, 1, n - 1);
      }
    }
  }

  lemma {:induction false} AteNothing(s: State)
    ensures Ate(s, s, 0)
  {
    assert s.queue[0..] == s.queue && s.history.consumed + s.queue[..0] == s.history.consumed;
  }

  lemma {:induction false} AteFacts(s: State, s': State, n: nat)
    requires Ate(s, s', n)
    ensures s'.queue == s.queue[n..] && s'.gate == s.gate && s'.worker == s.worker && s'.pool == s.pool
    ensures s'.ver == s.ver && s'.feed == s.feed && s'.history.dropped == s.history.dropped
    ensures |s'.history.consumed| == |s.history.consumed| + n
  {}

  // ---- a version with all slots ----

  // What is left over from one version to the next grows by this much.
  function Gain(c: Config): int { c.maxRequired - PerVersion(c) }

  // The processor is about to work; everything put so far has been consumed, `a` of it for this version.
  predicate Clear(c: Config, l: Loop, a: int) {
    && Working(c, l) && l.s.pool.running == map[] && l.s.queue == [] && l.s.ver.staleness == 0
    && l.s.ver.update.Idle? && InVersion(c, l.s.trainer, a) && l.s.history.dropped == []
  }

  // It sleeps through a sync; n samples are queued.
  predicate Asleep(c: Config, l: Loop, n: int) {
    && AtRest(l) && Sleeping(l) && l.waiters == [] && l.s.gate.lock.Free? && l.s.gate.paused && !l.s.gate.closed
    && !l.s.gate.monitorTrigger && l.s.worker.loc.WaitResume? && l.s.worker.hand == []
    && l.s.pool == Pool(map[], 0, []) && l.s.trainer.phase == Copying(false) && l.s.history.dropped == []
    && l.s.trainer.localStep == 1 && l.s.trainer.collected == [] && |l.s.queue| == n
  }

  // All slots are used, and the version is completed.
  lemma {:induction false} FillsUp(c: Config, l: Loop, a: nat) returns (l': Loop)
    requires Reachable(c, l.s) && Clear(c, l, a) && c.maxConcurrent == c.maxRequired && a < PerVersion(c)
    requires |l.s.history.consumed| + c.maxRequired <= FedTotal(c) && PerVersion(c) <= c.maxRequired
    ensures Goes(c, l, l') && Asleep(c, l', a + Gain(c))
    ensures |l'.s.history.consumed| == |l.s.history.consumed| + PerVersion(c) - a
  {
    hide Goes, FedTotal, PerVersion, Valid, Reachable, Safe, Ate, InVersion;
    var m := PushMany(c, l, c.maxRequired, -1);
    GoesFacts(c, l, m);
    var h := HoldPause(c, m);
    Onward(c, l, m, h);
    h := FinishMany(c, l, h, |h.s.pool.running|, -1);
    NoKeys(h.s.pool.running);
    var e := Eat(c, l, h, a, PerVersion(c) - a);
    AteFacts(h.s, e.s, PerVersion(c) - a);
    l' := DrainedPause(c, l, e);
    l' := WaitsOn(c, l, l');
  }

  lemma {:induction false} FreshVersion(c: Config, t: Trainer)
    requires c.required >= 1 && c.trigger >= 1 && Fresh(t)
    ensures InVersion(c, t, 0)
  {}

  // The trainer consumes what is left over before the counter is reset.
  lemma {:induction false} EatsAhead(c: Config, o: Loop, l: Loop, n: nat) returns (l': Loop)
    requires Goes(c, o, l) && Asleep(c, l, n) && n < PerVersion(c) && c.maxConcurrent >= 2
    ensures Goes(c, o, l') && Clear(c, l', n)
    ensures |l'.s.history.consumed| == |l.s.history.consumed| + n
  {
    hide Goes, PerVersion, Valid, Reachable, Safe, Ate, InVersion, FeederRests;
    var m := Copied(c, o, l);
    FreshVersion(c, m.s.trainer) by { GoesFacts(c, o, m); }
    var e := Eat(c, o, m, 0, n);
    AteFacts(m.s, e.s, n);
    l' := Called(c, o, e, Update) by { GoesFacts(c, o, e); }
    GoesFacts(c, o, e);
    l' := Renews(c, o, l');
    l' := Resumes(c, o, l');
    l' := WokenUp(c, o, l');
  }

  lemma {:induction false} Copied(c: Config, o: Loop, l: Loop) returns (l': Loop)
    requires Goes(c, o, l) && l.s.trainer.phase == Copying(false)
    ensures Goes(c, o, l')
    ensures l' == l.(s := l.s.(
      ver := l.s.ver.(update := Requested(l.s.trainer.version)),
      trainer := l.s.trainer.(copied := l.s.trainer.version, globalSteps := l.s.trainer.globalSteps + 1,
                              phase := Collecting)))
  {
    hide Goes, Safe, Valid, Reachable;
    GoesFacts(c, o, l);
    l' := Do(c, o, l, Remote(OfTrainer(CopyWeights)));
  }

  // ---- the processor with a sample in hand behind the next pause ----

  // The whole next version is consumed during the sync.
  lemma {:induction false} EatsVersion(c: Config, o: Loop, l: Loop, n: nat) returns (l': Loop)
    requires Goes(c, o, l) && Asleep(c, l, n) && 1 <= PerVersion(c) <= n
    ensures Goes(c, o, l') && l'.s == l.s.(queue := l'.s.queue, trainer := l'.s.trainer, history := l'.s.history,
                                           ver := l.s.ver.(update := Requested(l.s.trainer.version)))
    ensures l' == l.(s := l'.s) && |l'.s.queue| == n - PerVersion(c) && Synching(l'.s.trainer)
    ensures l'.s.history.dropped == [] && |l'.s.history.consumed| == |l.s.history.consumed| + PerVersion(c)
  {
    hide Goes, PerVersion, Valid, Reachable, Safe, Ate, InVersion, FeederRests;
    var m := Copied(c, o, l);
    FreshVersion(c, m.s.trainer) by { GoesFacts(c, o, m); }
    l' := Eat(c, o, m, 0, PerVersion(c));
    AteFacts(m.s, l'.s, PerVersion(c));
    AteRest(m.s, l'.s, PerVersion(c));
  }

  lemma {:induction false} AteRest(s: State, s': State, n: nat)
    requires Ate(s, s', n)
    ensures s' == s.(queue := s'.queue, trainer := s'.trainer, history := s'.history)
  {}

  // The update; and while the resume waits for the servers, the monitor comes by.
  lemma {:induction false} MonitorBehind(c: Config, o: Loop, l: Loop, n: nat) returns (l': Loop)
    requires Goes(c, o, l) && AtRest(l) && Sleeping(l) && l.waiters == [] && l.s.gate.lock.Free? && c.partial
    requires l.s.ver.update.Requested? && !l.s.gate.monitorTrigger && l.s.worker.loc.WaitResume?
    ensures Goes(c, o, l') && !l'.going && l'.ready == [Notice, Hand] && l'.waiters == [Check]
    ensures l'.s == l.s.(ver := l'.s.ver, history := l'.s.history,
      gate := l.s.gate.(paused := false, monitorTrigger := true, cancelling := false))
    ensures l'.s.ver == Version(l.s.Active() + |l.s.pool.cancelQueue| + |l.s.queue|, l.s.ver.update.version, Idle)
    ensures l'.s.history.dropped == l.s.history.dropped && l'.s.history.consumed == l.s.history.consumed
  {
    hide Goes, Valid, Reachable, Safe, FeederRests, ShouldPause;
    GoesFacts(c, o, l);
    l' := Called(c, o, l, Update);
    l' := Renews(c, o, l');
    l' := Called(c, o, l', Resume);
    l' := Ticks(c, o, l');
    l' := Replied(c, o, l', OfUpdate(ResumeEnd));
  }

  // The processor queues behind the monitor, and the next pause behind the processor.
  lemma {:induction false} PauseBehind(c: Config, o: Loop, l: Loop) returns (l': Loop)
    requires Goes(c, o, l) && !l.going && l.ready == [Notice, Hand] && l.waiters == [Check]
    requires l.s.gate.lock.Free? && l.s.worker.loc.WaitResume? && l.s.ver.update.Idle?
    requires l.s.trainer.phase == AwaitLast(false)
    ensures Goes(c, o, l') && !l'.going && l'.ready == [Hand] && l'.waiters == [Processor, Pause]
    ensures l'.s == l.s.(feed := l'.s.feed, trainer := l.s.trainer.(phase := PauseRequested(false)))
  {
    hide Goes, Valid, Reachable, Safe, FeederRests, ShouldPause;
    l' := Resumed(c, o, l);
    GoesFacts(c, o, l');
    l' := Do(c, o, l', Suspend);
    l' := Do(c, o, l', Remote(OfTrainer(SyncBegin)));
    l' := Do(c, o, l', Arrive(Call(Pause)));
    l' := Handed(c, o, l');
    l' := Do(c, o, l', Run);
  }

  // It wakes, takes a sample and has to let the pause go first.
  lemma {:induction false} TakesBefore(c: Config, o: Loop, l: Loop) returns (l': Loop, id: nat)
    requires Goes(c, o, l) && !l.going && l.ready == [Hand] && l.waiters == [Processor, Pause]
    requires l.s.gate.lock.Free? && !l.s.gate.paused && !l.s.gate.closed && l.s.worker.loc.WaitResume?
    requires l.s.worker.hand == [] && l.s.pool == Pool(map[], 0, []) && !ShouldPause(c, l.s)
    requires Used(l.s) < FedTotal(c) && c.maxConcurrent >= 1
    ensures Goes(c, o, l') && !l'.going && l'.ready == [Hand] && l'.waiters == [Pause, Processor]
    ensures l'.s == l.s.(feed := l'.s.feed, worker := l.s.worker.(loc := Submitting, hand := [id]),
                         ver := l.s.ver.(staleness := l.s.ver.staleness + 1))
  {
    hide Goes, Valid, Reachable, Safe, FeederRests, ShouldPause, FedTotal, Used;
    var r := Resumed(c, o, l);
    GoesFacts(c, o, r);
    var m := Do(c, o, r, Go(Wake));
    GoesFacts(c, o, m);
    RestsSame(c, r.s, m.s);
    UsedSame(c, l.s, m.s);
    PauseSame(c, l.s, m.s);
    l', id := TakeAhead(c, m);
    Onward(c, o, m, l');
    l' := Do(c, o, l', Go(DrainTest));
    l' := Do(c, o, l', Suspend);
  }

  lemma {:induction false} PauseSame(c: Config, s: State, s': State)
    requires s'.queue == s.queue && s'.ver == s.ver
    ensures ShouldPause(c, s') == ShouldPause(c, s)
  {}

  lemma {:induction false} Strands(c: Config, o: Loop, l: Loop, n: nat) returns (l': Loop, id: nat)
    requires Goes(c, o, l) && Asleep(c, l, n) && 1 <= PerVersion(c) <= n < PerVersion(c) + c.maxRequired
    requires c.partial && c.maxConcurrent >= 1
    requires |l.s.history.consumed| + n < FedTotal(c)
    ensures Goes(c, o, l') && Stranded(c, l', id)
    ensures |l'.s.history.consumed| == |l.s.history.consumed| + PerVersion(c)
  {
    hide Goes, PerVersion, Valid, Reachable, Safe, FeederRests, FedTotal;
    l' := EatsVersion(c, o, l, n);
    l' := MonitorBehind(c, o, l', n);
    l' := PauseBehind(c, o, l');
    l', id := TakesBefore(c, o, l');
    GoesFacts(c, o, l');
    l' := Handed(c, o, l');
    l' := PauseEnds(c, o, l');
  }

  // ---- the run ----

  // How many versions it takes until a whole one is left over.
  function Lead(c: Config): nat
    requires 1 <= PerVersion(c) < c.maxRequired
  {
    (c.maxRequired - 1) / Gain(c)
  }

  lemma {:induction false} LeadIs(c: Config, n: int)
    requires 1 <= PerVersion(c) < c.maxRequired
    ensures Lead(c) >= 1
    ensures n >= Lead(c) <==> n * Gain(c) >= PerVersion(c)
  {
    var g, k, q := Gain(c), PerVersion(c), Lead(c);
    assert c.maxRequired - 1 == q * g + (c.maxRequired - 1) % g;
    assert q * g >= k;
    assert (q - 1) * g == q * g - g < k;
    if n >= q {
      Monotone(0, n - q, g);
      assert n * g == q * g + (n - q) * g;
    } else {
      Monotone(0, q - 1 - n, g);
      assert (q - 1) * g == n * g + (q - 1 - n) * g;
    }
  }

  // Data for the versions up to that one, one more, and one sample more than can be outstanding.
  predicate EnoughData(c: Config)
    requires 1 <= PerVersion(c) < c.maxRequired
  {
    FedTotal(c) > (Lead(c) + 1) * PerVersion(c) + c.maxRequired
  }

  // v versions of it.
  lemma {:induction false} Leftover(c: Config, v: nat)
    requires 1 <= PerVersion(c) < c.maxRequired && EnoughData(c) && v < Lead(c)
    ensures 0 <= v * Gain(c) < PerVersion(c) && (v + 1) * Gain(c) == v * Gain(c) + Gain(c)
    ensures v * c.maxRequired + c.maxRequired <= FedTotal(c)
    ensures (v + 1) * c.maxRequired == v * c.maxRequired + c.maxRequired
    ensures v * c.maxRequired == v * PerVersion(c) + v * Gain(c)
    ensures v + 1 == Lead(c) ==>
      (v + 1) * PerVersion(c) + PerVersion(c) + c.maxRequired < FedTotal(c)
  {
    var k, g := PerVersion(c), Gain(c);
    hide FedTotal, PerVersion, Gain;
    LeadIs(c, v);
    GainIs(c);
    Monotone(0, v, g);
    Monotone(v + 1, Lead(c), k);
    assert c.maxRequired == k + g;
    assert v * c.maxRequired == v * k + v * g;
    assert (v + 1) * k == v * k + k;
    assert (Lead(c) + 1) * k == Lead(c) * k + k;
  }

  lemma {:induction false} GainIs(c: Config)
    ensures Gain(c) == c.maxRequired - PerVersion(c)
  {}

  lemma {:induction false} Climbs(c: Config, o: Loop, l: Loop, v: nat) returns (l': Loop)
    requires Goes(c, o, l) && 1 <= PerVersion(c) < c.maxRequired == c.maxConcurrent && c.partial && EnoughData(c)
    requires v < Lead(c) && Clear(c, l, v * Gain(c)) && |l.s.history.consumed| == v * c.maxRequired
    ensures Goes(c, o, l') && !l'.s.gate.closed && l'.s.history.dropped != []
    decreases Lead(c) - v
  {
    hide Goes, PerVersion, Valid, Reachable, FedTotal, Asleep, Clear, Lead, EnoughData, Stranded, Gain;
    Leftover(c, v);
    GainIs(c);
    GoesFacts(c, o, l);
    var n := v * Gain(c) + Gain(c);
    LeadIs(c, v + 1);
    var m := FillsUp(c, l, v * Gain(c));
    Onward(c, o, l, m);
    if v + 1 < Lead(c) {
      m := EatsAhead(c, o, m, n);
      l' := Climbs(c, o, m, v + 1);
    } else {
      var id;
      m, id := Strands(c, o, m, n);
      l' := LoseOne(c, o, m, id);
    }
  }

  // With partial rollouts and enough data asyncio admits a run that drops a sample, although there
  // is a slot for every sample that may be outstanding.
  lemma {:induction false} FullSlotRun(c: Config) returns (s: State)
    requires Valid(c) && 1 <= PerVersion(c) < c.maxRequired == c.maxConcurrent && c.partial && EnoughData(c)
    ensures Admitted(c, s) && !s.gate.closed && s.history.dropped != []
  {
    hide Goes, PerVersion, Reachable, FedTotal, Lead, EnoughData, Gain, Admitted;
    var o := Start(c);
    var l := FirstTurn(c);
    GoesFacts(c, o, l);
    FreshVersion(c, l.s.trainer);
    LeadIs(c, 0);
    l := Climbs(c, o, l, 0);
    GoesAdmits(c, l);
    s := l.s;
  }
}
