// Versions, batches and staleness over whole runs: batches are consecutive blocks of the
// consumed samples, versions advance once per trigger batches, and the age of every sample the
// trainer trains on is bounded.
module AsyncAge {
  import opened Arithmetic
  import opened QueueItems
  import opened AsyncProtocol
  import opened AsyncSafety

  // ---- versions count batches ----

  predicate InFinalSync(p: TrainerPhase) {
    (p.AwaitLast? || Syncing(p)) && p.final
  }

  predicate InRegularSync(p: TrainerPhase) {
    (p.AwaitLast? || Syncing(p)) && !p.final
  }

  ghost predicate VersionInv(c: Config, s: State)
    requires c.trigger >= 1
  {
    var t, n := s.trainer, |s.history.trained|;
    && t.copied == (if t.phase.AwaitLast? || Syncing(t.phase) then t.version - 1 else t.version)
    && s.ver.current == (if s.ver.update.Requested? then t.copied - 1 else t.copied)
    && (s.ver.update.Requested? ==> s.ver.update.version == t.copied)
    && t.localStep >= 1
    && (t.phase.Closing? ==> |t.collected| < c.required)
    && (t.phase.Collecting? || t.phase.Closing? ==>
          && t.version == c.startVersion + n / c.trigger
          && t.localStep == 1 + n % c.trigger
          && t.globalSteps == c.startVersion * c.trigger + n + 1)
    && (InRegularSync(t.phase) ==>
          && t.version == c.startVersion + n / c.trigger
          && n % c.trigger == 0 && t.localStep == 1 && t.collected == []
          && t.globalSteps == c.startVersion * c.trigger + n)
    && (InFinalSync(t.phase) ==> t.version == c.startVersion + n / c.trigger + 1)
    && (t.phase.Stopped? ==>
          t.version == c.startVersion + n / c.trigger || t.version == c.startVersion + n / c.trigger + 1)
  }

  lemma {:induction false} VersionTrain(c: Config, s: State)
    requires c.trigger >= 1 && VersionInv(c, s) && s.trainer.phase.Collecting?
    ensures VersionInv(c, DoTrain(c, s))
  {
    var n := |s.history.trained|;
    assert 0 <= n % c.trigger < c.trigger;
    NextQuotient(n, c.trigger);
  }

  lemma {:induction false} VersionTrainer(c: Config, s: State, a: TrainerAction)
    requires c.trigger >= 1 && LockInv(s) && VersionInv(c, s) && TrainerCan(c, s, a)
    ensures VersionInv(c, TrainerDo(c, s, a))
  {
    if a.Train? { VersionTrain(c, s); }
  }

  lemma {:induction false} VersionUpdate(c: Config, s: State, a: UpdateAction)
    requires c.trigger >= 1 && VersionInv(c, s) && UpdateCan(s, a)
    ensures VersionInv(c, UpdateDo(s, a))
  {}

  lemma {:induction false} VersionKept(c: Config, s: State, a: Action)
    requires c.maxRequired >= 1 && c.trigger >= 1
    requires LockInv(s) && VersionInv(c, s) && Enabled(c, s, a)
    ensures VersionInv(c, Apply(c, s, a))
  {
    match a
    case OfTrainer(n) => VersionTrainer(c, s, n);
    case OfUpdate(u) => VersionUpdate(c, s, u);
    case _ => TrainerUntouched(c, s, a);
  }

  lemma {:induction false} TrainerUntouched(c: Config, s: State, a: Action)
    requires c.maxRequired >= 1 && Enabled(c, s, a) && !a.OfTrainer? && !a.OfUpdate?
    ensures var s' := Apply(c, s, a);
      && s'.trainer == s.trainer && s'.history.trained == s.history.trained
      && s'.history.consumed == s.history.consumed
      && s'.ver.update == s.ver.update && s'.ver.current == s.ver.current
  {}

  // ---- batches are consecutive blocks of what was consumed ----

  ghost predicate IsBlock(c: Config, h: History, k: nat)
    requires c.required >= 1 && k < |h.trained|
  {
    && 0 <= k * c.required <= (k + 1) * c.required <= |h.consumed|
    && h.trained[k].batch == h.consumed[k * c.required..(k + 1) * c.required]
    && (c.trigger >= 1 ==> h.trained[k].version == c.startVersion + k / c.trigger)
    && (forall j :: 0 <= j < |h.trained[k].batch| ==>
          h.trained[k].batch[j].Rollout? ==> h.trained[k].batch[j].version <= h.trained[k].version)
  }

  ghost predicate BatchInv(c: Config, s: State)
    requires c.required >= 1
  {
    var h, n := s.history, |s.history.trained|;
    && |h.consumed| == n * c.required + |s.trainer.collected|
    && 0 <= n * c.required
    && s.trainer.collected == h.consumed[n * c.required..]
    && |s.trainer.collected| <= c.required
    && forall k :: 0 <= k < n ==> IsBlock(c, h, k)
  }

  lemma {:induction false} Blocks(k: nat, n: nat, r: int)
    requires r >= 1 && k < n
    ensures 0 <= k * r <= (k + 1) * r <= n * r
    ensures (k + 1) * r == k * r + r
  {
    assert (k + 1) * r <= n * r by { assert (n - (k + 1)) * r >= 0; }
  }

  lemma {:induction false} BatchGet(c: Config, s: State)
    requires c.required >= 1 && BatchInv(c, s) && TrainerCan(c, s, GetSample)
    ensures BatchInv(c, DoGet(s))
  {
    var h, h', n := s.history, DoGet(s).history, |s.history.trained|;
    forall k | 0 <= k < n ensures IsBlock(c, h', k) {
      assert IsBlock(c, h, k);
      assert h'.consumed[..|h.consumed|] == h.consumed;
    }
  }

  lemma {:induction false} BatchTrain(c: Config, s: State)
    requires c.required >= 1 && c.trigger >= 1
    requires BatchInv(c, s) && VersionInv(c, s) && NotAhead(s) && TrainerCan(c, s, Train)
    ensures BatchInv(c, DoTrain(c, s))
  {
    var h, h', n := s.history, DoTrain(c, s).history, |s.history.trained|;
    Blocks(n, n + 1, c.required);
    assert h.consumed[n * c.required..(n + 1) * c.required] == s.trainer.collected;
    forall k | 0 <= k < n + 1 ensures IsBlock(c, h', k) {
      if k < n { assert IsBlock(c, h, k); }
    }
  }

  lemma {:induction false} BatchKept(c: Config, s: State, a: Action)
    requires c.maxRequired >= 1 && c.required >= 1 && c.trigger >= 1
    requires BatchInv(c, s) && VersionInv(c, s) && NotAhead(s) && Enabled(c, s, a)
    ensures BatchInv(c, Apply(c, s, a))
  {
    match a
    case OfTrainer(GetSample) => BatchGet(c, s);
    case OfTrainer(Train) => BatchTrain(c, s);
    case _ =>
      BatchUntouched(c, s, a);
      var h, h' := s.history, Apply(c, s, a).history;
      forall k | 0 <= k < |h'.trained| ensures IsBlock(c, h', k) { assert IsBlock(c, h, k); }
  }

  lemma {:induction false} BatchUntouched(c: Config, s: State, a: Action)
    requires c.maxRequired >= 1 && Enabled(c, s, a)
    requires a != OfTrainer(GetSample) && a != OfTrainer(Train)
    ensures var s' := Apply(c, s, a);
      && s'.trainer.collected == s.trainer.collected && s'.history.trained == s.history.trained
      && s'.history.consumed == s.history.consumed
  {}

  // ---- how far behind a queued sample can be ----

  // The number of samples trained on at versions up to v.
  function Quota(c: Config, v: int): int {
    (v - c.startVersion + 1) * (c.required * c.trigger)
  }

  lemma {:induction false} QuotaMonotone(c: Config, v: int, w: int)
    requires c.required >= 1 && c.trigger >= 1 && v <= w
    ensures Quota(c, v) <= Quota(c, w)
    ensures Quota(c, v) + c.required * c.trigger == Quota(c, v + 1)
  {
    var p := c.required * c.trigger;
    assert p >= 0;
    assert (w - v) * p >= 0;
  }

  lemma {:induction false} ConsumedBound(c: Config, s: State)
    requires c.required >= 1 && c.trigger >= 1 && BatchInv(c, s) && VersionInv(c, s)
    ensures |s.history.consumed| <= Quota(c, s.trainer.copied)
  {
    var n, r, d := |s.history.trained|, c.required, c.trigger;
    var q := n / d;
    assert n == q * d + n % d && 0 <= n % d < d;
    BatchArithmetic(n, r, d);
    assert Quota(c, c.startVersion + q) == (q + 1) * (r * d);
    assert Quota(c, c.startVersion + q - 1) == q * (r * d);
    QuotaMonotone(c, c.startVersion + q, c.startVersion + q + 1);
  }

  lemma {:induction false} BatchArithmetic(n: nat, r: int, d: int)
    requires r >= 1 && d >= 1
    ensures (n / d) * (r * d) <= n * r
    ensures n * r + r <= (n / d + 1) * (r * d)
    ensures n % d == 0 ==> n * r == (n / d) * (r * d)
  {
    var q, m := n / d, n % d;
    assert n == q * d + m;
    Regroup(q, d, m, r);
    RemainderBound(m, d, r);
    assert (q + 1) * (r * d) == q * (r * d) + r * d;
  }

  // A sample put with version v never comes later in the consumption order than this.
  // `slack` is 0 as long as no sample can be generated with the old version after a pause.
  ghost predicate InTime(c: Config, x: Item, index: int, slack: int) {
    x.Rollout? ==> index < Quota(c, x.version + slack) + c.maxRequired
  }

  ghost predicate EntriesInTime(c: Config, s: State, slack: int) {
    && (forall i :: 0 <= i < |s.history.consumed| ==> InTime(c, s.history.consumed[i], i, slack))
    && (forall j :: 0 <= j < |s.queue| ==>
          InTime(c, s.queue[j], |s.history.consumed| + j, slack))
  }

  ghost predicate NotAhead(s: State) {
    && (forall i :: 0 <= i < |s.history.consumed| ==>
          s.history.consumed[i].Rollout? ==> s.history.consumed[i].version <= s.ver.current)
    && (forall j :: 0 <= j < |s.queue| ==>
          s.queue[j].Rollout? ==> s.queue[j].version <= s.ver.current)
  }

  // No sample can be generated with the old version between pause and resume: the monitor has not
  // written there, or the servers have been cancelled.
  predicate Clean(c: Config, s: State) { !s.history.strayed || c.partial }

  // The versions of finished tasks, and what holds between pause and resume.
  ghost predicate TaskInv(c: Config, s: State) {
    && (forall id :: id in s.pool.running && s.pool.running[id].Finished? ==>
          && s.trainer.copied - 1 <= s.pool.running[id].version <= s.ver.current
          && (s.trainer.phase.Copying? || Clean(c, s) ==> s.pool.running[id].version == s.trainer.copied)
          && !s.Refuses())
    && (!s.history.strayed && s.InWindow() ==> s.pool.running == map[] && s.gate.paused)
    && (s.trainer.phase.Pausing? ==> s.gate.paused && s.gate.cancelling == c.partial)
    && (c.partial && s.InWindow() ==> s.gate.cancelling)
  }

  lemma {:induction false} TaskProcessor(c: Config, s: State, a: ProcessorAction)
    requires TaskInv(c, s) && ProcessorCan(s, a)
    ensures TaskInv(c, ProcessorDo(c, s, a))
  {}

  lemma {:induction false} TaskTask(c: Config, s: State, a: TaskAction)
    requires c.maxRequired >= 1 && c.trigger >= 1
    requires LockInv(s) && VersionInv(c, s) && TaskInv(c, s) && TaskCan(s, a)
    ensures TaskInv(c, TaskDo(c, s, a))
  {}

  lemma {:induction false} TaskTrainer(c: Config, s: State, a: TrainerAction)
    requires c.trigger >= 1 && LockInv(s) && VersionInv(c, s) && TaskInv(c, s) && TrainerCan(c, s, a)
    ensures TaskInv(c, TrainerDo(c, s, a))
  {}

  lemma {:induction false} TaskUpdate(c: Config, s: State, a: UpdateAction)
    requires c.trigger >= 1 && LockInv(s) && VersionInv(c, s) && TaskInv(c, s) && UpdateCan(s, a)
    ensures TaskInv(c, UpdateDo(s, a))
  {}

  lemma {:induction false} TaskOther(c: Config, s: State, a: OtherAction)
    requires LockInv(s) && TaskInv(c, s) && OtherCan(c, s, a)
    ensures TaskInv(c, OtherDo(c, s, a))
  {}

  lemma {:induction false} TaskKept(c: Config, s: State, a: Action)
    requires c.maxRequired >= 1 && c.trigger >= 1
    requires LockInv(s) && VersionInv(c, s) && TaskInv(c, s) && Enabled(c, s, a)
    ensures TaskInv(c, Apply(c, s, a))
  {
    match a
    case OfProcessor(p) => TaskProcessor(c, s, p);
    case OfTask(k) => TaskTask(c, s, k);
    case OfTrainer(n) => TaskTrainer(c, s, n);
    case OfUpdate(u) => TaskUpdate(c, s, u);
    case Other(o) => TaskOther(c, s, o);
  }

  ghost predicate EntriesInv(c: Config, s: State) {
    && EntriesInTime(c, s, 1)
    && (Clean(c, s) ==> EntriesInTime(c, s, 0))
    && |s.queue| <= c.maxRequired
    && NotAhead(s)
  }

  lemma {:induction false} PutInTime(c: Config, s: State, x: Item, slack: int)
    requires c.maxRequired >= 1 && |s.queue| <= c.maxRequired
    requires EntriesInTime(c, s, slack)
    requires x.Rollout? ==> |s.history.consumed| <= Quota(c, x.version + slack)
    ensures EntriesInTime(c, DoPut(c, s, x), slack)
  {
    var s' := DoPut(c, s, x);
    forall j | 0 <= j < |s'.queue| ensures InTime(c, s'.queue[j], |s.history.consumed| + j, slack) {
      var shift := if |s.queue| >= c.maxRequired then 1 else 0;
      if j < |s'.queue| - 1 {
        assert s'.queue[j] == s.queue[j + shift];
        assert InTime(c, s.queue[j + shift], |s.history.consumed| + (j + shift), slack);
      } else {
        assert s'.queue[j] == x && j < c.maxRequired;
      }
    }
  }

  lemma {:induction false} EntriesPut(c: Config, s: State, id: nat)
    requires c.maxRequired >= 1 && c.required >= 1 && c.trigger >= 1
    requires LockInv(s) && BatchInv(c, s) && VersionInv(c, s) && TaskInv(c, s) && EntriesInv(c, s)
    requires TaskCan(s, PutSample(id))
    ensures EntriesInv(c, TaskDo(c, s, PutSample(id)))
  {
    var v := s.pool.running[id].version;
    var s', x := Finish(s, id), Rollout(id, v);
    ConsumedBound(c, s);
    QuotaMonotone(c, s.trainer.copied, v + 1);
    assert EntriesInTime(c, s', 1);
    PutInTime(c, s', x, 1);
    if Clean(c, s) {
      assert v == s.trainer.copied;
      assert EntriesInTime(c, s', 0);
      PutInTime(c, s', x, 0);
    }
    NotAheadPut(c, s', x);
  }

  lemma {:induction false} NotAheadPut(c: Config, s: State, x: Item)
    requires c.maxRequired >= 1 && NotAhead(s) && (x.Rollout? ==> x.version <= s.ver.current)
    ensures NotAhead(DoPut(c, s, x))
  {}

  lemma {:induction false} EntriesEnd(c: Config, s: State)
    requires c.maxRequired >= 1 && EntriesInv(c, s) && TaskCan(s, PutEnd)
    ensures EntriesInv(c, TaskDo(c, s, PutEnd))
  {
    var s' := s.(gate := s.gate.(closed := true));
    assert EntriesInTime(c, s', 1);
    PutInTime(c, s', EndMark, 1);
    if Clean(c, s) {
      assert EntriesInTime(c, s', 0);
      PutInTime(c, s', EndMark, 0);
    }
    NotAheadPut(c, s', EndMark);
  }

  lemma {:induction false} GetInTime(c: Config, s: State, slack: int)
    requires s.queue != [] && EntriesInTime(c, s, slack)
    ensures EntriesInTime(c, DoGet(s), slack)
  {
    var s' := DoGet(s);
    assert InTime(c, s.queue[0], |s.history.consumed| + 0, slack);
    if s.queue[0].Rollout? {
      forall j | 0 <= j < |s'.queue|
        ensures InTime(c, s'.queue[j], |s'.history.consumed| + j, slack)
      {
        assert InTime(c, s.queue[j + 1], |s.history.consumed| + (j + 1), slack);
      }
    } else {
      forall j | 0 <= j < |s'.queue|
        ensures InTime(c, s'.queue[j], |s'.history.consumed| + j, slack)
      {
        assert InTime(c, s.queue[j + 1], |s.history.consumed| + (j + 1), slack);
      }
    }
  }

  lemma {:induction false} EntriesGet(c: Config, s: State)
    requires s.queue != [] && EntriesInv(c, s)
    ensures EntriesInv(c, DoGet(s))
  {
    GetInTime(c, s, 1);
    if Clean(c, s) { GetInTime(c, s, 0); }
  }

  lemma {:induction false} EntriesSame(c: Config, s: State, s': State)
    requires EntriesInv(c, s)
    requires s'.queue == s.queue && s'.history.consumed == s.history.consumed
    requires s.history.strayed ==> s'.history.strayed
    requires s.ver.current <= s'.ver.current
    ensures EntriesInv(c, s')
  {}

  lemma {:induction false} EntriesUntouched(c: Config, s: State, a: Action)
    requires c.maxRequired >= 1 && c.trigger >= 1 && VersionInv(c, s) && Enabled(c, s, a)
    requires a != OfTrainer(GetSample) && !(a.OfTask? && (a.k.PutSample? || a.k.PutEnd?))
    ensures var s' := Apply(c, s, a);
      && s'.queue == s.queue && s'.history.consumed == s.history.consumed
      && (s.history.strayed ==> s'.history.strayed) && s.ver.current <= s'.ver.current
  {}

  lemma {:induction false} EntriesKept(c: Config, s: State, a: Action)
    requires c.maxRequired >= 1 && c.required >= 1 && c.trigger >= 1
    requires LockInv(s) && BatchInv(c, s) && VersionInv(c, s) && TaskInv(c, s) && EntriesInv(c, s)
    requires Enabled(c, s, a)
    ensures EntriesInv(c, Apply(c, s, a))
  {
    match a
    case OfTask(PutSample(id)) => EntriesPut(c, s, id);
    case OfTask(PutEnd) => EntriesEnd(c, s);
    case OfTrainer(GetSample) => EntriesGet(c, s);
    case _ =>
      EntriesUntouched(c, s, a);
      EntriesSame(c, s, Apply(c, s, a));
  }

  // ---- every run ----

  ghost predicate Aged(c: Config, s: State)
    requires c.required >= 1 && c.trigger >= 1
  {
    LockInv(s) && BatchInv(c, s) && VersionInv(c, s) && TaskInv(c, s) && EntriesInv(c, s)
  }

  lemma {:induction false} AgedRun(c: Config, s: State, actions: seq<Action>)
    requires c.maxRequired >= 1 && c.required >= 1 && c.trigger >= 1
    requires Aged(c, s) && Exec(c, s, actions).Reached?
    ensures Aged(c, Exec(c, s, actions).state)
    decreases |actions|
  {
    if actions != [] {
      var a := actions[0];
      LockKept(c, s, a);
      BatchKept(c, s, a);
      VersionKept(c, s, a);
      TaskKept(c, s, a);
      EntriesKept(c, s, a);
      AgedRun(c, Apply(c, s, a), actions[1..]);
    }
  }

  lemma {:induction false} AgedAlways(c: Config, s: State)
    requires Reachable(c, s)
    ensures c.required >= 1 && c.trigger >= 1 && c.maxRequired >= 1 && Aged(c, s)
  {
    MaxRequiredBounds(c);
    var actions :| Exec(c, Init(c), actions) == Reached(s);
    Quotient(0, c.trigger, 0, 0);
    AgedRun(c, Init(c), actions);
  }

  // ---- the age bound ----

  // math.ceil
  function Ceil(x: real): int { -((-x).Floor) }

  // How stale sample j of the k-th trained batch was when it was trained on.
  function Age(s: State, k: nat, j: nat): int
    requires k < |s.history.trained| && j < |s.history.trained[k].batch|
    requires s.history.trained[k].batch[j].Rollout?
  {
    s.history.trained[k].version - s.history.trained[k].batch[j].version
  }

  lemma {:induction false} AgeArithmetic(c: Config, k: nat, i: int, v: int, slack: int)
    requires Valid(c)
    requires k * c.required <= i < Quota(c, v + slack) + c.maxRequired
    ensures c.startVersion + k / c.trigger - v <= 1 + slack + Ceil(c.threshold)
  {
    MaxRequiredBounds(c);
    var p := c.required * c.trigger;
    var lag := c.startVersion + k / c.trigger - v - slack - 1;
    assert p >= 1 by { Times(c.required, c.trigger); }
    BatchArithmetic(k, c.required, c.trigger);
    assert (k / c.trigger) * p <= i;
    assert (k / c.trigger) * p - (v + slack - c.startVersion + 1) * p == lag * p;
    assert lag * p < c.maxRequired;
    LagBelowCeil(lag, p, c.threshold);
  }

  lemma {:induction false} LagBelowCeil(lag: int, p: int, threshold: real)
    requires p >= 1 && (lag * p) as real < p as real * (threshold + 1.0)
    ensures lag <= Ceil(threshold)
  {
    var pr, gap := p as real, threshold + 1.0 - lag as real;
    assert (lag * p) as real == lag as real * pr;
    assert gap * pr > 0.0;
    PositiveFactor(gap, pr);
  }

  lemma {:induction false} PositiveFactor(x: real, y: real)
    requires y > 0.0 && x * y > 0.0
    ensures x > 0.0
  {}

  lemma {:induction false} CeilIs(x: real)
    ensures x <= Ceil(x) as real < x + 1.0
  {}

  // Whenever the trainer trains on a sample, its version is not behind and at most 2 + ceil(threshold)
  // ahead of the version the sample carries, and at most 1 + ceil(threshold) ahead with partial
  // rollouts, or if no delayed write of the monitor fell between the end of a pause and the following
  // resume.
  lemma {:induction false} AgeBound(c: Config, s: State, k: nat, j: nat)
    requires Reachable(c, s)
    requires k < |s.history.trained| && j < |s.history.trained[k].batch|
    ensures s.history.trained[k].batch[j].Rollout?
    ensures 0 <= Age(s, k, j) <= 2 + Ceil(c.threshold)
    ensures !s.history.strayed || c.partial ==> Age(s, k, j) <= 1 + Ceil(c.threshold)
    // that is, the versions are less than threshold + 3 or threshold + 2 apart
    ensures var lag := s.history.trained[k].version - s.history.trained[k].batch[j].version;
      lag as real < c.threshold + 3.0 && (!s.history.strayed || c.partial ==> lag as real < c.threshold + 2.0)
  {
    CeilIs(c.threshold);
    AgedAlways(c, s);
    SafeAlways(c, s);
    assert IsBlock(c, s.history, k);
    Blocks(k, k + 1, c.required);
    var i := k * c.required + j;
    var x := s.history.consumed[i];
    assert s.history.trained[k].batch[j] == x;
    assert InTime(c, x, i, 1);
    AgeArithmetic(c, k, i, x.version, 1);
    if Clean(c, s) {
      assert InTime(c, x, i, 0);
      AgeArithmetic(c, k, i, x.version, 0);
    }
  }
}
