// When no sample can be older than 1 + ceil(threshold), whatever the monitor does.
module AsyncAgeLimits {
  import opened Arithmetic
  import opened QueueItems
  import opened AsyncProtocol
  import opened AsyncSafety
  import opened AsyncAge
  import opened AsyncEnd
  import opened AsyncLimits

  // ---- no version before the first ----

  predicate NotBefore(x: Item, v: int) { x.Rollout? ==> x.version >= v }

  ghost predicate StampInv(c: Config, s: State) {
    && (forall id :: id in s.pool.running && s.pool.running[id].Finished? ==>
          s.pool.running[id].version >= c.startVersion)
    && (forall i :: 0 <= i < |s.history.consumed| ==> NotBefore(s.history.consumed[i], c.startVersion))
    && (forall j :: 0 <= j < |s.queue| ==> NotBefore(s.queue[j], c.startVersion))
  }

  lemma {:induction false} StampTask(c: Config, s: State, a: TaskAction)
    requires c.maxRequired >= 1 && StampInv(c, s) && TaskCan(s, a) && s.ver.current >= c.startVersion
    ensures StampInv(c, TaskDo(c, s, a))
  {}

  lemma {:induction false} StampTrainer(c: Config, s: State, a: TrainerAction)
    requires StampInv(c, s) && TrainerCan(c, s, a)
    ensures StampInv(c, TrainerDo(c, s, a))
  {}

  lemma {:induction false} StampProcessor(c: Config, s: State, a: ProcessorAction)
    requires StampInv(c, s) && ProcessorCan(s, a)
    ensures StampInv(c, ProcessorDo(c, s, a))
  {}

  lemma {:induction false} StampKept(c: Config, s: State, a: Action)
    requires c.maxRequired >= 1 && StampInv(c, s) && Enabled(c, s, a) && s.ver.current >= c.startVersion
    ensures StampInv(c, Apply(c, s, a))
  {
    match a
    case OfProcessor(p) => StampProcessor(c, s, p);
    case OfTask(k) => StampTask(c, s, k);
    case OfTrainer(n) => StampTrainer(c, s, n);
    case OfUpdate(u) =>
    case Other(o) =>
  }

  lemma {:induction false} CurrentNotBefore(c: Config, s: State)
    requires c.trigger >= 1 && VersionInv(c, s) && ResetInv(c, s)
    ensures s.ver.current >= c.startVersion
  {}

  // ---- if no more can be outstanding than one version consumes ----

  // An entry of version v then comes within what versions up to v + 1 consume.
  ghost predicate Prompt(c: Config, x: Item, index: int) {
    x.Rollout? ==> index < Quota(c, x.version + 1)
  }

  ghost predicate PromptInv(c: Config, s: State) {
    && (forall i :: 0 <= i < |s.history.consumed| ==> Prompt(c, s.history.consumed[i], i))
    && (forall j :: 0 <= j < |s.queue| ==> Prompt(c, s.queue[j], |s.history.consumed| + j))
  }

  lemma {:induction false} PromptPut(c: Config, s: State, x: Item)
    requires c.maxRequired >= 1 && PromptInv(c, s)
    requires x.Rollout? ==> |s.history.consumed| + |s.queue| < Quota(c, x.version + 1)
    ensures PromptInv(c, DoPut(c, s, x))
  {
    var s' := DoPut(c, s, x);
    forall j | 0 <= j < |s'.queue| ensures Prompt(c, s'.queue[j], |s.history.consumed| + j) {
      var shift := if |s.queue| >= c.maxRequired then 1 else 0;
      if j < |s'.queue| - 1 {
        assert s'.queue[j] == s.queue[j + shift];
        assert Prompt(c, s.queue[j + shift], |s.history.consumed| + (j + shift));
      }
    }
  }

  lemma {:induction false} PromptTask(c: Config, s: State, id: nat)
    requires c.required >= 1 && c.trigger >= 1 && c.maxRequired >= 1 && PerVersion(c) == c.maxRequired
    requires VersionInv(c, s) && TaskInv(c, s) && TakenInv(c, s) && PromptInv(c, s) && s.history.handEmptyAtResets
    requires TaskCan(s, PutSample(id))
    ensures PromptInv(c, TaskDo(c, s, PutSample(id)))
  {
    hide Prompt, DoPut, VersionInv, TaskInv;
    var v, d := s.pool.running[id].version, Resets(c, s);
    assert |s.pool.running| >= 1;
    TaskRecent(c, s, id);
    assert d * c.maxRequired + c.maxRequired >= Taken(s) >= 1;
    NotNegative(d, c.maxRequired);
    Monotone(d, v + 1 - c.startVersion, PerVersion(c));
    assert Quota(c, v + 1) == (v + 1 - c.startVersion) * PerVersion(c) + PerVersion(c);
    PromptPut(c, Finish(s, id), Rollout(id, v));
  }

  lemma {:induction false} TaskRecent(c: Config, s: State, id: nat)
    requires c.trigger >= 1 && VersionInv(c, s) && TaskInv(c, s) && TaskCan(s, PutSample(id))
    ensures Resets(c, s) <= s.pool.running[id].version + 1 - c.startVersion
  {}

  lemma {:induction false} NotNegative(d: int, n: nat)
    requires n >= 1 && d * n + n >= 1
    ensures d >= 0
  {
    if d < 0 { Product(-1 - d, n); }
  }

  lemma {:induction false} PromptGet(c: Config, s: State)
    requires s.queue != [] && PromptInv(c, s)
    ensures PromptInv(c, DoGet(s))
  {
    var s' := DoGet(s);
    assert Prompt(c, s.queue[0], |s.history.consumed| + 0);
    forall j | 0 <= j < |s'.queue| ensures Prompt(c, s'.queue[j], |s'.history.consumed| + j) {
      assert Prompt(c, s.queue[j + 1], |s.history.consumed| + (j + 1));
    }
  }

  lemma {:induction false} PromptKept(c: Config, s: State, a: Action)
    requires c.required >= 1 && c.trigger >= 1 && c.maxRequired >= 1 && PerVersion(c) == c.maxRequired
    requires Full(c, s) && PromptInv(c, s) && Enabled(c, s, a)
    ensures PromptInv(c, Apply(c, s, a))
  {
    hide EndingInv, BatchInv, EntriesInv, ResetInv, Prompt, VersionInv, TaskInv, TakenInv;
    match a
    case OfTask(PutSample(id)) =>
      if s.gate.closed { NothingRuns(c, s); } else { PromptTask(c, s, id); }
    case OfTask(PutEnd) => PromptPut(c, s.(gate := s.gate.(closed := true)), EndMark) by { EndIsPrompt(c, s); }
    case OfTrainer(GetSample) => PromptGet(c, s);
    case _ => EntriesStay(c, s, a);
  }

  lemma {:induction false} EndIsPrompt(c: Config, s: State)
    ensures EndMark.Rollout? ==> |s.history.consumed| + |s.queue| < Quota(c, EndMark.version + 1)
  {}

  lemma {:induction false} NothingRuns(c: Config, s: State)
    requires EndingInv(c, s) && s.gate.closed
    ensures s.pool.running == map[]
  {}

  lemma {:induction false} EntriesStay(c: Config, s: State, a: Action)
    requires c.maxRequired >= 1 && Enabled(c, s, a)
    requires a != OfTrainer(GetSample) && !(a.OfTask? && (a.k.PutSample? || a.k.PutEnd?))
    ensures Apply(c, s, a).queue == s.queue && Apply(c, s, a).history.consumed == s.history.consumed
  {}

  // ---- every run ----

  ghost predicate Dated(c: Config, s: State) {
    StampInv(c, s) && (PerVersion(c) == c.maxRequired ==> PromptInv(c, s))
  }

  lemma {:induction false} DatedRun(c: Config, s: State, actions: seq<Action>)
    requires c.required >= 1 && c.trigger >= 1 && c.maxRequired >= 1 && c.maxRequired >= PerVersion(c)
    requires c.maxConcurrent == Min(c.servers * 16, c.maxRequired)
    requires Full(c, s) && Dated(c, s) && Exec(c, s, actions).Reached?
    ensures Dated(c, Exec(c, s, actions).state)
    decreases |actions|
  {
    hide EndingInv, ResetInv, TakenInv, CanLose, VersionInv, BatchInv, LockInv, TaskInv, EntriesInv, Enabled, Apply;
    hide StampInv, PromptInv;
    if actions != [] {
      var a, s' := actions[0], Apply(c, s, actions[0]);
      CurrentNotBefore(c, s);
      StampKept(c, s, a);
      if PerVersion(c) == c.maxRequired { PromptKept(c, s, a); }
      assert Exec(c, s, [a]) == Reached(s') by { assert [a][1..] == []; assert Exec(c, s', []) == Reached(s'); }
      FullRun(c, s, [a]);
      DatedRun(c, s', actions[1..]);
    }
  }

  lemma {:induction false} DatedAlways(c: Config, s: State)
    requires Reachable(c, s)
    ensures c.required >= 1 && c.trigger >= 1 && Dated(c, s)
  {
    hide IsBlock, TaskInv, EntriesInv, Full;
    MaxRequiredBounds(c);
    CoversVersion(c);
    var actions :| Exec(c, Init(c), actions) == Reached(s);
    assert Exec(c, Init(c), []) == Reached(Init(c));
    FullAlways(c, Init(c));
    DatedRun(c, Init(c), actions);
  }

  // ---- when the bound 1 + ceil(threshold) holds ----

  // A sample older than that needs whole rollouts, more outstanding samples than one version
  // consumes, and data for 2 + ceil(threshold) whole versions and one batch more.
  predicate CanBeOld(c: Config) {
    && !c.partial && PerVersion(c) < c.maxRequired
    && FedTotal(c) >= PerVersion(c) * (2 + Ceil(c.threshold)) + c.required
  }

  lemma {:induction false} EnoughConsumed(c: Config, k: nat, n: nat)
    requires c.required >= 1 && c.trigger >= 1 && k / c.trigger >= n
    ensures (k + 1) * c.required >= PerVersion(c) * n + c.required
  {
    var q := k / c.trigger;
    assert k >= q * c.trigger;
    Monotone(n, q, c.trigger);
    assert n * c.trigger >= 0 by { if n > 0 { Times(n, c.trigger); } }
    Monotone(n * c.trigger, k, c.required);
    assert n * c.trigger * c.required == PerVersion(c) * n;
    assert (k + 1) * c.required == k * c.required + c.required;
  }

  lemma {:induction false} SmallLag(lag: int, p: int)
    requires p >= 1 && lag * p < 2 * p
    ensures lag <= 1
  {
    if lag >= 2 { Monotone(2, lag, p); }
  }

  lemma {:induction false} PromptAge(c: Config, k: nat, i: int, v: int)
    requires c.required >= 1 && c.trigger >= 1 && k * c.required <= i < Quota(c, v + 1)
    ensures c.startVersion + k / c.trigger - v <= 1
  {
    var p := PerVersion(c);
    assert p >= 1 by { Times(c.required, c.trigger); }
    BatchArithmetic(k, c.required, c.trigger);
    var lag := c.startVersion + k / c.trigger - v;
    assert (k / c.trigger) * p < (v + 2 - c.startVersion) * p;
    assert (k / c.trigger) * p - (v + 2 - c.startVersion) * p == lag * p - 2 * p;
    SmallLag(lag, p);
  }

  lemma {:induction false} CeilPositive(x: real)
    requires x >= 0.0
    ensures Ceil(x) >= 0
  {}

  // Unless the configuration allows it, no sample is ever older than 1 + ceil(threshold).
  lemma {:induction false} OldOnlyIf(c: Config, s: State, k: nat, j: nat)
    requires Reachable(c, s) && k < |s.history.trained| && j < |s.history.trained[k].batch|
    requires s.history.trained[k].batch[j].Rollout? && Age(s, k, j) > 1 + Ceil(c.threshold)
    ensures CanBeOld(c)
  {
    hide Reachable, Safe, FinalInv, Full, Dated, StampInv, PromptInv, FedTotal;
    TrainedBlocks(c, s, k);
    AgeBound(c, s, k, j);
    ValidIfReached(c, s);
    CoversVersion(c);
    CeilPositive(c.threshold);
    var i := k * c.required + j;
    var x := s.history.consumed[i];
    DatedEntry(c, s, i, x);
    EnoughConsumed(c, k, 2 + Ceil(c.threshold));
    ConsumedAtMost(c, s);
    if PerVersion(c) == c.maxRequired { PromptAge(c, k, i, x.version); }
  }

  lemma {:induction false} ValidIfReached(c: Config, s: State)
    requires Reachable(c, s)
    ensures Valid(c)
  {}

  lemma {:induction false} DatedEntry(c: Config, s: State, i: nat, x: Item)
    requires Reachable(c, s) && i < |s.history.consumed| && x == s.history.consumed[i] && x.Rollout?
    ensures x.version >= c.startVersion
    ensures PerVersion(c) == c.maxRequired ==> i < Quota(c, x.version + 1)
  {
    hide Reachable;
    DatedAlways(c, s);
    assert NotBefore(s.history.consumed[i], c.startVersion);
    if PerVersion(c) == c.maxRequired { assert Prompt(c, s.history.consumed[i], i); }
  }

  lemma {:induction false} ConsumedAtMost(c: Config, s: State)
    requires Reachable(c, s)
    ensures |s.history.consumed| <= FedTotal(c)
  {
    hide Reachable, Safe, FinalInv;
    EndingAlways(c, s);
    FedAtMost(c, s.feed);
  }
}
