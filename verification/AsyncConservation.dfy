// Every sample fed is in exactly one place: no step of any actor loses or duplicates one.
module AsyncConservation {
  import opened QueueItems
  import opened AsyncProtocol
  import opened AsyncSafety

  ghost function CountIds(q: seq<nat>, id: nat): nat {
    multiset(q)[id]
  }

  ghost function IsRunning(m: map<nat, Task>, id: nat): nat {
    if id in m then 1 else 0
  }

  // In how many places sample `id` is: pending, in hand, running, cancelled, in the message
  // queue, consumed, dropped.
  ghost function Places(s: State, id: nat): nat {
    Count(s.feed.pending, id) + CountIds(s.worker.hand, id) + IsRunning(s.pool.running, id)
    + CountIds(s.pool.cancelQueue, id) + Count(s.queue, id)
    + Count(s.history.consumed, id) + Count(s.history.dropped, id)
  }

  predicate WasFed(c: Config, s: State, id: nat) {
    c.firstStep <= id < c.firstStep + s.feed.fed
  }

  // Exactly the samples fed are somewhere, each in one place.
  ghost predicate Conserved(c: Config, s: State, id: nat) {
    Places(s, id) == if WasFed(c, s, id) then 1 else 0
  }

  lemma {:induction false} PutCounts(c: Config, s: State, x: Item, id: nat)
    requires c.maxRequired >= 1
    ensures var s' := DoPut(c, s, x);
      Count(s'.queue, id) + Count(s'.history.dropped, id)
      == Count(s.queue, id) + Count(s.history.dropped, id) + One(x, id)
  {
    if |s.queue| >= c.maxRequired {
      CountAppend(s.queue[1..], x, id);
      CountAppend(s.history.dropped, s.queue[0], id);
    } else {
      CountAppend(s.queue, x, id);
    }
  }

  lemma {:induction false} HeadCount(q: seq<nat>, id: nat)
    requires q != []
    ensures CountIds(q, id) == CountIds([q[0]], id) + CountIds(q[1..], id)
  {
    assert q == [q[0]] + q[1..];
  }

  lemma {:induction false} LookPlaces(c: Config, s: State, id: nat)
    requires s.worker.loc.Top? && HandInv(s.worker)
    ensures Places(DoLook(c, s), id) == Places(s, id)
  {
    var s', q := DoLook(c, s), s.pool.cancelQueue;
    assert s'.feed == s.feed && s'.queue == s.queue && s'.history == s.history;
    assert s.worker.hand == [];
    if q != [] {
      HeadCount(q, id);
      assert (s'.worker.hand == [] && s'.pool == s.pool)
             || (s'.worker.hand == [q[0]] && s'.pool == s.pool.(cancelQueue := q[1..]));
    }
  }

  lemma {:induction false} SubmitPlaces(c: Config, s: State, id: nat)
    requires ProcessorCan(s, Submit) && HandInv(s.worker) && Places(s, id) <= 1
    ensures Places(ProcessorDo(c, s, Submit), id) == Places(s, id)
  {
    assert s.worker.hand == [s.worker.hand[0]];
  }

  lemma {:induction false} TakePlaces(s: State, id: nat)
    requires s.feed.pending != [] && s.worker.hand == []
    ensures Places(DoTakePending(s), id) == Places(s, id)
  {}

  lemma {:induction false} ProcessorPlaces(c: Config, s: State, a: ProcessorAction, id: nat)
    requires HandInv(s.worker) && Places(s, id) <= 1 && ProcessorCan(s, a)
    ensures Places(ProcessorDo(c, s, a), id) == Places(s, id)
  {
    match a
    case Look => LookPlaces(c, s, id);
    case TakePending => TakePlaces(s, id);
    case Submit => SubmitPlaces(c, s, id);
    case _ =>
  }

  lemma {:induction false} TaskPlaces(c: Config, s: State, a: TaskAction, id: nat)
    requires c.maxRequired >= 1 && TaskCan(s, a)
    ensures Places(TaskDo(c, s, a), id) == Places(s, id)
  {
    hide Count, Put;
    match a
    case Generate(i) =>
    case Cancel(i) =>
    case PutSample(i) => PutCounts(c, Finish(s, i), Rollout(i, s.pool.running[i].version), id);
    case PutEnd => PutCounts(c, s.(gate := s.gate.(closed := true)), EndMark, id);
  }

  lemma {:induction false} GetPlaces(s: State, id: nat)
    requires s.queue != []
    ensures Places(DoGet(s), id) == Places(s, id)
  {
    CountAppend(s.history.consumed, s.queue[0], id);
  }

  lemma {:induction false} FeedPlaces(c: Config, s: State, a: OtherAction, id: nat)
    requires OtherCan(c, s, a)
    ensures Places(OtherDo(c, s, a), id) ==
      Places(s, id) + if a.Feed? then One(Rollout(c.firstStep + s.feed.fed, 0), id) else 0
  {
    hide Count, One, CountIds, IsRunning, ShouldPause;
    CountAppend(s.feed.pending, Rollout(c.firstStep + s.feed.fed, 0), id);
    CountAppend(s.feed.pending, EndMark, id);
    EndMarkIsNone(id);
  }

  lemma {:induction false} EndMarkIsNone(id: nat)
    ensures One(EndMark, id) == 0
  {}

  lemma {:induction false} TrainerPlaces(c: Config, s: State, a: TrainerAction, id: nat)
    requires TrainerCan(c, s, a)
    ensures Places(TrainerDo(c, s, a), id) == Places(s, id)
  {
    if a.GetSample? { GetPlaces(s, id); }
  }

  lemma {:induction false} UpdatePlaces(s: State, a: UpdateAction, id: nat)
    requires UpdateCan(s, a)
    ensures Places(UpdateDo(s, a), id) == Places(s, id)
  {}

  lemma {:induction false} FedKept(c: Config, s: State, a: Action)
    requires c.maxRequired >= 1 && Enabled(c, s, a)
    ensures Apply(c, s, a).feed.fed == s.feed.fed + if a == Other(Feed) then 1 else 0
  {}

  lemma {:induction false} PlacesKept(c: Config, s: State, a: Action, id: nat)
    requires c.maxRequired >= 1 && HandInv(s.worker) && Enabled(c, s, a) && Places(s, id) <= 1
    ensures Places(Apply(c, s, a), id) == Places(s, id) +
      if a == Other(Feed) then One(Rollout(c.firstStep + s.feed.fed, 0), id) else 0
  {
    match a
    case OfProcessor(p) => ProcessorPlaces(c, s, p, id);
    case OfTask(k) => TaskPlaces(c, s, k, id);
    case OfTrainer(n) => TrainerPlaces(c, s, n, id);
    case OfUpdate(u) => UpdatePlaces(s, u, id);
    case Other(o) => FeedPlaces(c, s, o, id);
  }

  lemma {:induction false} ConservationKept(c: Config, s: State, a: Action, id: nat)
    requires c.maxRequired >= 1 && HandInv(s.worker) && Enabled(c, s, a) && Conserved(c, s, id)
    ensures Conserved(c, Apply(c, s, a), id)
  {
    PlacesKept(c, s, a, id);
    FedKept(c, s, a);
  }

  lemma {:induction false} ConservedRun(c: Config, s: State, actions: seq<Action>, id: nat)
    requires c.maxRequired >= 1 && Safe(c, s) && Conserved(c, s, id) && Exec(c, s, actions).Reached?
    ensures Conserved(c, Exec(c, s, actions).state, id)
    decreases |actions|
  {
    if actions != [] {
      SafeKept(c, s, actions[0]);
      ConservationKept(c, s, actions[0], id);
      ConservedRun(c, Apply(c, s, actions[0]), actions[1..], id);
    }
  }

  // Under every interleaving, a sample that was fed is in exactly one place, and a number that
  // was not fed is nowhere.
  lemma {:induction false} Conservation(c: Config, s: State, id: nat)
    requires Reachable(c, s)
    ensures Places(s, id) == if WasFed(c, s, id) then 1 else 0
  {
    MaxRequiredBounds(c);
    var actions :| Exec(c, Init(c), actions) == Reached(s);
    ConservedRun(c, Init(c), actions, id);
  }
}
