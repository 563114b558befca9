// Pieces of admitted runs, from any reachable state: the feeder filling its queue, the processor
// taking and submitting a sample, tasks finishing, the trainer consuming a version, a sync.
module AsyncPlay {
  import opened QueueItems
  import opened AsyncProtocol
  import opened AsyncSafety
  import opened AsyncConservation
  import opened AsyncEnd
  import opened AsyncLimits
  import opened AsyncLoop

  ghost predicate Goes(c: Config, l: Loop, l': Loop) {
    && Valid(c) && c.maxRequired >= 1 && Reachable(c, l.s) && Reachable(c, l'.s) && Leads(c, l, l')
  }

  lemma {:induction false} Here(c: Config, l: Loop)
    requires Reachable(c, l.s)
    ensures Goes(c, l, l)
  {
    MaxRequiredBounds(c);
    Still(c, l);
  }

  lemma {:induction false} Do(c: Config, o: Loop, l: Loop, e: Event) returns (l': Loop)
    requires Goes(c, o, l) && c.maxRequired >= 1 && May(c, l, e)
    ensures Goes(c, o, l') && l' == Next(c, l, e)
  {
    hide May, Next, Reachable, Leads, Valid;
    l' := Next(c, l, e);
    OneStep(c, l, e);
    StepReaches(c, l, e);
    Chain(c, o, l, l');
  }

  lemma {:induction false} Onward(c: Config, a: Loop, b: Loop, d: Loop)
    requires Goes(c, a, b) && Goes(c, b, d)
    ensures Goes(c, a, d)
  {
    hide Reachable, Leads, Valid;
    Chain(c, a, b, d);
  }

  lemma {:induction false} GoesFacts(c: Config, l: Loop, l': Loop)
    requires Goes(c, l, l')
    ensures Valid(c) && c.maxRequired >= 1 && Reachable(c, l.s) && Reachable(c, l'.s)
    ensures c.required >= 1 && c.trigger >= 1 && Safe(c, l'.s)
  {
    hide Reachable;
    SafeAlways(c, l'.s);
  }

  lemma {:induction false} GoesAdmits(c: Config, l: Loop)
    requires Goes(c, Start(c), l)
    ensures Admitted(c, l.s)
  {}

  // The feeder has its first turn, then the processor.
  lemma {:induction false} FirstTurn(c: Config) returns (l: Loop)
    requires Valid(c)
    ensures c.maxRequired >= 1 && Goes(c, Start(c), l)
    ensures l == Loop(Init(c).(feed := l.s.feed), true, [], [])
  {
    hide Goes, Reachable, Valid;
    StartReachable(c);
    l := FeederRun(c, Start(c));
    l := Do(c, Start(c), l, Run);
  }

  // ---- the feeder ----

  lemma {:induction false} FeederRun(c: Config, l: Loop) returns (l': Loop)
    requires Reachable(c, l.s) && !l.going && (l.s.worker.loc.AwaitPending? ==> l.s.feed.pending != [])
    ensures Goes(c, l, l') && FeederRests(c, l'.s) && l' == l.(s := l.s.(feed := l'.s.feed))
    ensures l.s.feed.pending <= l'.s.feed.pending
    decreases c.epochItems - l.s.feed.fed, if l.s.feed.phase.Fed? then 0 else 1
  {
    hide Goes, Reachable, Valid;
    Here(c, l);
    GoesFacts(c, l, l);
    if FeederRests(c, l.s) {
      l' := l;
    } else {
      var o := if OtherCan(c, l.s, Feed) then Feed else FeedEnd;
      var m := Do(c, l, l, Fill(o));
      GoesFacts(c, l, m);
      l' := FeederRun(c, m);
      Onward(c, l, m, l');
    }
  }

  // The processor waits at the empty pending queue: it is woken.
  lemma {:induction false} FeederWakes(c: Config, l: Loop) returns (l': Loop)
    requires Reachable(c, l.s) && !l.going && l.s.worker.loc.AwaitPending? && l.s.feed.pending == []
    requires !FeederRests(c, l.s)
    ensures Goes(c, l, l') && FeederRests(c, l'.s) && l'.s.feed.pending != []
    ensures l' == l.(s := l.s.(feed := l'.s.feed), ready := l.ready + [Getter])
  {
    hide Goes, Reachable, Valid, FeederRests;
    Here(c, l);
    GoesFacts(c, l, l);
    var m := FirstFill(c, l);
    GoesFacts(c, l, m);
    l' := FeederRun(c, m);
    Onward(c, l, m, l');
  }

  lemma {:induction false} FirstFill(c: Config, l: Loop) returns (l': Loop)
    requires Reachable(c, l.s) && !l.going && l.s.worker.loc.AwaitPending? && l.s.feed.pending == []
    requires !FeederRests(c, l.s)
    ensures Goes(c, l, l') && l'.s.feed.pending != []
    ensures l' == l.(s := l.s.(feed := l'.s.feed), ready := l.ready + [Getter])
  {
    hide Goes, Reachable, Valid;
    Here(c, l);
    GoesFacts(c, l, l);
    l' := Do(c, l, l, Fill(if OtherCan(c, l.s, Feed) then Feed else FeedEnd));
  }

  // ---- running what is ready ----

  predicate AtRest(l: Loop) { !l.going && l.ready == [] }

  predicate AllBegun(ready: seq<Wake>) { forall i :: 0 <= i < |ready| ==> ready[i].Begun? }

  // New tasks take their first steps.
  lemma {:induction false} Settle(c: Config, o: Loop, l: Loop, rest: seq<Wake>, begun: seq<Wake>) returns (l': Loop)
    requires Goes(c, o, l) && !l.going && l.ready == begun + rest && AllBegun(begun)
    ensures Goes(c, o, l') && l' == l.(ready := rest)
    decreases |begun|
  {
    hide Goes;
    if begun == [] {
      l' := l;
      assert begun + rest == rest;
    } else {
      assert l.ready[0] == begun[0] && l.ready[1..] == begun[1..] + rest;
      var m := RunBegun(c, o, l);
      l' := Settle(c, o, m, rest, begun[1..]);
    }
  }

  lemma {:induction false} RunBegun(c: Config, o: Loop, l: Loop) returns (l': Loop)
    requires Goes(c, o, l) && !l.going && l.ready != [] && l.ready[0].Begun?
    ensures Goes(c, o, l') && l' == l.(ready := l.ready[1..])
  {
    hide Goes;
    GoesFacts(c, o, l);
    l' := Do(c, o, l, Run);
  }

  lemma {:induction false} Settled(c: Config, o: Loop, l: Loop) returns (l': Loop)
    requires Goes(c, o, l) && !l.going && AllBegun(l.ready)
    ensures Goes(c, o, l') && l' == l.(ready := [])
  {
    hide Goes;
    assert l.ready + [] == l.ready;
    l' := Settle(c, o, l, [], l.ready);
  }

  // A reply comes back and is the only thing to run; likewise a call, and the monitor's timer.
  lemma {:induction false} Replied(c: Config, o: Loop, l: Loop, a: Action) returns (l': Loop)
    requires Goes(c, o, l) && AtRest(l) && c.maxRequired >= 1 && Enabled(c, l.s, a) && IsReply(a)
    ensures Goes(c, o, l') && l' == Answered(c, l, a)
  {
    hide Goes, Answered, Enabled, Apply;
    var m := Do(c, o, l, Arrive(Reply(a)));
    l' := Do(c, o, m, Run);
    assert m.(ready := m.ready[1..]) == l;
  }

  lemma {:induction false} Called(c: Config, o: Loop, l: Loop, w: Waiter) returns (l': Loop)
    requires Goes(c, o, l) && AtRest(l) && c.maxRequired >= 1 && IsCalled(l.s, w) && w !in l.waiters
    ensures Goes(c, o, l')
    ensures l' == if Available(l) then Takes(c, l, w) else l.(waiters := l.waiters + [w])
  {
    hide Goes, Takes, Enabled, Apply, IsCalled;
    var m := Do(c, o, l, Arrive(Call(w)));
    l' := Do(c, o, m, Run);
    assert m.(ready := m.ready[1..]) == l;
  }

  lemma {:induction false} Ticks(c: Config, o: Loop, l: Loop) returns (l': Loop)
    requires Goes(c, o, l) && AtRest(l) && c.maxRequired >= 1 && Monitor !in l.waiters && Check !in l.waiters
    ensures Goes(c, o, l') && l' == Ticked(c, l)
  {
    hide Goes, Ticked, Enabled, Apply;
    var m := Do(c, o, l, Arrive(Timer));
    l' := Do(c, o, m, Run);
    assert m.(ready := m.ready[1..]) == l;
  }

  // The lock is handed to somebody else, or to the processor.
  lemma {:induction false} Handed(c: Config, o: Loop, l: Loop) returns (l': Loop)
    requires Goes(c, o, l) && !l.going && l.ready != [] && l.ready[0] == Hand && c.maxRequired >= 1
    requires l.s.gate.lock.Free? && l.waiters != [] && !l.waiters[0].Processor?
    ensures Goes(c, o, l')
    ensures l' == Takes(c, l.(ready := l.ready[1..], waiters := l.waiters[1..]), l.waiters[0])
  {
    hide Goes, Takes, Enabled, Apply;
    l' := Do(c, o, l, Run);
  }

  lemma {:induction false} Resumed(c: Config, o: Loop, l: Loop) returns (l': Loop)
    requires Goes(c, o, l) && !l.going && l.ready != [] && !l.s.worker.loc.AwaitPending?
    requires l.ready[0].Notice? || l.ready[0].Tasks?
             || (l.ready[0].Hand? && l.s.gate.lock.Free? && l.waiters != [] && l.waiters[0].Processor?)
    ensures Goes(c, o, l') && FeederRests(c, l'.s)
    ensures l' == l.(going := true, ready := l.ready[1..], s := l.s.(feed := l'.s.feed))
  {
    hide Goes, Reachable, Valid, FeederRests, Safe;
    GoesFacts(c, o, l);
    l' := FeederRun(c, l);
    Onward(c, o, l, l');
    l' := Do(c, o, l', Run);
  }

  // Samples that have left the pending queue and the processor's hand.
  function Used(s: State): nat {
    |s.pool.running| + |s.queue| + |s.history.consumed| + |s.history.dropped|
  }

  // While data is left, the next entry of the pending queue is a sample that is nowhere else.
  lemma {:induction false} Supply(c: Config, s: State)
    requires Reachable(c, s) && !s.gate.closed && !Draining(s.worker.loc) && !s.worker.loc.Crashed?
    requires s.worker.hand == [] && s.pool.cancelQueue == [] && Used(s) < FedTotal(c)
    requires s.feed.pending != [] || FeederRests(c, s)
    ensures s.feed.pending != [] && s.feed.pending[0].Rollout?
    ensures s.feed.pending[0].id !in s.pool.running
  {
    hide Reachable, FinalInv, LockInv, ConcurrencyInv, CounterInv, NoneInv, RolloutsInv, FeedInv;
    EndingAlways(c, s);
    SupplyLeft(c, s);
    assert Conserved(c, s, s.feed.pending[0].id);
  }

  lemma {:induction false} SupplyLeft(c: Config, s: State)
    requires FeedInv(c, s.feed) && PendingInv(s) && SizeInv(s) && AllRollouts(s.queue)
    requires !Draining(s.worker.loc) && !s.worker.loc.Crashed?
    requires s.worker.hand == [] && s.pool.cancelQueue == [] && Used(s) < FedTotal(c)
    requires s.feed.pending != [] || FeederRests(c, s)
    ensures s.feed.pending != [] && s.feed.pending[0].Rollout?
  {}

  // ---- the processor takes a sample ----

  // In its stretch, at the head of its loop, with nothing that stops it.
  predicate Looking(c: Config, l: Loop) {
    && l.going && l.s.worker.loc.Top? && l.s.worker.hand == [] && l.s.pool.cancelQueue == []
    && !l.s.gate.paused && !l.s.gate.closed && !ShouldPause(c, l.s) && Used(l.s) < FedTotal(c)
  }

  function Took(s: State, feed: FeedState, id: nat): State {
    s.(feed := feed, worker := s.worker.(loc := Drain(ForSlot, Test), hand := [id]),
       ver := s.ver.(staleness := s.ver.staleness + 1))
  }

  lemma {:induction false} TakeOne(c: Config, l: Loop) returns (l': Loop, id: nat)
    requires Reachable(c, l.s) && Looking(c, l) && AllBegun(l.ready)
    ensures Goes(c, l, l') && id !in l.s.pool.running && AllBegun(l'.ready)
    ensures l' == l.(s := Took(l.s, l'.s.feed, id), ready := l'.ready)
  {
    hide Goes, Reachable, Valid, Used, FedTotal, AllBegun;
    var m := LooksOn(c, l);
    m := Stocked(c, l, m);
    l', id := TakeNext(c, l, m);
  }

  // Right after the feeder's turn it does not wait.
  lemma {:induction false} TakeAhead(c: Config, l: Loop) returns (l': Loop, id: nat)
    requires Reachable(c, l.s) && Looking(c, l) && FeederRests(c, l.s)
    ensures Goes(c, l, l') && id !in l.s.pool.running
    ensures l' == l.(s := Took(l.s, l'.s.feed, id))
  {
    hide Goes, Reachable, Valid, Used, FedTotal, FeederRests;
    var m := LooksOn(c, l);
    RestsSame(c, l.s, m.s);
    Supply(c, m.s) by { GoesFacts(c, l, m); }
    l', id := TakeNext(c, l, m);
  }

  lemma {:induction false} RestsSame(c: Config, s: State, s': State)
    requires s'.feed == s.feed
    ensures FeederRests(c, s') == FeederRests(c, s)
  {}

  lemma {:induction false} LooksOn(c: Config, l: Loop) returns (l': Loop)
    requires Reachable(c, l.s) && Looking(c, l)
    ensures Goes(c, l, l') && l' == l.(s := At(l.s, AwaitPending)) && Used(l'.s) == Used(l.s)
  {
    hide Goes, Reachable, Valid, Used, FedTotal;
    Here(c, l);
    GoesFacts(c, l, l);
    l' := Do(c, l, l, Go(Look));
    UsedSame(c, l.s, l'.s);
  }

  lemma {:induction false} TakeNext(c: Config, o: Loop, l: Loop) returns (l': Loop, id: nat)
    requires Goes(c, o, l) && l.going && l.s.worker.loc.AwaitPending? && l.s.feed.pending != []
    requires l.s.worker.hand == [] && l.s.pool.cancelQueue == [] && !l.s.gate.closed && Used(l.s) < FedTotal(c)
    ensures Goes(c, o, l') && id !in l.s.pool.running && l' == l.(s := Took(l.s, l'.s.feed, id))
  {
    hide Goes, Reachable, Valid, Used, FedTotal;
    GoesFacts(c, o, l);
    Supply(c, l.s);
    id := l.s.feed.pending[0].id;
    l' := Do(c, o, l, Go(TakePending));
  }

  lemma {:induction false} UsedSame(c: Config, s: State, s': State)
    requires s'.pool == s.pool && s'.queue == s.queue && s'.history == s.history
    ensures Used(s') == Used(s)
  {}

  // Waits for the feeder if the pending queue is empty.
  lemma {:induction false} Stocked(c: Config, o: Loop, l: Loop) returns (l': Loop)
    requires Goes(c, o, l) && l.going && l.s.worker.loc.AwaitPending? && AllBegun(l.ready)
    requires l.s.worker.hand == [] && l.s.pool.cancelQueue == [] && !l.s.gate.closed && Used(l.s) < FedTotal(c)
    ensures Goes(c, o, l') && l'.s.feed.pending != [] && AllBegun(l'.ready) && Used(l'.s) == Used(l.s)
    ensures l' == l.(s := l.s.(feed := l'.s.feed), ready := l'.ready)
  {
    hide Goes, Reachable, Valid, Used, FedTotal, FeederRests;
    GoesFacts(c, o, l);
    l' := l;
    if l.s.feed.pending == [] {
      l' := Do(c, o, l, Suspend);
      GoesFacts(c, o, l');
      if FeederRests(c, l'.s) { Supply(c, l'.s) by { UsedSame(c, l.s, l'.s); } }
      var m := FeederWakes(c, l');
      Onward(c, o, l', m);
      m := Settle(c, o, m, [Getter], l.ready);
      l' := GetterRuns(c, o, m);
      UsedSame(c, l.s, l'.s);
    }
  }

  lemma {:induction false} GetterRuns(c: Config, o: Loop, l: Loop) returns (l': Loop)
    requires Goes(c, o, l) && !l.going && l.ready == [Getter] && FeederRests(c, l.s)
    ensures Goes(c, o, l') && l' == l.(going := true, ready := [])
  {
    hide Goes, FeederRests;
    GoesFacts(c, o, l);
    l' := Do(c, o, l, Run);
  }

  // ---- and makes it a task ----

  lemma {:induction false} SubmitNow(c: Config, o: Loop, l: Loop, id: nat) returns (l': Loop)
    requires Goes(c, o, l) && l.going && l.s.worker.loc.Submitting? && l.s.worker.hand == [id]
    requires Mine(l) && !l.s.gate.paused && id !in l.s.pool.running
    ensures Goes(c, o, l')
    ensures l' == l.(waiters := Popped(l.waiters), s := l.s.(
      worker := l.s.worker.(loc := Top, hand := []),
      pool := l.s.pool.(running := l.s.pool.running[id := Generating])),
      ready := l.ready + [Begun(id)] + (if Popped(l.waiters) == [] then [] else [Hand]))
    ensures |l'.s.pool.running| == |l.s.pool.running| + 1
  {
    hide Goes, ShouldPause;
    GoesFacts(c, o, l);
    l' := Do(c, o, l, Go(Submit));
    NewKey(l.s.pool.running, id);
  }

  lemma {:induction false} NewKey(m: map<nat, Task>, id: nat)
    requires id !in m
    ensures |m[id := Generating]| == |m| + 1
  {
    assert m[id := Generating].Keys == m.Keys + {id};
    assert |m[id := Generating]| == |m[id := Generating].Keys|;
  }

  lemma {:induction false} OneGenerating(id: nat)
    ensures |map[id := Generating]| == 1
  {
    assert map[id := Generating].Keys == {id};
    assert |map[id := Generating]| == |map[id := Generating].Keys|;
  }

  // All slots are taken: it waits, with the lock, for a task to complete.
  lemma {:induction false} HoldSlot(c: Config, l: Loop) returns (l': Loop, id: nat)
    requires Reachable(c, l.s) && Looking(c, l) && l.waiters == [] && l.s.gate.lock.Free? && AllBegun(l.ready)
    requires l.s.Active() >= c.maxConcurrent >= 1
    ensures Goes(c, l, l') && id !in l.s.pool.running
    ensures var s := Took(l.s, l'.s.feed, id);
      l' == l.(going := false, ready := [], s := s.(worker := s.worker.(loc := Drain(ForSlot, Holding)),
                                                    gate := s.gate.(lock := ByProcessor)))
  {
    hide Goes, Reachable, ShouldPause, Used, AllBegun;
    l', id := TakeOne(c, l);
    GoesFacts(c, l, l');
    l' := Do(c, l, l', Go(DrainTest));
    l' := Do(c, l, l', Go(DrainLock));
    l' := Settled(c, l, l');
  }

  // The reply of a put comes back: asyncio.wait returns.
  lemma {:induction false} TasksReturn(c: Config, o: Loop, l: Loop) returns (l': Loop)
    requires Goes(c, o, l) && AtRest(l) && l.s.worker.loc.Drain? && l.s.worker.loc.phase.Holding?
    requires l.s.pool.finished > 0
    ensures Goes(c, o, l') && l' == l.(going := true, s := l.s.(feed := l'.s.feed))
  {
    hide Goes, Reachable, ShouldPause, Safe, Valid;
    GoesFacts(c, o, l);
    var m := Do(c, o, l, Arrive(Tasks));
    l' := Resumed(c, o, m);
  }

  // Room again: it harvests the completed tasks and goes on to submit.
  lemma {:induction false} Harvested(c: Config, o: Loop, l: Loop) returns (l': Loop)
    requires Goes(c, o, l) && AtRest(l) && l.s.worker.loc == Drain(ForSlot, Holding)
    requires l.s.pool.finished > 0 && |l.s.pool.running| < c.maxConcurrent
    ensures Goes(c, o, l')
    ensures l' == l.(going := true, ready := if l.waiters == [] then [] else [Hand], s := l.s.(
      feed := l'.s.feed, worker := l.s.worker.(loc := Submitting, doneBound := true),
      pool := l.s.pool.(finished := 0), gate := l.s.gate.(lock := Free)))
  {
    hide Goes, Reachable, ShouldPause, Safe, Valid, Popped, LockPoint, FeederRests;
    l' := TasksReturn(c, o, l);
    GoesFacts(c, o, l');
    l' := Do(c, o, l', Go(Harvest(0)));
    l' := Do(c, o, l', Go(DrainTest));
  }

  // ---- tasks complete ----

  function Done(s: State, id: nat, v: int): State {
    s.(pool := s.pool.(running := s.pool.running - {id}, finished := s.pool.finished + 1),
       queue := s.queue + [Rollout(id, v)],
       history := s.history.(puts := s.history.puts + [Rollout(id, v)]))
  }

  lemma {:induction false} FinishTask(c: Config, o: Loop, l: Loop, id: nat) returns (l': Loop, v: int)
    requires Goes(c, o, l) && AtRest(l) && id in l.s.pool.running && |l.s.queue| < c.maxRequired
    requires !l.s.Refuses()
    ensures Goes(c, o, l') && l' == l.(s := Done(l.s, id, v))
    ensures v == match l.s.pool.running[id] case Generating => l.s.ver.current case Finished(w) => w
    ensures |l'.s.pool.running| == |l.s.pool.running| - 1
  {
    hide Goes, ShouldPause, Safe, Valid, Reachable, Popped;
    GoesFacts(c, o, l);
    l' := l;
    v := match l.s.pool.running[id] case Generating => l.s.ver.current case Finished(w) => w;
    if l.s.pool.running[id].Generating? {
      l' := Replied(c, o, l, OfTask(Generate(id)));
    }
    assert l'.s.pool.running - {id} == l.s.pool.running - {id};
    l' := Do(c, o, l', Remote(OfTask(PutSample(id))));
    RunningSizes(l.s.pool.running, id, Generating);
  }

  // ---- one sample more, and many ----

  // Only samples have moved towards the message queue; the task of `keep`, if any, is as it was.
  predicate OnlyWork(s: State, s': State, keep: int) {
    && s'.gate == s.gate && s'.trainer == s.trainer && s'.ver.current == s.ver.current
    && s'.ver.update == s.ver.update && s'.history == s.history.(puts := s'.history.puts)
    && s'.pool.cancelQueue == s.pool.cancelQueue && s.queue <= s'.queue
    && (keep in s.pool.running ==> keep in s'.pool.running && s'.pool.running[keep] == s.pool.running[keep])
  }

  // The processor looks for work, with the lock free and nobody waiting for it.
  predicate Working(c: Config, l: Loop) {
    && l.going && l.s.worker.loc.Top? && l.s.worker.hand == [] && l.s.pool.cancelQueue == []
    && !l.s.gate.paused && !l.s.gate.closed && l.s.gate.lock.Free? && l.waiters == [] && AllBegun(l.ready)
    && l.s.pool.finished == 0 && 2 <= c.maxConcurrent && |l.s.pool.running| <= c.maxConcurrent
    && !l.s.Refuses()
  }

  lemma {:induction false} AnotherTask(m: map<nat, Task>, keep: int) returns (id: nat)
    requires |m| >= 2
    ensures id in m && id != keep
  {
    var rest := m.Keys - {keep};
    assert |m.Keys| == |m|;
    assert |rest| >= |m.Keys| - 1;
    id :| id in rest;
  }

  lemma {:induction false} Push(c: Config, l: Loop, keep: int) returns (l': Loop)
    requires Reachable(c, l.s) && Working(c, l) && !ShouldPause(c, l.s) && Used(l.s) < FedTotal(c)
    ensures Goes(c, l, l') && Working(c, l') && OnlyWork(l.s, l'.s, keep)
    ensures l'.s.ver.staleness == l.s.ver.staleness + 1
    ensures |l'.s.pool.running| == Min(c.maxConcurrent, |l.s.pool.running| + 1)
    ensures |l'.s.pool.running| + |l'.s.queue| == |l.s.pool.running| + |l.s.queue| + 1
  {
    if |l.s.pool.running| < c.maxConcurrent {
      l' := PushFree(c, l, keep);
    } else {
      l' := PushFull(c, l, keep);
    }
  }

  lemma {:induction false} PushFree(c: Config, l: Loop, keep: int) returns (l': Loop)
    requires Reachable(c, l.s) && Working(c, l) && !ShouldPause(c, l.s) && Used(l.s) < FedTotal(c)
    requires |l.s.pool.running| < c.maxConcurrent
    ensures Goes(c, l, l') && Working(c, l') && OnlyWork(l.s, l'.s, keep)
    ensures l'.s.ver.staleness == l.s.ver.staleness + 1 && l'.s.queue == l.s.queue
    ensures |l'.s.pool.running| == |l.s.pool.running| + 1
  {
    hide Goes, Reachable, ShouldPause, Used, FedTotal, Safe;
    var m, id := TakeOne(c, l);
    GoesFacts(c, l, m);
    m := Do(c, l, m, Go(DrainTest));
    l' := SubmitNow(c, l, m, id);
  }

  lemma {:induction false} PushFull(c: Config, l: Loop, keep: int) returns (l': Loop)
    requires Reachable(c, l.s) && Working(c, l) && !ShouldPause(c, l.s) && Used(l.s) < FedTotal(c)
    requires |l.s.pool.running| == c.maxConcurrent
    ensures Goes(c, l, l') && Working(c, l') && OnlyWork(l.s, l'.s, keep)
    ensures l'.s.ver.staleness == l.s.ver.staleness + 1 && |l'.s.queue| == |l.s.queue| + 1
    ensures |l'.s.pool.running| == |l.s.pool.running|
  {
    hide Goes, Reachable, Used, FedTotal, Safe;
    var m, id := HoldSlot(c, l);
    var y := AnotherTask(m.s.pool.running, keep);
    var v;
    m, v := FinishTask(c, l, m, y);
    m := Harvested(c, l, m);
    l' := SubmitNow(c, l, m, id);
  }

  // The counter covers what runs and is queued, or misses one that runs.
  predicate Counted(s: State) {
    var n := |s.pool.running| + |s.queue|;
    n <= s.ver.staleness || (n == s.ver.staleness + 1 && s.pool.running != map[])
  }

  lemma {:induction false} PushMany(c: Config, l: Loop, n: nat, keep: int) returns (l': Loop)
    requires Reachable(c, l.s) && Working(c, l) && Counted(l.s)
    requires l.s.ver.staleness + n <= c.maxRequired && Used(l.s) + n <= FedTotal(c)
    ensures Goes(c, l, l') && Working(c, l') && OnlyWork(l.s, l'.s, keep)
    ensures l'.s.ver.staleness == l.s.ver.staleness + n
    ensures |l'.s.pool.running| == Min(c.maxConcurrent, |l.s.pool.running| + n)
    ensures |l'.s.pool.running| + |l'.s.queue| == |l.s.pool.running| + |l.s.queue| + n
    decreases n
  {
    hide Goes, Reachable, FedTotal, Working;
    Here(c, l);
    l' := l;
    if n == 0 {
      SlotsEnough(c, l);
    } else {
      NotFull(c, l.s);
      var m := Push(c, l, keep);
      GoesFacts(c, l, m);
      l' := PushMany(c, m, n - 1, keep);
      Onward(c, l, m, l');
    }
  }

  lemma {:induction false} SlotsEnough(c: Config, l: Loop)
    ensures Working(c, l) ==> |l.s.pool.running| <= c.maxConcurrent
  {}

  lemma {:induction false} NotFull(c: Config, s: State)
    requires Counted(s) && s.ver.staleness < c.maxRequired
    ensures !ShouldPause(c, s)
  {}

  // n tasks complete.
  lemma {:induction false} FinishMany(c: Config, o: Loop, l: Loop, n: nat, keep: int) returns (l': Loop)
    requires Goes(c, o, l) && AtRest(l) && |l.s.queue| + n <= c.maxRequired && !l.s.Refuses()
    requires n <= |l.s.pool.running| - (if keep in l.s.pool.running then 1 else 0)
    ensures Goes(c, o, l') && OnlyWork(l.s, l'.s, keep)
    ensures l' == l.(s := l.s.(pool := l'.s.pool, queue := l'.s.queue, history := l'.s.history))
    ensures |l'.s.pool.running| == |l.s.pool.running| - n && l'.s.pool.finished == l.s.pool.finished + n
    ensures |l'.s.queue| == |l.s.queue| + n
    ensures keep in l'.s.pool.running ==> keep in l.s.pool.running
    decreases n
  {
    hide Goes;
    l' := l;
    if n > 0 {
      var y := OneTask(l.s.pool.running, keep);
      var m, v := FinishTask(c, o, l, y);
      l' := FinishMany(c, o, m, n - 1, keep);
    }
  }

  lemma {:induction false} OneTask(m: map<nat, Task>, keep: int) returns (id: nat)
    requires |m| > (if keep in m then 1 else 0)
    ensures id in m && id != keep
  {
    if keep in m {
      id := AnotherTask(m, keep);
    } else {
      assert |m.Keys| == |m|;
      id :| id in m.Keys;
    }
  }

  // Enough is outstanding: it sets the flag, and waits with the lock for a task to complete.
  lemma {:induction false} HoldPause(c: Config, l: Loop) returns (l': Loop)
    requires Reachable(c, l.s) && Working(c, l) && ShouldPause(c, l.s) && l.s.pool.running != map[]
    ensures Goes(c, l, l')
    ensures l' == l.(going := false, ready := [], s := l.s.(
      worker := l.s.worker.(loc := Drain(ForPause, Holding)), gate := l.s.gate.(paused := true, lock := ByProcessor)))
  {
    hide Goes, Reachable, ShouldPause, Safe, Valid, AllBegun;
    l' := SetsPaused(c, l);
    GoesFacts(c, l, l');
    l' := Do(c, l, l', Go(DrainTest));
    l' := Do(c, l, l', Go(DrainLock));
    l' := Settled(c, l, l');
  }

  lemma {:induction false} SetsPaused(c: Config, l: Loop) returns (l': Loop)
    requires Reachable(c, l.s) && Working(c, l) && ShouldPause(c, l.s)
    ensures Goes(c, l, l')
    ensures l' == l.(s := l.s.(worker := l.s.worker.(loc := Drain(ForPause, Test)), gate := l.s.gate.(paused := true)))
  {
    hide Goes, Reachable, ShouldPause, Safe, Valid, AllBegun;
    Here(c, l);
    GoesFacts(c, l, l);
    l' := Do(c, l, l, Go(Look));
    l' := Do(c, l, l', Go(SetPaused));
  }

  // ---- the trainer ----

  function Gotten(s: State, n: nat): State
    requires n <= |s.queue|
  {
    s.(queue := s.queue[n..], trainer := s.trainer.(collected := s.trainer.collected + s.queue[..n]),
       history := s.history.(consumed := s.history.consumed + s.queue[..n]))
  }

  lemma {:induction false} GetMany(c: Config, o: Loop, l: Loop, n: nat) returns (l': Loop)
    requires Goes(c, o, l) && l.s.trainer.phase.Collecting? && !l.s.gate.closed
    requires n <= |l.s.queue| && |l.s.trainer.collected| + n <= c.required
    ensures Goes(c, o, l') && l' == l.(s := Gotten(l.s, n))
    decreases n
  {
    hide Goes;
    GoesFacts(c, o, l);
    l' := l;
    if n == 0 {
      assert l.s == Gotten(l.s, 0);
    } else {
      assert l.s.queue[0].Rollout?;
      var m := Do(c, o, l, Remote(OfTrainer(GetSample)));
      assert m == l.(s := Gotten(l.s, 1));
      l' := GetMany(c, o, m, n - 1);
      GottenAgain(l.s, n);
    }
  }

  lemma {:induction false} GottenAgain(s: State, n: nat)
    requires 1 <= n <= |s.queue|
    ensures Gotten(Gotten(s, 1), n - 1) == Gotten(s, n)
  {
    var q := s.queue;
    assert q[1..][n - 1..] == q[n..];
    assert q[..1] + q[1..][..n - 1] == q[..n];
    assert s.trainer.collected + q[..1] + q[1..][..n - 1] == s.trainer.collected + q[..n];
    assert s.history.consumed + q[..1] + q[1..][..n - 1] == s.history.consumed + q[..n];
  }

  // The trainer has consumed the first n entries.
  predicate Consumes(s: State, s': State, n: nat) {
    && n <= |s.queue| && s'.trainer.collected == [] && s'.trainer.copied == s.trainer.copied
    && s' == s.(queue := s.queue[n..], trainer := s'.trainer, history := s'.history)
    && s'.history == s.history.(consumed := s.history.consumed + s.queue[..n], trained := s'.history.trained)
    && s.history.trained <= s'.history.trained
  }

  lemma {:induction false} ConsumesMore(s: State, m: State, s': State, n: nat, k: nat)
    requires Consumes(s, m, n) && Consumes(m, s', k)
    ensures Consumes(s, s', n + k)
  {
    var q := s.queue;
    assert q[n..][k..] == q[n + k..];
    assert q[..n] + q[n..][..k] == q[..n + k];
    assert s.history.consumed + q[..n] + q[n..][..k] == s.history.consumed + q[..n + k];
  }

  lemma {:induction false} Batch(c: Config, o: Loop, l: Loop) returns (l': Loop)
    requires Goes(c, o, l) && l.s.trainer.phase.Collecting? && !l.s.gate.closed && l.s.trainer.collected == []
    requires 1 <= c.required <= |l.s.queue|
    ensures Goes(c, o, l') && l' == l.(s := l'.s) && Consumes(l.s, l'.s, c.required)
    ensures l'.s.history.trained == l.s.history.trained + [TrainStep(l.s.trainer.version, l.s.queue[..c.required])]
    ensures
      if l.s.trainer.localStep < c.trigger then
        && l'.s.trainer.phase.Collecting? && l'.s.trainer.version == l.s.trainer.version
        && l'.s.trainer.localStep == l.s.trainer.localStep + 1
      else
        && l'.s.trainer.phase == AwaitLast(false) && l'.s.trainer.version == l.s.trainer.version + 1
        && l'.s.trainer.localStep == 1
  {
    hide Goes;
    GoesFacts(c, o, l);
    var m := GetMany(c, o, l, c.required);
    assert [] + l.s.queue[..c.required] == l.s.queue[..c.required];
    l' := Do(c, o, m, Remote(OfTrainer(Train)));
  }

  lemma {:induction false} Batches(c: Config, o: Loop, l: Loop, n: nat) returns (l': Loop)
    requires Goes(c, o, l) && l.s.trainer.phase.Collecting? && !l.s.gate.closed && l.s.trainer.collected == []
    requires 1 <= c.required && 1 <= n && l.s.trainer.localStep + n == c.trigger + 1
    requires 0 <= n * c.required <= |l.s.queue|
    ensures Goes(c, o, l') && l' == l.(s := l'.s) && Consumes(l.s, l'.s, n * c.required)
    ensures l'.s.trainer.phase == AwaitLast(false) && l'.s.trainer.version == l.s.trainer.version + 1
    ensures l'.s.trainer.localStep == 1
    decreases n
  {
    hide Goes, Consumes;
    assert n * c.required == (n - 1) * c.required + c.required;
    if n == 1 {
      l' := Batch(c, o, l);
    } else {
      assert (n - 1) * c.required >= 1 * c.required;
      var m := Batch(c, o, l);
      ConsumesFacts(l.s, m.s, c.required);
      l' := Batches(c, o, m, n - 1);
      ConsumesMore(l.s, m.s, l'.s, c.required, (n - 1) * c.required);
    }
  }

  lemma {:induction false} ConsumesFacts(s: State, s': State, n: nat)
    requires Consumes(s, s', n)
    ensures |s'.queue| == |s.queue| - n && s'.gate == s.gate && s'.trainer.collected == []
  {}

  // The trainer consumes what one version takes.
  lemma {:induction false} TrainAll(c: Config, o: Loop, l: Loop) returns (l': Loop)
    requires Goes(c, o, l) && l.s.trainer.phase.Collecting? && !l.s.gate.closed
    requires l.s.trainer.collected == [] && l.s.trainer.localStep == 1
    requires 1 <= PerVersion(c) <= |l.s.queue|
    ensures Goes(c, o, l') && l' == l.(s := l'.s) && Consumes(l.s, l'.s, PerVersion(c))
    ensures l'.s.trainer.phase == AwaitLast(false) && l'.s.trainer.version == l.s.trainer.version + 1
    ensures l'.s.trainer.localStep == 1
  {
    hide Goes, Consumes;
    GoesFacts(c, o, l);
    assert c.trigger * c.required == PerVersion(c);
    l' := Batches(c, o, l, c.trigger);
  }

  // ---- a sync ----

  // What update_param_version and resume leave, the lock being free and nobody waiting for it.
  function Renewed(s: State): State {
    s.(gate := s.gate.(paused := false, monitorTrigger := true, cancelling := false),
       ver := Version(s.Active() + |s.pool.cancelQueue| + |s.queue|, s.trainer.version, Idle),
       trainer := s.trainer.(copied := s.trainer.version, globalSteps := s.trainer.globalSteps + 1,
                             phase := Collecting),
       history := s.history.(handEmptyAtResets := s.history.handEmptyAtResets && s.worker.hand == []))
  }

  lemma {:induction false} SyncIdle(c: Config, s: State)
    requires Safe(c, s) && Syncing(s.trainer.phase)
    ensures s.ver.update.Idle?
  {}

  lemma {:induction false} Broadcast(c: Config, o: Loop, l: Loop) returns (l': Loop)
    requires Goes(c, o, l) && AtRest(l) && l.waiters == [] && l.s.gate.lock.Free?
    requires l.s.trainer.phase == Copying(false)
    ensures Goes(c, o, l')
    ensures l' == Loop(Renewed(l.s), false, [], if Sleeping(l) then [Notice] else [])
  {
    hide Goes, ShouldPause, Safe, Valid, Reachable, FeederRests, May, Next;
    l' := Announced(c, o, l);
    l' := Renews(c, o, l');
    l' := Resumes(c, o, l');
  }

  lemma {:induction false} Announced(c: Config, o: Loop, l: Loop) returns (l': Loop)
    requires Goes(c, o, l) && AtRest(l) && l.waiters == [] && l.s.gate.lock.Free?
    requires l.s.trainer.phase == Copying(false)
    ensures Goes(c, o, l')
    ensures l' == l.(s := l.s.(
      gate := l.s.gate.(lock := ByUpdate), ver := l.s.ver.(current := l.s.trainer.version,
        update := Counting(l.s.Active() + |l.s.pool.cancelQueue|)),
      trainer := l.s.trainer.(copied := l.s.trainer.version, globalSteps := l.s.trainer.globalSteps + 1,
                              phase := Collecting)))
  {
    hide Goes, ShouldPause, Safe, Valid, Reachable, FeederRests;
    GoesFacts(c, o, l);
    l' := Do(c, o, l, Remote(OfTrainer(CopyWeights)));
    l' := Called(c, o, l', Update);
  }

  lemma {:induction false} Resumes(c: Config, o: Loop, l: Loop) returns (l': Loop)
    requires Goes(c, o, l) && AtRest(l) && Available(l) && l.s.ver.update.ResumeRequested?
    ensures Goes(c, o, l')
    ensures l' == l.(ready := if Sleeping(l) then [Notice] else [], s := l.s.(
      gate := l.s.gate.(paused := false, monitorTrigger := true, cancelling := false),
      ver := l.s.ver.(update := Idle)))
  {
    hide Goes, ShouldPause, Safe, Valid, Reachable, FeederRests;
    GoesFacts(c, o, l);
    l' := Called(c, o, l, Resume);
    if c.partial { l' := Replied(c, o, l', OfUpdate(ResumeEnd)); }
  }

  // update_param_version, once it has the lock
  lemma {:induction false} Renews(c: Config, o: Loop, l: Loop) returns (l': Loop)
    requires Goes(c, o, l) && AtRest(l) && l.s.ver.update.Counting?
    ensures Goes(c, o, l')
    ensures l' == l.(ready := if l.waiters == [] then [] else [Hand], s := l.s.(
      gate := l.s.gate.(lock := Free),
      ver := l.s.ver.(staleness := l.s.ver.update.partialCount + |l.s.queue|, update := ResumeRequested),
      history := l.s.history.(handEmptyAtResets := l.s.history.handEmptyAtResets && l.s.worker.hand == [])))
  {
    hide Goes, ShouldPause, Safe, Valid, Reachable, FeederRests;
    GoesFacts(c, o, l);
    l' := Do(c, o, l, Remote(OfUpdate(UpdateRead)));
    l' := Replied(c, o, l', OfUpdate(UpdateWrite));
    l' := Replied(c, o, l', OfUpdate(UpdateEnd));
  }

  // Notified of it, the processor goes on.
  lemma {:induction false} Woken(c: Config, o: Loop, l: Loop) returns (l': Loop)
    requires Goes(c, o, l) && !l.going && l.ready == [Notice]
    requires l.s.worker.loc.Submitting? || l.s.worker.loc.WaitResume?
    ensures Goes(c, o, l') && l' == l.(going := true, ready := [], s := l.s.(feed := l'.s.feed))
  {
    hide Goes;
    l' := Resumed(c, o, l);
  }

  // Handed the lock and finding the pause still on, it waits on the condition.
  lemma {:induction false} WaitsOn(c: Config, o: Loop, l: Loop) returns (l': Loop)
    requires Goes(c, o, l) && !l.going && l.waiters == [Processor] && l.ready == [Hand]
    requires l.s.gate.lock.Free? && l.s.gate.paused
    requires l.s.worker.loc.Submitting? || l.s.worker.loc.WaitResume?
    ensures Goes(c, o, l') && Sleeping(l')
    ensures l' == l.(waiters := [], ready := [], s := l.s.(feed := l'.s.feed))
  {
    hide Goes, ShouldPause, Safe;
    l' := Resumed(c, o, l);
    GoesFacts(c, o, l');
    l' := Do(c, o, l', Suspend);
  }

  // ---- the first version, up to its sync ----

  function Max(a: int, b: int): int { if a >= b then a else b }

  // The processor waits for a slot with a sample in hand; the trainer is about to sync.
  predicate SlotHeld(c: Config, l: Loop, id: nat) {
    && AtRest(l) && l.s.worker.loc == Drain(ForSlot, Holding) && l.s.worker.hand == [id]
    && l.s.gate.lock.ByProcessor? && !l.s.gate.closed && !l.s.gate.paused && l.s.ver.update.Idle?
    && l.s.pool.finished > 0 && |l.s.pool.running| < c.maxConcurrent && l.s.pool.cancelQueue == []
    && id !in l.s.pool.running
  }

  lemma {:induction false} Opening(c: Config) returns (l: Loop, id: nat)
    requires Valid(c) && 2 <= c.maxConcurrent < c.maxRequired && 1 <= PerVersion(c) < c.maxRequired
    requires Max(c.maxConcurrent, PerVersion(c)) < FedTotal(c)
    ensures Goes(c, Start(c), l) && SlotHeld(c, l, id) && l.waiters == []
    ensures l.s.trainer == Trainer(AwaitLast(false), c.startVersion + 1, 1, l.s.trainer.globalSteps, [], c.startVersion)
    ensures l.s.ver == Version(Max(c.maxConcurrent, PerVersion(c)) + 1, c.startVersion, Idle)
    ensures l.s.queue == [] && l.s.history.dropped == [] && |l.s.history.consumed| == PerVersion(c)
    ensures l.s.gate.monitorTrigger && !l.s.gate.monitorWaiting
    ensures |l.s.pool.running| == Max(c.maxConcurrent, PerVersion(c)) - PerVersion(c)
  {
    hide Goes, FedTotal, PerVersion, Consumes, Valid;
    var p, k := Max(c.maxConcurrent, PerVersion(c)), PerVersion(c);
    var f := FirstTurn(c);
    var o := Start(c);
    GoesFacts(c, o, f);
    var m := PushMany(c, f, p, -1);
    Onward(c, o, f, m);
    GoesFacts(c, o, m);
    l, id := HoldSlot(c, m);
    Onward(c, o, m, l);
    l := FinishMany(c, o, l, k - |l.s.queue|, id);
    var t := TrainAll(c, o, l);
    ConsumedFacts(l.s, t.s, k);
    l := t;
  }

  lemma {:induction false} ConsumedFacts(s: State, s': State, n: nat)
    requires Consumes(s, s', n)
    ensures s'.gate == s.gate && s'.worker == s.worker && s'.pool == s.pool && s'.ver == s.ver && s'.feed == s.feed
    ensures s'.trainer.collected == [] && s'.trainer.copied == s.trainer.copied
    ensures s'.queue == s.queue[n..] && s'.history.dropped == s.history.dropped
    ensures s'.history.consumed == s.history.consumed + s.queue[..n]
    ensures s'.history.strayed == s.history.strayed
  {}

  lemma {:induction false} NoKeys(m: map<nat, Task>)
    requires |m| == 0
    ensures m == map[]
  {}

  // The pause it was queued behind is over.
  lemma {:induction false} PauseOver(c: Config, o: Loop, l: Loop, id: nat, ws: seq<Waiter>) returns (l': Loop)
    requires Goes(c, o, l) && SlotHeld(c, l, id) && l.waiters == [Pause] + ws
    requires l.s.trainer.phase == PauseRequested(false)
    requires |l.s.queue| + |l.s.pool.running| <= c.maxRequired
    ensures Goes(c, o, l') && !l'.going && l'.ready == [Hand] && l'.waiters == ws + [Processor]
    ensures l'.s.worker == Worker(Submitting, [id], true) && l'.s.pool == Pool(map[], 0, [])
    ensures l'.s.gate ==
      l.s.gate.(paused := true, lock := Free, cancelling := c.partial, monitorTrigger := false)
    ensures l'.s.trainer == l.s.trainer.(phase := Copying(false)) && l'.s.ver == l.s.ver
    ensures |l'.s.queue| == |l.s.queue| + |l.s.pool.running| && l.s.queue <= l'.s.queue
    ensures l'.s.history == l.s.history.(puts := l'.s.history.puts)
  {
    hide Goes, May, Next;
    l' := PauseBegun(c, o, l, id, ws);
    l' := FinishMany(c, o, l', |l.s.pool.running|, id);
    NoKeys(l'.s.pool.running);
    l' := PauseEnds(c, o, l');
  }

  lemma {:induction false} PauseBegun(c: Config, o: Loop, l: Loop, id: nat, ws: seq<Waiter>) returns (l': Loop)
    requires Goes(c, o, l) && SlotHeld(c, l, id) && l.waiters == [Pause] + ws
    requires l.s.trainer.phase == PauseRequested(false)
    ensures Goes(c, o, l')
    ensures l' == l.(waiters := ws + [Processor], s := l.s.(
      feed := l'.s.feed, worker := Worker(Submitting, [id], true), pool := l.s.pool.(finished := 0),
      gate := l.s.gate.(paused := true, lock := ByPause, cancelling := c.partial),
      trainer := l.s.trainer.(phase := Pausing(false))))
  {
    hide Goes, ShouldPause, Valid, Reachable, Safe, FeederRests;
    l' := Harvested(c, o, l);
    GoesFacts(c, o, l');
    l' := Do(c, o, l', Suspend);
    assert l'.waiters == [Pause] + (ws + [Processor]) && l'.waiters[1..] == ws + [Processor];
    l' := Handed(c, o, l');
  }

  lemma {:induction false} PauseEnds(c: Config, o: Loop, l: Loop) returns (l': Loop)
    requires Goes(c, o, l) && AtRest(l) && l.s.pool.running == map[] && l.s.trainer.phase == Pausing(false)
    ensures Goes(c, o, l')
    ensures l' == l.(ready := if l.waiters == [] then [] else [Hand], s := l.s.(
      pool := l.s.pool.(finished := 0), gate := l.s.gate.(lock := Free, monitorTrigger := false),
      trainer := l.s.trainer.(phase := Copying(false))))
  {
    hide Goes, ShouldPause, Valid, Reachable, Safe, FeederRests;
    GoesFacts(c, o, l);
    l' := Replied(c, o, l, OfTrainer(PauseEnd));
  }

  // ---- from one version to the next ----

  predicate Fresh(t: Trainer) {
    t.phase.Collecting? && t.collected == [] && t.localStep == 1
  }

  // With its last tasks completed while it drains for a pause, the processor goes through a sync.
  lemma {:induction false} DrainedSync(c: Config, o: Loop, l: Loop) returns (l': Loop)
    requires Goes(c, o, l) && AtRest(l) && l.waiters == [] && l.s.worker.loc == Drain(ForPause, Holding)
    requires l.s.worker.hand == [] && l.s.gate.lock.ByProcessor? && l.s.gate.paused && !l.s.gate.closed
    requires l.s.pool.running == map[] && l.s.pool.finished > 0 && l.s.pool.cancelQueue == []
    requires l.s.trainer.phase == AwaitLast(false) && l.s.ver.update.Idle? && c.maxConcurrent >= 2
    ensures Goes(c, o, l') && Working(c, l') && l'.s.pool == Pool(map[], 0, [])
    ensures Synced(l.s, l'.s)
  {
    hide Goes, ShouldPause, Valid, Reachable, Safe, FeederRests, May, Next;
    l' := DrainedPause(c, o, l);
    l' := WaitsOn(c, o, l');
    l' := Broadcast(c, o, l');
    l' := WokenUp(c, o, l');
  }

  lemma {:induction false} DrainedPause(c: Config, o: Loop, l: Loop) returns (l': Loop)
    requires Goes(c, o, l) && AtRest(l) && l.waiters == [] && l.s.worker.loc == Drain(ForPause, Holding)
    requires l.s.gate.lock.ByProcessor? && l.s.gate.paused
    requires l.s.pool.running == map[] && l.s.pool.finished > 0
    requires l.s.trainer.phase == AwaitLast(false) && l.s.ver.update.Idle?
    ensures Goes(c, o, l')
    ensures l' == l.(waiters := [Processor], ready := [Hand], s := l.s.(
      feed := l'.s.feed, pool := l.s.pool.(finished := 0),
      gate := l.s.gate.(lock := Free, cancelling := c.partial, monitorTrigger := false),
      worker := l.s.worker.(doneBound := true, loc := WaitResume),
      trainer := l.s.trainer.(phase := Copying(false))))
  {
    hide Goes, ShouldPause, Valid, Reachable, Safe, FeederRests;
    l' := DrainedBehind(c, o, l);
    GoesFacts(c, o, l');
    l' := Handed(c, o, l');
    l' := PauseEnds(c, o, l');
  }

  lemma {:induction false} DrainedBehind(c: Config, o: Loop, l: Loop) returns (l': Loop)
    requires Goes(c, o, l) && AtRest(l) && l.waiters == [] && l.s.worker.loc == Drain(ForPause, Holding)
    requires l.s.gate.lock.ByProcessor? && l.s.gate.paused
    requires l.s.pool.running == map[] && l.s.pool.finished > 0
    requires l.s.trainer.phase == AwaitLast(false) && l.s.ver.update.Idle?
    ensures Goes(c, o, l')
    ensures l' == l.(waiters := [Pause, Processor], ready := [Hand], s := l.s.(
      feed := l'.s.feed, pool := l.s.pool.(finished := 0), gate := l.s.gate.(lock := Free),
      worker := l.s.worker.(doneBound := true, loc := WaitResume),
      trainer := l.s.trainer.(phase := PauseRequested(false))))
  {
    hide Goes, ShouldPause, Valid, Reachable, Safe, FeederRests;
    GoesFacts(c, o, l);
    l' := Do(c, o, l, Remote(OfTrainer(SyncBegin)));
    l' := Called(c, o, l', Pause);
    l' := DrainHarvested(c, o, l');
    l' := Do(c, o, l', Suspend);
  }

  // A pause with nothing running.
  lemma {:induction false} PauseThrough(c: Config, o: Loop, l: Loop) returns (l': Loop)
    requires Goes(c, o, l) && AtRest(l) && Available(l)
    requires l.s.pool.running == map[] && l.s.trainer.phase == PauseRequested(false)
    ensures Goes(c, o, l')
    ensures l' == l.(s := l.s.(
      pool := l.s.pool.(finished := 0),
      gate := l.s.gate.(paused := true, lock := Free, cancelling := c.partial, monitorTrigger := false),
      trainer := l.s.trainer.(phase := Copying(false))))
  {
    hide Goes, ShouldPause, Valid, Reachable, Safe, FeederRests;
    GoesFacts(c, o, l);
    l' := Called(c, o, l, Pause);
    l' := PauseEnds(c, o, l');
  }

  // The sync has moved nothing; the counter is what is queued.
  predicate Synced(s: State, s': State) {
    && s'.queue == s.queue && s'.ver == Version(|s.queue|, s.trainer.version, Idle)
    && s'.trainer == s.trainer.(phase := Collecting, copied := s.trainer.version, globalSteps := s'.trainer.globalSteps)
    && s'.history == s.history && !s'.gate.closed
  }

  lemma {:induction false} WokenUp(c: Config, o: Loop, l: Loop) returns (l': Loop)
    requires Goes(c, o, l) && !l.going && l.ready == [Notice] && l.waiters == []
    requires l.s.worker.loc.WaitResume? && l.s.gate.lock.Free? && !l.s.gate.paused
    ensures Goes(c, o, l') && l' == l.(going := true, ready := [], s := l.s.(
      feed := l'.s.feed, worker := l.s.worker.(loc := Top)))
  {
    hide Goes, ShouldPause;
    GoesFacts(c, o, l);
    l' := Woken(c, o, l);
    l' := Do(c, o, l', Go(Wake));
  }

  lemma {:induction false} DrainHarvested(c: Config, o: Loop, l: Loop) returns (l': Loop)
    requires Goes(c, o, l) && AtRest(l) && l.s.worker.loc.Drain? && l.s.worker.loc.phase.Holding?
    requires !l.s.worker.loc.why.ForSlot? && l.s.pool.finished > 0 && l.s.pool.running == map[]
    ensures Goes(c, o, l')
    ensures l' == l.(going := l.s.worker.loc.why.ForPause?, ready := if l.waiters == [] then [] else [Hand], s := l.s.(
      feed := l'.s.feed, pool := l.s.pool.(finished := 0), gate := l.s.gate.(lock := Free),
      worker := l.s.worker.(doneBound := true,
                            loc := if l.s.worker.loc.why.ForPause? then WaitResume else Ended)))
  {
    hide Goes, ShouldPause, Valid, Reachable, Safe;
    GoesFacts(c, o, l);
    l' := TasksReturn(c, o, l);
    l' := Do(c, o, l', Go(Harvest(0)));
    l' := Do(c, o, l', Go(DrainTest));
  }
}
