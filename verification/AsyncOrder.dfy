// The trainer receives the samples in the order they were put, with exactly the dropped ones
// missing.
module AsyncOrder {
  import opened QueueItems
  import opened AsyncProtocol
  import opened AsyncSafety
  import opened AsyncConservation

  // ---- removing samples from a queue ----

  function Remove(q: seq<Item>, id: nat): seq<Item> {
    if q == [] then []
    else (if q[0].Rollout? && q[0].id == id then [] else [q[0]]) + Remove(q[1..], id)
  }

  // The put history with the dropped entries taken out.
  function Without(q: seq<Item>, gone: seq<Item>): seq<Item> {
    if gone == [] then q
    else
      var rest := Without(q, gone[..|gone| - 1]);
      var last := gone[|gone| - 1];
      if last.Rollout? then Remove(rest, last.id) else rest
  }

  lemma {:induction false} RemoveConcat(p: seq<Item>, q: seq<Item>, id: nat)
    ensures Remove(p + q, id) == Remove(p, id) + Remove(q, id)
  {
    if p == [] {
      assert p + q == q;
    } else {
      RemoveConcat(p[1..], q, id);
      assert (p + q)[0] == p[0] && (p + q)[1..] == p[1..] + q;
    }
  }

  lemma {:induction false} RemoveAbsent(q: seq<Item>, id: nat)
    requires Count(q, id) == 0
    ensures Remove(q, id) == q
  {
    if q != [] {
      RemoveAbsent(q[1..], id);
      assert q == [q[0]] + q[1..];
    }
  }

  lemma {:induction false} WithoutAppend(q: seq<Item>, x: Item, gone: seq<Item>)
    requires x.Rollout? ==> Count(gone, x.id) == 0
    ensures Without(q + [x], gone) == Without(q, gone) + [x]
  {
    if gone != [] {
      var init, last := gone[..|gone| - 1], gone[|gone| - 1];
      assert gone == init + [last];
      if x.Rollout? { CountAppend(init, last, x.id); }
      WithoutAppend(q, x, init);
      if last.Rollout? {
        RemoveConcat(Without(q, init), [x], last.id);
        assert Remove([x], last.id) == [x] + Remove([], last.id);
      }
    }
  }

  // ---- put order ----

  // The entries behind the ones consumed; a received end marker still stands at the end.
  function QueueTail(s: State): seq<Item> {
    if TrainerClosed(s.trainer.phase) then [EndMark] else s.queue
  }

  ghost predicate InOrder(s: State) {
    Without(s.history.puts, s.history.dropped) == s.history.consumed + QueueTail(s)
  }

  ghost predicate AllConserved(c: Config, s: State) {
    forall id: nat :: Conserved(c, s, id)
  }

  // Taking out the head of the queue, which occurs nowhere else.
  lemma {:induction false} HeadRemoved(done: seq<Item>, q: seq<Item>, x: Item, d: nat)
    requires q != [] && q[0].Rollout? && q[0].id == d && (x.Rollout? ==> x.id != d)
    requires Count(done, d) == 0 && Count(q, d) <= 1
    ensures Remove((done + q) + [x], d) == done + (q[1..] + [x])
  {
    RemoveConcat(done + q, [x], d);
    RemoveConcat(done, q, d);
    RemoveAbsent(done, d);
    RemoveAbsent(q[1..], d);
    assert Remove([x], d) == [x] + Remove([], d);
    assert Remove(q, d) == Remove(q[1..], d) == q[1..];
  }

  lemma {:induction false} WithoutLast(p: seq<Item>, gone: seq<Item>, last: Item)
    requires last.Rollout?
    ensures Without(p, gone + [last]) == Remove(Without(p, gone), last.id)
  {
    hide Remove;
    assert (gone + [last])[..|gone|] == gone;
  }

  lemma {:induction false} PutInOrder(c: Config, s: State, x: Item)
    requires c.maxRequired >= 1 && InOrder(s) && !TrainerClosed(s.trainer.phase)
    requires AllRollouts(s.queue)
    requires x.Rollout? ==> Count(s.history.dropped, x.id) == 0
    requires x.Rollout? && |s.queue| >= c.maxRequired ==> s.queue[0].id != x.id
    requires |s.queue| >= c.maxRequired ==>
      Count(s.history.consumed, s.queue[0].id) == 0 && Count(s.queue, s.queue[0].id) <= 1
    ensures InOrder(DoPut(c, s, x))
  {
    hide Remove, Without, Count;
    var h, q := s.history, s.queue;
    WithoutAppend(h.puts, x, h.dropped);
    assert (h.consumed + q) + [x] == h.consumed + (q + [x]);
    if |q| >= c.maxRequired {
      WithoutLast(h.puts + [x], h.dropped, q[0]);
      HeadRemoved(h.consumed, q, x, q[0].id);
    }
  }

  lemma {:induction false} OrderTask(c: Config, s: State, a: TaskAction)
    requires c.maxRequired >= 1 && ClosedInv(s) && InOrder(s) && AllConserved(c, s) && TaskCan(s, a)
    ensures InOrder(TaskDo(c, s, a))
  {
    if s.queue != [] && !s.gate.closed { assert Conserved(c, s, s.queue[0].id); }
    match a
    case Generate(i) =>
    case Cancel(i) =>
    case PutSample(i) =>
      assert Conserved(c, s, i);
      NotClosedWhileRunning(s, i);
      PutInOrder(c, Finish(s, i), Rollout(i, s.pool.running[i].version));
    case PutEnd => PutInOrder(c, s.(gate := s.gate.(closed := true)), EndMark);
  }

  lemma {:induction false} NotClosedWhileRunning(s: State, id: nat)
    requires ClosedInv(s) && id in s.pool.running
    ensures !s.gate.closed && AllRollouts(s.queue) && !TrainerClosed(s.trainer.phase)
  {
    assert |s.pool.running| == |s.pool.running.Keys| >= |{id}| by {
      assert {id} <= s.pool.running.Keys;
      assert s.pool.running.Keys == {id} + (s.pool.running.Keys - {id});
    }
  }

  lemma {:induction false} OrderTrainer(c: Config, s: State, a: TrainerAction)
    requires ClosedInv(s) && InOrder(s) && TrainerCan(c, s, a)
    ensures InOrder(TrainerDo(c, s, a))
  {
    hide Without, Remove, Count;
    if a.GetSample? {
      var q, done := s.queue, s.history.consumed;
      assert q == [q[0]] + q[1..];
      assert (done + [q[0]]) + q[1..] == done + q;
    }
  }

  lemma {:induction false} OrderKept(c: Config, s: State, a: Action)
    requires c.maxRequired >= 1 && ClosedInv(s) && InOrder(s) && AllConserved(c, s) && Enabled(c, s, a)
    ensures InOrder(Apply(c, s, a))
  {
    match a
    case OfTask(k) => OrderTask(c, s, k);
    case OfTrainer(n) => OrderTrainer(c, s, n);
    case _ => NoPuts(c, s, a);
  }

  lemma {:induction false} NoPuts(c: Config, s: State, a: Action)
    requires c.maxRequired >= 1 && Enabled(c, s, a) && !a.OfTask? && !a.OfTrainer?
    ensures var s' := Apply(c, s, a);
      && s'.history.puts == s.history.puts && s'.history.dropped == s.history.dropped
      && s'.history.consumed == s.history.consumed && s'.queue == s.queue && s'.trainer == s.trainer
  {}

  lemma {:induction false} OrderRun(c: Config, s: State, actions: seq<Action>)
    requires c.maxRequired >= 1 && Safe(c, s) && AllConserved(c, s) && InOrder(s)
    requires Exec(c, s, actions).Reached?
    ensures InOrder(Exec(c, s, actions).state)
    decreases |actions|
  {
    if actions != [] {
      var s' := Apply(c, s, actions[0]);
      SafeKept(c, s, actions[0]);
      OrderKept(c, s, actions[0]);
      forall id: nat ensures Conserved(c, s', id) { ConservationKept(c, s, actions[0], id); }
      OrderRun(c, s', actions[1..]);
    }
  }

  // What the trainer has consumed followed by what is queued is the put history with exactly
  // the dropped samples taken out.
  lemma {:induction false} PutOrder(c: Config, s: State)
    requires Reachable(c, s)
    ensures Without(s.history.puts, s.history.dropped) == s.history.consumed + QueueTail(s)
  {
    MaxRequiredBounds(c);
    var actions :| Exec(c, Init(c), actions) == Reached(s);
    OrderRun(c, Init(c), actions);
  }
}
