// The queue between rollouter and trainer (recipe/fully_async_policy/message_queue.py) as the class
// it is, with the consumer's loop `_get_samples_from_queue`.  The protocol modules use the same
// `Put`; here it is what the method is proved to do.
module MessageQueues {
  import opened QueueItems

  datatype Result<+T> = Ok(value: T) | IndexError

  // get_sample hands out an entry, goes on waiting for one, or finds the queue shut down.
  datatype Fetched = Got(data: Item, left: nat) | Waits | Closed

  // Where an entry went that has left the queue.
  datatype Fate = Consumed | Dropped | Cleared
  datatype Gone = Gone(item: Item, fate: Fate)

  ghost function Items(gone: seq<Gone>): (r: seq<Item>)
    ensures |r| == |gone| && forall i :: 0 <= i < |gone| ==> r[i] == gone[i].item
  {
    seq(|gone|, i requires 0 <= i < |gone| => gone[i].item)
  }

  ghost function CountFate(gone: seq<Gone>, fate: Fate): nat {
    if gone == [] then 0
    else CountFate(gone[..|gone| - 1], fate) + (if gone[|gone| - 1].fate == fate then 1 else 0)
  }

  class MessageQueue {
    const maxQueueSize: nat
    var queue: seq<Item>
    var currentParamVersion: int
    var running: bool
    var totalProduced: nat
    var totalConsumed: nat
    var droppedSamples: nat
    ghost var puts: seq<Item>      // everything put, in order
    ghost var gone: seq<Gone>      // everything that left, in order

    // Entries leave in the order in which they were put, and the counters count them.
    ghost predicate Valid()
      reads this
    {
      && (maxQueueSize >= 1 ==> |queue| <= maxQueueSize) && (maxQueueSize == 0 ==> queue == [])
      && puts == Items(gone) + queue
      && totalProduced == |puts| && totalConsumed == CountFate(gone, Consumed)
      && droppedSamples == CountFate(gone, Dropped)
    }

    constructor (maxQueueSize: nat)
      ensures Valid() && queue == [] && puts == [] && gone == [] && this.maxQueueSize == maxQueueSize && running
    {
      this.maxQueueSize, running := maxQueueSize, true;
      queue, currentParamVersion, totalProduced, totalConsumed, droppedSamples := [], 0, 0, 0, 0;
      puts, gone := [], [];
    }

    // False if the oldest entry had to go; popping from an empty deque raises IndexError.
    method PutSample(sample: Item, paramVersion: int) returns (r: Result<bool>)
      requires Valid()
      modifies `queue, `totalProduced, `droppedSamples, `puts, `gone
      ensures Valid()
      ensures r.IndexError? <==> maxQueueSize == 0
      ensures r.IndexError? ==> queue == old(queue) && puts == old(puts) && gone == old(gone)
      ensures r.Ok? ==> queue == Put(old(queue), maxQueueSize, sample) && puts == old(puts) + [sample]
      ensures r.Ok? ==> (r.value <==> |old(queue)| < maxQueueSize)
      ensures r == Ok(true) ==> gone == old(gone)
      ensures r == Ok(false) ==> gone == old(gone) + [Gone(old(queue)[0], Dropped)]
    {
      var isDrop := false;
      if |queue| >= maxQueueSize {
        if queue == [] { return IndexError; }
        gone := gone + [Gone(queue[0], Dropped)];
        queue := queue[1..];
        droppedSamples := droppedSamples + 1;
        isDrop := true;
      }
      queue := queue + [sample];
      totalProduced := totalProduced + 1;
      puts := puts + [sample];
      r := Ok(!isDrop);
    }

    // One turn of the wait: only an empty queue makes it wait, or give up once shut down.
    method GetSample() returns (r: Fetched)
      requires Valid()
      modifies `queue, `totalConsumed, `gone
      ensures Valid()
      ensures r.Waits? <==> old(queue) == [] && running
      ensures r.Closed? <==> old(queue) == [] && !running
      ensures !r.Got? ==> queue == [] && gone == old(gone)
      ensures r.Got? ==> r == Got(old(queue)[0], |queue|) && queue == old(queue)[1..]
      ensures r.Got? ==> gone == old(gone) + [Gone(r.data, Consumed)]
    {
      if queue == [] { return if running then Waits else Closed; }
      var data := queue[0];
      queue := queue[1..];
      totalConsumed := totalConsumed + 1;
      gone := gone + [Gone(data, Consumed)];
      r := Got(data, |queue|);
    }

    method Shutdown()
      requires Valid()
      modifies `running
      ensures Valid() && !running
    {
      running := false;
    }

    method UpdateParamVersion(version: int)
      requires Valid()
      modifies `currentParamVersion
      ensures Valid() && currentParamVersion == version
    {
      currentParamVersion := version;
    }

    // What is in the queue is what was put and neither consumed, dropped nor cleared.
    method GetQueueSize() returns (n: nat)
      requires Valid()
      ensures n == |queue|
      ensures n == totalProduced - totalConsumed - droppedSamples - CountFate(gone, Cleared)
    {
      AllFates(gone);
      n := |queue|;
    }

    method ClearQueue()
      requires Valid()
      modifies `queue, `gone
      ensures Valid() && queue == [] && Items(gone) == puts
      ensures CountFate(gone, Cleared) == old(CountFate(gone, Cleared)) + |old(queue)|
    {
      hide CountFate, AllCleared, Items;
      ClearedFates(gone, queue);
      gone := gone + AllCleared(queue);
      queue := [];
    }
  }

  ghost function AllCleared(q: seq<Item>): (r: seq<Gone>)
    ensures |r| == |q| && forall i :: 0 <= i < |q| ==> r[i] == Gone(q[i], Cleared)
  {
    seq(|q|, i requires 0 <= i < |q| => Gone(q[i], Cleared))
  }

  lemma {:induction false} AllFates(gone: seq<Gone>)
    ensures CountFate(gone, Consumed) + CountFate(gone, Dropped) + CountFate(gone, Cleared) == |gone|
  {
    if gone != [] { AllFates(gone[..|gone| - 1]); }
  }

  lemma {:induction false} ClearedFates(gone: seq<Gone>, q: seq<Item>)
    ensures var all := gone + AllCleared(q);
      && CountFate(all, Consumed) == CountFate(gone, Consumed)
      && CountFate(all, Dropped) == CountFate(gone, Dropped)
      && CountFate(all, Cleared) == CountFate(gone, Cleared) + |q|
    decreases |q|
  {
    var all := gone + AllCleared(q);
    if q == [] {
      assert all == gone;
    } else {
      var most := q[..|q| - 1];
      ClearedFates(gone, most);
      assert all[..|all| - 1] == gone + AllCleared(most);
    }
  }

  // ---- the consumer ----

  // The first entries up to the required number, or up to the final None.
  function Taken(q: seq<Item>, required: nat): (n: nat)
    ensures n <= |q|
  {
    if required == 0 || q == [] then 0
    else if q[0].EndMark? then 1
    else 1 + Taken(q[1..], required - 1)
  }

  predicate AllSamples(q: seq<Item>, n: nat) { n <= |q| && forall i :: 0 <= i < n ==> q[i].Rollout? }

  // `Waiting`: with these samples collected, for more.  On a queue that is shut down get_sample
  // returns None, which cannot be unpacked.
  datatype Batch = NoBatch | Batch(samples: seq<Item>) | Waiting(samples: seq<Item>) | UnpackError

  // Either a block of `required` consecutive samples, or nothing if the final None comes first:
  // the samples before it are then taken and given up.  If neither is there, all there is is taken.
  method GetSamplesFromQueue(mq: MessageQueue, required: nat) returns (b: Batch)
    requires mq.Valid()
    modifies mq`queue, mq`totalConsumed, mq`gone
    ensures mq.Valid() && mq.queue == old(mq.queue)[Taken(old(mq.queue), required)..]
    ensures b.Batch? <==> required >= 1 && AllSamples(old(mq.queue), required)
    ensures b.Batch? ==> b.samples == old(mq.queue)[..required] && mq.queue == old(mq.queue)[required..]
    ensures b.NoBatch? && required >= 1 ==> var n := Taken(old(mq.queue), required);
      n >= 1 && old(mq.queue)[n - 1].EndMark? && AllSamples(old(mq.queue), n - 1)
    ensures b.Waiting? || b.UnpackError? ==>
      && |old(mq.queue)| < required && AllSamples(old(mq.queue), |old(mq.queue)|) && mq.queue == []
      && b == if mq.running then Waiting(old(mq.queue)) else UnpackError
  {
    var samples: seq<Item> := [];
    ghost var q := mq.queue;
    while |samples| < required
      invariant |samples| <= required && mq.Valid() && AllSamples(q, |samples|)
      invariant samples == q[..|samples|] && mq.queue == q[|samples|..]
    {
      var fetched := mq.GetSample();
      match fetched
      case Got(sample, _) =>
        assert sample == q[|samples|];
        if sample.EndMark? {
          EndsHere(q, required, |samples|);
          return NoBatch;
        }
        assert q[..|samples| + 1] == q[..|samples|] + [sample];
        samples := samples + [sample];
      case Waits =>
        AllTaken(q, |samples|, required);
        return Waiting(samples);
      case Closed =>
        AllTaken(q, |samples|, required);
        return UnpackError;
    }
    AllTaken(q, required, required);
    b := if samples == [] then NoBatch else Batch(samples);
  }

  lemma {:induction false} EndsHere(q: seq<Item>, required: nat, n: nat)
    requires AllSamples(q, n) && n < required && n < |q| && q[n].EndMark?
    ensures Taken(q, required) == n + 1
    decreases n
  {
    if n > 0 {
      assert forall i :: 0 <= i < n ==> q[1..][i] == q[i + 1];
      EndsHere(q[1..], required - 1, n - 1);
    }
  }

  lemma {:induction false} AllTaken(q: seq<Item>, n: nat, required: nat)
    requires AllSamples(q, n) && n <= required && (n < required ==> n == |q|)
    ensures Taken(q, required) == n
    decreases n
  {
    if n > 0 {
      assert forall i :: 0 <= i < n - 1 ==> q[1..][i] == q[i + 1];
      AllTaken(q[1..], n - 1, required - 1);
    }
  }
}
