// The one-step-off pipeline of recipe/one_step_off_policy/ray_trainer.py: batch k+1 is generated
// while batch k is trained on.  Batches are numbered from 0 in the order of the data loader.
module OneStepOff {
  import opened Options

  // A generation that has been launched: the batch and the weights it is generated with.
  datatype Future<W> = Future(batch: nat, weights: W)

  // One update of the actor by the training step on a batch; steps before the warm-up leave it.
  datatype Job<!W> = Job(initial: W, update: (W, nat) -> W, batches: nat, startSteps: nat, totalSteps: nat,
                         warmup: int)

  function Updated<W>(j: Job<W>, w: W, step: nat): W {
    if j.warmup <= j.startSteps + 1 + step then j.update(w, step) else w
  }

  // The actor's weights after the given number of training steps.
  function WeightsAfter<W>(j: Job<W>, steps: nat): W {
    if steps == 0 then j.initial else Updated(j, WeightsAfter(j, steps - 1), steps - 1)
  }

  // The weights batch k has to be generated with: those after max(0, k - 1) steps.
  function GeneratedWith<W>(j: Job<W>, k: nat): W { WeightsAfter(j, if k == 0 then 0 else k - 1) }

  // How many batches a run trains on: all of them, unless the last step comes first.
  function StepsOfRun<W>(j: Job<W>): nat {
    var left := if j.totalSteps > j.startSteps + 1 then j.totalSteps - j.startSteps else 1;
    if j.batches < left then j.batches else left
  }

  // The last step comes when its number reaches the total, or with the last batch.
  lemma {:induction false} StepsKnown<W>(j: Job<W>)
    ensures StepsOfRun(j) <= j.batches && (StepsOfRun(j) == 0 <==> j.batches == 0)
    ensures StepsOfRun(j) < j.batches ==> j.startSteps + StepsOfRun(j) >= j.totalSteps
    ensures StepsOfRun(j) > 1 ==> j.startSteps + StepsOfRun(j) <= j.totalSteps
  {}

  lemma {:induction false} NextWeights<W>(j: Job<W>, k: nat)
    ensures WeightsAfter(j, 0) == GeneratedWith(j, 0) == j.initial
    ensures GeneratedWith(j, k + 1) == WeightsAfter(j, k)
    ensures WeightsAfter(j, k + 1) == Updated(j, WeightsAfter(j, k), k)
    // the training step with global number startSteps + 1 + k updates them once the warm-up is over
    ensures j.startSteps + 1 + k >= j.warmup ==> WeightsAfter(j, k + 1) == j.update(WeightsAfter(j, k), k)
    ensures j.startSteps + 1 + k < j.warmup ==> WeightsAfter(j, k + 1) == WeightsAfter(j, k)
  {}

  // Batches come in the order of the loader, each generated with the right weights.
  ghost predicate InOrder<W>(j: Job<W>, fs: seq<Future<W>>) {
    forall k :: 0 <= k < |fs| ==> fs[k] == Future(k, GeneratedWith(j, k))
  }

  // Batch k was launched with the weights that training step k - 1 started from.
  ghost predicate OneBehind<W>(initial: W, fs: seq<Future<W>>, started: seq<W>) {
    |fs| <= |started| + 1 && forall k :: 0 <= k < |fs| ==> fs[k].weights == if k == 0 then initial else started[k - 1]
  }

  lemma {:induction false} Launched<W>(j: Job<W>, fs: seq<Future<W>>, started: seq<W>, w: W)
    requires InOrder(j, fs) && OneBehind(j.initial, fs, started) && |fs| == |started| + 1
    requires w == GeneratedWith(j, |fs|)
    ensures InOrder(j, fs + [Future(|fs|, w)]) && OneBehind(j.initial, fs + [Future(|fs|, w)], started + [w])
    ensures OneBehind(j.initial, fs, started + [w])
  {
    hide GeneratedWith;
  }

  class Trainer<!W> {
    const job: Job<W>
    var actor: W
    var rollout: W
    var globalSteps: nat
    var nextBatch: nat                      // position of the continuous iterator
    var running: bool                       // a generation is under way
    ghost var launched: seq<Future<W>>
    ghost var trained: seq<Future<W>>       // in the order of training
    ghost var startedFrom: seq<W>           // the actor's weights at the start of each training step

    constructor (job: Job<W>)
      ensures this.job == job && actor == job.initial && globalSteps == job.startSteps
      ensures nextBatch == 0 && !running && launched == [] && trained == [] && startedFrom == []
    {
      this.job := job;
      actor, rollout := job.initial, job.initial;
      globalSteps, nextBatch, running := job.startSteps, 0, false;
      launched, trained, startedFrom := [], [], [];
    }

    // A sync must not change weights under a running generation.
    method SyncRolloutWeights()
      requires !running
      modifies `rollout
      ensures rollout == actor
    {
      rollout := actor;
    }

    method AsyncGenNextBatch() returns (f: Option<Future<W>>)
      requires !running
      modifies `rollout, `nextBatch, `running, `launched
      ensures nextBatch == (if old(nextBatch) < job.batches then old(nextBatch) + 1 else old(nextBatch))
      ensures f == if old(nextBatch) < job.batches then Some(Future(old(nextBatch), actor)) else None
      ensures running == f.Some?
      ensures launched == if f.Some? then old(launched) + [f.value] else old(launched)
    {
      if nextBatch >= job.batches { return None; }
      var batch := nextBatch;
      nextBatch := nextBatch + 1;
      SyncRolloutWeights();
      running := true;
      f := Some(Future(batch, rollout));
      launched := launched + [f.value];
    }

    // batch_data_future.get(): waits until the generation is finished.
    method Get(f: Future<W>) returns (r: Future<W>)
      requires running
      modifies `running
      ensures !running && r == f
    {
      running := false;
      r := f;
    }

    // The rest of one iteration: the actor is updated once the warm-up of the critic is over.
    method TrainOn(batch: Future<W>)
      requires batch.batch == |trained| && globalSteps == job.startSteps + 1 + |trained|
      requires actor == WeightsAfter(job, |trained|)
      modifies `actor, `trained, `startedFrom, `globalSteps
      ensures startedFrom == old(startedFrom) + [old(actor)]
      ensures trained == old(trained) + [batch] && globalSteps == old(globalSteps) + 1
      ensures actor == WeightsAfter(job, |trained|)
      ensures actor == if job.warmup <= old(globalSteps) then job.update(old(actor), batch.batch) else old(actor)
    {
      NextWeights(job, |trained|);
      startedFrom := startedFrom + [actor];
      if job.warmup <= globalSteps {
        actor := job.update(actor, batch.batch);
      }
      trained := trained + [batch];
      globalSteps := globalSteps + 1;
    }

    // Between two iterations: what has been launched is trained on, but for the batch under way.
    ghost predicate Between(future: Option<Future<W>>)
      reads this
    {
      && globalSteps == job.startSteps + 1 + |trained| && actor == WeightsAfter(job, |trained|)
      && running == future.Some? && |trained| <= nextBatch == |launched| <= job.batches
      && InOrder(job, launched) && |startedFrom| == |trained| && OneBehind(job.initial, launched, startedFrom)
      && (if future.Some? then launched == trained + [future.value] && |trained| < StepsOfRun(job)
          else launched == trained && |trained| == StepsOfRun(job))
    }

    // One iteration; the last step launches nothing.
    method Iterate(f: Future<W>) returns (future: Option<Future<W>>)
      requires Between(Some(f))
      modifies this
      ensures Between(future) && |trained| == old(|trained|) + 1
    {
      hide WeightsAfter, GeneratedWith, Updated, StepsOfRun, InOrder, OneBehind;
      StepsKnown(job);
      NextWeights(job, |trained|);
      BatchNumber(job, launched);
      Launched(job, launched, startedFrom, actor);
      var isLastStep := globalSteps >= job.totalSteps;
      var batch := Get(f);
      future := None;
      if !isLastStep {
        future := AsyncGenNextBatch();
      }
      TrainOn(batch);
    }

    method Fit()
      requires actor == job.initial && globalSteps == job.startSteps && nextBatch == 0 && !running
      requires launched == [] && trained == [] && startedFrom == []
      modifies this
      ensures |trained| == StepsOfRun(job) && InOrder(job, trained) && launched == trained
      ensures actor == WeightsAfter(job, |trained|) && !running
      // generation lags training by exactly one step
      ensures |startedFrom| == |trained| && OneBehind(job.initial, trained, startedFrom)
    {
      hide WeightsAfter, GeneratedWith, Updated, StepsOfRun, InOrder, OneBehind;
      StepsKnown(job);
      NextWeights(job, 0);
      globalSteps := globalSteps + 1;
      var future := AsyncGenNextBatch();
      FirstLaunched(job, launched);
      while future.Some?
        invariant Between(future)
        decreases job.batches - |trained|
      {
        future := Iterate(future.value);
      }
    }
  }

  lemma {:induction false} FirstLaunched<W>(j: Job<W>, fs: seq<Future<W>>)
    requires fs == [] || fs == [Future(0, j.initial)]
    ensures InOrder(j, fs) && OneBehind(j.initial, fs, [])
  {}

  lemma {:induction false} BatchNumber<W>(j: Job<W>, fs: seq<Future<W>>)
    requires InOrder(j, fs)
    ensures fs != [] ==> fs[|fs| - 1].batch == |fs| - 1
  {}

  // Every batch of the loader is trained on exactly when there are enough steps left for it.
  lemma {:induction false} AllBatches<W>(j: Job<W>)
    ensures StepsOfRun(j) == j.batches <==> j.batches <= 1 || j.startSteps + j.batches <= j.totalSteps
  {}
}
