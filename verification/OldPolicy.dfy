// Which parameters the old log-probabilities are computed with: the save and restore sequence of
// `_process_batch_common` (recipe/fully_async_policy/ray_trainer.py) on the actor workers of
// recipe/fully_async_policy/fsdp_workers.py, inside the loop of
// recipe/fully_async_policy/fully_async_trainer.py that updates and broadcasts them.
module OldPolicy {
  import opened Arithmetic
  import opened Options

  // The actor worker group: the model's parameters and the copies kept on the CPU.
  class ActorWorker<!W> {
    var params: W
    var cpuSavedModels: map<nat, W>

    constructor (params: W)
      ensures this.params == params && cpuSavedModels == map[]
    {
      this.params, cpuSavedModels := params, map[];
    }

    method SaveModelToCpu(n: nat)
      modifies `cpuSavedModels
      ensures cpuSavedModels == old(cpuSavedModels)[n := params]
    {
      cpuSavedModels := cpuSavedModels[n := params];
    }

    // A slot that is not there leaves the model alone.
    method RestoreModelFromCpu(n: nat)
      modifies `params
      ensures params == if n in cpuSavedModels then cpuSavedModels[n] else old(params)
    {
      if n in cpuSavedModels { params := cpuSavedModels[n]; }
    }

    method ClearCpuModel(n: nat)
      modifies `cpuSavedModels
      ensures cpuSavedModels == old(cpuSavedModels) - {n}
    {
      if n in cpuSavedModels { cpuSavedModels := cpuSavedModels - {n}; }
    }
  }

  // What a run does to the parameters: an update per batch, which can depend on the global step, and
  // a broadcast after every trigger-th one.
  datatype Job<!W> = Job(initial: W, update: (W, int) -> W, trigger: nat, startVersion: int,
                         useRolloutLogProbs: bool, computeProxLogProb: bool)

  // The global step that trains batch k.
  function GlobalStep<W>(j: Job<W>, k: nat): int { j.startVersion * j.trigger + k + 1 }

  function WeightsAfter<W>(j: Job<W>, steps: nat): W {
    if steps == 0 then j.initial else j.update(WeightsAfter(j, steps - 1), GlobalStep(j, steps - 1))
  }

  // How many batches there are between two broadcasts: a trigger of 0 acts like 1.
  function Period<W>(j: Job<W>): (p: nat)
    ensures p >= 1
  {
    if j.trigger == 0 then 1 else j.trigger
  }

  // The step of the last broadcast before batch k is processed.
  function LastBroadcast<W>(j: Job<W>, k: nat): (r: nat)
    ensures r <= k
  {
    k - k % Period(j)
  }

  // The parameters that batch k's old log-probabilities are computed with; None if those of the
  // rollout are taken instead.
  function PolicyFor<W>(j: Job<W>, k: nat): Option<W> {
    if !j.useRolloutLogProbs then Some(WeightsAfter(j, k))
    else if !j.computeProxLogProb then None
    else Some(WeightsAfter(j, LastBroadcast(j, k)))
  }

  class Trainer<!W> {
    const job: Job<W>
    const actor: ActorWorker<W>
    var rollout: W                      // the parameters of the rollout workers
    var localTriggerStep: nat
    var currentParamVersion: int
    var globalSteps: int
    ghost var steps: nat                // batches trained on
    ghost var policies: seq<Option<W>>  // for each batch, what its old log-probabilities came from
    ghost var held: seq<W>              // for each batch, what the rollout workers held then

    ghost predicate Valid()
      reads this, actor
    {
      && actor.params == WeightsAfter(job, steps)
      && rollout == WeightsAfter(job, LastBroadcast(job, steps))
      && localTriggerStep == steps % Period(job) + 1
      && currentParamVersion == job.startVersion + steps / Period(job)
      && globalSteps == GlobalStep(job, steps)
      && actor.cpuSavedModels == Slots()
      && |policies| == |held| == steps
      && (forall k :: 0 <= k < steps ==> policies[k] == PolicyFor(job, k))
      && (forall k :: 0 <= k < steps ==> held[k] == WeightsAfter(job, LastBroadcast(job, k)))
    }

    // Between batches the CPU holds slot 1 at most: the parameters of the last first step.
    ghost function Slots(): map<nat, W>
      reads this
    {
      if steps == 0 || !job.useRolloutLogProbs || !job.computeProxLogProb then map[]
      else map[1 := WeightsAfter(job, LastBroadcast(job, steps - 1))]
    }

    // After loading a checkpoint, or none, and the initial broadcast.
    constructor (job: Job<W>)
      ensures Valid() && steps == 0 && this.job == job && fresh(actor)
      ensures rollout == actor.params == job.initial && localTriggerStep == 1
      ensures currentParamVersion == job.startVersion && globalSteps == job.startVersion * job.trigger + 1
    {
      this.job := job;
      actor := new ActorWorker(job.initial);
      rollout, localTriggerStep, currentParamVersion := job.initial, 1, job.startVersion;
      globalSteps := job.startVersion * job.trigger + 1;
      steps, policies, held := 0, [], [];
    }

    // The parameters the log-probabilities are computed with, and the branches around it.
    method OldLogProb(localStep: Option<nat>) returns (used: Option<W>)
      modifies actor
      ensures actor.params == old(actor.params)
      ensures !job.useRolloutLogProbs ==>
        used == Some(actor.params) && actor.cpuSavedModels == old(actor.cpuSavedModels)
      ensures job.useRolloutLogProbs && localStep.None? ==>
        used.None? && actor.cpuSavedModels == old(actor.cpuSavedModels)
      ensures job.useRolloutLogProbs && localStep == Some(1) ==>
        used == Some(actor.params) && actor.cpuSavedModels == old(actor.cpuSavedModels)[1 := actor.params]
      ensures job.useRolloutLogProbs && localStep.Some? && localStep.value != 1 ==>
        && used == Some(if 1 in old(actor.cpuSavedModels) then old(actor.cpuSavedModels)[1] else actor.params)
        && actor.cpuSavedModels == old(actor.cpuSavedModels) - {localStep.value}
    {
      if job.useRolloutLogProbs {
        if localStep == Some(1) {
          actor.SaveModelToCpu(1);
          used := Some(actor.params);
        } else if localStep.Some? {
          actor.SaveModelToCpu(localStep.value);
          actor.RestoreModelFromCpu(1);
          used := Some(actor.params);
          actor.RestoreModelFromCpu(localStep.value);
          actor.ClearCpuModel(localStep.value);
        } else {
          used := None;
        }
      } else {
        used := Some(actor.params);
      }
    }

    method SyncWeights()
      modifies `rollout
      ensures rollout == actor.params
    {
      rollout := actor.params;
    }

    method TriggerParameterSyncAfterStep(validate: bool)
      modifies `rollout, `localTriggerStep, `currentParamVersion
      ensures old(localTriggerStep) < job.trigger && !validate ==>
        && localTriggerStep == old(localTriggerStep) + 1 && currentParamVersion == old(currentParamVersion)
        && rollout == old(rollout)
      ensures old(localTriggerStep) >= job.trigger || validate ==>
        && localTriggerStep == 1 && currentParamVersion == old(currentParamVersion) + 1
        && rollout == actor.params
    {
      if localTriggerStep < job.trigger && !validate {
        localTriggerStep := localTriggerStep + 1;
        return;
      }
      currentParamVersion := currentParamVersion + 1;
      localTriggerStep := 1;
      SyncWeights();
    }

    // One turn of the loop in fit.
    method TrainStep()
      requires Valid()
      modifies this, actor
      ensures Valid() && steps == old(steps) + 1 && policies == old(policies) + [PolicyFor(job, steps - 1)]
      ensures held == old(held) + [old(rollout)]
      ensures job.useRolloutLogProbs && job.computeProxLogProb ==> policies == old(policies) + [Some(old(rollout))]
      ensures job.useRolloutLogProbs && !job.computeProxLogProb ==> policies == old(policies) + [None]
      ensures !job.useRolloutLogProbs ==> policies == old(policies) + [Some(old(actor.params))]
      // one update, and a broadcast at the end of the period
      ensures actor.params == job.update(old(actor.params), old(globalSteps)) && globalSteps == old(globalSteps) + 1
      ensures old(localTriggerStep) < job.trigger ==>
        && rollout == old(rollout) && localTriggerStep == old(localTriggerStep) + 1
        && currentParamVersion == old(currentParamVersion)
      ensures old(localTriggerStep) >= job.trigger ==>
        rollout == actor.params && localTriggerStep == 1 && currentParamVersion == old(currentParamVersion) + 1
    {
      hide WeightsAfter, LastBroadcast, Period, GlobalStep;
      Turn(job, steps);
      var used := OldLogProb(if job.computeProxLogProb then Some(localTriggerStep) else None);
      assert job.useRolloutLogProbs && job.computeProxLogProb ==>
        actor.cpuSavedModels == map[1 := WeightsAfter(job, LastBroadcast(job, steps))];
      policies, held := policies + [used], held + [rollout];
      actor.params := job.update(actor.params, globalSteps);
      steps := steps + 1;
      TriggerParameterSyncAfterStep(false);
      globalSteps := globalSteps + 1;
    }

    // The forced sync at the end: the rollout workers are left with the final parameters.
    method Finish(testFreq: int)
      requires Valid() && testFreq != 0
      modifies this
      ensures rollout == actor.params == WeightsAfter(job, steps) && steps == old(steps)
      ensures policies == old(policies) && held == old(held)
      ensures currentParamVersion == job.startVersion + steps / Period(job)
                + (if steps % Period(job) != 0 || old(currentParamVersion) % testFreq != 0 then 1 else 0)
    {
      if currentParamVersion % testFreq != 0 || localTriggerStep > 1 {
        TriggerParameterSyncAfterStep(true);
      }
    }

    method Fit(batches: nat, testFreq: int)
      requires Valid() && steps == 0 && testFreq != 0
      modifies this, actor
      ensures steps == batches && |policies| == batches
      ensures |held| == batches && forall k :: 0 <= k < batches ==> policies[k] == PolicyFor(job, k)
      ensures job.useRolloutLogProbs && job.computeProxLogProb ==>
        forall k :: 0 <= k < batches ==> policies[k] == Some(held[k])
      ensures rollout == actor.params == WeightsAfter(job, batches)
    {
      for k := 0 to batches
        invariant Valid() && steps == k
      {
        TrainStep();
      }
      Finish(testFreq);
    }
  }

  // One more batch, in the middle of a period or at its end.
  lemma {:induction false} Turn<W>(j: Job<W>, k: nat)
    ensures GlobalStep(j, k + 1) == GlobalStep(j, k) + 1
    ensures WeightsAfter(j, k + 1) == j.update(WeightsAfter(j, k), GlobalStep(j, k))
    ensures k % Period(j) + 1 < j.trigger ==>
      && (k + 1) % Period(j) == k % Period(j) + 1 && (k + 1) / Period(j) == k / Period(j)
      && LastBroadcast(j, k + 1) == LastBroadcast(j, k)
    ensures k % Period(j) + 1 >= j.trigger ==>
      && (k + 1) % Period(j) == 0 && (k + 1) / Period(j) == k / Period(j) + 1 && LastBroadcast(j, k + 1) == k + 1
    ensures k % Period(j) == 0 ==> LastBroadcast(j, k) == k
    ensures k % Period(j) != 0 ==> k >= 1 && LastBroadcast(j, k) == LastBroadcast(j, k - 1)
  {
    NextQuotient(k, Period(j));
    if k >= 1 { NextQuotient(k - 1, Period(j)); }
  }
}
