# Verified models of the reinforcement-learning recipes

This project models six parts of the repository in Dafny and proves what they promise, over every input or every run.

1. **The fully asynchronous rollout/train protocol** (`Async*.dfy`, `MessageQueue.dfy`, `OldPolicy.dfy`). The rollouter, its
   generation tasks, the monitor, the message queue, the trainer and the parameter synchroniser form one labelled transition
   system: the asyncio lock has an explicit owner, and the sample the processor has taken but not yet made a task is a location
   of its own. `Reachable` states are those of every interleaving of the pieces of code between possible suspension points,
   under every configuration that passes the start-up assertions; safety theorems are about these. asyncio has fewer runs:
   a coroutine gives up its turn only where it really waits, coroutines go on in the order in which they became ready, and
   releasing the lock, notifying the condition or putting into an empty queue makes a waiter ready at once. `AsyncLoop` adds
   this ready queue and the queue of waiters for the lock; `Admitted` states are those of the runs that keep to them
   (`AsyncLoop.AdmittedIsReachable`). What comes from outside is left open there: when a reply to a remote call, a call by the
   trainer's side, the end of the monitor's sleep or the completion `asyncio.wait` waits for joins the ready queue, how
   several of these are ordered, and at which moment the feeder puts, except that it has filled up the pending queue before
   the processor's next turn. A theorem about admitted runs holds however these fall. Runs that show that something can go
   wrong are admitted ones, built from pieces (`AsyncPlay`) for every configuration of the stated kind; only the statement
   about all interleavings, `AsyncDrops.DropIff`, also uses one that asyncio does not have. The message queue with its
   consumer loop, and the trainer with the save and restore of parameters around the old log-probabilities, are also modelled
   as the classes they are.
2. **The lenient JSON parser `extract_json`** (`Json*.dfy`). `JsonSyntax` gives the language as concrete syntax trees (every
   blank, quote, escape and comma), `JsonParser` the mutually recursive parser, `JsonLoops` the loops of the source proved to
   compute it. The theorems say exactly which texts are accepted and with which value, and exactly which printed values come
   back; `JsonTexts` says what texts spelt out letter by letter give. Python's `int()` and `float()` on strings are parameters
   (`Numbers`), so the theorems hold whatever they accept.
3. **Weight layout** (`QkvLayout.dfy`, `LayerNumbers.dfy`, `Tensors.dfy`): interleaving query, key and value rows in one script
   and taking tensor-parallel shards apart in the other, and renumbering layers across pipeline stages.
4. **Batches and the trainers that rely on them** (`DataProto.dfy`, `BatchReshape.dfy`, `GroupFilter.dfy`, `OneStepOff.dfy`).
   A row of a batch is a row because all columns are taken at the same indices; `DataProto.Pick` says that, and every
   operation is proved to be such a pick.
5. **The L1 cache** (`LruCache.dfy`) against a specification by its whole history of calls.
6. **The leave-one-out baseline** (`Rloo.dfy`) over the reals.

`Options.dfy`, `Arithmetic.dfy`, `Strings.dfy` and `Tensors.dfy` hold what the modules share. `dafny verify dfyconfig.toml` checks everything.

## What turned out not to hold

- *No sample is dropped.* `update_param_version` recomputes the staleness counter without the sample in the processor's hand
  (recipe/fully_async_policy/fully_async_rollouter.py:214-217), so one sample more than `max_required_samples` can be
  outstanding and a full queue can lose an entry. Some interleaving does so exactly if there is a server,
  `max_required_samples` is above what one version consumes, and there is more data than the two together
  (`AsyncDrops.DropIff`). Under asyncio the same condition is exact with fewer slots than `max_required_samples`: the
  processor waits for a slot with a sample in hand, and then behind the pause. With a slot for every sample that may be
  outstanding, asyncio loses one only with partial rollouts, where the monitor can get in line at the lock before the
  processor that `resume` has woken and the next pause behind it; and only once the samples left over from one version to
  the next have grown to a whole version, which takes `AsyncSlots.Lead` versions. `AsyncSlotSafety.AdmittedDropIff` gives the
  exact condition. A run whose resets all find the hand empty loses nothing at all (`AsyncSafety.NoLoss`), and
  `AsyncSafety.NoneDisplaces` says when the final None displaces a sample.
- *A sample is at most 1 + ceil(staleness_threshold) versions old when it is trained on.* That fails if the monitor tests
  before a pause and writes after it. `AsyncAge.AgeBound` proves 2 + ceil for all runs, and 1 + ceil for all runs with partial
  rollouts and for all runs without such a write. `AsyncAgeLimits.OldOnlyIf` gives what a configuration must have for the
  bound to fail, and `AsyncOld.OldIff` the exact condition under asyncio when the threshold is a positive whole number and
  `max_required_samples` has room for all slots beside those of one version: then the processor, held up with all slots
  taken, lets a task finish with the old version after the pause.
- *The processor ends normally.* It reads `done_tasks` unassigned if its first waiting loop finds no task once it has the lock.
  `AsyncCrash.LostIff` characterises the runs in which that happens, and `AsyncCrash.CrashIff` the configurations under which
  asyncio lets it happen: exactly those with data and without a server, for all sizes at which the pending queue cannot
  run empty in the processor's first stretch.
- *extract_json gives back what was printed.* Strings and keys that look like numbers, `true`, `false` or `null` come back
  converted, and keys that become equal collapse: `JsonRoundTrip.RoundTrip` says exactly which values survive.
- *Layer numbers have no gaps.* A stage without layers advances the count by one; `LayerNumbers.ExactlyAllLayers` gives the
  condition. No layer key is overwritten exactly when the stored names within each stage are distinct after keys have been cut
  into q, k and v or gate and up (`LayerNumbers.NoneOverwritten`).
- *`unfold_column_chunks` without `split_keys` repeats all keys.* It raises as soon as there is a non-tensor key;
  `BatchReshape.UnfoldColumnChunks` says when it returns.
- *`fold_batch_dim` leaves its argument alone.* It rewrites the shared dictionary of non-tensor columns, and leaves it as it
  was only if there are none (`BatchReshape.ArgumentKept`); `BatchReshape.ArgumentAfterFold` says when the argument's columns
  still agree on the number of rows.
- *A `set` updates the L1 cache.* On a resident key it only moves the key; the value stays (`LruCache.ResidentUnchanged`).

## Model

| member | source | states |
|---|---|---|
| AsyncProtocol.SizesAre | recipe/fully_async_policy/fully_async_rollouter.py:174-188 | `max_required_samples` is (threshold + 1) times the samples consumed per version, rounded down, and `max_concurrent_samples` is 16 a server or that number, whichever is less |
| AsyncMoves.Starts | recipe/fully_async_policy/fully_async_rollouter.py:128-167 | a run starts empty, with the free lock, no pause and the monitor allowed to look, all on one version, at the step a checkpoint of that version gives |
| AsyncMoves.ProcessorWaits | recipe/fully_async_policy/fully_async_rollouter.py:420-494 | over all steps of all actors: the processor goes to its pause only at a pause or without room, waits at the pending queue only with room and no cancelled sample left to take up, rests and ends only without a task, and submits only with a free slot |
| AsyncMoves.HandTakes | recipe/fully_async_policy/fully_async_rollouter.py:445-450 | over all steps: cancelled samples are taken up first, in the order of their cancelling, and are not counted again; new ones come in the order of the pending queue and are counted |
| AsyncMoves.TaskMoves | recipe/fully_async_policy/fully_async_rollouter.py:496-560 | over all steps: a task starts with the sample in hand, outside a pause and with the free lock, completes with the version of that moment and is put with it, or is cancelled behind those cancelled before |
| AsyncMoves.CounterMoves | recipe/fully_async_policy/fully_async_rollouter.py:209-217 | over all steps: the staleness counter moves only by draws and by resets, and a reset adds up the tasks held, those cancelled and what is queued when it asks |
| AsyncMoves.FeederMoves | recipe/fully_async_policy/fully_async_rollouter.py:381-418 | over all steps: the feeder puts consecutive samples up to the first at the total, then the end marker, keeps at most 128 entries queued and waits for nothing but room among them |
| AsyncMoves.SyncMoves | recipe/fully_async_policy/fully_async_rollouter.py:669-682 | over all steps: a sync begins when the last resume is over, its pause takes the lock, sets the flag and cancels exactly with partial rollouts, ends when no task runs and clears the completed ones, and the trainer's version is copied |
| AsyncMoves.UpdateMoves | recipe/fully_async_policy/fully_async_rollouter.py:684-693 | over all steps: update and resume follow each other under the lock, and when the resume ends the flag is down, nothing is cancelled and the monitor may look |
| AsyncMoves.GoesOnAgain | recipe/fully_async_policy/fully_async_rollouter.py:611-693 | over all steps: generation goes on after a pause only when resume ends or the monitor has found room, looking only outside the time from the end of a pause to the end of its resume; servers are cancelled only with partial rollouts |
| AsyncSafety.ConcurrencyBound | recipe/fully_async_policy/fully_async_rollouter.py:420-494 | in every reachable state the active tasks number at most `max_concurrent_samples` |
| AsyncSafety.OutstandingBound | recipe/fully_async_policy/fully_async_rollouter.py:209-217 | before the final None, samples in hand, running, cancelled or queued number at most `max_required_samples` + 1 and at most the staleness counter + 1, although the counter is rewritten across an await |
| AsyncSafety.CounterKept | recipe/fully_async_policy/fully_async_rollouter.py:645-667 | the inductive invariant behind that bound is kept by every step of every actor |
| AsyncSafety.DropsOnlyWhenOverfull | recipe/fully_async_policy/message_queue.py:78-96 | before the final None, a step that drops an entry is a `put_sample` in a state with exactly `max_required_samples` + 1 samples outstanding, all but one in the queue |
| AsyncSafety.NoLoss | recipe/fully_async_policy/fully_async_rollouter.py:186-188 | a run whose counter resets all find the processor's hand empty drops nothing: no `put_sample` does, nor the put of the final None unless the processor has crashed |
| AsyncSafety.NoneDisplaces | recipe/fully_async_policy/fully_async_rollouter.py:571-575 | the final None displaces a sample exactly if it finds the queue full; then nothing runs, and the processor has crashed or a reset has missed a sample in its hand |
| AsyncConservation.Conservation | recipe/fully_async_policy/fully_async_rollouter.py:381-526 | under every interleaving each sample that was fed is in exactly one place, and no other number is anywhere |
| AsyncOrder.PutOrder | recipe/fully_async_policy/message_queue.py:67-116 | what the trainer consumed followed by what is queued is the put history with exactly the dropped samples taken out |
| AsyncAge.AgeBound | recipe/fully_async_policy/fully_async_trainer.py:440-487 | whenever a sample is trained on, the version is 0 to 2 + ceil(threshold) ahead of the sample's, and at most 1 + ceil(threshold) with partial rollouts or if no monitor write strayed between a pause and its resume |
| AsyncAge.VersionKept | recipe/fully_async_policy/param_sync.py:78-108 | trainer, synchroniser and rollouter versions stay tied to the number of batches trained through every step of a sync |
| AsyncAge.EntriesKept | recipe/fully_async_policy/fully_async_rollouter.py:669-693 | the position in the consumption order of every entry, consumed, queued or still running, stays within what its version allows, through every step including pause and resume |
| AsyncEnd.FinalNone | recipe/fully_async_policy/fully_async_rollouter.py:571-575 | the final None is the last entry put, the only end marker and never dropped; the trainer closes exactly when it has been received |
| AsyncEnd.TrainedBlocks | recipe/fully_async_policy/fully_async_trainer.py:134-191 | batch k is the k-th block of `required_samples` consecutive samples, trained on at version start + k / trigger |
| AsyncEnd.StepFormula | recipe/fully_async_policy/fully_async_trainer.py:418-419 | global_steps - 1 == version * trigger + (local_trigger_step - 1) between training steps, the formula used when a checkpoint is loaded |
| AsyncEnd.EndOfRun | recipe/fully_async_policy/fully_async_trainer.py:253-283 | at the end of a run, consumed = fed - dropped - left in the cancel queue, and batches and regular syncs are the whole quotients |
| AsyncEnd.AllTrainSteps | recipe/fully_async_policy/fully_async_rollouter.py:181-184 | a fresh run that neither drops nor leaves a cancelled sample makes exactly `total_train_steps` regular syncs |
| AsyncEnd.AllTrainStepsWithoutLoss | recipe/fully_async_policy/fully_async_rollouter.py:181-184 | so does a fresh run whose resets all find the hand empty and that leaves no cancelled sample |
| AsyncMoves.FinalVersion | recipe/fully_async_policy/fully_async_trainer.py:285-292 | when the trainer has stopped, the rollout workers hold its final version, which is one more than the regular syncs made exactly if that one is no multiple of the test frequency or batches were trained on since, and the frequency is not 0 |
| AsyncLimits.DropsOnlyIf | recipe/fully_async_policy/fully_async_rollouter.py:186-217 | in every run, a drop before the final None needs a server, `max_required_samples` above what one version consumes, and more data than the two together |
| AsyncLoop.AdmittedIsReachable | recipe/fully_async_policy/fully_async_rollouter.py:420-526 | every run of the event loop, with its ready queue and its lock queue, is a run of the transition system |
| AsyncDrops.DropRun | recipe/fully_async_policy/fully_async_rollouter.py:475-489 | with fewer slots than `max_required_samples`, asyncio admits a dropping run under every configuration that meets that condition |
| AsyncDrops.DropIff | recipe/fully_async_policy/fully_async_rollouter.py:209-217 | some interleaving, of asyncio or not, drops before the final None if and only if the configuration meets that condition |
| AsyncSlots.FullSlotRun | recipe/fully_async_policy/fully_async_rollouter.py:669-693 | with a slot for every sample that may be outstanding, partial rollouts and the data for it, asyncio admits a dropping run: the monitor stands before the woken processor at the lock, and the next pause behind it |
| AsyncSlotSafety.FullSlotsOnlyIf | recipe/fully_async_policy/fully_async_rollouter.py:420-526 | with such slots and `max_required_samples` up to 128, every run asyncio admits that drops before the final None needs partial rollouts, `max_required_samples` above what one version consumes, and the data for a whole version left over, one more, and what can be outstanding |
| AsyncSlotSafety.AdmittedDropIff | recipe/fully_async_policy/fully_async_rollouter.py:209-217 | some run asyncio admits drops before the final None if and only if the configuration meets the condition of `DropIff`, with fewer slots than `max_required_samples`, or that of `FullSlotsOnlyIf`, otherwise |
| AsyncAgeLimits.OldOnlyIf | recipe/fully_async_policy/fully_async_trainer.py:440-487 | a sample more than 1 + ceil(threshold) versions old needs whole rollouts, `max_required_samples` above what one version consumes, and data for 2 + ceil(threshold) versions and one batch |
| AsyncOld.OldRun | recipe/fully_async_policy/fully_async_rollouter.py:638-643 | with a positive whole threshold, a server and room in `max_required_samples` for all slots beside those of one version (or beside themselves, if that is more), asyncio admits a run that trains on a sample exactly 2 + ceil(threshold) versions old under every such configuration |
| AsyncOld.OldIff | recipe/fully_async_policy/fully_async_rollouter.py:638-643 | with the same threshold, server and room, some run asyncio admits has such a sample if and only if rollouts are not partial and there is that much data |
| AsyncCrash.LostIff | recipe/fully_async_policy/fully_async_rollouter.py:669-682 | under every interleaving with a server, the processor is lost if and only if a pause ended between the test and the lock of its first waiting loop with a finished task to clear |
| AsyncCrash.NoCrash | recipe/fully_async_policy/fully_async_rollouter.py:420-494 | with a server, no run asyncio admits ends in the crash, as long as the pending queue cannot run empty in the processor's first stretch |
| AsyncCrash.CrashIff | recipe/fully_async_policy/fully_async_rollouter.py:420-494 | for such sizes asyncio admits a crash if and only if there is data and no server |
| MessageQueues.MessageQueue.PutSample | recipe/fully_async_policy/message_queue.py:67-96 | the queue becomes the old one, less its oldest entry if it was full, and the new entry; false exactly then; a queue of size 0 raises |
| MessageQueues.MessageQueue.GetSample | recipe/fully_async_policy/message_queue.py:98-116 | the oldest entry leaves and is counted as consumed, in put order; on an empty queue it goes on waiting, or returns None once shut down, and changes nothing |
| MessageQueues.MessageQueue.GetQueueSize | recipe/fully_async_policy/message_queue.py:125-128 | what is queued is what was put and neither consumed, dropped nor cleared, as the counters say |
| MessageQueues.MessageQueue.ClearQueue | recipe/fully_async_policy/message_queue.py:143-148 | everything queued is cleared, so that everything put has left |
| MessageQueues.GetSamplesFromQueue | recipe/fully_async_policy/fully_async_trainer.py:134-172 | a batch is the first `required` entries; if the final None comes first there is none and the entries up to it are used up; if neither is there, all entries are held while it waits, or the unpacking fails after a shutdown |
| OldPolicy.Trainer.OldLogProb | recipe/fully_async_policy/ray_trainer.py:370-387 | the actor's parameters are the same afterwards, the log-probabilities come from slot 1, or from the current parameters if that is missing or so configured, and no slot but slot 1 is added |
| OldPolicy.Trainer.TrainStep | recipe/fully_async_policy/fully_async_trainer.py:244-274 | one turn of `fit` keeps parameters, broadcast parameters, versions, steps and the CPU slots tied to the number of batches; with both flags on it uses what the rollout workers held when it began |
| OldPolicy.Trainer.TriggerParameterSyncAfterStep | recipe/fully_async_policy/fully_async_trainer.py:462-487 | a local step, or a new version and a broadcast of the current parameters |
| OldPolicy.Trainer.Fit | recipe/fully_async_policy/fully_async_trainer.py:224-296 | over a whole run, with rollout log-probabilities and the proximal policy on, batch k's old log-probabilities use exactly the parameters the rollout workers held when it was processed; the run ends with them holding the final parameters |
| OldPolicy.Turn | recipe/fully_async_policy/fully_async_trainer.py:467-474 | how version, local step and last broadcast move with one more batch, for any trigger |
| OldPolicy.ActorWorker.RestoreModelFromCpu | recipe/fully_async_policy/fsdp_workers.py:141-145 | the parameters become those of the slot, or stay if there is no such slot |
| JsonParser.ParseValue | recipe/collabllm/utils.py:187-208 | on every text and position the recursion ends, indexes only inside the text, and either raises or returns a position strictly beyond its start and inside the text |
| JsonParser.MembersFrom | recipe/collabllm/utils.py:118-144 | the same for the loop over members, entered at a position that is not blank |
| JsonParser.ElemsFrom | recipe/collabllm/utils.py:146-165 | the same for the loop over elements |
| JsonLoops.ReadObject | recipe/collabllm/utils.py:118-144 | the loop of the source computes the recursive function |
| JsonLoops.ReadArray | recipe/collabllm/utils.py:146-165 | likewise for arrays |
| JsonLoops.ReadString | recipe/collabllm/utils.py:86-108 | likewise for quoted strings with escapes |
| JsonLoops.ReadTripleQuoted | recipe/collabllm/utils.py:167-185 | likewise for triple-quoted strings |
| JsonLoops.ReadNumber | recipe/collabllm/utils.py:67-79 | likewise for numbers |
| JsonLoops.ReadValue | recipe/collabllm/utils.py:187-208 | likewise for the dispatch, in the order of its tests |
| JsonLoops.Extract | recipe/collabllm/utils.py:53-219 | the whole function, as the theorems use it |
| JsonComplete.TreeParsed | recipe/collabllm/collabllm_interation.py:341-362 | a tree that stands in a text and is followed by a blank, comma, bracket or the end is parsed to its meaning, up to its end |
| JsonGrammar.StandingRead | recipe/collabllm/utils.py:118-208 | reading a tree off a text agrees with the tree being valid, rendered there, and meaning that value |
| JsonSound.TreeSound | recipe/collabllm/collabllm_interation.py:341-362 | whatever the parser returns is the meaning of some tree that stands in the text from the start position to the returned one |
| JsonExtract.Extracts | recipe/collabllm/utils.py:210-219 | `extract_json` returns v if and only if the text is an object of the language meaning v, after any text without "{" and before any text without "}" |
| JsonRoundTrip.RoundTrip | recipe/collabllm/utils.py:53-65 | any printing of a dict, in any layout and surrounding text, comes back with its strings converted; the dict itself comes back if and only if it is stable |
| JsonRoundTrip.Unchanged | recipe/collabllm/utils.py:54-65 | conversion leaves a value alone if and only if its strings and keys are left alone by `convert_value` and no dict has equal keys |
| JsonRoundTrip.QuotesIgnored | recipe/collabllm/utils.py:54-79 | a quoted string that spells a word or a number means what the bare text does |
| JsonRoundTrip.CanPrint | recipe/collabllm/collabllm_interation.py:207-372 | every value without floats whose keys are strings has a printing |
| JsonTexts.PrintedRead | recipe/collabllm/utils.py:86-108 | a string written with `\n`, `\t`, `\r`, `\"` and `\\` for those characters comes back as that string, converted |
| JsonTexts.OthersThemselves | recipe/collabllm/utils.py:98-99 | any other character behind a backslash stands for itself, in either kind of quotes |
| JsonTexts.QuotedRead | recipe/collabllm/utils.py:86-108 | between single or double quotes, one or three on each side, stands the string itself |
| JsonTexts.WordsRead | recipe/collabllm/utils.py:54-60 | the three words, every letter in either case, bare or quoted, mean true, false and null |
| JsonTexts.NumbersConvert | recipe/collabllm/utils.py:60-65 | a string with a point or an exponent becomes what float() makes of it, any other what int() does, or stays a string |
| JsonTexts.NumbersRead | recipe/collabllm/utils.py:67-79 | so do bare texts of number characters |
| JsonTexts.AfterDigit | recipe/collabllm/utils.py:67-79 | behind a bare digit nothing but number characters, blanks and a comma is accepted |
| JsonTexts.AssignIs | recipe/collabllm/utils.py:118-144 | assigning under a key that equals one there, as Python has it, replaces its value and keeps key and place; another key is appended |
| JsonTexts.TwoMembers | recipe/collabllm/utils.py:118-144 | two members make one entry, with the first key and the second value, exactly if the converted keys are equal as Python has it |
| JsonTexts.BlankIff | recipe/collabllm/utils.py:81-84 | inside an empty object exactly the four blanks are accepted |
| QkvLayout.RoundTrip | scripts/legacy_model_merger.py:530-558 | interleaving, cutting into tp equal shards and merging returns q, k and v, for all sizes where heads divide by key/value heads and those by tp |
| QkvLayout.MergeInverts | scripts/converter_hf_to_mcore.py:155-161 | merging any shards of the right size and interleaving the result gives back the rows of the shards |
| QkvLayout.InterleavedRows | scripts/converter_hf_to_mcore.py:155-161 | group g of the interleaved tensor has the rows of its query heads, then those of its key head, then those of its value head |
| QkvLayout.MergeIff | scripts/legacy_model_merger.py:530-558 | exactly for which head numbers, shard counts and shard sizes the merger works |
| QkvLayout.Merge | scripts/legacy_model_merger.py:530-558 | the nested loops compute the specification, including where an assertion, division or split fails |
| QkvLayout.Fc1Merged | scripts/legacy_model_merger.py:519-529 | shards of gate rows over as many up rows come apart into all gate rows and all up rows |
| QkvLayout.HalvesAre | scripts/legacy_model_merger.py:519-529 | for any shards the gate rows are their first halves, rounded up, and the up rows the others; it fails exactly on a shard of one row |
| QkvLayout.MergeFc1 | scripts/legacy_model_merger.py:519-529 | the loop over the shards computes that |
| LayerNumbers.MergeStateDicts | scripts/legacy_model_merger.py:587-657 | it fails exactly if a key is refused by the checks, the mapping or the reading of its layer number; else the dictionary holds exactly the renumbered names of the keys' parts, each from its last writer |
| LayerNumbers.LayerNamed | scripts/legacy_model_merger.py:625-655 | the name a part of a layer's tensor is stored under, also after `qkv` or `gate_up` has been replaced in it, spells the renumbered layer as its third part, the mapped name elsewhere, and still has the mark of a layer |
| MergedNames.QkvStored | scripts/legacy_model_merger.py:643-648 | if the mapped name of a layer's attention key holds `qkv` once, its query, key and value rows are stored under that name with `q`, `k` and `v` in its place, in this order, and the layer renumbered |
| MergedNames.GateUpStored | scripts/legacy_model_merger.py:649-652 | likewise the gate and the up rows under `gate` and `up` in place of `gate_up` |
| MergedNames.WholeStored | scripts/legacy_model_merger.py:641-642 | any other tensor of a layer is stored under its mapped name, renumbered |
| MergedNames.KeyRead | scripts/legacy_model_merger.py:587-634 | which keys are skipped, which are refused, and which tensors are cut in three or two |
| MergedNames.LayerKeyRead | scripts/legacy_model_merger.py:704-713 | a key `decoder.layers.<l>.` with the first name of the table in it is read as `model.layers.<l>.` with that name replaced by its partner, and the rest as it was |
| MergedNames.LayersBefore | scripts/legacy_model_merger.py:626-655 | a stage counts for one layer more than its greatest local number |
| LayerNumbers.StagesInOrder | scripts/legacy_model_merger.py:625-631 | the layer numbers that stored names of a later stage spell are larger than all of an earlier one |
| LayerNumbers.NoneOverwritten | scripts/legacy_model_merger.py:625-655 | every part of every layer key keeps its entry if and only if, within each stage, the names of the parts are distinct; no name of another stage, or without a layer, ever meets them |
| LayerNumbers.ExactlyAllLayers | scripts/legacy_model_merger.py:618-655 | the numbers used are exactly 0 to L-1 if and only if no stage without layers comes before one with layers |
| DataProto.PadToDivisor | verl/protocol.py:73-98 | the loop ends with the least multiple of the divisor, every column padded by repeating rows from the start, also when the pad exceeds the batch |
| DataProto.PadUnpad | verl/protocol.py:101-105 | unpadding restores the batch |
| DataProto.UnpadIs | verl/protocol.py:101-105 | unpadding any batch takes off that many of its last rows |
| DataProto.SliceByIsPick | verl/protocol.py:682-726 | a slice, with bounds missing or counted from the end and any step from 1 on, takes the same rows of every column |
| DataProto.SlicedAre | verl/protocol.py:682-726 | those rows are the ones between the bounds, which may be missing, count from the end or lie beyond it, at whole steps from the first, in order |
| DataProto.SelectIsPick | verl/protocol.py:642-680 | a mask or positions, also counted from the end, take the same rows of every column, or fail exactly where they do not fit |
| DataProto.SelectedAre | verl/protocol.py:642-680 | position i selects that row, counted from the end if negative; a mask the flagged rows, in order |
| DataProto.PickPick | verl/protocol.py:642-680 | selecting rows of selected rows selects the composed rows |
| DataProto.SplitConcat | verl/protocol.py:912-921 | concatenating the parts of a split restores the batch |
| DataProto.SplitParts | verl/protocol.py:912-921 | part i of a split holds rows i * size up to (i + 1) * size, or to the end, and there are as many parts as that takes |
| DataProto.ChunkAligned | verl/protocol.py:871-910 | every chunk, also an unequal one, holds the same consecutive rows of every column, though tensors and arrays are cut by different calls |
| DataProto.ChunkConcat | verl/protocol.py:924-968 | concatenating the chunks restores the batch, also with auto-padding |
| DataProto.ChunksIff | verl/protocol.py:871-910 | chunking works if and only if the number of chunks divides the rows or, with auto-padding, there are no tensors or pieces of the rounded-up size are that many; equal chunks begin at multiples of their size |
| DataProto.ChunkRows | verl/protocol.py:871-910 | how many rows each chunk has, also where the number does not divide: rounded up but for the last with tensors, one more for the first remainder many without |
| DataProto.RepeatAligned | verl/protocol.py:978-1020 | row i of the repeated batch is row i div n, or row i mod rows, of every column |
| BatchReshape.FoldBatchDim | verl/protocol.py:213-230 | folding wraps consecutive rows; the dictionary of non-tensor columns is rewritten in place and shared with the result |
| BatchReshape.FoldUnfold | verl/protocol.py:233-249 | unfolding a folded batch gives back what it held |
| BatchReshape.FoldedRow | verl/protocol.py:213-230 | row i of a folded column holds rows i * size up to (i + 1) * size, size being rows / n |
| BatchReshape.UnfoldedRows | verl/protocol.py:233-249 | unfolding any folded column lays the rows of its rows behind each other |
| BatchReshape.ArgumentKept | verl/protocol.py:213-230 | folding leaves the dictionary of non-tensor columns as it was if and only if there are none, also when the number of rows stays or is 0 |
| BatchReshape.ArgumentAfterFold | verl/protocol.py:227-230 | after folding, the argument's columns still agree with its number of rows if and only if it has no non-tensor columns or the number did not change |
| BatchReshape.UnfoldColumnChunks | verl/protocol.py:1022-1059 | it returns if and only if no non-tensor key meets a missing key list and every split column can be cut; then every column is split or repeated as its key says |
| BatchReshape.CanSplitIff | verl/protocol.py:1029-1037 | a column can be cut exactly if there is a second dimension, the number is not 0 and the new shape has as many cells |
| BatchReshape.SplitRow | verl/protocol.py:1029-1037 | row i of a split column is block i mod n of original row i div n |
| BatchReshape.RepeatedRow | verl/protocol.py:1038-1052 | row i of any other column is original row i div n |
| BatchReshape.JoinRows | verl/protocol.py:1029-1037 | n consecutive rows of a split column make up the original row |
| GroupFilter.VariancePositive | recipe/dapo/dapo_ray_trainer.py:237-246 | the variance of a group's rewards is positive if and only if they are not all equal |
| GroupFilter.FilterGroups | recipe/dapo/dapo_ray_trainer.py:228-258 | the loops keep, in order, exactly the rows of prompts with differing rewards or a single response |
| GroupFilter.KeptRows | recipe/dapo/dapo_ray_trainer.py:242-258 | the indices kept are, in order, exactly those of prompts with a single response or two with different metrics |
| GroupFilter.DynamicSampling.Round | recipe/entropy/entropy_ray_trainer.py:223-269 | over any number of rounds the batch is whole groups in generation order, their number is the counter, and a round ends in training, another round or the error exactly as the counters say |
| GroupFilter.Aligned | recipe/dapo/dapo_ray_trainer.py:282-285 | the aligned batch is exactly the first train_batch_size groups, whole |
| GroupFilter.TrainedGroups | recipe/dapo/dapo_ray_trainer.py:242-258 | the groups trained on belong to different prompts, were generated, and each has differing rewards or one response |
| OneStepOff.Trainer.AsyncGenNextBatch | recipe/one_step_off_policy/ray_trainer.py:311-359 | the next batch is launched with the actor's current weights, never while a generation is running |
| OneStepOff.Trainer.Fit | recipe/one_step_off_policy/ray_trainer.py:441-478 | batches are trained on in launch order, each launched batch once, for as many steps as data and step limit allow; batch k was generated with exactly the weights that training step k - 1 started from (batch 0 with the initial ones) |
| OneStepOff.Trainer.Iterate | recipe/one_step_off_policy/ray_trainer.py:466-478 | one iteration keeps that, with at most one generation under way |
| OneStepOff.NextWeights | recipe/one_step_off_policy/ray_trainer.py:612-616 | the weights after a training step are those updated on its batch once the critic's warm-up is over, and the same before |
| OneStepOff.AllBatches | recipe/one_step_off_policy/ray_trainer.py:464-478 | every batch is trained on if and only if there is at most one or the steps left cover them |
| LruCache.MostRecentKept | tool_server/api_server_deepresearch_redis.py:229-255 | after any history the keys, oldest first, are exactly the maxsize most recently used distinct keys (sets and hitting gets) |
| LruCache.RecencyOrder | tool_server/api_server_deepresearch_redis.py:229-255 | that list orders keys by their last use |
| LruCache.Inclusion | tool_server/api_server_deepresearch_redis.py:229-255 | on the same history the keys of a cache of size n are those of one of size n + 1, in the same order, with at most one left out |
| LruCache.ResidentUnchanged | tool_server/api_server_deepresearch_redis.py:246-255 | the value of a key that stays resident never changes |
| LruCache.ValueFrom | tool_server/api_server_deepresearch_redis.py:237-255 | the value found is that of the set that last brought the key in |
| LruCache.L1LRUCache.Get | tool_server/api_server_deepresearch_redis.py:237-244 | a hit returns the value and keeps the order of the history specification; size 0 never hits |
| LruCache.L1LRUCache.Set | tool_server/api_server_deepresearch_redis.py:246-255 | a resident key keeps its value, a new one is stored, and the order is that of the history specification |
| Rloo.MaskedRloo | recipe/prime/prime_core_algos.py:23-42 | every masked token gets n / (n - 1) times its reward less 1 / (n - 1) of the sum of its group's means, in a fresh tensor that is 0 elsewhere; in a group that is not complete or has a row without a masked token it becomes NaN; it raises exactly for group size 0, or 1 with any row |
| Rloo.LeaveOneOut | recipe/prime/prime_core_algos.py:27-40 | the mean of a sample becomes its own mean less the average of the means of the other n - 1 |
| Rloo.ZeroSum | recipe/prime/prime_core_algos.py:23-42 | the means of each group sum to zero |
| Rloo.OneToken | recipe/prime/prime_core_algos.py:53-69 | with one masked token per sample it gets its reward less the mean of the other samples' |
| Rloo.ReturnsAre | recipe/prime/prime_core_algos.py:71-74 | the return at a position is the sum of the masked rewards from there on |

## Left out

- Ray, NCCL, FSDP, Megatron, inference engines, Hydra, tokenizers and checkpoint files: a remote call is one step, a weight sync copies an abstract value.
- Exceptions inside generation tasks and of the feeder: tasks are taken not to raise; `EndOfRun` is about runs whose processor ended normally.
- Fairness and liveness, timing, timeouts and sleeping: a step can happen whenever it is enabled and, in admitted runs, its coroutine has the turn; an arrival from outside can come at any time.
- `clear_queue` in the transition system: it is called only after both components have ended (recipe/fully_async_policy/fully_async_main.py:282); it is part of the queue class.
- `MessageQueue.shutdown` in the transition system (it is part of the queue class), validation data, idle ratios, metrics, logging, and the save_checkpoint of the rollouter.
- AsyncAge.AgeBound: the bound 1 + ceil(threshold) is stated for partial rollouts and for runs in which no monitor write strays between a pause and the resume, because it fails otherwise (`AsyncOld.OldRun`).
- AsyncSafety.NoLoss: stated for runs whose resets find the hand empty, because it fails otherwise (`AsyncDrops.DropRun`), and for a processor that has not crashed, because after a crash the None is put at once.
- AsyncDrops.DropIff: a statement about all interleavings; with a slot for every sample that may be outstanding its dropping run (`AsyncDrops.SlowRun`) is not one of asyncio's, whose condition is that of `AsyncSlotSafety.AdmittedDropIff`.
- AsyncSlotSafety.AdmittedDropIff: not stated for slots for more than 128 samples that may be outstanding, where the pending queue can run empty in a stretch of the processor; there the condition of `DropIff` is necessary and that of `AsyncSlots.FullSlotRun` sufficient.
- AsyncOld.OldIff: for thresholds that are no positive whole numbers, and with less room for the slots, only the necessary condition of `AsyncAgeLimits.OldOnlyIf` is stated.
- AsyncCrash.CrashIff: for at least 128 slots, more than 128 samples that may be outstanding and at least 128 samples of data, the pending queue can run empty in the processor's first stretch; only `LostIff` is stated there.
- AsyncLoop.AdmittedIsReachable: the lock taken at the end of `_streaming_generation_main`, after the final None, is not among the waiters.
- Python's `int()` and `float()` themselves, infinities and NaN, and lower-casing beyond ASCII, which cannot produce the words true, false or null; blanks are the four characters the parser names.
- JsonRoundTrip.CanPrint: floats have no printing here, because their decimal forms are not modelled.
- LayerNumbers.MergeStateDicts: the table of names is a parameter, and `int()` of a layer number reads decimal digits; a key with another spelling counts as refused.
- The contents of tensor rows; merging of the remaining Megatron keys by concatenation; vocabulary padding.
- Concatenation of batches with different keys, which the source rejects; `pop`, `union`, `reorder`, pickling, device moves and the merging of `meta_info`.
- DataProto.ChunkAligned: chunking an empty batch, which is up to the tensor library, is not stated.
- Floating-point rounding in rewards, variances and baselines: they are real numbers here.
- Whitening of advantages, losses, log-probabilities and the reward functions.
- GroupFilter.DynamicSampling.Round: prompt ids are taken to be fresh, as uuid4 makes them, and filtering to be enabled; which metric is filtered on is left open.
- OneStepOff.Trainer.Fit: the generation itself is abstract, and an exception of the data loader counts as its end, as the source treats it.
- OldPolicy.Trainer.Fit: the waiting between sync, update and resume is in the transition system; here a broadcast is one assignment.
- Locks of the L1 cache: its methods run under one lock and are modelled one at a time; values are never None.
- The rest of the tool server, data preparation, the rollout viewer and the other recipes.
