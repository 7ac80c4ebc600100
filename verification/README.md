# The model broker's scheduler, verified in Dafny

The model broker decides which models may be loaded on a shared set of GPUs and RAM. It admits
requests into loaded models, unloads idle models to make room, loads the requested one, keeps
conflicting requests in arrival order, and re-adopts what the servers hold after failures. This
project models that scheduler, the catalogue arithmetic it relies on, the survey it starts from,
and the two backends it drives, and proves what the design promises of them.

## How the model is built

The scheduler is a step machine (`Machine.dfy`). One action is one stretch of
`src/model_broker/scheduler.py` between two awaits: arrival, taking the lock, one observation,
waking, cancellation, one returned or failed unload, one returned load, one merge of a survey, and
so on. Suspended coroutines are program counters, background tasks have stages, and records have
identity: the position of a record in `recs` stands for the reference. Any interleaving of the
actions is a run, so every theorem over runs holds for concurrent admissions, loads, unloads,
cancellations and re-inspections.

`Schedulers.dfy` is the same scheduler in the source's own form: `LoadedModel` and `Scheduler` are
classes whose methods update fields in place, with the source's loops. Each method is proved to take
exactly the machine's step on the abstract state, and `Schedulers.Scheduler.TakeStep` that any step
the machine can take is one of theirs, so the theorems over runs are theorems about the objects.

| files | what they hold |
|---|---|
| `Claims`, `Capacity`, `Suffix`, `Presets`, `Sections` | claims and conflicts, the capacity search, device suffixes, preset sections and which are accepted |
| `Machine`, `Schedulers` | the scheduler as steps over values, and as classes over mutable records |
| `Line`, `LineSteps`, `Frames`, `Shapes`, `Counts`, `Links`, `UseSteps`, `LinkSteps`, `TaskSteps`, `Base` | record keeping, kept by every step whatever the surveys report |
| `Safety`, `PlaceSafe`, `TaskSafety`, `SurveySafety`, `SafeSteps` | ownership and exclusive resources, step by step |
| `Outcomes` | what every step does, told by the fields of the states before and after it |
| `Runs`, `Interruption`, `Arrival`, `SharedLoad`, `Protection`, `Rivals`, `Reinspection` | the theorems about runs and decisions |
| `Ownership`, `Faithful`, `Owners` | ownership with any surveys, and exactly what it needs |
| `Journeys`, `Failures` | runs built step by step, in which each condition is missed and the property fails |
| `Surveys`, `Composition` | the survey, where runs start, and the scheduler and capacity check together |
| `Managed`, `Llama`, `Polling`, `OneModel`, `Echo` | the backends, their wait loops, and the settings echo |

## Hypotheses

Theorems name what they need. `Run` needs nothing: any surveys, any answers. `FaithfulRun` adds what
servers owe whatever surveys report, and `KeptRun` a protection window; `HonestRun` asks for exact
surveys as well; `SparingRun` is described under the findings.

- `FaithfulRun`: a returned unload means that the model is not held, activity is answered only for a
  held model, and no survey finds a model whose record failed to load and is being unloaded.
- `KeptRun`: moreover the protection window is positive, or every answer comes later than its call
  of `busy` began.
- `HonestRun`: moreover a reading of "unloaded" after a failed load means that the model is not held,
  nobody else loads models, the run starts where a survey without problems leaves it, and every
  survey is exact when it is merged. A failed load leaves it unknown (`may`) whether the model is held.
- All runs: a model that a reachable server neither holds nor reports, with no load of it under way,
  does not come up later by itself (`Machine.ShownGone`); `reinspect` and `track` are not cancelled.
- `OneModel.NeverRefused`: a container is started with exactly the settings of the model that
  appears, and only a start brings one up.

## What the proofs found

1. **Capacity.** `max_loaded_models` is exact if and only if at most one variant is without an
   exclusive claim (`Capacity.MaxLoadedModels`). Otherwise it falls short by all but one of those,
   and a server that passed the check can be asked to hold more models than its limit allows
   (`Composition.CapacityHoldsIff`). Every accepted llama variant has such a claim; a service section
   with a `--cpu` suffix and no `exclusive` setting has none, and two are accepted together
   (`Presets.ClaimlessServicesFallShort`).
2. **Ownership.** With faithful servers and a positive window, `swap`'s deletions find their key
   however stale the surveys are (`Owners.DeletionsFindTheirKey`). Two things can break this, and
   exactly these: a step is tame if and only if no deletion can go wrong after it
   (`Owners.TameExactly`).
   - A re-inspection finds a model whose tracked record failed to load and is being unloaded. The merge
     replaces that record, and the swap deletes its successor, or misses the key. Where requests may
     wait, this happens in some run of exactly the configurations with two models that compete
     (`Failures.MissableExactly`).
   - A decision displaces a record that is not tracked any more. A record that is given up while a
     placer observes another conflict has no decode count, so an answer counts it as just used: a
     positive window rules this out. Without one, and if no time passes between the placer's first
     look and the answer, it happens (`Failures.WindowDecides`).
3. **Interruption.** `reinspect` counts a record as in progress when it has active requests, is
   leaving or is not ready, but not when it has `queued` ones. A record whose joiners have been woken
   and have not run yet is dropped if its reachable server does not report it; the joiner is then
   admitted to a record that is no longer tracked, and the model's next unload interrupts it. This
   happens in some honest run of exactly the configurations with two models that compete
   (`Failures.InterruptibleExactly`). `SparingRun` adds that no survey misses such a model, and that is
   exactly what keeps admitted requests with tracked records (`Reinspection.SparingExactly`).
4. **Retry-After.** `if placed.until` takes an end time of exactly 0.0 for an unknown one. An end still to
   come is never 0.0 while the clock is not negative, as `time.monotonic` is not, so the promised
   value is the least possible (`Protection.RetryAfterIsLeast`).
5. **Reading "unloaded".** A service whose container runs under settings that match another model, or
   none, reports the model unloaded while the container occupies its resources
   (`Managed.ManagedService.LoadedMeans`); this is why the last hypothesis is needed.

## Model

| member | source | states |
|---|---|---|
| Claims.ConflictIffOverlap | src/model_broker/catalogue.py:359-362 | Two variants conflict iff some resource is claimed exclusively by both. |
| Claims.ConflictSymmetric | src/model_broker/catalogue.py:359-362 | The order of the two variants does not matter. |
| Capacity.SumIsUnionIffApart | src/model_broker/catalogue.py:350-353 | The sizes of a combination add up to the size of its union iff its sets are pairwise disjoint. |
| Capacity.FitsIffFamily | src/model_broker/catalogue.py:350-353 | Some combination of a size passes the test iff a disjoint family of that size exists. |
| Capacity.SmallerFamily | src/model_broker/catalogue.py:349-355 | Stopping at the first failing size is sound: larger families contain families of every smaller size. |
| Capacity.LargestGroupIs | src/model_broker/catalogue.py:340-344 | Merging equal resource sets loses exactly all claimless variants but one. |
| Capacity.MaxLoadedModels | src/model_broker/catalogue.py:337-356 | The search returns the largest number of variants that can be loaded together, iff at most one has no exclusive claim, and how far it falls short otherwise. |
| Suffix.SuffixRoundTrip | src/model_broker/catalogue.py:68-78 | Writing any non-empty list of distinct GPU numbers after any base name and parsing the ID returns that list. |
| Suffix.SuffixAcceptsExactly | src/model_broker/catalogue.py:68-78 | An ID is accepted iff it ends in the CPU suffix or in distinct GPU numbers in decimal, and gives exactly those. |
| Suffix.LeadingZeroRefused | src/model_broker/catalogue.py:14-16 | An ID ending in a GPU number with a leading zero is refused. |
| Presets.LlamaHolds | src/model_broker/catalogue.py:115-154 | An accepted llama variant holds exactly the GPUs its ID names, and RAM for weights iff its suffix names no GPU or `n-cpu-moe` is a number other than 0. |
| Presets.LlamaClassIs | src/model_broker/catalogue.py:115-139 | The resource class is told by the suffix and `n-cpu-moe` alone. |
| Presets.LlamaHasClaim | src/model_broker/catalogue.py:157-180 | Every accepted llama variant has an exclusive claim. |
| Presets.LlamaConflictIff | src/model_broker/catalogue.py:142-180 | Two accepted llama variants conflict iff their suffixes share a GPU number or both have weights in RAM by their settings. |
| Sections.SettingDevicesIff | src/model_broker/catalogue.py:81-94 | A device setting is read as these GPUs iff it lists them between commas, with blanks, and none twice. |
| Sections.LlamaAcceptedIff | src/model_broker/catalogue.py:97-180 | A llama section is accepted iff its suffix names GPUs, none twice, and its devices, draft devices, threads, layers and expert settings agree with it. |
| Presets.LlamaCapacityIsExact | src/model_broker/catalogue.py:337-356 | For a catalogue of accepted llama variants the computed capacity is exact. |
| Presets.ServiceExclusive | src/model_broker/catalogue.py:272-287 | An accepted service variant holds exactly its GPUs and its extra resources. |
| Sections.WordsAre | src/model_broker/catalogue.py:272-274 | The extra resources are the longest runs without commas and blanks. |
| Sections.ServiceAcceptedIff | src/model_broker/catalogue.py:240-287 | A service section is accepted iff its keys are known, its service, variable and resource names are well formed, and its devices agree with its suffix. |
| Sections.ServiceHolds | src/model_broker/catalogue.py:262-287 | An accepted service holds the GPUs of its ID and the resources its section names, and is started with exactly the variables it sets. |
| Presets.ServiceClaimlessIff | src/model_broker/catalogue.py:240-287 | A service variant has no exclusive claim iff it is a CPU variant that names no exclusive resource. |
| Presets.ClaimlessServicesFallShort | src/model_broker/catalogue.py:240-287 | Two such services are accepted; the computed capacity is 1 and both fit. |
| Surveys.RouterProblems | src/model_broker/scheduler.py:134-151 | No problem iff the server loads nothing by itself and its limit allows the computed number of its own models. |
| Surveys.Reconcile | src/model_broker/scheduler.py:154-192 | Every own model not unloaded is adopted, not ready iff loading; no problem iff every state is unloaded, loading or loaded, every held model is in the preset, and none conflict. |
| Surveys.ServerConflicts | src/model_broker/scheduler.py:186-191 | No problem iff no two adopted models conflict. |
| Surveys.ChecksCoverAllPairs | src/model_broker/scheduler.py:186-206 | The per-server checks and the cross-server check together cover every pair of adopted models. |
| Surveys.Inspect | src/model_broker/scheduler.py:223-247 | A survey reports no problem iff all servers are reachable, fit and understood and everything held is free of conflict; what it adopts, and from which servers, is exact. |
| Surveys.SoundSurveyStartsSafe | src/model_broker/scheduler.py:250-255 | A survey without problems gives the scheduler its initial invariant. |
| Surveys.ExactAnswersMakeExactSurveys | src/model_broker/scheduler.py:389-417 | What a survey adopts can be merged, with its problems and unreachable servers, and the merge is exact if every server that answered reported what it holds. |
| Surveys.ServersNeverOverfull | src/model_broker/scheduler.py:141-147 | From a survey without problems, no server ever has more models, with the one it is loading, than its limit allows. |
| Composition.NeverPicksAVictim | src/model_broker/scheduler.py:134-151 | In every honest run, a server's held models and the one being loaded never exceed the computed capacity, nor a nonzero limit that passed the check. |
| Composition.CapacityHoldsIff | src/model_broker/catalogue.py:337-356 | That bound holds in all honest runs iff at most one of the server's models has no exclusive claim. |
| Schedulers.Scheduler.constructor | src/model_broker/scheduler.py:269-301 | A scheduler built from a survey tracks exactly what was adopted, with everything still to track. |
| Schedulers.Scheduler.Arrive | src/model_broker/scheduler.py:345-353 | An unknown model is refused; a known one takes its ticket and deadline, or waits to check the servers. |
| Schedulers.Scheduler.TakeCheckLock | src/model_broker/scheduler.py:379-387 | Under the lock, a re-inspection starts only if the servers are still unfit. |
| Schedulers.Scheduler.EarlierRival | src/model_broker/scheduler.py:438-444 | Whether an earlier ticket is for a different conflicting model. |
| Schedulers.Scheduler.Look | src/model_broker/scheduler.py:355-361 | The head of the wait loop takes the machine's step: join, wait for an earlier rival, or queue for the lock. |
| Schedulers.Scheduler.SettleFor | src/model_broker/scheduler.py:363-373 | What happens to a request that could not be placed: look again, be refused with its Retry-After, or sleep. |
| Schedulers.Scheduler.JoinModel | src/model_broker/scheduler.py:419-430 | Joining counts the request as queued while the model loads, and otherwise admits or refuses it. |
| Schedulers.Scheduler.JoinWake | src/model_broker/scheduler.py:421-430 | A woken joiner is no longer queued, and is admitted or fails with the model's error. |
| Schedulers.Scheduler.Release | src/model_broker/scheduler.py:337-343 | The end of an admission gives it back and notes the time. |
| Schedulers.Scheduler.Cancel | src/model_broker/scheduler.py:374-377 | Cancellation at an await gives back ticket, lock and place in the queue. |
| Schedulers.Scheduler.ListConflicts | src/model_broker/scheduler.py:451-451 | The conflicts are each tracked, conflicting record once, and no other. |
| Schedulers.Scheduler.TakePlaceLock | src/model_broker/scheduler.py:445-453 | Under the lock, a request settles if its model is tracked and otherwise begins to observe the conflicts. |
| Schedulers.Scheduler.Observed | src/model_broker/scheduler.py:569-591 | One answered or unanswered observation takes the machine's step, up to the decision. |
| Schedulers.Scheduler.AdvanceBusy | src/model_broker/scheduler.py:559-591 | `busy` from one observation to the next, or to its verdict. |
| Schedulers.Scheduler.BeginSwap | src/model_broker/scheduler.py:459-466 | The decision: every conflict leaves, the model is tracked with its first waiter, and its swap is started. |
| Schedulers.Scheduler.Unloaded | src/model_broker/scheduler.py:478-482 | A returned unload deletes the victim and goes on to the next, or to the load; a missing key ends the task. |
| Schedulers.Scheduler.UnloadFailed | src/model_broker/scheduler.py:483-492 | A failed unload restores every victim and gives the model up, releasing its waiters with the error. |
| Schedulers.Scheduler.LoadReturned | src/model_broker/scheduler.py:493-500 | A failed load records its error before anything else happens. |
| Schedulers.Scheduler.MarkReady | src/model_broker/scheduler.py:501-504 | The end of a load releases the waiters; only a swap notes the time. |
| Schedulers.Scheduler.Confirmed | src/model_broker/scheduler.py:520-545 | After a failed load the model is dropped only if the server confirms it is gone; otherwise scheduling stops. |
| Schedulers.Scheduler.MergeFound | src/model_broker/scheduler.py:399-403 | Each found model keeps its sound record by identity and otherwise gets a new one, in the order found. |
| Schedulers.Scheduler.KeepRest | src/model_broker/scheduler.py:404-409 | A tracked model that was not found stays iff it is in progress or its server is out of reach. |
| Schedulers.Scheduler.Reinspect | src/model_broker/scheduler.py:389-417 | Merging a survey takes the machine's step, for any survey. |
| Schedulers.Scheduler.TrackModel | src/model_broker/scheduler.py:309-318 | A newly adopted model is watched while it loads, or gets a baseline. |
| Schedulers.Scheduler.TakeStep | src/model_broker/scheduler.py:258-605 | Whatever can happen next in a state whose references are in range, the objects take exactly the machine's step, and references stay in range. |
| Outcomes.LookOutcome | src/model_broker/scheduler.py:355-361 | A request joins its model if it stays; otherwise it waits for an earlier rival, or queues for the lock. |
| Outcomes.LockOutcome | src/model_broker/scheduler.py:445-466 | Under the lock a request looks again at once if its model is tracked and stays, is blocked if it leaves, is placed if nothing competes, and otherwise turns to the conflicts. |
| Outcomes.ObserveOutcome | src/model_broker/scheduler.py:559-591 | What an answer leaves on the record, what blocks the request and until when, and when exactly it displaces the conflicts. |
| Outcomes.SettleWaits | src/model_broker/scheduler.py:363-373 | A blocked request looks again at once if the obstacle has gone; from its deadline on it is refused, with its ticket gone and the right Retry-After; before, it sleeps to the obstacle's end, one interval or its deadline. |
| Outcomes.SleepsWithinDeadline | src/model_broker/scheduler.py:369-373 | In any run, every sleep ends by its request's deadline, which is still to come. |
| Outcomes.RefusedAtDeadline | src/model_broker/scheduler.py:369-371 | In any run, no request that looks, takes the lock or observes at or after its deadline goes to sleep, and a refused one has no ticket. |
| Outcomes.ArriveOutcome | src/model_broker/scheduler.py:345-352 | An unknown model is refused; a known one takes the last place in the line, or checks unfit servers. |
| Outcomes.CheckOutcome | src/model_broker/scheduler.py:379-387 | Under the lock, a survey begins iff the servers are still unfit. |
| Outcomes.CheckedOutcome | src/model_broker/scheduler.py:383-387 | After the re-inspection a request enters the line iff the servers are fit, and otherwise is refused. |
| Outcomes.SurveyOutcome | src/model_broker/scheduler.py:398-417 | A model is tracked after the merge iff it was found, or was tracked and is in use, leaving, unready or out of sight; it keeps its record unless that failed and the model was found; every other found model gets a new record, to be tracked. |
| Outcomes.TrackOutcome | src/model_broker/scheduler.py:309-318 | An adopted model gets a baseline if it is ready, and otherwise a task that watches its load. |
| Outcomes.WakeOutcome | src/model_broker/scheduler.py:421-430 | A woken joiner is not queued any more, and is admitted or fails with the model's error. |
| Outcomes.ReleaseOutcome | src/model_broker/scheduler.py:337-343 | The end of an admission gives it back and counts as activity. |
| Outcomes.CancelOutcome | src/model_broker/scheduler.py:374-377 | Cancellation gives back the ticket, the lock and the place among the joiners. |
| Outcomes.StartOutcome | src/model_broker/scheduler.py:476-495 | A swap begins with its first unload, or with the load if it has no victims. |
| Outcomes.UnloadOutcome | src/model_broker/scheduler.py:478-495 | A returned unload deletes its victim's key and leads to the next unload or the load; a missing key ends the task. |
| Outcomes.UnloadFailedOutcome | src/model_broker/scheduler.py:483-492 | A failed unload makes every victim stay, and gives the model up with its error. |
| Outcomes.LoadOutcome | src/model_broker/scheduler.py:493-500 | A failed load records its error and has the server asked; a successful one goes on to its baseline. |
| Outcomes.BaselineOutcome | src/model_broker/scheduler.py:500-518 | The end of a load releases the waiters; a swap counts it as activity, and a baseline is kept if it could be read. |
| Outcomes.ConfirmOutcome | src/model_broker/scheduler.py:529-545 | After a failed load the model is dropped iff the server confirms that it is gone and its record still stands for it; without confirmation the servers count as unfit. |
| Runs.ExclusiveResources | src/model_broker/scheduler.py:432-504 | In every honest run no two held models claim the same exclusive resource; held models are tracked, and two tracked models conflict only while one is leaving for the other, whose load has not been asked for. |
| Runs.NobodyInterrupted | src/model_broker/scheduler.py:451-466 | In any run, nobody is admitted to or waits for a leaving record. |
| Runs.UnloadsOnlyTheUnused | src/model_broker/scheduler.py:478-482 | In every sparing run, while the unload of a model is in flight, no request is admitted to any record of that model. |
| Rivals.UnloadsOnlyRivals | src/model_broker/scheduler.py:451-482 | In any run, a swap unloads only models that compete with its own. |
| Owners.LeavingHasOneSwap | src/model_broker/scheduler.py:459-492 | With faithful servers and a window, a tracked leaving record is a pending victim of exactly one swap, once, whatever re-inspections intervene. |
| Owners.UnreadyHasOneOwner | src/model_broker/scheduler.py:309-323 | Likewise, a tracked unready record has exactly one task that will make it ready, or awaits its turn in `track`. |
| Owners.DeletionsFindTheirKey | src/model_broker/scheduler.py:478-492 | Likewise, both deletions of `swap` find their key and delete the very record they are about, and no task ends in a key error. |
| Faithful.KeptRunIsTame | src/model_broker/scheduler.py:398-466 | However stale the surveys, every decision of such a run displaces only tracked records. |
| Runs.HonestRunIsTame | src/model_broker/scheduler.py:398-417 | Exact surveys give the same with any protection window. |
| Ownership.OwnershipKeptExactly | src/model_broker/scheduler.py:398-466 | A step keeps ownership iff it is no re-inspection that finds a failed, leaving model and no decision that displaces an untracked record. |
| Owners.TameExactly | src/model_broker/scheduler.py:398-492 | After such a step, and only then, the run can go on, keeping every hypothesis, to a deletion that misses its key or takes another record's. |
| Owners.QuietIsReady | src/model_broker/scheduler.py:468-518 | With nothing under way, all tracked records are ready and none is leaving, whatever surveys reported. |
| Owners.QuietIsSettled | src/model_broker/scheduler.py:468-518 | In every honest run, with nothing under way, no tracked records conflict either. |
| Failures.InterruptibleExactly | src/model_broker/scheduler.py:404-430 | Some honest run has a request admitted to a model whose unload is in flight iff two models compete. |
| Failures.MissableExactly | src/model_broker/scheduler.py:399-403 | With surveys that find a failed model being unloaded, some run has a deletion that misses iff two models compete. |
| Failures.WindowDecides | src/model_broker/scheduler.py:576-591 | Where four models are crossed, faithful servers keep all deletions right iff the protection window is positive. |
| Runs.Conservation | src/model_broker/scheduler.py:325-377 | In any run, with cancellation at any await, `active` and `queued` count exactly the admitted and suspended requests, tickets are distinct, and exactly the waiting requests have one. |
| Arrival.PlacedInOrder | src/model_broker/scheduler.py:432-466 | When a ticket is placed, no ticket ahead of it is for a different conflicting model, although that was checked before two awaits. |
| Arrival.AheadShrinks | src/model_broker/scheduler.py:350-377 | While a request waits, the tickets ahead of its own only ever shrink. |
| Arrival.FirstIsFree | src/model_broker/scheduler.py:438-444 | The first ticket is never held back, and whoever is held back waits for one further ahead, so there is no circular waiting. |
| SharedLoad.OutcomeIsFinal | src/model_broker/scheduler.py:485-504 | Once a record is ready, its error never changes. |
| SharedLoad.JoinersShareTheirFate | src/model_broker/scheduler.py:419-430 | All requests waiting for a record that are not cancelled are admitted, or all fail with the same error. |
| SharedLoad.LoadsOnceAfterUnloads | src/model_broker/scheduler.py:476-495 | Each record causes at most one load, asked only after every victim's unload has returned. |
| Reinspection.MergeKeepsExactly | src/model_broker/scheduler.py:399-409 | A record stays tracked iff it was, and is found and sound, or not found and in progress or out of sight. |
| Reinspection.ReinspectionKeeps | src/model_broker/scheduler.py:389-417 | For any survey, stale or not: active records and sound leaving or unready ones are kept by identity, unreachable servers' models keep an entry, and every reported model gets one. |
| Reinspection.SparingExactly | src/model_broker/scheduler.py:404-430 | An exact survey spares the woken iff no sparing continuation admits a request to an untracked record. |
| Reinspection.InterruptedIsAstray | src/model_broker/scheduler.py:478-482 | Only a request admitted to an untracked record can be admitted to a model whose unload is in flight. |
| Reinspection.ReinspectionSparesExactly | src/model_broker/scheduler.py:404-409 | Served records survive a re-inspection iff it misses no model whose joiners have been woken and have not run. |
| Protection.DisplacesOnlyTheIdle | src/model_broker/scheduler.py:451-461 | With a positive window, every displaced model was seen in that call ready, staying, without work or queue here or on its server, with an unchanged decode count, and last active at least the window before the call began. |
| Protection.PlacedAtOnceDisplacesNobody | src/model_broker/scheduler.py:445-463 | A placement without any observation meets no conflict and displaces nobody, so the row above covers every displacement. |
| Protection.RetryAfterIsLeast | src/model_broker/scheduler.py:369-371 | Retry-After is the least whole number of seconds, at least one, that reaches the end of the block; an end of zero, taken for unknown, cannot be still to come. |
| Protection.RecentRefusalIsExact | src/model_broker/scheduler.py:363-373 | A refusal for recent use comes no earlier than the deadline, and its Retry-After reaches the latest end of protection among the conflicts. |
| Managed.ManagedService.WaitForState | src/model_broker/managed.py:132-155 | The wait ends at the first deciding reading, an unanswered one, or after the deadline, and with a positive interval reads at most once more than the timeout holds intervals, rounded up. |
| Managed.ManagedService.Load | src/model_broker/managed.py:101-117 | A start is asked for iff the first reading shows the container neither running, restarting nor paused, and with the model's settings; refused for running another model iff that reading shows one; success ends on a reading of this model up and healthy. |
| Managed.ManagedService.Unload | src/model_broker/managed.py:119-130 | A stop is asked for iff the first reading shows the container running, restarting or paused as this model; refused for running another iff it shows one; success ends on a reading in which this model is in none of these states. |
| Managed.ManagedService.SuccessIsSeen | src/model_broker/managed.py:143-144 | A successful wait ended on a reading that shows the model in the expected state. |
| Managed.ManagedService.LoadedMeans | src/model_broker/managed.py:83-90 | A model is reported loaded iff its container is identified as it and healthy, loading iff it is up otherwise, and unloaded iff no container running, restarting or paused is identified as it. |
| Managed.ManagedService.VerdictMeans | src/model_broker/managed.py:139-149 | How the wait judges a reading: success, failure of a stopped container, mismatch of another model's, or going on. |
| OneModel.OwnModelsConflict | src/model_broker/managed.py:78-81 | If a limit of one passes the check, any two models of the service conflict. |
| OneModel.RunReflects | src/model_broker/managed.py:71-76 | Along a run whose appearances are container starts with the model's settings, a running container is always identified as a model of the service that is held. |
| OneModel.NeverRefused | src/model_broker/managed.py:109-128 | Driven by the scheduler, loads and unloads never meet a state of the container that makes them refuse for running a different model. |
| OneModel.UnrecognisedIsNoModel | src/model_broker/managed.py:66-69 | The ID reported for an unknown container is no accepted model ID. |
| Llama.LlamaAdapter.WaitForState | src/model_broker/llama.py:191-207 | The wait ends at the first deciding reading or after the deadline, within the same number of readings if the interval is positive. |
| Llama.LlamaAdapter.LoadModel | src/model_broker/llama.py:166-173 | A load succeeds only if the router accepted it and the last reading showed the model loaded. |
| Llama.LlamaAdapter.UnloadModel | src/model_broker/llama.py:175-189 | An unload succeeds only on a last reading that shows the model unloaded; a refused one succeeds iff the next reading shows that. |
| Llama.LlamaAdapter.VerdictMeans | src/model_broker/llama.py:194-201 | How the wait judges a reading: a failed load ends it whatever state is reported. |
| Llama.LlamaAdapter.FailureEndsTheWait | src/model_broker/llama.py:196-199 | A failed load ends any wait at once. |
| Echo.ParseSettings | model-broker-service-control.py:190-204 | Settings are accepted, unchanged, iff they are an object whose names are allowed strings and whose values are permitted strings; each refusal has its cause. |
| Echo.ReadSettings | model-broker-service-control.py:374-391 | The status reports exactly the allowed names that entries give, each with the value of its last entry. |
| Echo.PermittedIs | model-broker-service-control.py:50-51 | The characters a value may have, and its length. |
| Echo.PartitionsBack | model-broker-service-control.py:379-382 | Splitting at the first `=` undoes an entry, even when the value has one. |
| Echo.StartedIsIdentified | src/model_broker/managed.py:71-76 | A container started with a model's settings is identified as that model from its status, among arbitrary other variables. |

## Left out

- asyncio, HTTP, sockets, subprocesses, Docker and FastAPI: step boundaries and nondeterministic outcomes stand for them.
- The proxy, the application and instrumentation: an admission's end is the Release step.
- configparser, JSON and Prometheus parsing and the helper's request envelope: field checks with easy properties.
- Authentication, event emission and error texts; of the lists of problems only which problems there are, not their order or wording.
- The build string, and the check that every backend in the catalogue has a server.
- `model-broker-host-facts.py`: readings of the host.
- `int`, which reads numbers in preset sections, is a parameter; `model_path` and the settings mapping of a variant are not kept.
- Presets.ServiceVariant: the sorted order of a service's claims is not modelled, because no decision depends on it.
- Failures.MissableExactly: stated for a positive maximum wait; with none, a busy request is refused at once, and the run would need a third request.
- The clock is a real number; rounding of reported seconds is left out.
- Router-side queues, and anyone loading models behind the broker's back, except as the decode count changing between observations.
- Whether every request is refused by its deadline, and whether the protection window still holds at the decision for several victims: the code does not promise either.
- The exit code and the out-of-memory flag of a container, which only appear in error texts.
