# Verification of the task-maker execution engine

task-maker evaluates a DAG of execution groups for many clients at once. This
project models the engine that does it, and proves what its parts promise.

| file | what it models |
|---|---|
| `Dag.dfy` | executions, limits and statuses, groups, the DAG a client sends |
| `CheckDag.dfy` | the validation of a DAG, by counting dependencies down |
| `SchedulerState.dfy`, `SchedulerHistory.dfy`, `SchedulerSteps.dfy`, `SchedulerFacts.dfy` | the state of the scheduler as a value, the invariant, and the small steps the handlers are made of |
| `SchedulerTheorems.dfy` | what the invariant means: no deadlock, one outcome whatever the schedule, conservation, the order of the events |
| `SchedulerLookups.dfy`, `SchedulerCalls.dfy` | what a lookup in the cache says, what each call and each message does to the state, as predicates the contracts are made of |
| `Scheduler.dfy` | the scheduler as a class, with its mutually recursive handlers, and runs over arbitrary messages |
| `Sorting.dfy`, `CacheKeys.dfy`, `CacheEntries.dfy`, `Caching.dfy` | the keys, the entries and the buckets of the cache |
| `Situations.dfy`, `Behaviour.dfy`, `Transparency.dfy` | what executions are given, what they do then, and the proof that neither cache nor schedule shows in the outcome |
| `Assumptions.dfy` | what the cache takes for granted about limits and keys, exactly when it may, and inputs for which it is wrong |
| `StoreIndex.dfy`, `FileStore.dfy` | the size-bounded index of the files, and the handles that keep them |
| `WorkerJobs.dfy` | how a worker gathers the files of a job |
| `Scores.dfy` | the scores of testcases, subtasks and task |
| `CodeSpans.dfy` | the place of a piece of code in a file |
| `SolutionChecks.dfy` | the checks of a solution, and the inference of one from results |

## How the scheduler is proved

The class `Scheduling.Scheduler` has the fields of the source: the clients with
their tables, the queue (a multiset with a pop of the greatest entry), the
workers with their jobs, and the messages sent. `Scheduler.Snap()` is that state
as a value, together with a ghost record per client: the status of every group,
the producer of every file, the files whose readers have been told, and for every
group that ended the results and outputs it ended with.

The invariant `SchedulerSteps.Inv` holds *inside* the handlers too, at every call
of the mutual recursion, although the tables are half updated there: a group whose
results are being dealt with has the status `Completing`, and outputs that are
still owed to their readers are not yet announced. `SchedulerSteps.Settled` adds
that nothing is half done, and holds between messages. `SchedulerSteps.Evolves`
says how a call may change the state, so calls compose. `SchedulerLookups.Proceeds`
adds where new outcomes come from: every group that a call completes, other than the
one it was given results for, was answered for by the cache at a time within the call,
with the results and outputs it is recorded with; where nothing was looked up, nothing
is completed (`Quiet`). So a handler states the exact state it starts the rest from,
as `SchedulerSteps.WithReport` for results, and that it proceeds from there; and
`SchedulerCalls.Handed` says what it sends to the workers. The recursion terminates
because the set of waiting and ready groups shrinks; the handlers that recurse
do not assume that the graph has no cycles.

`SchedulerCalls.Acted` says what each kind of message does: which tables, handles,
reports and cache entries there are afterwards, and what the client and the workers
were sent. `Scheduler.Handle` promises it for every message, and `Scheduler.Run`
that whoever asked and did not leave is there at the end.

Any sequence of messages can be dealt with. What the environment never sends is
ignored, as a guard of the step that receives it:

- client uuids are fresh, and a client asks for one evaluation
  (task-maker-exec/src/executors/local_executor.rs:100, task-maker-exec/src/client.rs:257-260);
- the groups of a DAG are filed under their own uuid (task-maker-dag/src/dag.rs:162-167);
- files come only when they are provided ones (task-maker-exec/src/executor.rs:349-408);
- a worker connects only without a job (task-maker-exec/src/worker_manager.rs:149-158 and 211-219);
- unless the sandbox itself failed, a result carries all the outputs of its group
  (task-maker-exec/src/worker/mod.rs:669-715).

A DAG reaches the scheduler only through `CheckDag.CheckDag`, as in
task-maker-exec/src/executor.rs:340-347, so the two proofs compose: the order
that the validation guarantees is the one the absence of deadlocks rests on.

## Cache and schedule do not show

A `Behaviour.World` says what executions do: for each situation that occurs, which
of them succeed under which limits, and what they write. A situation
(`Situations.Situation`) is all that a group is given: commands, arguments, the
contents of its files and its variables, but also where its streams come from and go
to, the files it is to create, the variables copied from the worker, its FIFOs and
its controller. The scheduler knows nothing of the world. Two ghost fields record
whether the messages so far agree with it: `honest` is about what the cache
remembers, so that results are those of the executions and groups are expected ones
(`SchedulerCalls.TellsTruth`); `misled` has the clients that were told something else
that is false, because the sandbox failed or a file came again with another content
(`SchedulerCalls.Misleads`). While `honest` holds, every handler keeps the cache and the
outcomes of all the other clients in accordance with the world (`Scheduler.Lawful`),
nested calls included. So two schedulers with different caches, clients, workers
and orders of messages make the same of the same groups on the same files: the same
statuses and the same contents (`Scheduling.SameAnswers`).

This assumes three things of the world, which the code takes for granted: that
compatible limits do not change whether a group succeeds (`Behaviour.Stable`), that
groups with one key behave alike (`Behaviour.OneKeyOneBehaviour`), and that extra time
and memory are the same everywhere (`Behaviour.Expected`). Each is false of some
inputs, and `Assumptions` says exactly when the first two hold; see "What does not
hold". Both are asked of situations that occur only.

## What is arbitrary

Times and scores are reals; uuids, hashes and file keys are numbers that can be
compared; clocks, the outcome of file system calls and what other threads do to
the store are parameters or arbitrary choices.

## What does not hold

- The index of the store is described as a least-recently-used one
  (task-maker-store/src/index.rs:42, 136-137), but its heap yields the *largest*
  access time first, so a flush removes the files that were accessed last
  (`StoreIndex.NewestGoesFirst`). It does what a least-recently-used index would
  do exactly when the total is within the target, or all the unlocked files have
  one access time, or the target is exceeded even with only the oldest of them
  left (`StoreIndex.LruExactly`, which `Flush` ensures as well).
- When the directory of the store cannot be resolved, a flush that has something
  to remove stops after its first removal and leaves an index that knows no file
  at all; `Flush` says exactly when, `StoreIndex.LostBaseForgets` gives an input.
- A worker looks for the files of its job one after the other, and a file that is
  read twice is looked for twice. When another thread stores it in between, the
  worker asks for a file it has, and waits for it before it starts
  (`WorkerJobs.LateStart`). A file is both there and missing exactly when it
  appears between two of its lookups (`WorkerJobs.ApartExactly`), and the start is
  late exactly when this happens to all the files asked for under some key
  (`WorkerJobs.PromptExactly`).
- A cached outcome survives the recomputation of its status exactly when the
  entry was stored with extra time and memory not below those of the query
  (`CacheEntries.OutcomePreservedExactly`, with both counterexamples).
- Compatible limits may change the outcome, for three reasons. The
  comparison ignores `mount_proc` and `permissive`, and of two different sets of
  readable directories it takes each for the tighter one unless it contains the
  other (task-maker-cache/src/entry.rs:179-208). So a success obtained with `/proc`,
  with unfiltered system calls or with one directory answers for an execution that
  has it not (`Assumptions.ProcShows`, `FilterShows`, `DirectoriesShow`). What passes
  the comparison is really tighter exactly when these three fields are
  (`Assumptions.ComparedExactly`, with `TighterExactly` for what tighter means), and
  executions with fixed needs are safe exactly when none needs one of the three
  (`Assumptions.NeedsAreStableExactly`).
- One key may mean two behaviours. The key leaves out a standard input that is
  opened from a path, the redirections of the outputs, the files that are created
  for the outputs, the variables copied from the worker, the number of FIFOs, the
  controller, and whether an argument is a FIFO or the text that replaces its path
  (task-maker-cache/src/key.rs:40-99). For each there are two groups with one key
  that are not given the same (`Assumptions.UnseenByTheKey`), and
  `Assumptions.AnswersForAnother` is a false hit. The key is exactly the shown part
  of a situation (`Situations.KeyShowsExactly`); one key means one behaviour exactly
  when the behaviour is a function of that part (`Assumptions.KeyWorldExactly`), and
  this is so whatever the executions do exactly when no two situations occur that
  differ in the hidden part only (`Assumptions.KeyIsEnoughExactly`).
- `CodeSpan::from_str` tests the end of the range with a sum that wraps around
  where overflow checks are off: it accepts exactly the ranges inside a line and
  those whose sum wraps (`CodeSpans.FromStr`, `CodeSpans.ExactUnlessWrapping`,
  `CodeSpans.AcceptsTooMuch`).
- `CodeSpan::from_str` also accepts ranges that cut a character of several bytes,
  and `as_str` then panics. A span has a text exactly when its range neither
  wraps around nor cuts a character (`CodeSpans.AsStrIsTheRange`, with
  `CodeSpans.CutsACharacter`).

## Model

| member | source | states |
|---|---|---|
| `Dag.Execution.Status` | task-maker-dag/src/execution.rs:652-680 | a status is a success if and only if the process ended well and used no more than its limits; over a limit it is the first of CPU time, system time, wall time and memory that is exceeded, and otherwise what the process ended with |
| `Dag.ExecutionGroup.Dependencies` | task-maker-dag/src/execution_group.rs:116-127 | every file is listed as many times as it is read, stdin included, in whatever order the maps are walked |
| `Dag.ExecutionGroup.Outputs` | task-maker-dag/src/execution_group.rs:131-145 | every file is listed as many times as it is written, captured streams included |
| `CheckDag.CheckDag` | task-maker-exec/src/check_dag.rs:61-174 | passes if and only if groups are non-empty, ids unique, callbacks known and a topological order exists; each error is justified by the DAG, and a duplicate file or execution is the one it names |
| `CheckDag.LoadGroups` | task-maker-exec/src/check_dag.rs:73-102 | the reader lists and counters match the dependency lists with their repetitions, or the first error found is a real one |
| `CheckDag.LoadGroup` | task-maker-exec/src/check_dag.rs:74-101 | one group enters the lists and counters, or breaks a rule |
| `CheckDag.AddProvided` | task-maker-exec/src/check_dag.rs:103-109 | all the provided files are queued once, unless one is also an output |
| `CheckDag.CountDown` | task-maker-exec/src/check_dag.rs:116-128 | each listed reader takes one off; the counter is never zero before that, and the groups that reach zero are found once each |
| `CheckDag.ConsumeFile` | task-maker-exec/src/check_dag.rs:112-129 | after a file is met the counters are those of the dependencies still unmet |
| `CheckDag.DrainFiles` | task-maker-exec/src/check_dag.rs:112-129 | meeting every queued file keeps the visit's invariant and makes progress |
| `CheckDag.DrainGroups` | task-maker-exec/src/check_dag.rs:130-138 | the ready groups extend a valid order, and their outputs become the next files |
| `CheckDag.Visit` | task-maker-exec/src/check_dag.rs:110-139 | the visit terminates, with nothing left to meet |
| `CheckDag.VisitDecides` | task-maker-exec/src/check_dag.rs:110-142 | all counters end at zero if and only if a topological order exists |
| `CheckDag.StuckForever` | task-maker-exec/src/check_dag.rs:140-142 | a group left over is in no topological order |
| `CheckDag.StuckGroupsCycle` | task-maker-exec/src/check_dag.rs:141-157 | when all dependencies are known files, a group left over implies a cycle of groups |
| `CheckDag.FollowDependencies` | task-maker-exec/src/check_dag.rs:154-156 | following dependencies inside a stuck set leads to a real cycle |
| `CheckDag.FindStuck` | task-maker-exec/src/check_dag.rs:140-157 | an error is found if and only if a counter is not zero: a missing file of such a group, or a cycle |
| `CheckDag.CheckCallbacks` | task-maker-exec/src/check_dag.rs:158-172 | an error is found if and only if a callback names an unknown file or group |
| `SchedulerSteps.StepMeet` | task-maker-exec/src/scheduler.rs:605-609 | taking one missing file off a group that waits for others keeps the invariant |
| `SchedulerSteps.StepPromote` | task-maker-exec/src/scheduler.rs:607-618 | a group that got its last file enters the queue and the ready set together |
| `SchedulerSteps.StepSkip` | task-maker-exec/src/scheduler.rs:562-580 | a waiting group that reads a failed file may be skipped, its events staying in order |
| `SchedulerSteps.StepAnnounce` | task-maker-exec/src/scheduler.rs:548-624 | once no group misses the file any more, its outcome is settled for good |
| `SchedulerSteps.StepTakeHit` | task-maker-exec/src/scheduler.rs:759-767 | a cached group leaves the queue and the ready set; it counts as completing |
| `SchedulerSteps.StepDispatch` | task-maker-exec/src/scheduler.rs:798-841 | a free worker takes the entry: queue, ready and running sets, job and event agree |
| `SchedulerSteps.StepComplete` | task-maker-exec/src/scheduler.rs:668-689 | results give a completing group its outcome and its one Done event, which carries these results; they are kept with the outputs that came |
| `SchedulerSteps.StepDeliver` | task-maker-exec/src/scheduler.rs:350-351 | storing the handle of a provided file changes no status |
| `SchedulerSteps.StepTakeResult` | task-maker-exec/src/scheduler.rs:367-403 | when a result arrives, the group leaves the running set with its worker, and only its completion is pending |
| `SchedulerSteps.StepRequeue` | task-maker-exec/src/scheduler.rs:428-442 | the job of a lost worker goes back from running to ready and to the queue, once |
| `SchedulerSteps.StepAddWorker` | task-maker-exec/src/scheduler.rs:411-423 | a worker without a job changes nothing else |
| `SchedulerSteps.StepDropWorker` | task-maker-exec/src/scheduler.rs:367-393 | forgetting a worker that does nothing for a connected client changes nothing else |
| `SchedulerSteps.StepRemoveClient` | task-maker-exec/src/scheduler.rs:459-467 | without the client and its queue entries the rest is as it was |
| `SchedulerSteps.StepAddClient` | task-maker-exec/src/scheduler.rs:313-331 | the fresh tables of a new client satisfy the invariant |
| `SchedulerSteps.StepSay` | task-maker-exec/src/scheduler.rs:530-544 | a true message about a file, or about the end, keeps the invariant |
| `SchedulerSteps.LiveShrinks` | task-maker-exec/src/scheduler.rs:562-586 | no call makes a group waiting or ready that was past it: the measure of the recursion |
| `SchedulerSteps.MarkedThenDone` | task-maker-exec/src/scheduler.rs:736-777 | taking hits out of the queue and then completing them is, as a whole, a change from ready to completed |
| `SchedulerSteps.EvolvesTransitive` | task-maker-exec/src/scheduler.rs:660-707 | nested calls compose: finished groups stay finished, and nothing announced is taken back |
| `SchedulerSteps.Discharge` | task-maker-exec/src/scheduler.rs:692-705 | once the readers of all the outputs know, nothing is owed |
| `SchedulerSteps.SettledStays` | task-maker-exec/src/scheduler.rs:255-298 | between messages nothing is half done |
| `SchedulerFacts.InputsPresent` | task-maker-exec/src/scheduler.rs:813-822 | every dependency of a group past waiting and not skipped has a handle, so the panic on an unknown key cannot be reached |
| `SchedulerFacts.QueuedInputs` | task-maker-exec/src/scheduler.rs:757-761 | the cache is asked only about groups whose dependencies all have handles |
| `SchedulerFacts.DoneIsFinal` | task-maker-exec/src/scheduler.rs:187-191 | empty tables mean that every group is completed or skipped |
| `SchedulerFacts.ReadersOf` | task-maker-exec/src/scheduler.rs:149-151 | every group that misses a file is in the list of its readers |
| `SchedulerFacts.ContinuesTransitive` | task-maker-exec/src/scheduler.rs:251-304 | over any number of messages no outcome changes, nothing said is taken back, and a client that left does not return |
| `SchedulerTheorems.MissingHasSource` | task-maker-exec/src/scheduler.rs:319-333 | a missing file is an undelivered provided one, or the output of a waiting, ready or running group |
| `SchedulerTheorems.NoDeadlock` | task-maker-exec/src/scheduler.rs:187-191 | with all provided files delivered, no group ready and none running, no group waits |
| `SchedulerTheorems.NoneWaits` | task-maker-exec/src/check_dag.rs:110-139 | the induction along the topological order that rules out a stuck set |
| `SchedulerTheorems.SkippedExactly` | task-maker-exec/src/scheduler.rs:562-586 | a group is skipped if and only if one of its dependencies is an output of a failed or skipped group |
| `SchedulerTheorems.ScheduleIndependence` | task-maker-exec/src/scheduler.rs:344-445 | if success is a function of the group, every finished group is what the sequential evaluation makes of it; a done client's groups all are |
| `SchedulerTheorems.OrdersAgree` | task-maker-exec/src/check_dag.rs:110-139 | the sequential evaluation is the same along every topological order |
| `Transparency.OneOutcome` | task-maker-exec/src/scheduler.rs:251-304 | two evaluations of the same groups on the same files, cached or not and in any schedule, give each group finished in both the same status and the same output files; done clients agree entirely |
| `Transparency.GroupAlike` | task-maker-exec/src/scheduler.rs:660-707 | the step of the induction: if the producers of its inputs ended alike, so did the group |
| `Transparency.AsEvaluatedInOrder` | task-maker-exec/src/scheduler.rs:736-779 | results from workers or from the cache are those of the executions, so every finished group is what the sequential evaluation without a cache makes of it |
| `Transparency.FollowsComplete` | task-maker-exec/src/scheduler.rs:668-689 | recording results that are right, from a worker or the cache, keeps all outcomes right and moves no file |
| `Transparency.FollowsDeliver` | task-maker-exec/src/scheduler.rs:350-351 | a provided file changes no earlier outcome |
| `SchedulerLookups.HitSourced` | task-maker-exec/src/scheduler.rs:757-777 | a hit that is completed later in the call ends with what the cache had for it, on the inputs it has then |
| `SchedulerLookups.SourcedThen` | task-maker-exec/src/scheduler.rs:736-779 | over nested calls, whatever they completed came from the cache |
| `SchedulerLookups.FromCacheStays` | task-maker-exec/src/scheduler.rs:736-779 | later completions do not change where an outcome came from |
| `SchedulerCalls.ReportedStays` | task-maker-exec/src/scheduler.rs:660-707 | results once recorded stay, outcome and message included, whatever the rest of the call does |
| `SchedulerCalls.OutputsStay` | task-maker-exec/src/scheduler.rs:683-705 | the outputs that came with them are where they were received at the end |
| `SchedulerCalls.OneMoreRegistered` | task-maker-exec/src/scheduler.rs:251-341 | whoever asked and did not leave is there, after one more message |
| `Situations.AgreeingInputsSameKey` | task-maker-cache/src/key.rs:40-99 | the key depends on the files the group reads only, whatever else the client has |
| `Scheduling.SameAnswers` | task-maker-exec/src/scheduler.rs:251-304 | any two schedulers that were told nothing false agree on the same groups and files of clients that were not misled, whatever their caches, clients and workers |
| `SchedulerTheorems.SameVerdict` | task-maker-exec/src/scheduler.rs:548-624 | one group's outcome agrees with the reference, given those before it |
| `SchedulerTheorems.Conservation` | task-maker-exec/src/scheduler.rs:149-160 | each group is in exactly one of waiting, ready, running, completed, skipped |
| `SchedulerTheorems.QueueMatches` | task-maker-exec/src/scheduler.rs:214-215 | queue entries and ready groups match one to one, with none for absent clients |
| `SchedulerTheorems.WorkersMatch` | task-maker-exec/src/scheduler.rs:129-138 | running groups and the current jobs of the workers match one to one |
| `SchedulerCalls.RunningWasSent` | task-maker-exec/src/scheduler.rs:793-845 | every running group is the last job that the worker in charge of it was sent |
| `SchedulerTheorems.EventOrder` | task-maker-exec/src/scheduler.rs:562-579 | the events of a group are any number of Started and at most one Done after them, or one Skipped alone; rescheduling never gives a second Done |
| `SchedulerTheorems.PhasesAreEvents` | task-maker-exec/src/scheduler.rs:674-682 | the automaton the invariant follows describes the actual list of events |
| `SchedulerTheorems.NoLies` | task-maker-exec/src/scheduler.rs:530-544 | EvaluationDone means every group is finished; Done carries the very results the group ended with; a file sent as good is there; a file message has a key that was received for the file |
| `SchedulerTheorems.BadNewsSpreads` | task-maker-exec/src/scheduler.rs:562-586 | once the readers of a bad file know, every group at the end of a chain of groups from that file is skipped |
| `SchedulerTheorems.DownstreamIsSkipped` | task-maker-exec/src/scheduler.rs:548-588 | the same between the start and the end of a call, for the chains none of whose outputs an enclosing call still owes |
| `SchedulerTheorems.FailureSpreads` | task-maker-exec/src/scheduler.rs:548-588 | between messages every group at the end of any chain from an output of a failed or skipped group is skipped |
| `SchedulerTheorems.NothingUntold` | task-maker-exec/src/scheduler.rs:548-655 | between messages every watched completed or skipped group was reported, every watched output of a group that succeeded was sent, and every one of a failed group that came with its results was sent as unsuccessful |
| `Scheduling.NewClient` | task-maker-exec/src/scheduler.rs:315-331 | the tables of a new client list each dependency of each group, and only groups without any are queued |
| `Scheduling.Register` | task-maker-exec/src/scheduler.rs:316-330 | one group enters the tables |
| `Scheduling.Scheduler.SendFile` | task-maker-exec/src/scheduler.rs:627-655 | the file goes to the client if and only if it is watched and there |
| `Scheduling.Scheduler.CheckCompletion` | task-maker-exec/src/scheduler.rs:530-544 | EvaluationDone is sent if and only if the client is there and done |
| `Scheduling.Scheduler.SkipReaders` | task-maker-exec/src/scheduler.rs:561-583 | every group waiting for the file is skipped once, and its outputs are the ones that fail next |
| `Scheduling.Scheduler.FileFailed` | task-maker-exec/src/scheduler.rs:548-588 | a watched file that is there is sent next, as unsuccessful; every group that depends on the file, through any chain of groups, is skipped afterwards, except beyond groups whose outputs an enclosing call still has to deal with; the recursion terminates |
| `Scheduling.Scheduler.MeetGroup` | task-maker-exec/src/scheduler.rs:605-619 | the new tables and queue of the client, exactly |
| `Scheduling.Scheduler.FileSuccess` | task-maker-exec/src/scheduler.rs:592-624 | a watched file is sent next, as successful; all readers know of it; if it has any, each queued group was looked up in vain during the call, and no worker is idle while something is queued; what ended meanwhile came from the cache |
| `Scheduling.Scheduler.RecordResults` | task-maker-exec/src/scheduler.rs:668-689 | the new state exactly: the client is told these results and gets these outputs, and the group its outcome |
| `Scheduling.Scheduler.PassOn` | task-maker-exec/src/scheduler.rs:692-705 | the readers of every output know; what ended meanwhile came from the cache |
| `Scheduling.Scheduler.CacheExecution` | task-maker-exec/src/scheduler.rs:710-733 | the results are remembered under the key of the group, and no other key changes |
| `Scheduling.Scheduler.ExecCompleted` | task-maker-exec/src/scheduler.rs:660-707 | goes on from the state in which these results are recorded; they are cached unless they came from the cache or the sandbox failed; any other group that ended came from the cache |
| `Scheduling.Scheduler.LookUp` | task-maker-exec/src/scheduler.rs:746-772 | the answer of the cache for what the store holds at that time; a miss when the cache is off, or the tag of the group excluded, and only then without asking |
| `Scheduling.Scheduler.Examine` | task-maker-exec/src/scheduler.rs:740-772 | one lookup: the entry leaves the queue with the cache's results, or stays if there are none, for what the store holds at that time |
| `Scheduling.Scheduler.TakeCached` | task-maker-exec/src/scheduler.rs:737-775 | each queued group is looked up once; those found leave the queue, with what the cache had for them at that time, and those not found stay |
| `Scheduling.Scheduler.ScheduleCached` | task-maker-exec/src/scheduler.rs:736-779 | all hits are completed, with those their completion brings about, each with what the cache had for it at a time within the call; what is still queued was looked up in vain during the call; the mutual recursion terminates |
| `Scheduling.CachedGroupsLeave` | task-maker-exec/src/scheduler.rs:736-779 | so no group is left in the queue that the cache has results for whose files stayed in the store meanwhile |
| `Scheduling.Scheduler.PopMax` | task-maker-exec/src/scheduler.rs:798-800 | the greatest entry leaves the queue: greatest priority of the DAG, and among those greatest of the group |
| `Scheduling.Scheduler.SendJob` | task-maker-exec/src/scheduler.rs:812-832 | the worker is sent the group and the key of every dependency, and of nothing else |
| `Scheduling.Scheduler.AssignJobs` | task-maker-exec/src/scheduler.rs:793-845 | afterwards the queue is empty or every worker busy; what was taken is never below what stays; each newly busy worker was sent its job once, its client was told, and nothing else was sent |
| `Scheduling.Scheduler.HandleEvaluateDag` | task-maker-exec/src/scheduler.rs:308-341 | the client is there with its DAG and callbacks, and things went on from its fresh tables and queue entries; an empty DAG is done; each queued group was looked up in vain and no worker is idle while something is queued |
| `Scheduling.Scheduler.Deliver` | task-maker-exec/src/scheduler.rs:350-351 | the client keeps this key under the id of the file; nothing else changes |
| `Scheduling.Scheduler.CompleteJob` | task-maker-exec/src/scheduler.rs:404-406 | goes on from the state in which these results are recorded, remembers them unless the sandbox failed, assigns jobs and tells the end of the evaluation |
| `Scheduling.Scheduler.HandleFileReady` | task-maker-exec/src/scheduler.rs:344-358 | the client has the file under the key that came, its other provided files are where they were, it is sent the file if it watches it, the readers know, what they make possible is started, and the end is told; nothing happens for an unknown client |
| `Scheduling.Scheduler.HandleWorkerResult` | task-maker-exec/src/scheduler.rs:361-408 | the group ends with these results and outputs: the client is told the results and has the outputs, the cache remembers them unless the sandbox failed, the end is told; the worker is forgotten, and no other is idle while something is queued; it fails if and only if the number of results is wrong |
| `Scheduling.Scheduler.HandleWorkerConnected` | task-maker-exec/src/scheduler.rs:411-423 | the worker is known, and busy if there is anything left to do; newly busy workers were sent their jobs, and nothing else happened |
| `Scheduling.Scheduler.HandleWorkerDisconnected` | task-maker-exec/src/scheduler.rs:426-445 | the worker is gone and its job is ready again at high priority; nothing else changes |
| `Scheduling.Scheduler.PurgeQueue` | task-maker-exec/src/scheduler.rs:460-467 | exactly the entries of connected clients stay |
| `Scheduling.Scheduler.StopJobs` | task-maker-exec/src/scheduler.rs:468-481 | each worker busy for the client is told to stop, once, and nothing else is sent |
| `Scheduling.Scheduler.HandleClientDisconnected` | task-maker-exec/src/scheduler.rs:448-483 | the client, its entries and nothing else are gone; EvaluationDone is sent if it was not done |
| `Scheduling.Scheduler.Handle` | task-maker-exec/src/scheduler.rs:251-298 | what each message does, exactly (`SchedulerCalls.Acted`); the invariant is kept; it fails if and only if the number of results is wrong; the cache stays right as long as no message is false that it remembers, the outcomes of a client as long as none misled it |
| `Scheduling.Scheduler.Run` | task-maker-exec/src/scheduler.rs:251-304 | every run of any messages is safe; whoever sent a valid DAG and did not leave is there with it; a client whose files all came and that has nothing ready or running is done |
| `CacheKeys.RewriteArgs` | task-maker-cache/src/key.rs:57-74 | an argument that is the path of a FIFO is replaced by the number of the FIFO, any other is kept |
| `CacheKeys.DecimalInjective` | task-maker-cache/src/key.rs:57-74 | two numbers have two decimal notations |
| `CacheKeys.FifoNamesDiffer` | task-maker-cache/src/key.rs:57-74 | two positions have two names |
| `CacheKeys.FifoOrderShows` | task-maker-cache/src/key.rs:57-74 | exchanging two FIFOs of a group changes the arguments in its key |
| `CacheKeys.WalkInputs` | task-maker-cache/src/key.rs:49-53 | the inputs, walked in any order: each path once, with its content and executable bit |
| `CacheKeys.WalkEnv` | task-maker-cache/src/key.rs:56-56 | the environment, walked in any order: each variable once |
| `CacheKeys.KeyFromExecution` | task-maker-cache/src/key.rs:40-82 | whatever the order the two maps are walked in, sorting what was collected gives the key item of the specification |
| `CacheKeys.KeyFromGroup` | task-maker-cache/src/key.rs:88-99 | one item per execution, in order |
| `CacheKeys.KeyCharacterised` | task-maker-cache/src/key.rs:40-99 | keys are equal if and only if the executions have the same command, environment, input contents and executable bits by path, stdin and arguments up to FIFO names |
| `CacheKeys.AnyWalkGivesTheKey` | task-maker-cache/src/key.rs:49-56 | the key does not depend on the order the map of the inputs is walked in |
| `CacheKeys.KeySurvivesRenaming` | task-maker-cache/src/key.rs:40-99 | consistent renaming of file ids and FIFO ids leaves the key unchanged |
| `CacheKeys.InputItemsDetermine` | task-maker-cache/src/key.rs:49-55 | equal sorted lists of inputs mean equal maps from path to content and executable bit |
| `CacheKeys.EnvItemsDetermine` | task-maker-cache/src/key.rs:56-56 | equal sorted lists of variables mean equal environments |
| `Sorting.Sort` | task-maker-cache/src/key.rs:54-56 | an ascending list with the same items as often |
| `Sorting.SortedOnceIsSorted` | task-maker-cache/src/key.rs:54-56 | an ascending list that has the items of a set once each is the sorted list of the set |
| `Sorting.SortedIsCanonical` | task-maker-cache/src/key.rs:54-56 | two ascending lists of the same distinct items are the same list |
| `CacheEntries.EntryFromGroup` | task-maker-cache/src/entry.rs:82-96 | one item per execution, with its limits, results and output keys |
| `CacheEntries.EntryOutputs` | task-maker-cache/src/entry.rs:112-160 | exactly the outputs of the group, each under its cached key, or nothing if one is gone from the store |
| `CacheEntries.HitPreservesOutcome` | task-maker-cache/src/entry.rs:164-234 | a compatible entry is reported as a success exactly when it was cached as one |
| `CacheEntries.OutcomePreservedExactly` | task-maker-cache/src/entry.rs:209-232 | that holds for all entries if and only if the extras of the entry are not below those of the query |
| `CacheEntries.SmallerExtraTimeBreaks` | task-maker-cache/src/entry.rs:213-220 | an entry with less extra time that turns a success into a failure |
| `CacheEntries.SmallerExtraMemoryBreaks` | task-maker-cache/src/entry.rs:213-220 | the same for memory |
| `Behaviour.RecordedFollows` | task-maker-cache/src/lib.rs:138-155 | an entry made of what a worker sent tells what a group with that key does |
| `Behaviour.HitIsRight` | task-maker-cache/src/lib.rs:162-213 | a hit succeeds exactly when running the group would, and then gives the files it would write |
| `Assumptions.TighterExactly` | task-maker-cache/src/entry.rs:165-192 | limits are tighter, field by field, if and only if all needs that the former satisfy the latter satisfy too |
| `Assumptions.ComparedExactly` | task-maker-cache/src/entry.rs:179-208 | tighter limits pass the comparison; what passes is tighter if and only if directories, `mount_proc` and `permissive` do not give more |
| `Assumptions.NeedsAreStableExactly` | task-maker-cache/src/entry.rs:209-234 | for executions with fixed needs, compatible limits never change whether a group succeeds if and only if no group that could succeed needs a directory, `/proc` or unfiltered system calls |
| `Assumptions.ProcShows` | task-maker-cache/src/entry.rs:179-208 | executions that need `/proc`, and two limits taken for compatible under which they end differently |
| `Assumptions.FilterShows` | task-maker-cache/src/entry.rs:179-208 | the same for executions that must not be filtered |
| `Assumptions.DirectoriesShow` | task-maker-cache/src/entry.rs:198-206 | the same for executions that need a readable directory |
| `Situations.KeyShowsExactly` | task-maker-cache/src/key.rs:40-99 | two groups have one key if and only if the shown parts of what they are given are equal |
| `Assumptions.KeyWorldExactly` | task-maker-cache/src/key.rs:28-33 | one key means one behaviour if and only if the behaviour is a function of the key |
| `Assumptions.KeyIsEnoughExactly` | task-maker-cache/src/key.rs:28-33 | whatever the executions do, one key means one behaviour, if and only if no two situations occur that differ in the hidden part only |
| `Assumptions.UnseenByTheKey` | task-maker-cache/src/key.rs:45-82 | seven pairs of groups with one key that are not given the same: opened input, redirected output, created file, copied variable, FIFO argument, number of FIFOs, controller |
| `Assumptions.AnswersForAnother` | task-maker-cache/src/lib.rs:138-213 | the results of a group without input are a hit for one that opens its input, whatever that one does |
| `Caching.Cache.Insert` | task-maker-cache/src/lib.rs:138-155 | the entry replaces the one with the same limits or is added at the end; every entry whose limits differ in some execution stays; no other bucket changes; no bucket ever has two entries with the same limits |
| `Caching.Cache.Get` | task-maker-cache/src/lib.rs:162-213 | the answer of the first usable entry of the bucket, or a miss if there is none, whatever the store holds at the time of each lookup; a hit has exactly the outputs of the group, and for each execution the recorded resources, kill flag and the status they call for under the new limits, marked as cached |
| `Caching.HitReportsWhatWasCached` | task-maker-cache/src/lib.rs:181-208 | with equal extras each execution of a hit succeeds exactly as it did, and so does the group |
| `Caching.InsertThenGetHits` | task-maker-cache/src/lib.rs:138-213 | after an insertion every answer for the group is a hit while its files are in the store |
| `Caching.InsertThenGet` | task-maker-cache/src/lib.rs:138-213 | the same for the two calls in a row |
| `StoreIndex.FileStoreIndex.Touch` | task-maker-store/src/index.rs:105-109 | only the access time of a known file changes |
| `StoreIndex.FileStoreIndex.Add` | task-maker-store/src/index.rs:112-129 | a new file adds its size, a known one is only touched; the total stays the sum of the sizes |
| `StoreIndex.FileStoreIndex.Flush` | task-maker-store/src/index.rs:138-206 | locked files survive; the total is the sum of what is left; it is at most the target or all that is left is locked; removed files come newest first, none was passed over, and all of them were needed; when this is least-recently-used; it fails exactly when the base directory is lost and there is something to remove |
| `StoreIndex.FlushEnds` | task-maker-store/src/index.rs:197-204 | putting back the locked and the untouched files accounts for every file |
| `StoreIndex.LruExactly` | task-maker-store/src/index.rs:136-206 | no unlocked survivor was accessed before a removed file if and only if nothing has to go, or the unlocked files have one access time, or all of them have to go |
| `StoreIndex.NewestGoesFirst` | task-maker-store/src/index.rs:32-36 | of two unlocked files the one accessed last is removed |
| `StoreIndex.LostBaseForgets` | task-maker-store/src/index.rs:180-185 | two known files, a lost base directory and a flush: the index knows nothing |
| `FileStoring.FileStore.Acquire` | task-maker-store/src/lib.rs:488-497 | a new handle adds one to its count |
| `FileStoring.FileStore.Release` | task-maker-store/src/lib.rs:535-547 | a dropped handle takes one off, and a count of zero disappears |
| `FileStoring.FileStore.MaybeFlush` | task-maker-store/src/lib.rs:363-371 | no file with a live handle goes, not even one of a store in progress; afterwards the total is within the target or all files are in use |
| `FileStoring.FileStore.StoreLook` | task-maker-store/src/lib.rs:219-223 | the existence check, made with the handle already held |
| `FileStoring.FileStore.StoreAdd` | task-maker-store/src/lib.rs:247-257 | the file enters the index, which may remove files, never those in use; a failure costs the caller its handle |
| `FileStoring.FileStore.Store` | task-maker-store/src/lib.rs:211-260 | a handle to a file that is there, or no handle; nobody else's file goes |
| `FileStoring.FileStore.Get` | task-maker-store/src/lib.rs:293-310 | a handle if and only if the file is there, and the file counts as just accessed |
| `FileStoring.FileStore.Clone` | task-maker-store/src/lib.rs:516-527 | one more handle to a file that is there |
| `FileStoring.FileStore.Drop` | task-maker-store/src/lib.rs:535-547 | one handle less |
| `FileStoring.FileStore.Run` | task-maker-store/src/lib.rs:211-260 | in any interleaving of the steps of any callers, counts are the live handles and the file of a returned handle is there |
| `WorkerJobs.Worker.ReceiveWork` | task-maker-exec/src/worker/mod.rs:196-231 | each missing key is asked for once, what a lookup found is taken and what one did not find is missing, and the job starts at once exactly when nothing is missing; it fails exactly when a dependency has no key |
| `WorkerJobs.Worker.ReceiveFile` | task-maker-exec/src/worker/mod.rs:232-260 | a file is accepted if and only if it was asked for and not yet sent, and the last one starts the job |
| `WorkerJobs.Worker.FinishJob` | task-maker-exec/src/worker/mod.rs:346-367 | the worker is free, and waits for work if it asked for some |
| `WorkerJobs.Worker.GatherAll` | task-maker-exec/src/worker/mod.rs:196-260 | whatever the order of arrival, the job starts exactly once, with a handle for each dependency under its key |
| `WorkerJobs.NothingMissing` | task-maker-exec/src/worker/mod.rs:220-230 | nothing missing means that the handles cover all dependencies; the converse holds when no file is both there and missing |
| `WorkerJobs.ApartExactly` | task-maker-exec/src/worker/mod.rs:202-219 | however the store grows during the lookups, a file is both there and missing if and only if it appears between two of its lookups |
| `WorkerJobs.ApartUnlessRepeated` | task-maker-exec/src/worker/mod.rs:202-219 | so never when no file is read twice |
| `WorkerJobs.AsksForAbsent` | task-maker-exec/src/worker/mod.rs:207-214 | a key is asked for if and only if a lookup for it found nothing |
| `WorkerJobs.PromptUnlessSuperfluous` | task-maker-exec/src/worker/mod.rs:220-260 | the job starts as soon as its files are there, in every order of arrival, if and only if no key is waited for whose files are all there |
| `WorkerJobs.PromptExactly` | task-maker-exec/src/worker/mod.rs:202-260 | the same, in terms of what the lookups found |
| `WorkerJobs.LateStart` | task-maker-exec/src/worker/mod.rs:202-230 | a group that reads a file twice, and a store that gets it between the two lookups: all handles are there, and the job is not started |
| `Scores.Aggregate` | task-maker-format/src/ioi/dag/mod.rs:71-87 | the least score, or the mean; 1 for no scores |
| `Scores.AggregateIsNormalised` | task-maker-format/src/ioi/dag/mod.rs:71-87 | an aggregate of scores between 0 and 1 is between 0 and 1 |
| `Scores.LeastIsLeast` | task-maker-format/src/ioi/dag/mod.rs:73-76 | the minimum is one of the scores and below all of them |
| `Scores.AddUp` | task-maker-format/src/ioi/mod.rs:656-660 | the sum over the map of scores, in whatever order it is walked |
| `Scores.ScoreManager.constructor` | task-maker-format/src/ioi/mod.rs:572-600 | nothing is scored but the subtasks without testcases, which have their maximum |
| `Scores.ScoreManager.Score` | task-maker-format/src/ioi/mod.rs:604-632 | a subtask has a score if and only if all its testcases do; earlier scores stay; values are right while no testcase is scored twice |
| `Scores.ScoreManager.ScoreSubtask` | task-maker-format/src/ioi/mod.rs:634-668 | the score is given exactly when all testcases are scored, as the maximum times the aggregate, sent once, and followed by the task score when it was the last |
| `Scores.ScoreManager.ScoreAll` | task-maker-format/src/ioi/mod.rs:604-632 | scoring distinct testcases in any order |
| `Scores.OrderDoesNotMatter` | task-maker-format/src/ioi/mod.rs:604-668 | two managers that know the same testcase scores sent the same subtask scores and the same task score |
| `Scores.EverythingSentOnce` | task-maker-format/src/ioi/mod.rs:634-668 | at the end each subtask score was sent once, and the task score once, after them, if there are subtasks |
| `CodeSpans.FromStr` | task-maker-diagnostics/src/span.rs:32-65 | which ranges get a span and which error the others get; line, line number and line offset of a span |
| `CodeSpans.ExactUnlessWrapping` | task-maker-diagnostics/src/span.rs:51-54 | the test for leaving the line is right if and only if the sum does not wrap around |
| `CodeSpans.AcceptsTooMuch` | task-maker-diagnostics/src/span.rs:51-54 | a range far outside the file that gets a span |
| `CodeSpans.AsStrIsTheRange` | task-maker-diagnostics/src/span.rs:68-71 | a span has a text if and only if its range neither wraps around nor cuts a character; the text is then the range of the file, and line start plus line offset is the offset |
| `CodeSpans.CutsACharacter` | task-maker-diagnostics/src/span.rs:68-71 | a range that gets a span without a text |
| `SolutionChecks.PartialOrder` | task-maker-format/src/solution.rs:139-148 | the comparison of results is a strict partial order that agrees with equality |
| `SolutionChecks.Check` | task-maker-format/src/solution.rs:244-264 | true if and only if some minimal outcome is one of the check's, or there are no outcomes and the check is the accepting one |
| `SolutionChecks.ChooseCheck` | src/tools/add_solution_checks.rs:228-258 | always finds a check, which accepts the results, covers their minimal ones and is the first to |
| `SolutionChecks.FirstIsSmallest` | src/tools/add_solution_checks.rs:247-255 | no other covering check is about fewer results |
| `SolutionChecks.SomeCheckCovers` | src/tools/add_solution_checks.rs:257-257 | the unreachable end is never reached |
| `SolutionChecks.InferThenCheck` | src/tools/add_solution_checks.rs:228-258 | the inferred check passes on the results it was inferred from |

## Left out

- Sockets, channels, threads, serialisation, the version handshake and the files of the cache and of the index: messages are method calls, and what a call to the outside returns is a parameter.
- The sandbox, the tabox and typst calls, FIFOs on disk, controllers and permissions: the disk is a set of keys. The captured bytes of stdout and stderr in a result are not modelled either.
- The status request of a client, which only reads: `handle_status_request` computes a report.
- The messages that stop a worker, kill its job or ask for a list of files: only the gathering of inputs and the end of a job are modelled.
- What the workers differ in: the values of the variables copied from a worker, its commands and its system directories belong to the world, which is one for all of them.
- The controller of an interactive group: only its settings are part of what a group is given.
- User interfaces, command line tools, the builders of tasks and languages, booklets and statements: printing and wrapping.
- The extraction of checks from comments: it rests on a regular expression.
- The data of a client is a value in the map of clients, not an object of its own: nothing in the source keeps a second reference to it.
- The sums and differences of 64-bit sizes: total sizes are unbounded, and the difference of two extra memory amounts in `is_compatible` is an integer, where the source subtracts unsigned numbers.
- FileStoring.FileStore.Get: one atomic step.
- Scheduling.Scheduler.Run: does not say that EvaluationDone is sent once, or always. It is sent whenever a file or a result of the client leaves it done (`SchedulerCalls.Acted`), but `check_completion` can repeat itself, and the cache hits of another client's message, or of the one with the DAG, are not followed by a check.
- Scheduling.Scheduler.HandleWorkerDisconnected: does not promise that an idle worker gets the job, because the handler does not assign jobs.
- Scheduling.Scheduler.HandleWorkerResult: promises nothing about the state after results of the wrong number, because the scheduler exits then.
- CheckDag.CheckDag: a reported cycle is a real one only when no dependency of any group is unknown; otherwise the code reports whichever group it meets first.
- CacheEntries.HitPreservesOutcome: is about the status computed anew, not about what the execution would do under the new limits; `Behaviour.HitIsRight` is.
