# The queue_job engine

A model of the job queue in `queue_job`: the channels that decide which jobs run when, the
protocol between the job runner, the database and the workers, the life of a job, and the
compilation of chains and groups into a graph of jobs. `dafny verify dfyconfig.toml` checks it.

## How it is built

- **Channels.** `PriorityQueue`, `ChannelQueue`, `Channel` and `ChannelManager` are classes whose
  methods update the fields that the program updates: a heap with tombstones, two heaps per
  channel, sets of running and failed jobs, the pause, the children, the index of names and the
  map of jobs. Every method is proved against a specification on values: a schedule maps the full
  name of each channel to its state (`SchedulerSpec`, `SchedulerMoves`), a pass relates two
  schedules, and ties between equal sort keys are left open, as the layout of the heaps decides
  them. What the scheduler promises is proved about schedules, over one pass (`SchedulerWakeup`,
  `SchedulerOrder`, `SchedulerRefines`) and over arbitrary runs (`SchedulerRuns`, `SchedulerLimits`);
  `SchedulerMeaning` says what a pass means for the fields of jobs and channels.
  `ManagerRun` and the loop in `Runner` show that any sequence of rounds of the runner is such a run.
- **Protocol.** `Protocol` interleaves atomic steps: the runner reads rows and deals with them
  later, moves jobs up, picks them and marks their rows; clients time out; late requests reach
  workers; workers lock, start or fail to start, finish, postpone, fail, release children, or crash; the runner
  restarts. `ProtocolView` shows that the view of the runner in it is what the channels do,
  `ProtocolRunner` that the runner writes to the table what its steps write, and `ProtocolJob` the
  same for workers.
- **Jobs.** `Job` and `RunJob` follow one request from the check of its row to the row that it
  leaves behind; the bounds on retries are proved about sequences of such attempts.
- **Graphs.** `Graph` and `Delay` are the worklist algorithms on graph objects. `SeriesParallel`
  says what order a nested expression asks for and when flattening keeps it, `Flattening` that the
  worklist computes the flattened graph, `Continuation` the same after `on_done`, and `GraphJobs`
  that the edges become dependencies. `ExecutionOrder` puts it together: `Delay` goes from an
  expression to the jobs that are stored, and `OrderIsKept` from there to every run of the protocol.

Generators are methods that return the sequence of what they yield. A clock is a parameter of the
methods that read it and does not go back where a property needs that. An eta is absent or a time
other than zero, times are numbers without rounding, and a throttle is not negative.

## Where the code does not do what it is documented to do

- The head of a chain is the tail of its first member, and its tail the head of its last member
  (`queue_job/delay.py:331-335`), so nested chains can lose order. `DeepChainLosesOrder` has the
  smallest case; `FlatteningIsFaithful` says exactly which expressions keep their order.
- With parent fallback, the components of a missing name are created again below the parent that
  was found: `root.sub.not.configured` becomes `root.sub.sub.not.configured`
  (`queue_job/jobrunner/channels.py:985-987`, `1015-1021`). Looking the name up again can then lead
  to another channel, as in `FallbackMovesOn`; `FallbackStable` says exactly when.
- An error when the start of a job is committed releases the lock on the row, and then the controller
  writes in a new transaction that does not look at the row: the pending state after a concurrency
  error, the failure after any other one (`queue_job/controllers/main.py:77-83`, `105-146`). If the row
  was reset, sent again and started meanwhile, two workers can run the job, or a job that runs is marked
  as failed: `ConflictBreaksSingleExecution` and `FailureOverStarted` are such runs, and
  `WriteConflictExact` and `WriteFailureExact` say exactly which of these writes do harm. The results
  about runs assume that none of the harmful ones happens.
- Recreating a running job whose properties changed can exceed the capacity of channels that the
  job is new to, as in `RecreateOverfills`; `RecreateWithin` says exactly when.
- An empty group in a chain cuts it in two, as in `EmptyGroupLosesOrder`, and what an empty group
  is followed by with `on_done` is not delayed at all.

## Model

| member | source | states |
|---|---|---|
| PriorityQueues.HeapPush | queue_job/jobrunner/channels.py:83 | the result is a heap with exactly one more element |
| PriorityQueues.HeapPop | queue_job/jobrunner/channels.py:96 | takes the root off; what is left is a heap of exactly the other elements |
| PriorityQueues.FirstIsLeast | queue_job/jobrunner/channels.py:63 | the root of a heap is a least element of it |
| PriorityQueues.PriorityQueue.Add | queue_job/jobrunner/channels.py:75-83 | the live set gains the element, whether it was absent, present, or removed earlier and still in the heap; the heap never holds an element twice |
| PriorityQueues.PriorityQueue.Remove | queue_job/jobrunner/channels.py:85-91 | the live set loses the element, and the heap is left alone |
| PriorityQueues.PriorityQueue.Pop | queue_job/jobrunner/channels.py:93-104 | returns a least live element and takes it out, or nothing exactly when no live element is left; tombstones met on the way disappear |
| PriorityQueues.PriorityQueue.Peek | queue_job/jobrunner/channels.py:57-70 | returns a least live element and keeps the live set, or fails exactly when there is none |
| PriorityQueues.PriorityQueue.Contains | queue_job/jobrunner/channels.py:72-73 | membership in the live set |
| PriorityQueues.PriorityQueue.Len | queue_job/jobrunner/channels.py:54-55 | the size of the live set, computed from the two bookkeeping sets |
| ChannelQueues.ChannelQueue.Add | queue_job/jobrunner/channels.py:322-326 | a job with an eta waits, a job without one is ready; a job keeps its sort key while it sits in a heap |
| ChannelQueues.ChannelQueue.Remove | queue_job/jobrunner/channels.py:328-330 | the job is neither ready nor waiting |
| ChannelQueues.ChannelQueue.Promote | queue_job/jobrunner/channels.py:333-336 | exactly the jobs whose eta is not later than `now` become ready and lose their eta, though clearing the eta changes their sort key; no other job changes |
| ChannelQueues.ChannelQueue.IsHeld | queue_job/jobrunner/channels.py:337-345 | a sequential queue is held exactly when a waiting job with the earliest rank sorts before all ready jobs |
| ChannelQueues.ChannelQueue.Pop | queue_job/jobrunner/channels.py:332-346 | never returns a job whose eta is later than `now`; what it returns has the smallest priority number of all jobs that are ready then, the earliest date among equal ones, and then the smallest number; returns nothing exactly when no job is ready or the queue is held |
| ChannelQueues.ChannelQueue.GetWakeupTime | queue_job/jobrunner/channels.py:348-354 | the minimum of the argument and the etas of the waiting jobs, zero standing for "none" |
| Channels.Channel.constructor | queue_job/jobrunner/channels.py:404-416 | a new channel is empty, not paused, and the last child of its parent; nothing else of the parent changes |
| Channels.Channel.FullName | queue_job/jobrunner/channels.py:442-448 | the names on the way from the root, joined by dots |
| Channels.Channel.GetSubchannelByName | queue_job/jobrunner/channels.py:450-451 | the child of that name, if there is one |
| Channels.Channel.HasCapacity | queue_job/jobrunner/channels.py:516-523 | a failed job blocks a sequential channel; no capacity and capacity zero mean no limit |
| Channels.Channel.Remove | queue_job/jobrunner/channels.py:463-469 | the job is in no set of this channel and its parents; no other channel and no other job changes |
| Channels.Channel.SetPending | queue_job/jobrunner/channels.py:479-491 | a job that is not in the queue of this channel goes there and leaves the other sets and all parents; otherwise nothing happens |
| Channels.Channel.SetRunning | queue_job/jobrunner/channels.py:493-504 | marks the job running here and upwards, up to the first channel where it runs already |
| Channels.Channel.SetFailed | queue_job/jobrunner/channels.py:506-514 | only this channel remembers the failure; the parents lose the job |
| Channels.Channel.GetJobsToRun | queue_job/jobrunner/channels.py:525-572 | one drained call makes of every channel in the subtree, at any depth, what the node-wise specification says, and of no other channel anything |
| Channels.Channel.GetWakeupTime | queue_job/jobrunner/channels.py:574-592 | computes the specified wakeup time of the subtree and changes no channel |
| ChannelTrees.PassAgrees | queue_job/jobrunner/channels.py:525-572 | what a drained call does to linked objects is a pass over the tree of names |
| ChannelTrees.RemoveAgrees | queue_job/jobrunner/channels.py:463-469 | removal along parent references is removal from every prefix of the name |
| ChannelTrees.PendingAgrees | queue_job/jobrunner/channels.py:479-491 | the same for `set_pending` |
| ChannelTrees.RunningAgrees | queue_job/jobrunner/channels.py:493-504 | the same for `set_running`, with its early stop |
| ChannelTrees.FailedAgrees | queue_job/jobrunner/channels.py:506-514 | the same for `set_failed` |
| SchedulerWakeup.NoMissedWakeup | queue_job/jobrunner/channels.py:525-592 | after a drained poll, any number of further polls before the wakeup time (at any time if it is zero) yields no job; through full, paused, sequential and eta cases, on any tree |
| SchedulerRuns.NoMissedWakeupInRun | queue_job/jobrunner/channels.py:525-592 | the same inside any run of polls, notifications and new channels |
| SchedulerWakeup.AsleepYieldsNothing | queue_job/jobrunner/channels.py:525-592 | one step of it: such a poll yields nothing and leaves the wakeup time as it is |
| SchedulerWakeup.WakeupMakesProgress | queue_job/jobrunner/channels.py:545-592 | the wakeup time after a drained poll is zero or later than the time of the poll |
| SchedulerMeaning.WakeupHasCause | queue_job/jobrunner/channels.py:574-592 | a wakeup time is never asked for in vain: at that time the pause of some channel that is not full ends, or an eta of its jobs comes |
| SchedulerRefines.PassRefines | queue_job/jobrunner/channels.py:541-572 | what every channel yields in one pass has, in order, the keys that a recursive specification computes by sorting: own ready jobs and the output of the children, cut off in sequential mode, the first k for k free slots, one if throttled, none if paused; no job twice |
| SchedulerMeaning.PassInOrder | queue_job/jobrunner/channels.py:214-225 | on the fields of jobs: no job that a channel yields in a poll has a larger priority number than a job that is ready there at that moment; with equal priorities it is not younger, and with equal dates its number is not larger |
| SchedulerMeaning.FailedBlocks | queue_job/jobrunner/channels.py:516-519 | a sequential channel with a failed job yields nothing and keeps the failure |
| SchedulerMeaning.SlotsAreUsed | queue_job/jobrunner/channels.py:541-572 | after a poll a channel without throttle that is not sequential has no free slot or no ready job |
| SchedulerOrder.SequentialGoes | queue_job/jobrunner/channels.py:337-346 | a sequential channel lets its first ready job go exactly when the waiting job with the earliest eta does not sort before it |
| SchedulerMeaning.HeldMeans | queue_job/jobrunner/channels.py:337-345 | on the fields of jobs: a queue is held exactly if it is sequential and the waiting job with the earliest eta comes before all ready jobs by priority, date and number |
| SchedulerOrder.SequentialIsFirst | queue_job/jobrunner/channels.py:337-346 | if all waiting etas are equal, what a sequential channel yields sorts first among all ready and waiting jobs |
| SchedulerMoves.PlaceExists | queue_job/jobrunner/channels.py:463-514 | every job is nowhere; or failed in its own channel only; or runs in its own channel and consecutive parents and then waits in the next queue up, or runs at root |
| SchedulerMoves.PlaceIsUnique | queue_job/jobrunner/channels.py:463-514 | and only in one of these places |
| SchedulerMoves.PassPlaces | queue_job/jobrunner/channels.py:541-568 | a pass keeps this position invariant |
| SchedulerMoves.PendingPlaces | queue_job/jobrunner/channels.py:479-491 | so does `set_pending`, for all jobs, and its job ends in the queue of its channel |
| SchedulerMoves.RunningPlaces | queue_job/jobrunner/channels.py:493-504 | so does `set_running`; it changes nothing if the job runs in its own channel, and otherwise the job runs everywhere up to the root |
| SchedulerMoves.FailedPlaces | queue_job/jobrunner/channels.py:506-514 | so does `set_failed` |
| SchedulerMoves.RemovePlaces | queue_job/jobrunner/channels.py:463-469 | so does removal, after which no channel of the whole tree holds the job |
| SchedulerMoves.RootYieldsOnce | queue_job/jobrunner/channels.py:561-568 | the root yields exactly the jobs that start to run there |
| SchedulerRuns.EveryJobInOnePlace | queue_job/jobrunner/channels.py:463-514 | in every state of every run that starts with no jobs, each job is in exactly one place |
| SchedulerRuns.StepKeeps | queue_job/jobrunner/channels.py:463-514 | each kind of step keeps the tree well-formed and every job placed |
| SchedulerLimits.NeverYieldedAgain | queue_job/jobrunner/channels.py:541-568 | in any run, a job that runs at root is in no queue and is yielded by no channel before a notification sets it pending |
| SchedulerLimits.EtaRespected | queue_job/jobrunner/channels.py:332-346 | no channel of the tree yields a job before its eta |
| SchedulerMeaning.PassKeepsWaiting | queue_job/jobrunner/channels.py:332-336 | a job with a later eta goes on waiting, with the same eta |
| SchedulerMeaning.PassNotYet | queue_job/jobrunner/channels.py:332-346 | a job that is queued with a later eta only is yielded by no channel, and is queued with this eta only afterwards |
| SchedulerLimits.PassCapacity | queue_job/jobrunner/channels.py:516-523 | a pass leaves at most max(capacity, jobs running before) jobs running in a channel |
| SchedulerLimits.RecreateWithin | queue_job/jobrunner/channels.py:1036-1054 | recreating a job that runs at root as a running job keeps all channels within their capacities if and only if each channel that the new job is new to has a free slot |
| SchedulerLimits.CapacityHolds | queue_job/jobrunner/channels.py:1036-1054 | over runs where a running notification concerns a job running at root, or replaces it while each channel that is new to it has a free slot, no channel ever exceeds its capacity |
| SchedulerLimits.RecreateOverfills | queue_job/jobrunner/channels.py:1036-1054 | the smallest case in which recreating does harm: a full channel of capacity 1 then runs two jobs |
| SchedulerLimits.ThrottleHolds | queue_job/jobrunner/channels.py:545-572 | in any run with a clock that does not go back, a throttled channel yields at most one job per poll, and two of its jobs are at least `throttle` seconds apart |
| ChannelNames.SplitOfJoin | queue_job/jobrunner/channels.py:1015 | splitting a joined name gives back its components |
| ChannelNames.JoinOfSplit | queue_job/jobrunner/channels.py:442-448 | joining the components of any name gives back the name |
| ChannelNames.HeadOfSplit | queue_job/jobrunner/channels.py:1004 | cutting a name at its last dot drops exactly its last component |
| ChannelIndex.NearestIsLongest | queue_job/jobrunner/channels.py:997-1014 | the search for a parent ends at the longest proper prefix that exists |
| ChannelIndex.ExtendAdds | queue_job/jobrunner/channels.py:1015-1021 | a lookup creates exactly the missing channels on its way, without jobs, capacity, throttle or sequential mode, and moves no job |
| ChannelIndex.TargetExact | queue_job/jobrunner/channels.py:989-1021 | without parent fallback a lookup leads to the channel of that very name, and creates it if needed |
| ChannelIndex.FullNameStandsFor | queue_job/jobrunner/channels.py:991-994 | the components of a name that starts with the root, joined by dots, are found again |
| ChannelIndex.RootIsImplied | queue_job/jobrunner/channels.py:991-994 | a name without the root leads to the same channel as with it |
| ChannelIndex.FallbackStable | queue_job/jobrunner/channels.py:998-1021 | with parent fallback, looking a missing name up again leads to the same channel if and only if the parent found is the root, or the next component of the name differs from its first component below the root |
| ChannelIndex.FallbackMovesOn | queue_job/jobrunner/channels.py:985-1021 | with channels `root` and `root.sub`, the name `root.sub.sub` leads to `root.sub.sub.sub` first and to `root.sub.sub` afterwards |
| ChannelManagers.IndexedByPath | queue_job/jobrunner/channels.py:993-994 | a name is in the index exactly when the tree has its path, and it leads to that channel |
| ChannelManagers.ChannelManager.constructor | queue_job/jobrunner/channels.py:801-804 | one root channel with capacity 1, indexed, and no jobs |
| ChannelManagers.ChannelManager.GetChannelByName | queue_job/jobrunner/channels.py:945-1021 | the full name of a channel leads to that channel, with any flags, and no name or the empty one to the root, and then nothing changes; fails exactly when the channel is missing and neither flag is set; otherwise returns the specified channel and grows the tree by exactly the specified channels; index and tree agree afterwards |
| ChannelManagers.ChannelManager.FallbackParent | queue_job/jobrunner/channels.py:997-1014 | the loop over names ends, and finds the nearest existing parent |
| ChannelManagers.ChannelManager.Notify | queue_job/jobrunner/channels.py:1023-1061 | error exactly when database or creation date differ; otherwise the job known before is kept exactly when its scheduling properties are unchanged, or else is evicted and replaced, and the job makes the move of its state; every job stays placed, no two jobs have one uuid, and all channels and jobs that come in are new objects |
| ChannelManagers.ChannelManager.RemoveJob | queue_job/jobrunner/channels.py:1063-1067 | the job of that uuid leaves the tree and is forgotten |
| ChannelManagers.ChannelManager.RemoveDb | queue_job/jobrunner/channels.py:1069-1073 | exactly the jobs of that database leave the map of jobs and the sets of all channels; all others stay where they are, with their etas |
| ChannelManagers.ChannelManager.GetJobsToRun | queue_job/jobrunner/channels.py:1075-1076 | one drained call is one pass over the whole tree, and the jobs are those the root yields |
| ChannelManagers.ChannelManager.GetWakeupTime | queue_job/jobrunner/channels.py:1078-1079 | the specified wakeup time of the root; the tree stays as it is |
| ChannelManagers.ChannelManager.Collect | queue_job/jobrunner/channels.py:802 | an entry of the weak map of jobs may vanish when no channel holds its job |
| Notifications.ConsistentNotified | queue_job/jobrunner/channels.py:1048-1061 | the moves of all states keep one job per uuid, and every job placed |
| Notifications.ConsistentReplace | queue_job/jobrunner/channels.py:1036-1047 | so does replacing a job by a new one |
| Notifications.ConsistentPass | queue_job/jobrunner/channels.py:541-572 | so does a pass |
| Notifications.ConsistentLookup | queue_job/jobrunner/channels.py:1015-1021 | so does a lookup |
| Notifications.OneJobPerUuid | queue_job/jobrunner/channels.py:1027-1047 | two jobs with one uuid are never handed out by one poll, nor one while another runs at root |
| Notifications.HandledShows | queue_job/jobrunner/channels.py:1023-1061 | after a notification the job is where the state of its row puts it, and it is queued with the eta of the row, if at all |
| Notifications.HandledOther | queue_job/jobrunner/channels.py:1023-1061 | a notification does not change what the channels show of any other row |
| Notifications.NotifiedOther | queue_job/jobrunner/channels.py:1048-1061 | a move leaves every other job in the same sets of every channel |
| Notifications.RemoveIsWithout | queue_job/jobrunner/channels.py:1069-1073 | taking a job out of its channel and the parents of that takes it out of the whole tree |
| Runners.JobTable.SetJobEnqueued | queue_job/jobrunner/runner.py:336-344 | the row becomes enqueued now, whatever its state, and nothing else changes |
| Runners.JobTable.SetJobPending | queue_job/jobrunner/runner.py:212-223 | the row goes back to pending without dates only if it is still enqueued, and nothing else changes |
| Runners.QueueJobRunner.RunJobs | queue_job/jobrunner/runner.py:427-442 | one pass over the channels; the row of each job that the root yields has state enqueued and the time of the poll, with its other fields as before, and all other rows are as before |
| Runners.QueueJobRunner.NotifyRow | queue_job/jobrunner/runner.py:457-460 | the manager is told of the row as it was read; an error exactly when the known job does not match it |
| Runners.QueueJobRunner.ForgetRow | queue_job/jobrunner/runner.py:461-462 | without a row the job leaves all channels and is forgotten |
| Runners.QueueJobRunner.ProcessNotification | queue_job/jobrunner/runner.py:453-462 | reads the row and does one or the other |
| Runners.QueueJobRunner.ProcessNotifications | queue_job/jobrunner/runner.py:444-462 | once all notifications are dealt with, the channels show every row they were about; the job of a pending row waits in its channel for exactly the eta of the row, or is ready if there is none; with known jobs that match their rows there is no error |
| Runners.QueueJobRunner.InitializeDatabase | queue_job/jobrunner/runner.py:417-425 | the channels show every row that is neither done nor cancelled; the job of each pending row waits in its channel for exactly the eta of the row, or is ready if there is none |
| Runners.QueueJobRunner.Timeout | queue_job/jobrunner/runner.py:473-481 | the wakeup time less the clock, or 60 seconds if there is none |
| Runners.QueueJobRunner.RunAndWait | queue_job/jobrunner/runner.py:473-489 | after sending the jobs the runner sleeps until some time after the poll, so it does not spin |
| Runners.QueueJobRunner.ReadRow | queue_job/jobrunner/runner.py:453-462 | dealing with a row is a run of the scheduler without polls: channels are created, a job is evicted, a job moves |
| Runners.QueueJobRunner.RunRound | queue_job/jobrunner/runner.py:518-521 | notifications, jobs sent, and the time to sleep, as one more piece of the run, with at most one poll; if there are notifications about all rows that changed, every row whose eta is after the poll stays as it is, so no job is sent before the eta of its row |
| Runners.QueueJobRunner.RunRounds | queue_job/jobrunner/runner.py:517-521 | whatever happens to the rows between rounds, the channels go through one run of the scheduler that polls once a round, with a clock that does not go back; so what is proved about all runs holds for the loop; if changes of rows are announced, no round sends a job before the eta of its row |
| ProtocolRunners.SendingIsMarking | queue_job/jobrunner/runner.py:427-442 | seen as states of rows, sending the jobs of a poll is the step that marks a job in the protocol, for each of them in turn |
| ProtocolRunners.TakingBackIsTimeOut | queue_job/jobrunner/runner.py:212-223 | and taking a row back is the step of a client that times out |
| ManagerRuns.LookupTrace | queue_job/jobrunner/channels.py:1015-1021 | a lookup is a run that creates channels one by one |
| ManagerRuns.HandledTrace | queue_job/jobrunner/channels.py:1036-1061 | a notification is a run that may evict a job, and moves one |
| ManagerRuns.PollsRun | queue_job/jobrunner/runner.py:517-521 | a run with polls at such times has a clock that does not go back, and etas that are set |
| Protocol.SingleExecution | queue_job/jobrunner/runner.py:209-255 | in every interleaving without a harmful write after a start that failed: a job waiting in the runner is pending in the database, each enqueued episode is started once or reset but not both, and at most one worker runs a job or releases its children |
| Protocol.StepKeeps | queue_job/controllers/main.py:28-151 | each atomic step of runner, request thread and worker keeps the invariant behind this, unless it is a harmful write |
| Protocol.WriteConflictExact | queue_job/controllers/main.py:105-133 | after a conflict at the start, the unguarded write of the pending state keeps all this, at once and while the runner deals with what it has read, if and only if the row is not started, and not done with its release step pending or with children that do not wait |
| Protocol.WriteFailureExact | queue_job/controllers/main.py:135-147 | after any other error at the start, the unguarded write of the failure does so if and only if, besides, the runner has not taken the job for pending, and no parent of it is unfinished |
| Protocol.ConflictBreaksSingleExecution | queue_job/controllers/main.py:72-133 | a run from the initial state in which the first write lets two workers run one job |
| Protocol.FailureOverStarted | queue_job/controllers/main.py:135-147 | a run from the initial state in which the second write marks a job as failed while a worker performs it |
| Protocol.DependencySafety | queue_job/job.py:542-571 | in every such run, a job that does not wait for dependencies has all its ancestors done |
| Protocol.NoLostRelease | queue_job/controllers/main.py:36-41 | in every such run with no release step given up, a waiting job whose parents are all done has a parent whose release step is still to come |
| Protocol.QuiescenceExact | queue_job/README.rst:232-238 | at rest, with acyclic dependencies, the waiting jobs are exactly the proper descendants of failed jobs, and all others are done or failed |
| ProtocolViews.NotifiedSpot | queue_job/jobrunner/channels.py:1048-1061 | the channels move a notified job as the protocol says |
| ProtocolViews.PolledSpot | queue_job/jobrunner/channels.py:541-572 | a poll moves a job up, or leaves it, and hands it out exactly when it comes to run at root |
| RunJobs.TryPerformJob | queue_job/controllers/main.py:29-41 | counts the try, and stores the job as done exactly when its method returned |
| RunJobs.RetryPostpone | queue_job/controllers/main.py:77-83 | stores an eta as many seconds from now as the error or the pattern says, none for zero seconds, and a later one than now for positive seconds; keeps the count of retries, and waits for dependencies exactly when a parent is not done |
| RunJobs.RunJob | queue_job/controllers/main.py:72-153 | a row that is not enqueued is left alone; otherwise the request finishes, with the row done, exactly if the method returns or has nothing to do, and raises, with the row failed, exactly on other errors and on the last retry; state, retries, eta and dates of the row are as the end of the attempt asks for, whether the start, the method, or storing the result goes wrong |
| RunJobs.AttemptEnds | queue_job/controllers/main.py:72-153 | which attempts leave the row done, failed, or pending or waiting by its parents, with its dates and the count of retries |
| RunJobs.AttemptWaits | queue_job/controllers/main.py:105-133 | the next try is five seconds after a conflict, and otherwise as many seconds later as the error says, or else the pattern |
| ProtocolJobs.AttemptIsSteps | queue_job/controllers/main.py:72-153 | in any state of the protocol in which the worker holds the lock, what the attempt makes of the row is what the steps of a worker make of its state, whether the start succeeds or not, and they can be taken |
| RunJobs.EnqueueDependentJobs | queue_job/controllers/main.py:43-70 | succeeds exactly when some attempt among the first six releases the jobs and all before it end in a conflict |
| RunJobs.RetryCounts | queue_job/job.py:515-540 | the count of retries survives every postponement |
| RunJobs.FailsWhen | queue_job/job.py:523-538 | exactly which attempt fails the job |
| RunJobs.RetryBound | queue_job/job.py:515-540 | a job with at most N retries whose attempts all ask for another try makes at most N + k attempts, k of them excused or conflicts |
| RunJobs.RetryExact | queue_job/job.py:529-537 | with none excused it is the N-th attempt, and no other, that fails the job |
| RunJobs.RetryForever | queue_job/job.py:527-528 | with a maximum of zero a retryable error never fails the job |
| Jobs.Job.AddDepends | queue_job/job.py:504-513 | error exactly when the job is among its own parents; otherwise both directions are recorded and it waits if some new parent is not done |
| Jobs.Job.Perform | queue_job/job.py:515-540 | counts the try unless the error is to be ignored; tells a return, nothing to do, a conflict, a failure and a retryable error apart, and turns a retryable error at the maximum into a failure |
| Jobs.Job.SetPending | queue_job/job.py:797-810 | waits exactly when a parent is not done; dates are cleared, retries only on request |
| Jobs.Job.Postpone | queue_job/job.py:863-875 | the eta is the specified number of seconds from now, and absent if that is zero; nothing else of the row changes |
| RetryPatterns.GetRetrySeconds | queue_job/job.py:846-861 | the seconds given; or else what the entry with the highest number of retries reached allows; or 600 if none is reached |
| RetryPatterns.Sorted | queue_job/job.py:850 | an ordered permutation of the pattern |
| Graphs.Graph.AddVertex | queue_job/delay.py:69-74 | the vertex is there, and nothing else changes |
| Graphs.Graph.AddEdge | queue_job/delay.py:76-82 | exactly one edge more, and closed graphs stay closed |
| Graphs.Graph.GetEdges | queue_job/delay.py:88-94 | every edge once and nothing else |
| Graphs.Graph.RootVertices | queue_job/delay.py:147-155 | exactly the vertices without parents |
| Graphs.Graph.TopologicalSort | queue_job/delay.py:125-145 | terminates on every closed graph, cyclic or not; no vertex twice, each after all its parents, and what is left out has a parent that is left out |
| Graphs.OrderIsAcyclicPart | queue_job/delay.py:125-145 | such an order has exactly the vertices with no cycle at or above them |
| Graphs.AcyclicOrderIsComplete | queue_job/delay.py:128-131 | hence all vertices of an acyclic graph |
| Delayables.NewDelayable | queue_job/delay.py:452-465 | a delayable is the only vertex of its graph |
| Delayables.NewChain | queue_job/delay.py:320-329 | edges exactly from each member to its successors; an error exactly without members |
| Delayables.NewGroup | queue_job/delay.py:377-381 | the members are the vertices, and there are no edges |
| Delayables.OnDone | queue_job/delay.py:341-349 | exactly the edges from the last member of a chain, from all members of a group, or from the delayable itself, to what is passed in |
| Delayables.MergeGraph | queue_job/delay.py:172-186 | exactly the edges from the tails of each vertex to the heads of its children are added |
| Delayables.ConnectGraphs | queue_job/delay.py:188-212 | terminates on shared and cyclic structures; merges exactly the graphs that can be reached from the start |
| Delayables.ReachedAreVisited | queue_job/delay.py:197-210 | no reachable graph is missed |
| Delayables.ConnectedIsClosed | queue_job/delay.py:188-212 | the keys of the connected graph are exactly the delayables among the vertices of the reachable graphs, and every edge leads to a key |
| Flattening.ConnectedIsFlattened | queue_job/delay.py:172-212 | for nested chains and groups as built, the connected graph is the flattened expression, vertex by vertex and edge by edge |
| Flattening.Flatten | queue_job/delay.py:249-253 | the graph that `delay` works on has exactly these vertices and edges |
| SeriesParallel.FlatteningIsSound | queue_job/delay.py:320-387 | the transitive closure of the flattened graph never asks for an order that the expression does not ask for, and has no cycle |
| SeriesParallel.FlatteningIsFaithful | queue_job/delay.py:320-387 | for distinct delayables, empty groups or not, closure and expression agree on all pairs if and only if the expression is faithful, which is read off its members and ends without looking at the order |
| SeriesParallel.PlainEndsAreFaithful | queue_job/delay.py:331-335 | expressions without empty groups whose chains start and end with a delayable or a group of delayables are faithful |
| SeriesParallel.DeepChainLosesOrder | queue_job/delay.py:331-335 | `chain(chain(x, chain(a, b)), c)`: c does not wait for b |
| SeriesParallel.EmptyGroupLosesOrder | queue_job/delay.py:383-387 | `chain(a, group(), c)`: c does not wait for a |
| GraphJobs.LinkJobs | queue_job/delay.py:264-265 | the parents and children of each new job are the jobs of its vertex's parents and children, and it waits exactly if it has parents; an error exactly if a vertex is its own child |
| ExecutionOrder.Delay | queue_job/delay.py:249-292 | connects the graphs, builds a job for each vertex and links the jobs: for distinct delayables without error, and then the dependencies stored are those of the flattened expression, and each job starts in the state in which the protocol creates it |
| ExecutionOrder.OrderIsKept | queue_job/delay.py:249-292 | in every run, a job stored so from a faithful expression that does not wait has all jobs done that come before it in the expression |
| Continuations.ContinuedIsFlattened | queue_job/delay.py:341-349 | after `a.on_done(b)` the connected graph is that of a longer chain, vertex by vertex and edge by edge |
| Continuations.FlattenContinued | queue_job/delay.py:188-212 | the worklist computes it |
| Continuations.OnDoneKeepsOrder | queue_job/delay.py:393-402 | for faithful expressions, each job of the one comes before each job of the other if and only if the longer chain is faithful |
| Continuations.NothingContinued | queue_job/delay.py:399-402 | without ends, as for an empty group, the jobs of what follows are not in the connected graph |

## Left out

- Runners.QueueJobRunner.RunJobs: works on the table of one database; that a runner serves several, and that it can be stopped between two jobs, is not modelled.
- Runners.QueueJobRunner.ProcessNotifications: the rows change between rounds only, not while the notifications of one round are dealt with; rows that change meanwhile are in `Protocol`, where reading a row and dealing with it are two steps.
- Runners.QueueJobRunner.RunRound: that there is a notification about each row that has changed is the work of the trigger in `queue_job/post_init_hook.py:18-24`, and a hypothesis of what is said about etas there and in the loop.
- Runners.QueueJobRunner.RunAndWait: the wait itself is not modelled, only how long it is; the loop ends at the first error, as recovery is not modelled.
- Protocol.DependencySafety: the release step is the SQL statement of `queue_job/job.py:543-570` as one atomic step on the table.
- Protocol.NoLostRelease: a release step that was given up after six attempts, or lost with its worker, is recorded as lost and not made up for, as in the code.
- RunJobs.RunJob: the result, the description of an exception and the process id of the worker are not part of a row.
- RunJobs.EnqueueDependentJobs: the random pauses between attempts are not modelled.
- RetryPatterns.GetRetrySeconds: an error that asks for another try gives its seconds as a number; only the pattern can have ranges.
- ChannelManagers.ChannelManager.Notify: a state that is not one of the seven states only leads to a message in the log, and is not modelled.
- Flattening.Flatten: covers chains and groups without `on_done`; `Continuations.FlattenContinued` adds one `on_done`, and graphs with any number of them are covered by `Delayables.ConnectGraphs`.
- GraphJobs.LinkJobs: identity keys, the uuid of a graph, and running a graph directly are not modelled.
- A channel job has the full name of its channel instead of a reference to it; names are unique in the tree.
- The configuration string of the channels and `configure`: a tree may start with any settings of its channels.
- Cancelling jobs, setting them done, requeuing and deleting them by hand, and requeuing stuck jobs: these overwrite states without guards, and are no steps of `Protocol`.
- A job that was started by a worker that crashed stays started; nothing in the code recovers it.
- The state of a job object is kept apart from its record: (de)serialisation of recordsets, related actions, identity hashing and job functions are not modelled.
- HTTP, database connections, `select`, threads, the stop pipe, recovery from exceptions and logging: only their effects appear, as steps and parameters.
- `paths`, `__repr__` and `__str__`, and all modules other than `queue_job`.
