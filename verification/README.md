# Verified models of the Raft and MapReduce implementations

This project models two parts of the repository in Dafny and proves what they are for.

**Raft** (`src/raft`). The peer is modelled twice: as the classes `RaftNode.Raft` and `RaftNode.Persister`, whose
methods update fields step by step as the program does, and as functions from state to state in `RaftServer`. Every
method is proved to move the peer exactly where its function does. `RaftCluster` puts n peers and all calls between
them into one state machine, one step for each region that holds the mutex. A call is an object that passes through
phases, so it can be lost, delayed and reordered, but a handler never runs twice for one request. A timeout may strike
in any role, and `startElection` reads its arguments in a step of its own, after any delay. An index out of range stops
the Go process, so a step that would cause one is not enabled.

These kinds of runs appear:

- *every run*: calls are lost, delayed and reordered at will. Election Safety, Log Matching, Leader Append-Only, exact
  replication, the commit rule and the exact conditions under which a peer panics hold here.
- *honest runs* (`RaftProgress.Honest`): an accepted append takes back nothing that the follower has stored of its
  leader's log, a leader's MatchIndex claims nothing that is not stored, and nobody commits out of office. State
  Machine Safety, Leader Completeness and "committed entries are never cut" hold here.
- *timely runs* (`RaftProgress.Timely`), a guard on single calls: an accepted append never ends before a log that already
  ends in the same leader's term, and a success is handled while its sender still leads the term it sent in, with the
  log it sent. Every timely run is proved to be honest.
- *runs with rounds* (`RaftRounds`): building an append, its handler and the handling of its reply are one indivisible
  round, unless the request or the reply is lost; elections and client commands stay asynchronous. Every such run is
  proved to be a timely run, so it has the commit properties, and it never indexes a slice out of range.

Beside what cannot go wrong, the model proves what can always be done. From the end of every run of two or more peers,
whatever has happened in it, the cluster can go on to a state in which some peer leads (`RaftAvailability`; a single
peer never leads). From the end of every honest run any command can be brought to the end of everyone's log and be applied
by everyone (`RaftAgreement`), by elections, client commands and rounds alone.

Where the code falls short of Figure 2 of the paper "In Search of an Understandable Consensus Algorithm (Extended
Version)", the model keeps the code, shows a run, and says exactly when it happens:

- One success reply handled late, or one request delivered late, with every other step timely, makes two peers apply
  different commands at one index (`RaftLimits`). `RaftHonest.HonestExactly` says which deliveries and replies are honest.
- Two refusals of one leader, or one refusal handled in a later term, take NextIndex to 0, where the next message panics
  (`RaftLimits`). `RaftIndices` proves that a leader can build a message exactly when NextIndex is at least 1, that
  NextIndex falls below 1 exactly when a refusal is handled while it is 1, and that this never happens if refusals are
  handled while they are fresh.
- A deposed leader whose log was cut handles an old success and reads its log past the end (`RaftPanic`, five peers).
  `RaftIndices` gives the exact condition, and shows that a leader, or any peer of fewer than five, never does.
- A peer's vote for itself is not persisted (`RaftDurability`). A vote is forgotten in a crash exactly when its term was
  not persisted; in a life without such crashes every peer votes once in a term, and such a crash always lets the
  restarted peer vote again.

**MapReduce** (`src/mapreduce`, `src/main/wc.go`, `src/main/ii.go`). `GroupBy` says what a job computes without files,
tasks or hashing. `MapTask`, `ReduceTask`, `MergeTask` and `Sequential` are the program's loops over a shared disk, proved
against that. `Scheduler` is the dispatch loop with its concurrent `execute` closures, the WaitGroup and the channel of
idle workers, as a step machine. `Distributed` joins the scheduler's calls with the task runs behind them, whose writes
interleave freely and may stop half-way when a call fails, and proves that the disk ends up as the sequential master leaves
it. `WordCount` and `InvertedIndex` carry the result to the two programs.

The files: `Quorum`, `RaftTypes`, `RaftServer`, `RaftNode`, `RaftCluster`, `RaftHistory` (what has happened so far),
`RaftInvariant` (what every step keeps), `RaftProgress` and `RaftCommit` (what every honest step keeps), `RaftSafety` (the
theorems), `RaftVoting`, `RaftMessages`, `RaftHonest`, `RaftAvailability`, `RaftAgreement`, `RaftIndices`, `RaftRounds`, `RaftLimits`, `RaftPanic`, `RaftBacktrack`, `RaftDurability`; and `Decimal`, `FileNames`, `StringOrder`, `GroupBy`,
`Files`, `MapTask`, `ReduceTask`, `MergeTask`, `Phases`, `Job`, `Sequential`, `Scheduler`, `SchedulerWorkers`, `Distributed`, `WordCount`,
`InvertedIndex`; `Options` is shared.

## Model

| member | source | states |
|---|---|---|
| `RaftSafety.ElectionSafety` | src/raft/raft.go:309-362 | In every run, at most one peer is ever leader of a given term, at any two moments, with late votes, elections started after the term moved on, and timeouts that strike a leader. |
| `RaftSafety.LogMatching` | src/raft/raft.go:239-252 | In every run, if the logs of any two peers at any two moments hold an entry of the same index and term, they are identical up to that index. |
| `RaftSafety.LogTerms` | src/raft/raft.go:290-297 | In every run, the terms of every log ascend and never exceed the peer's term. |
| `RaftSafety.ExactReplication` | src/raft/raft.go:239-252 | Whenever AppendEntries accepts, however late, the follower's whole log is the leader's log at the step that built the message. |
| `RaftSafety.LeaderAppendOnly` | src/raft/raft.go:217-302 | For as long as a peer leads a term its log only grows, over every run and every message. |
| `Quorum.MedianIsGreatestMajorityIndex` | src/raft/raft.go:448-455 | The element at len/2 of the descending sort is the greatest index that a strict majority of MatchIndex has reached: a majority reached v if and only if v is at most the median. |
| `Quorum.SortDescendingKeeps` | src/raft/raft.go:452-454 | Sorting the copy of MatchIndex keeps its elements as a multiset. |
| `RaftSafety.CommitRule` | src/raft/raft.go:444-461 | Taking the median commits the greatest N that Figure 2 allows, and nothing if Figure 2 allows nothing. |
| `RaftSafety.CommitRuleInRuns` | src/raft/raft.go:444-461 | The same for every success that any run handles, whose log needs no further assumption. |
| `RaftInvariant.RunInv` | src/raft/raft.go:181-475 | Every state of every run satisfies the invariant that ties logs, votes and calls to the history of leaders and votes. |
| `RaftCommit.RunHonest` | src/raft/raft.go:387-475 | Every state of every honest run satisfies the invariant that ties commit indices to what majorities have stored and later leaders hold. |
| `RaftSafety.StateMachineSafety` | src/raft/raft.go:540-547 | In every honest run, of what two peers have applied at any two moments one is a prefix of the other, so no index ever gets two commands. |
| `RaftSafety.LeaderCompleteness` | src/raft/raft.go:444-461 | In every honest run, what a leader commits in a term is in the log of every peer that leads a later term at any moment. |
| `RaftSafety.CommittedNeverCut` | src/raft/raft.go:252-258 | In every honest run, the commit index never decreases, the log up to it never changes again, and what was applied stays applied. |
| `RaftSafety.CommittedAgree` | src/raft/raft.go:252-258 | In every honest run, the logs of any two peers at any two moments agree up to the lesser commit index. |
| `RaftSafety.AppliedExactly` | src/raft/raft.go:540-547 | In every honest run, LastApplied = CommitIndex < len(Log) between steps and the messages sent are those for the indices 1, 2, ..., LastApplied, each once. |
| `RaftAgreement.AgreementCanBeReached` | src/raft/raft.go:309-547 | From the end of every honest run of two or more peers the cluster can go on, by elections, a client command and rounds, until any given command is the last entry of everyone's log and everyone has applied that whole log. |
| `RaftAvailability.LeaderCanBeElected` | src/raft/raft.go:309-385 | From the end of every run of two or more peers the cluster can go on until some peer leads and everyone is in its term. |
| `RaftAvailability.SinglePeerNeverLeads` | src/raft/raft.go:325-361 | In every run of a single peer nobody ever leads, since only a reply can make a leader. |
| `RaftVoting.AtLeastTotal` | src/raft/raft.go:203-205 | Of any two logs one is at least as up-to-date as the other. |
| `RaftVoting.AtLeastTransitive` | src/raft/raft.go:203-205 | Being at least as up-to-date is transitive. |
| `RaftVoting.AheadExactly` | src/raft/raft.go:203-205 | A log with a later last term is ahead whatever the lengths, and with equal last terms the longer one is. |
| `RaftVoting.GrantedExactly` | src/raft/raft.go:181-213 | A vote is granted if and only if the peer may still vote for the candidate in that term and its log is not ahead; a grant is recorded and persisted, a refusal in the peer's own or an earlier term changes nothing. |
| `RaftVoting.OneOfTwoGrants` | src/raft/raft.go:181-213 | Of any two peers at least one would get the other's vote in a fresh term. |
| `RaftVoting.BestPeer` | src/raft/raft.go:198-213 | Among any peers there is one whose log is at least as up-to-date as every other. |
| `RaftMessages.LaterTermDeposes` | src/raft/raft.go:340-343 | In every run, whoever receives a request or a reply is then in the later of the two terms; a message of a later term makes it a follower, and a reply of a later term takes its vote away and leaves log and commits alone. |
| `RaftMessages.AnswersWithTerm` | src/raft/raft.go:187-191 | In every run, both handlers answer with the receiver's new term, which is never before the request's. |
| `RaftMessages.FirstMessage` | src/raft/raft.go:376-419 | In every run, only a candidate handling a vote reply comes to lead; it keeps term and log, starts with MatchIndex 0, and its first message to every peer carries no entry, its commit index, and index and term of its last entry. |
| `RaftMessages.CommitsTravel` | src/raft/raft.go:254-258 | In every honest run, whoever accepts an append has then applied at least what its sender had applied when it built the message. |
| `RaftHonest.HonestExactly` | src/raft/raft.go:444-461 | In a run honest so far, a delivery or a handled reply is honest if and only if it takes back nothing that is stored, leaves every leader's MatchIndex no higher than what is stored, and lets nobody commit out of office. |
| `RaftHonest.TimelyRunsAreHonest` | src/raft/raft.go:437-446 | Every timely run is honest. |
| `RaftHonest.TimelyRequestExactly` | src/raft/raft.go:239-252 | In a run honest so far, a delivered append is timely if and only if it takes back nothing that the follower has stored of its leader's log. |
| `RaftIndices.BuildPanicsExactly` | src/raft/raft.go:402-419 | In every run, NextIndex of a leader never points past its log, and the leader can build a message for another peer if and only if NextIndex is at least 1. |
| `RaftIndices.NextIndexFallsExactly` | src/raft/raft.go:462-467 | In every run, a step takes a leader's NextIndex below 1 if and only if it handles a refusal of no later term while NextIndex is 1. |
| `RaftIndices.FreshRunsCanBuild` | src/raft/raft.go:402-467 | In every run whose leaders handle refusals only in the term they sent in and while NextIndex is still the one they sent, every leader can always build a message for every peer. |
| `RaftIndices.ReplyPanicsExactly` | src/raft/raft.go:444-456 | In every run, handling an answer panics if and only if it is a success of no later term and a majority of MatchIndex, without the two entries about to be set, lies beyond the log and the commit index. |
| `RaftIndices.AnswersHandled` | src/raft/raft.go:428-461 | In every run, a leader can handle every answer, and with fewer than five peers everyone can. |
| `RaftPanic.CutLogPanics` | src/raft/raft.go:444-456 | A run of five peers in which a deposed leader with a cut log holds an answer that it cannot handle. |
| `RaftRounds.RoundsAreTimely` | src/raft/raft.go:394-473 | Every run with indivisible append rounds is a timely run seen at some of its moments. |
| `RaftRounds.StateMachineSafetyInRounds` | src/raft/config.go:151-157 | State Machine Safety in every run with rounds: the tester's check can never find a different value at an index. |
| `RaftRounds.LeaderCompletenessInRounds` | src/raft/raft.go:444-461 | Leader Completeness in every run with rounds. |
| `RaftRounds.CommittedNeverCutInRounds` | src/raft/raft.go:252-258 | In every run with rounds, LastApplied = CommitIndex < len(Log), committed entries are never cut and the applied indices are exactly 1, 2, ..., LastApplied. |
| `RaftRounds.RoundsNeverPanic` | src/raft/raft.go:402-467 | In every run with rounds a leader can carry out a round with every other peer: building the message and handling the reply never index out of range. |
| `RaftLimits.LateReplyBreaksSafety` | src/raft/raft.go:437-461 | A run in which one success reply is handled late, every other step is timely, and two peers apply different commands at index 1. |
| `RaftLimits.LateRequestBreaksSafety` | src/raft/raft.go:252 | A run in which one append request arrives late, every other step is timely, and two peers apply different commands at index 2. |
| `RaftLimits.TwoRefusalsPanic` | src/raft/raft.go:462-467 | A run of timely steps in which two refusals take NextIndex to 0, so that the next message cannot be built. |
| `RaftLimits.OldRefusalPanics` | src/raft/raft.go:437-467 | A run of timely steps in which one refusal, handled in a later term while NextIndex is still the one that was sent, takes NextIndex to 0. |
| `RaftBacktrack.ExchangeStep` | src/raft/raft.go:395-471 | One turn of the loop either makes the logs equal or lowers NextIndex by one, never below 1. |
| `RaftBacktrack.BacktrackingReplicates` | src/raft/raft.go:395-471 | For logs that match, without interleaving, the loop ends after at most NextIndex exchanges with equal logs and the leader's indices at the end of its log. |
| `RaftDurability.RestartKeepsLog` | src/raft/raft.go:121-140 | Over every sequence of events and crashes, a restart from the persister brings back exactly the log in memory. |
| `RaftDurability.PersistedTermGrows` | src/raft/raft.go:121-140 | The persisted term never decreases and the term in memory is never behind it. |
| `RaftDurability.OneGrantPerTerm` | src/raft/raft.go:203-213 | RequestVote never grants two different candidates in one term, across any number of restarts. |
| `RaftDurability.RestartForgets` | src/raft/raft.go:488-505 | Over every sequence of events, after a crash the peer is a follower with nothing committed, applied or indexed, its log as it was, and term and vote as persisted. |
| `RaftDurability.LifeApplied` | src/raft/raft.go:540-547 | Over every sequence of events and crashes, the messages sent since the last start carry the indices 1, 2, ..., LastApplied, each once. |
| `RaftDurability.SelfVoteForgotten` | src/raft/raft.go:309-314 | A peer can vote for itself, crash, and grant the same term to another candidate. |
| `RaftDurability.VoteForgottenExactly` | src/raft/raft.go:309-314 | Over every sequence of events and crashes, a peer that has voted in its term, for itself or another, would after a crash grant that term to someone else if and only if the term is not persisted. |
| `RaftDurability.OneVotePerTerm` | src/raft/raft.go:203-213 | If no crash loses a vote, a peer votes for one candidate in a term, own votes included, across any number of restarts. |
| `RaftDurability.LostVoteIsRecast` | src/raft/raft.go:121-140 | After a crash that loses a vote the restarted peer grants the same term to another candidate as soon as one asks. |
| `RaftNode.Persister.Copy` | src/raft/persister.go:24-31 | A fresh store with the same content. |
| `RaftNode.Persister.SaveRaftState` | src/raft/persister.go:33-37 | The image is replaced and the snapshot is not touched. |
| `RaftNode.Persister.ReadRaftState` | src/raft/persister.go:39-43 | The image that was saved last. |
| `RaftNode.Raft.Make` | src/raft/raft.go:478-505 | A follower with nothing committed or applied whose term, vote and log are those of the persister, or term 1, no vote and the sentinel entry if it is empty. |
| `RaftNode.Raft.Persist` | src/raft/raft.go:121-129 | Term, vote and log go to the persister; nothing else changes. |
| `RaftNode.Raft.ReadPersist` | src/raft/raft.go:134-140 | Term, vote and log come from the image, if there is one. |
| `RaftNode.Raft.BeFollower` | src/raft/raft.go:368-374 | The step that runs of the cluster take when a higher term is seen; nothing is persisted. |
| `RaftNode.Raft.BeCandidate` | src/raft/raft.go:309-314 | The step that runs of the cluster take on a timeout; nothing is persisted. |
| `RaftNode.Raft.BeLeader` | src/raft/raft.go:376-385 | The loop leaves every NextIndex at the length of the log and every MatchIndex at 0. |
| `RaftNode.Raft.UpdateLastApplied` | src/raft/raft.go:540-547 | The loop sends exactly the messages after LastApplied up to CommitIndex, in order. |
| `RaftNode.Raft.RequestVote` | src/raft/raft.go:181-215 | New state and reply are those of the vote step of the cluster, over which Election Safety, Leader Completeness and `RaftVoting.GrantedExactly` are proved. |
| `RaftNode.Raft.AppendEntries` | src/raft/raft.go:217-265 | New state and reply are those of the append step of the cluster, over which Log Matching and exact replication are proved. |
| `RaftNode.Raft.Start` | src/raft/raft.go:282-302 | A leader appends the command with its term at the returned index and persists; any other peer changes nothing and returns -1. |
| `RaftNode.Raft.BuildVoteArgs` | src/raft/raft.go:316-323 | The arguments describe the peer's state at the moment they are read. |
| `RaftNode.Raft.HandleVoteReply` | src/raft/raft.go:336-358 | New state and counter are those of the vote-reply step of the cluster, over which `RaftMessages.LaterTermDeposes` and the elections of `RaftAvailability` are proved. |
| `RaftNode.Raft.BuildAppendArgs` | src/raft/raft.go:396-419 | The message carries the log from NextIndex on, the entry before it and the commit index; what that brings about is `RaftMessages.CommitsTravel`. |
| `RaftNode.Raft.HandleAppendReply` | src/raft/raft.go:428-467 | New state is that of the append-reply step of the cluster, over which the commit rule and `RaftMessages.LaterTermDeposes` are proved. |
| `RaftNode.Raft.ExchangeWith` | src/raft/raft.go:395-471 | One turn of the loop against a follower changes both peers as one exchange. |
| `RaftNode.Raft.ReplicateTo` | src/raft/raft.go:394-473 | Without interleaving the loop ends after at most NextIndex exchanges; then the follower's log equals the leader's, which is unchanged, and NextIndex and MatchIndex point to its end. |
| `Decimal.AtoiOfItoa` | src/main/wc.go:30-44 | The reduce function reads back every number that the map function writes. |
| `Decimal.DecimalDigits` | src/main/wc.go:30 | Position j from the right is the last digit of the number divided by ten j times, as a character counted from '0'. |
| `Decimal.NoLeadingZero` | src/main/wc.go:30 | The decimal form of a positive number has no leading zero. |
| `FileNames.NamesOnDisk` | src/mapreduce/common.go:36-43 | The names of an example job as they appear on the disk. |
| `FileNames.ReduceNamesDistinct` | src/mapreduce/common.go:36-38 | Two intermediate files of a job with the same name are the same file. |
| `FileNames.MergeNamesDistinct` | src/mapreduce/common.go:41-43 | Two reduced files of a job with the same name are the same file. |
| `FileNames.KindsDistinct` | src/mapreduce/common.go:36-43 | Intermediate files, reduced files and the output never share a name. |
| `StringOrder.RangeKeys` | src/mapreduce/common_reduce.go:58-61 | Ranging over a map gives each key once, in whatever order. |
| `StringOrder.LeExactly` | src/mapreduce/common_reduce.go:62 | The order of keys is that of Go strings: a prefix comes first, and otherwise the smaller character at the first difference decides. |
| `StringOrder.SortStringsAscending` | src/mapreduce/common_reduce.go:62 | Sorting distinct keys makes them ascend strictly. |
| `GroupBy.GroupByUnique` | src/mapreduce/master_splitmerge.go:35-49 | "Each key once, ascending, with its values reduced" leaves only one possible output. |
| `GroupBy.PartitionExactly` | src/mapreduce/common_map.go:64-66 | A pair is in partition r if and only if its key's hash leaves r when divided by nReduce. |
| `GroupBy.PartitionedGroupBy` | src/mapreduce/common_map.go:64-70 | Partitioning by any hash into any number of parts, reducing each part and merging gives the plain group-by of all pairs, and merging never meets a key twice. |
| `MapTask.DoMap` | src/mapreduce/common_map.go:49-74 | An unreadable input changes nothing; otherwise the disk changes by creating all intermediate files of the task and appending each pair to the file of its hash. |
| `MapTask.MapWritesContent` | src/mapreduce/common_map.go:56-70 | A complete run leaves in file r exactly partition r of the emitted pairs, in order, whatever the file held before. |
| `ReduceTask.ReadGroups` | src/mapreduce/common_reduce.go:42-56 | Reading succeeds if and only if every intermediate file is there, and then maps each key to all of its values in map-task and emission order. |
| `ReduceTask.DoReduce` | src/mapreduce/common_reduce.go:42-77 | Succeeds if and only if every intermediate file is there; then only the reduced file changes, and it holds the group-by of all gathered pairs. |
| `MergeTask.ReadResults` | src/mapreduce/master_splitmerge.go:16-34 | Reading succeeds if and only if every reduced file is there, and then keeps the last value of each key. |
| `MergeTask.Merge` | src/mapreduce/master_splitmerge.go:14-51 | Succeeds if and only if every reduced file is there; then only the output changes, and it holds each key once, ascending, with its last value. |
| `Phases.MapPhase` | src/mapreduce/schedule.go:34-44 | However the map tasks' writes interleave and whatever partial runs came before each task's last complete run, the intermediate files hold the partitions of what that run emitted, and no other file changes. |
| `Phases.ReducePhase` | src/mapreduce/schedule.go:34-44 | The same for reduce tasks and the group-by of what they gather. |
| `Job.GathersPartition` | src/mapreduce/common_reduce.go:42-56 | Reduce task r gathers exactly partition r of all emitted pairs, in map-task and emission order. |
| `Job.MergedIsGroupBy` | src/mapreduce/master_splitmerge.go:16-48 | If the intermediate files hold the partitions of all pairs, no key is in two reduced files and merging them gives the plain group-by of all pairs. |
| `Job.JobOutput` | src/mapreduce/master.go:100-118 | What merge writes at the end of a finished job is the group-by of all pairs, each map task having its own emission or, if its input cannot be read, what an earlier job left partitioned. |
| `Job.JobDoneUnique` | src/mapreduce/master.go:100-118 | Two finished jobs whose tasks emitted the same pairs leave the same disk, file for file. |
| `Job.OutputIndependent` | src/mapreduce/common_map.go:64-70 | Two finished jobs with the same pairs have the same output, with different numbers of reduce tasks, different hashes and different disks before. |
| `Sequential.RunMaps` | src/mapreduce/master.go:62-65 | The map loop leaves the partitions of every readable input and changes no other file. |
| `Sequential.RunReduces` | src/mapreduce/master.go:66-69 | The reduce loop ends if and only if no intermediate file is missing, and then leaves the group-by of each partition; otherwise it stops at the first task that misses one. |
| `Sequential.Run` | src/mapreduce/master.go:55-75 | The job ends if and only if every intermediate file is written or was there before, and otherwise stops in the reduce phase; the whole disk is determined in both cases, and if every task has its pairs, emitted or left by an earlier job, the output is the group-by of them all. |
| `Scheduler.RunKeeps` | src/mapreduce/schedule.go:31-49 | Every state of every run of a phase satisfies the invariant on tasks, workers and calls. |
| `Scheduler.Accounting` | src/mapreduce/schedule.go:31-49 | In every reachable state the WaitGroup equals the number of tasks without a successful call, and a dispatched task has one live executor if it has no success and none if it has. |
| `Scheduler.ReturnsWhenDone` | src/mapreduce/schedule.go:45-49 | When `schedule` returns, each task has had exactly one successful call, which was its last, no call was made for anything else, and every registered worker is idle. |
| `Scheduler.WorkersConserved` | src/mapreduce/master.go:32-41 | In every reachable state the registered workers are, as a multiset, those on offer and those held by executors. |
| `Scheduler.StuckExactly` | src/mapreduce/schedule.go:39-43 | An unfinished phase is stuck if and only if every registered worker is held by an executor whose call failed. |
| `Scheduler.OneFailureSticks` | src/mapreduce/schedule.go:39-43 | With one worker, one failed call is enough to be stuck. |
| `SchedulerWorkers.StartedBy` | src/mapreduce/schedule.go:40-48 | In every run, an executor calls the worker, and works on the task, of the receive that started it, and that worker was on offer then. |
| `SchedulerWorkers.AnsweredBy` | src/mapreduce/schedule.go:34-41 | In every run, every answered call was made by one executor, for its task and to its worker. |
| `SchedulerWorkers.RetryHandsOn` | src/mapreduce/schedule.go:40-43 | After a retry the worker just received is held by the task's only live executor, and the worker whose call failed is on offer once more. |
| `SchedulerWorkers.FailsAtMostOnce` | src/mapreduce/schedule.go:36-43 | If calls fail only on workers of a set and retries avoid that set, no task fails twice, and a task that has failed is being called on a good worker. |
| `SchedulerWorkers.BadWorkersBound` | src/mapreduce/schedule.go:31-49 | Then a phase has at most ntasks failed calls and takes at most 4 * ntasks receive and answer steps. |
| `Scheduler.WorkBound` | src/mapreduce/schedule.go:31-49 | A phase with F failed calls takes at most 2 * (ntasks + F) receive and answer steps. |
| `Distributed.EndsComplete` | src/mapreduce/schedule.go:34-44 | When a phase has returned, the writes of each task end with the complete run of its one successful call. |
| `Distributed.DistributedDone` | src/mapreduce/master.go:79-118 | Whatever failed, stopped half-way or was repeated, a distributed job that returns missed no file and leaves the disk of a finished job with one emission for each map task that can read its input, even if the map function may emit differently in each run. |
| `Distributed.DistributedOutput` | src/mapreduce/master.go:79-118 | Its output is the group-by of all pairs, emitted by the successful runs or, for unreadable inputs, left by an earlier job. |
| `Distributed.DistributedIsSequential` | src/mapreduce/master.go:55-118 | With a deterministic map function and any inputs, a distributed job returns only where the sequential one ends, and leaves the very disk that the sequential one leaves. |
| `WordCount.MapF` | src/main/wc.go:17-34 | Each word of the document once, in any order, with its count. |
| `WordCount.ReduceF` | src/main/wc.go:39-51 | The decimal form of the sum of the values, or a stop if a value is not a number. |
| `WordCount.TotalOfWord` | src/main/wc.go:39-51 | Over all that a word-count job emits, no value fails to parse, the values of a word add up to its occurrences, and exactly the words that occur are emitted. |
| `WordCount.OccurrencesInAll` | src/main/wc.go:23-26 | The number of occurrences of a word is its multiplicity in all documents put together. |
| `WordCount.WordCountJob` | src/main/wc.go:17-51 | The output of every finished job lists every word of the documents once, ascending, with the decimal form of its multiplicity in all documents put together. |
| `WordCount.RunSequential` | src/main/wc.go:57-67 | The sequential program with any map function that counts words ends with the word count of its input files as output. |
| `WordCount.WordCountDistributed` | src/main/wc.go:17-51 | The same for the distributed job, although each run of a map task may range over its words in another order. |
| `InvertedIndex.MapF` | src/main/ii.go:16-32 | Each word of the document once, in any order, with the document's name. |
| `InvertedIndex.JoinConcat` | src/main/ii.go:39 | Joining two lists one after the other writes the first, the separator and the second. |
| `InvertedIndex.SplitJoin` | src/main/ii.go:39 | Splitting the joined names at the separator gives back the names in order, if none holds it. |
| `InvertedIndex.ContainingExact` | src/main/ii.go:37-40 | The list of a word has one entry for each document that contains it, and names exactly those. |
| `InvertedIndex.InvertedIndexJob` | src/main/ii.go:16-40 | The output of every finished job lists every word once, ascending, with the number of documents that contain it and a text that, split at the commas, is the list of their names in input order. |
| `InvertedIndex.RunSequential` | src/main/ii.go:46-56 | The sequential program with any map function that lists words ends with the inverted index of its input files as output. |
| `InvertedIndex.InvertedIndexDistributed` | src/main/ii.go:16-40 | The same for the distributed job. |

## Left out

- RaftSafety.StateMachineSafety: for honest runs, because the code does not have it in every run (`RaftLimits`). Honesty is enough, and is exactly that nothing stored is lost, MatchIndex is true and nobody commits out of office (`RaftHonest.HonestExactly`); that a run which is not honest could always be continued to a violation is not proved.
- RaftSafety.LeaderCompleteness: for honest runs, which include timely runs and runs with rounds, for the same reason.
- RaftSafety.CommittedNeverCut: for honest runs, which include timely runs and runs with rounds, for the same reason.
- RaftBacktrack.BacktrackingReplicates: without interleaving; with it NextIndex can leave its range (`RaftLimits.TwoRefusalsPanic`).
- Crashes in runs of the cluster: the cluster theorems are crash-free, since a peer's vote for itself is not persisted; crashes are modelled for one peer at a time in `RaftDurability`.
- Liveness, timeouts, randomness and channel wake-ups of Raft: nondeterministic steps; it is proved what cannot happen and what can always be done, not that it will be done.
- `startElection` reads its fields without the mutex: modelled as one atomic read at an arbitrary later moment.
- `InstallSnapshot` and snapshots: no caller sends one, and the handler only raises the term.
- Duplicated requests: the network of `src/labrpc/labrpc.go` does not duplicate them.
- Slices are values: sharing of backing arrays between logs and messages is not modelled.
- gob and JSON encoding, the FNV hash and the splitting of text into words: codecs are taken to be faithful, the hash and the splitting are arbitrary functions.
- The text form of the merged output: one record for each line, not its characters.
- Input files are kept apart from the disk that tasks write, so an input named like a generated file is not modelled; failing file creation is not modelled either.
- A run of a task that is still writing after its call was answered: `call` has no time limit (src/mapreduce/common_rpc.go:51-66, although its comment says so), so a call fails only if the worker cannot be reached or its process ends, and runs of one task follow each other.
- `Distributed.JobRan` asks that there be no more reduce tasks than input files, since `schedule` indexes the input files by reduce task.
- RPC servers, worker shutdown and its statistics, `CleanupFiles`, logging and command lines.
- 64-bit overflow: integers are unbounded.
- The lab skeletons without behaviour (`src/paxos`, `src/kvraft`, `src/shardkv` and the others) are not part of this model.
