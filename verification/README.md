# A verified model of RaftStorage

RaftStorage is a key-value store replicated by Raft, with its own skip list and fiber library. This project
models its core in Dafny and proves what that core keeps, in every run and for every input. Where the code does
less than it promises, the project shows the failing run and proves the exact condition under which the promise
holds.

`dafny verify dfyconfig.toml` checks everything.

## What is modelled

**The Raft node and cluster** (`src/raftCore/raft.cpp`).

- `raft_types`, `raft_node`: entries, the node as a value, and what every handler makes of it, branch by branch.
  A failing assertion ends the process (`src/common/util.cpp:8-13`): the node is `halted` and takes no more steps.
  So does an access outside `m_logs`, which C++ leaves undefined.
- `raft_server`: the object itself, with its fields, loops and counters updated in place. Each method is proved to
  do what the handler of `raft_node` says.
- `raft_compaction`, `raft_handlers`, `raft_outcomes`: a compacted log stands for a whole log, and what handlers do to
  the whole log and to the other fields, case by case.
- `raft_cluster`: any number of nodes, at least two, and the calls between them. A call may be lost, or handled
  once and answered once, at any later time, to its own caller. Every handler is one step, as it holds the node's
  mutex; sending a snapshot is two. A history beside the system records votes, elections, rounds and
  acknowledgements; it never decides what may happen.
- `raft_protocol`, `raft_invariant`, `raft_steps`, `raft_steps_reply`, `raft_runs`: what holds in every run whatever
  the calls overwrite: election safety, entry identity, legal cursors, ordered indices, commit quorum, and which
  assertions can fail.
- `raft_apply`: what a node hands to its apply channel over a whole run.
- `raft_agreement`, `raft_safety`, `raft_safety_steps`, `raft_safety_runs`: Log Matching, Leader Completeness and
  State Machine Safety.
- `raft_unguarded`: runs in which these fail.
- `raft_replicas`: Raft and the key-value server together: what two replicas apply, and the stores they hold.
- `raft_repair`: how a leader brings a follower's log in line.

The node overwrites a conflicting entry but never truncates the entries after it (`src/raftCore/raft.cpp:74-78`), and
keeps the entries after an installed snapshot without comparing terms (`src/raftCore/raft.cpp:397-401`). So Raft's
safety does not hold in all runs: `DifferentCommandsAtOneIndex` is a run of three nodes, without loss or restart,
that applies two commands at one index. A run is *guarded* if every accepted batch that conflicts with the
follower's log reaches the end of that log, and every snapshot that keeps a suffix lands on the term it covers. Both
can be checked on the node and the request before the call. In guarded runs safety holds, and Log Matching holds
throughout a run if and only if the run is guarded (`MatchingExactlyGuarded`).

**The key-value server** (`src/raftCore/kvServer.cpp`). `kv_replay` is the state machine as a value, `kv_ack` the
request handlers beside the apply loop, `kv_server` the object on top of the skip list. `Append` sets the value, as
the code does, although its name says otherwise.

The Get handler writes its client's entry of the table whatever is there (`src/raftCore/kvServer.cpp:33-34`), so it can
set the entry back. Nothing rules that out: a client whose call fails moves on to another server
(`src/raftClerk/clerk.cpp:20-25`) while the first handler still waits, and after its timeout that handler serves exactly
if its id is no greater than the entry, which a smaller one is too. So the duplicate table and the acknowledgements
hold under named conditions, each with a lemma that says what it is exactly needed for (`HarmlessExactlyInOrder`,
`ExactlyLegal`, `SoundExactly` with `SoundStepExactly`); `OkBehindTable` and `LateCopyRepeats` show what happens without
them:

- *served in order*: no Get is served under a smaller id than a Put or Append of its client delivered before;
- *legal*: no Get is served with a smaller id than the table holds for its client;
- *orderly*: no Get is served under a smaller id than a Put or Append of its client that may still make a handler answer
  OK, and no snapshot is restored whose table does not know such a command.

**The skip list** (`src/skipList/include/skipList.h`). `skip_list_order` says which node follows which on a level;
`skip_list` has the nodes on the heap with their forward arrays. The draws of `rand()` are parameters.

**The timers** (`src/fiber/timer.cpp`) in `timer`. The times read from the clock are parameters. A whole history is
compared with a list of plans that knows no ordered set and no objects.

**The event contexts** (`src/fiber/iomanager.cpp`). `io_table` and `io_books` have them as values, with the scheduler's
list of tasks, `io_history` all their histories, and `io_events` the manager with its table, what epoll holds, and
its counters updated in place.
The answers of `epoll_ctl` and the events of `epoll_wait` are parameters; CondPanic ends the process. A thread uses a
context some time after it looked it up, and `addEvent` lets its read lock go before it takes the write lock, so a
table that has grown in between is cut (`src/fiber/iomanager.cpp:74-82`). The contexts cut off live on: epoll still
points to them, so nothing is lost and nothing is miscounted (`HistoryGood`). What is lost is the way to them by
descriptor: `ReachedExactly` says for which events, and `LateGrow` that it can happen.

## Model

| member | source | states |
|---|---|---|
| `RaftRuns.ElectionSafety` | src/raftCore/raft.cpp:566-601 | Over a whole run, at whatever two moments, two nodes that are Leader in the same term are the same node. |
| `RaftRuns.EntryIdentity` | src/raftCore/raft.cpp:59-73 | Any two entries seen anywhere and any time in a run, in a log or in a batch or answered batch under way, with one index and one term are equal, so the command-mismatch assertion cannot fail although tails are never truncated. |
| `RaftRuns.OnlyStrandedHalts` | src/raftCore/raft.cpp:43-50 | In any run a live node ends its process in a step if and only if the step delivers it an AppendEntries of its term or later whose prevLogIndex lies before its snapshot; every other assertion of the Raft node holds. |
| `RaftUnguarded.DelayedHeartbeatEndsProcess` | src/raftCore/raft.cpp:43-50 | That one assertion does fail: a three-node run in which a heartbeat is delayed until its receiver took a snapshot, and then ends the receiver. |
| `RaftRuns.NodeOrdered` | src/raftCore/raft.cpp:52-95 | In every reachable state snapshot <= lastApplied <= commitIndex <= last index, and m_logs[i] carries the logical index snapshot + 1 + i. |
| `RaftRuns.NeverBack` | src/raftCore/raft.cpp:395-407 | Along a run the term and the snapshot, applied, commit and last indices of a node never decrease. |
| `RaftRuns.CursorsLegal` | src/raftCore/raft.cpp:742-745 | While a node is Leader every nextIndex lies in [1, last + 1], whatever late or reordered replies it handled. |
| `RaftRuns.FollowerCommit` | src/raftCore/raft.cpp:82-90 | A follower's commit index only rises to the leaderCommit of the batch it accepted, which is no more than prevLogIndex plus the batch size. |
| `RaftRuns.CommitNeedsQuorum` | src/raftCore/raft.cpp:808-841 | Whenever a leader raises its commit index to L, a majority including itself held an entry of the leader's term at L, or had compacted it, at an answer they gave in that round. |
| `RaftApply.ApplyStream` | src/raftCore/raft.cpp:317-342 | In every run what a node handed to its apply channel are commands from index 1 on without gap, except where an installed snapshot jumped ahead, and it reaches exactly lastApplied. |
| `RaftApply.CommandsIncrease` | src/raftCore/raft.cpp:324-340 | In such a stream command indices strictly increase, and neighbouring commands differ by one. |
| `RaftApply.CommandsFromLog` | src/raftCore/raft.cpp:333-339 | Every command handed over was, when it was, the committed entry of that node's log at its index. |
| `RaftSafetyRuns.LogMatchingInRuns` | src/raftCore/raft.cpp:50-90 | In every world of a guarded run, two nodes that have one term at one index (also a snapshot index) agree on every entry up to it that both still hold. |
| `RaftSafetyRuns.LeaderCompleteness` | src/raftCore/raft.cpp:611-617 | In a guarded run, what any node has committed is in the log of every node that then leads its term or a later one. |
| `RaftSafetyRuns.StateMachineSafety` | src/raftCore/raft.cpp:317-342 | Over a whole guarded run, no two nodes ever hand over different commands at one index, whenever they do so. |
| `RaftSafetyRuns.MatchingExactlyGuarded` | src/raftCore/raft.cpp:74-78 | Exact condition: Log Matching of the logs of all nodes, and of those that they showed when they asked for votes, against the logs of all leaders there have been, holds in every world of a run if and only if every step of the run is guarded (a conflicting batch reaches the end of the follower's log; a snapshot that keeps a suffix lands on the same term). |
| `RaftSafetyRuns.UnguardedAppendMeets` | src/raftCore/raft.cpp:74-78 | Among the logs of the nodes alone: after an unguarded AppendEntries in a safe world the receiver's log and that of another node still agree, wherever they have one term at one index, if and only if the other does not hold the first entry left standing behind the batch. |
| `RaftSafetyRuns.UnguardedSnapMeets` | src/raftCore/raft.cpp:397-401 | The same after an unguarded InstallSnapshot, with the first entry kept behind the snapshot. |
| `RaftReplicas.StreamIsNumbered` | src/raftCore/raft.cpp:317-342 | In every run a node that installed no snapshot has handed over exactly the commands 1 to lastApplied, in order. |
| `RaftReplicas.StreamsArePrefixes` | src/raftCore/raft.cpp:317-342 | In a guarded run, of what any two nodes without an installed snapshot have handed over, at whatever times, one is a prefix of the other. |
| `RaftReplicas.ReplicasAgree` | src/raftCore/kvServer.cpp:127-148 | In a guarded run, the store and the client table that the apply loop makes of the commands agree on any two nodes without an installed snapshot at equal lastApplied, at whatever times; the node behind holds what the other held when it was there. |
| `RaftReplicas.ReplicasAgreeDespiteGets` | src/raftCore/kvServer.cpp:25-41 | The same for the stores when each replica also serves Gets of its own, if on each no Get is served with a smaller id than the table holds and none shadows a later command. |
| `RaftSafetyRuns.UnguardedBreaks` | src/raftCore/raft.cpp:397-401 | From a safe world, an unguarded AppendEntries or InstallSnapshot breaks Log Matching in that very step. |
| `RaftSafetyRuns.AppendFollowsRaft` | src/raftCore/raft.cpp:52-80 | A node that accepts a batch ends with the log of the paper's truncating rule if and only if the step is guarded. |
| `RaftSafetyRuns.InstallFollowsRaft` | src/raftCore/raft.cpp:395-404 | A node that installs a snapshot keeps the entries that section 7 of the Raft paper keeps if and only if the step is guarded. |
| `RaftSafety.OverwritingIsTruncating` | src/raftCore/raft.cpp:74-78 | Overwriting in place equals truncating at the first conflict if and only if a conflicting batch reaches the end of the log. |
| `RaftSafety.KeepingIsDiscarding` | src/raftCore/raft.cpp:397-404 | Keeping the longer suffix unseen equals the paper's rule if and only if the terms at the snapshot index are equal. |
| `RaftUnguarded.DifferentCommandsAtOneIndex` | src/raftCore/raft.cpp:74-78 | Counterexample: a run of three nodes, without loss or restart, in which two nodes hand over different commands at index 1. |
| `RaftRepair.RepairEnds` | src/raftCore/raft.cpp:100-113 | A leader and a follower that is not ahead in term or snapshot exchange heartbeats without loss: within nextIndex + 1 heartbeats one succeeds; until then every refusal strictly lowers nextIndex and at most one snapshot is sent, just before the success; then the follower equals the leader on all indices after prevLogIndex. |
| `RaftRepair.RefusalRewinds` | src/raftCore/raft.cpp:798-806 | A refused heartbeat lowers nextIndex strictly, not below 1, and changes neither log. |
| `RaftRepair.SnapshotAnchors` | src/raftCore/raft.cpp:479-511 | A snapshot call leaves the follower on the leader's snapshot index, with nextIndex right after it. |
| `RaftRepair.AnchoredSucceeds` | src/raftCore/raft.cpp:210-217 | From a common snapshot the heartbeat right after it is always accepted. |
| `RaftRepair.SuccessEquals` | src/raftCore/raft.cpp:808-822 | A heartbeat that succeeds leaves the follower equal to the leader after prevLogIndex. |
| `RaftRepair.PairedInRuns` | src/raftCore/raft.cpp:207-250 | Any live leader and any node not ahead of it in term or snapshot in any reachable state meet what log repair asks for, if equal snapshot indices of the two have equal terms. |
| `RaftRepair.RepairExactly` | src/raftCore/raft.cpp:100-113 | Exact condition: the exchange comes to a success if and only if the snapshots differ in index, or agree in term, or the cursor on its way back, as the follower's answers move it, comes to an index beyond them with one term in both logs; otherwise refusals and snapshots follow each other for ever. |
| `RaftRepair.AnchoredExactly` | src/raftCore/raft.cpp:387-390 | With the cursor not beyond the index right after a common snapshot index, the exchange ends if and only if the snapshot terms agree. |
| `RaftRepair.RepairInGuardedRuns` | src/raftCore/raft.cpp:207-250 | In a guarded run every exchange of a live leader with a node not ahead of it in term or snapshot comes to a success. |
| `RaftRuns.StepKeeps` | src/raftCore/raft.cpp:8-117 | Every step of the cluster keeps the whole invariant (votes, counters, rounds, calls under way, logs) and only adds to what happened. |
| `RaftRuns.RunOk` | src/raftCore/raft.cpp:907-954 | The invariant holds in every world of every run from the initial state of two or more nodes. |
| `RaftRuns.RunGrows` | src/raftCore/raft.cpp:553-609 | Over a run votes, elections and acknowledgements are never forgotten. |
| `RaftSteps.TimeoutKeeps` | src/raftCore/raft.cpp:148-189 | An election timeout keeps the invariant: one vote for itself, requests with its own last index and term, and a new counter at 1. |
| `RaftSteps.HeartBeatKeeps` | src/raftCore/raft.cpp:191-263 | A heartbeat of a leader keeps the invariant and no assertion in it fails; every batch of the round ends at the same last index. |
| `RaftSteps.BeatBatchOk` | src/raftCore/raft.cpp:222-250 | The batch for a peer is the segment of the log the leader leads, from nextIndex to its end, with the term before it. |
| `RaftSteps.VoteOutcome` | src/raftCore/raft.cpp:553-617 | A vote is granted if and only if the request is of no older term, the node's vote of that term is free or the candidate's, and the candidate's log is at least as up to date as the voter's whole log; the vote state says which case it was. |
| `RaftSteps.DeliverVoteKeeps` | src/raftCore/raft.cpp:553-609 | Handling RequestVote keeps the invariant and ends no process. |
| `RaftSteps.CountElectsOnce` | src/raftCore/raft.cpp:724-733 | When a counter completes a majority nobody was elected in that term before; reset to 0 it can never reach the majority again. |
| `RaftSteps.ReturnVoteKeeps` | src/raftCore/raft.cpp:690-752 | Handling a vote reply keeps the invariant; the assertion against leading twice in one term never fails. |
| `RaftSteps.AppendAnswers` | src/raftCore/raft.cpp:8-117 | AppendEntries succeeds exactly if the batch matches the follower's whole log at prevLogIndex, and then the follower holds the round's last term at its last index; a refusal names an index between 1 and prevLogIndex or comes from a later term. |
| `RaftSteps.DeliverAppendKeeps` | src/raftCore/raft.cpp:8-117 | Handling AppendEntries keeps the invariant; the process ends if and only if the batch starts before the snapshot. |
| `RaftReplySteps.AckedRound` | src/raftCore/raft.cpp:809-826 | A round's counter completes a majority at most once, and when it does a majority was counted. |
| `RaftReplySteps.CommitQuorum` | src/raftCore/raft.cpp:823-847 | A commit by the leader moves forward, to the last index of a round of its own term held by a majority. |
| `RaftReplySteps.ReturnAppendKeeps` | src/raftCore/raft.cpp:754-850 | Handling a reply to AppendEntries keeps the invariant; the assertions on nextIndex and commitIndex hold. |
| `RaftReplySteps.SendSnapKeeps` | src/raftCore/raft.cpp:479-490 | Building an InstallSnapshot request at any later time keeps the invariant. |
| `RaftReplySteps.DeliverSnapKeeps` | src/raftCore/raft.cpp:371-421 | Handling InstallSnapshot keeps the invariant and ends no process. |
| `RaftReplySteps.ReturnSnapKeeps` | src/raftCore/raft.cpp:491-511 | Handling the reply to InstallSnapshot keeps the invariant. |
| `RaftSteps.StartKeeps` | src/raftCore/raft.cpp:878-905 | A client command keeps the invariant: the leader's new entry is the next of its term's log. |
| `RaftSteps.ApplyKeeps` | src/raftCore/raft.cpp:317-342 | getApplyLogs keeps the invariant; its assertions hold. |
| `RaftSteps.CompactKeeps` | src/raftCore/raft.cpp:994-1030 | Snapshot keeps the invariant; its assertion holds. |
| `RaftCompaction.CompactionRefines` | src/raftCore/raft.cpp:611-688 | A node with snapshot index, snapshot term and m_logs answers last index and term, term at an index, up-to-dateness, the vote request and the call to a peer as the node with the whole uncompacted log does, from the snapshot index on. |
| `RaftCompaction.SnapshotKeeps` | src/raftCore/raft.cpp:994-1029 | Snapshot leaves the whole log represented and changes nothing but the snapshot and lastApplied. |
| `RaftCompaction.Reads` | src/raftCore/raft.cpp:619-688 | Reads of a compacted log succeed exactly at the indices from the snapshot to the last, and give what the whole log has there. |
| `RaftCompaction.WriteEntriesOverlays` | src/raftCore/raft.cpp:52-80 | The entry loop of AppendEntries lays the batch over the whole log after prevLogIndex and leaves the tail. |
| `RaftCompaction.BacktrackBounds` | src/raftCore/raft.cpp:102-111 | Backtracking finds the index right after the last one, from the snapshot on, with another term than prevLogIndex, or prevLogIndex itself if there is none. |
| `RaftOutcomes.VoteExactly` | src/raftCore/raft.cpp:553-617 | RequestVote on a node with a given whole log: exactly when the vote is granted, by term, vote and log; the reply; and the node afterwards. |
| `RaftOutcomes.VoteReplyExactly` | src/raftCore/raft.cpp:703-751 | A vote reply is counted exactly if granted in the node's term; the one that completes more than half of the peers makes a candidate lead, with every cursor right after its whole log and nothing known to match. |
| `RaftOutcomes.ElectionExactly` | src/raftCore/raft.cpp:148-189 | Whoever does not lead becomes candidate of the next term with its own vote, and shows the last index and term of its whole log. |
| `RaftOutcomes.EntryExactly` | src/raftCore/raft.cpp:52-80 | One entry of a batch is appended, ends the process, or replaces the entry of the whole log at its index, each in exactly its case. |
| `RaftOutcomes.AppendExactly` | src/raftCore/raft.cpp:8-117 | The node after a batch of a leader's log, field by field, in terms of its whole log: when it takes the batch, and when the process ends. |
| `RaftOutcomes.AcceptExactly` | src/raftCore/raft.cpp:50-99 | A batch that fits is accepted whatever commit index it carries: the node commits with the leader up to the end of its own log. |
| `RaftOutcomes.CallExactly` | src/raftCore/raft.cpp:207-250 | The call for a peer exactly: a snapshot, the tail of the whole log with the term before it, or a failing assertion. |
| `RaftOutcomes.AppendReplyExactly` | src/raftCore/raft.cpp:773-849 | A reply to a batch exactly: which leader takes it, how match and cursor move, never back by a success, which success completes a majority, and when it commits. |
| `RaftOutcomes.InstallExactly` | src/raftCore/raft.cpp:371-421 | InstallSnapshot exactly: which snapshots are taken over, what is kept behind, and the reply in each case. |
| `RaftOutcomes.RequestExactly` | src/raftCore/raft.cpp:480-486 | A snapshot request carries the term of the whole log at the snapshot index. |
| `RaftOutcomes.SnapshotReplyExactly` | src/raftCore/raft.cpp:491-510 | The reply to a snapshot exactly: a leader still in the request's term takes the peer to match the snapshot and to continue after it. |
| `RaftOutcomes.CompactExactly` | src/raftCore/raft.cpp:994-1029 | Snapshot takes exactly what is committed and not yet covered, with the term of the whole log there, and keeps the rest. |
| `RaftOutcomes.StartExactly` | src/raftCore/raft.cpp:878-905 | Only a leader appends, after the end of its whole log and in its term. |
| `RaftOutcomes.ApplyExactly` | src/raftCore/raft.cpp:317-342 | The assertions of getApplyLogs hold exactly if what is to be applied is in the log and not covered by the snapshot; then everything committed is applied. |
| `RaftHandlers.AppendOutcome` | src/raftCore/raft.cpp:8-117 | The full outcome of AppendEntries in terms of the follower's whole log: when it halts, succeeds or refuses, with which term and exactly which next index. |
| `RaftHandlers.CommitWithinBatch` | src/raftCore/raft.cpp:82-95 | A successful AppendEntries never commits beyond the batch, although the code bounds the commit by its own last index. |
| `RaftHandlers.CallOutcome` | src/raftCore/raft.cpp:207-250 | With a legal cursor the assertions of doHeartBeat and getPrevLogInfo hold, and the call is the tail of the whole log. |
| `RaftHandlers.SnapshotOutcome` | src/raftCore/raft.cpp:371-421 | The full outcome of InstallSnapshot in terms of the whole log. |
| `RaftAgreement.ElectedComplete` | src/raftCore/raft.cpp:725-735 | A candidate with a majority holds whatever may still be chosen in an earlier term. |
| `RaftAgreement.UpToDateHolds` | src/raftCore/raft.cpp:611-617 | A log as up to date as one that holds a choosable prefix holds that prefix. |
| `RaftAgreement.GrantAgreed` | src/raftCore/raft.cpp:592-608 | Granting a vote to an up-to-date candidate keeps agreement. |
| `RaftAgreement.ElectAgreed` | src/raftCore/raft.cpp:725-745 | Electing a candidate keeps agreement. |
| `RaftAgreement.ExtendAgreed` | src/raftCore/raft.cpp:890-894 | A leader's new entry keeps agreement. |
| `RaftAgreement.WriteAgreed` | src/raftCore/raft.cpp:50-80 | A guarded write of a leader's batch keeps agreement. |
| `RaftAgreement.CoverAgreed` | src/raftCore/raft.cpp:395-408 | A guarded installation of a committed snapshot keeps agreement. |
| `RaftAgreement.CommittedLine` | src/raftCore/raft.cpp:833-841 | Committed prefixes never fork: one is a prefix of the other. |
| `RaftProtocol.OneWinner` | src/raftCore/raft.cpp:592-601 | Two candidates cannot both collect a majority in one term. |
| `RaftSafetySteps.DeliverAppendSafe` | src/raftCore/raft.cpp:8-117 | A guarded AppendEntries keeps logs matched and committed prefixes agreed. |
| `RaftSafetySteps.DeliverSnapSafe` | src/raftCore/raft.cpp:371-421 | A guarded InstallSnapshot keeps logs matched and committed prefixes agreed. |
| `RaftSafetySteps.DeliverVoteSafe` | src/raftCore/raft.cpp:553-609 | RequestVote keeps the cluster safe. |
| `RaftSafetySteps.CountedCommit` | src/raftCore/raft.cpp:823-842 | What a leader commits at the end of a counted round is chosen by a majority. |
| `RaftSafetySteps.ReturnAppendSafe` | src/raftCore/raft.cpp:754-850 | A reply to AppendEntries keeps the cluster safe. |
| `RaftSafetySteps.TalliedSafe` | src/raftCore/raft.cpp:724-750 | Counting a vote, and being elected by it, keeps the cluster safe. |
| `RaftSafetyRuns.StepSafe` | src/raftCore/raft.cpp:8-117 | Every guarded step keeps the cluster safe. |
| `RaftSafetyRuns.RunSafe` | src/raftCore/raft.cpp:8-117 | Every world of a guarded run is safe. |
| `RaftServer.Server.constructor` | src/raftCore/raft.cpp:907-930 | The object starts as the initial node. |
| `RaftServer.Server.AppendEntries1` | src/raftCore/raft.cpp:8-117 | The method, with its loops over entries and back over indices, changes the object and answers as the handler of the model says. |
| `RaftServer.Server.AcceptBatch` | src/raftCore/raft.cpp:50-99 | The entry loop, the commit rule and their assertions, in place. |
| `RaftServer.Server.FindMismatch` | src/raftCore/raft.cpp:102-111 | The backtracking loop finds the index after the last one with another term. |
| `RaftServer.Server.MatchLog` | src/raftCore/raft.cpp:537-545 | matchLog compares the terms, or ends the process outside the log. |
| `RaftServer.Server.GetLogTermFromLogIndex` | src/raftCore/raft.cpp:654-672 | The term at an index, or the end of the process outside the log. |
| `RaftServer.Server.EntryAt` | src/raftCore/raft.cpp:676-688 | getSlicesIndexFromLogIndex and the access it is made for. |
| `RaftServer.Server.GetLastLogIndex` | src/raftCore/raft.cpp:635-640 | The last logical index, of the log or the snapshot. |
| `RaftServer.Server.GetLastLogTerm` | src/raftCore/raft.cpp:642-647 | The last term, of the log or the snapshot. |
| `RaftServer.Server.UpToDate` | src/raftCore/raft.cpp:611-617 | The comparison of RequestVote: by last term, then by last index, against whatever whole log the object stands for. |
| `RaftServer.Server.DoElection` | src/raftCore/raft.cpp:148-189 | doElection makes the object a candidate of the next term and asks every other peer once. |
| `RaftServer.Server.RequestVote` | src/raftCore/raft.cpp:553-609 | RequestVote changes the object and answers as the model says, and grants the vote exactly if term, vote and log allow it. |
| `RaftServer.Server.VoteReturned` | src/raftCore/raft.cpp:703-751 | A vote reply counts, elects or steps down as the model says, with the cursor loop. |
| `RaftServer.Server.GetPrevLogInfo` | src/raftCore/raft.cpp:350-361 | The index and term before nextIndex. |
| `RaftServer.Server.CallPeer` | src/raftCore/raft.cpp:207-259 | The call to one peer, or the end of the process exactly where an assertion fails. |
| `RaftServer.Server.DoHeartBeat` | src/raftCore/raft.cpp:191-263 | A heartbeat calls the other peers in order with the calls of the model, and ends the process exactly if one of them fails an assertion. |
| `RaftServer.Server.AppendReturned` | src/raftCore/raft.cpp:773-849 | A reply to AppendEntries moves cursors, counter and commit index as the model says. |
| `RaftServer.Server.InstallSnapshot` | src/raftCore/raft.cpp:371-421 | InstallSnapshot changes the object, answers and hands over the snapshot as the model says. |
| `RaftServer.Server.SnapshotArgs` | src/raftCore/raft.cpp:480-486 | The request of leaderSendSnapShot. |
| `RaftServer.Server.SnapshotReturned` | src/raftCore/raft.cpp:491-510 | The part of leaderSendSnapShot after the reply: match and cursor of the peer come to the snapshot, and nothing else changes. |
| `RaftServer.Server.Snapshot` | src/raftCore/raft.cpp:994-1030 | Snapshot copies the entries after the index and moves the indices as the model says; its closing assertion on the size of the log never fails. |
| `RaftServer.Server.Start` | src/raftCore/raft.cpp:878-905 | Start appends at the next index and returns index, term and leadership, or -1, -1 and false. |
| `RaftServer.Server.GetApplyLogs` | src/raftCore/raft.cpp:317-342 | The loop hands over exactly the pending commands, and ends the process exactly where its assertions fail. |
| `RaftServer.CallsToAll` | src/raftCore/raft.cpp:200-259 | A heartbeat calls each other peer exactly once, in order, with the call made for it. |
| `RaftServer.SentIsUnderWay` | src/raftCore/raft.cpp:168-187 | What doElection and doHeartBeat send is what the cluster model puts under way. |
| `SkipList.RunAll` | src/skipList/include/skipList.h:139-344 | For every sequence of insert, set, delete and search and every choice of random levels, all results and the final size are those of a finite map. |
| `SkipList.List.InsertElement` | src/skipList/include/skipList.h:139-186 | Inserting adds the key unless it is there, and returns 0 or 1 accordingly; the list stays well linked on all levels. |
| `SkipList.List.DeleteElement` | src/skipList/include/skipList.h:258-293 | Deleting removes exactly the key. |
| `SkipList.List.SearchElement` | src/skipList/include/skipList.h:323-344 | Searching finds the key exactly if the map has it, with its value. |
| `SkipList.List.InsertSetElement` | src/skipList/include/skipList.h:295-302 | Setting makes the key map to the value. |
| `SkipList.List.Advance` | src/skipList/include/skipList.h:147-151 | The inner loop stops on the last node of its level before the key, with every forward access in bounds. |
| `SkipList.List.Descend` | src/skipList/include/skipList.h:142-153 | The search loop leaves in update[i] the last node of level i before the key, for all levels in use. |
| `SkipList.List.Splice` | src/skipList/include/skipList.h:174-179 | The insertion loop links the new node into every level it reaches and leaves the others alone. |
| `SkipList.List.Raise` | src/skipList/include/skipList.h:165-172 | Levels used for the first time start at the header. |
| `SkipList.List.Unlink` | src/skipList/include/skipList.h:273-281 | The deletion loop unlinks the node from exactly the levels that it reaches. |
| `SkipList.List.Lower` | src/skipList/include/skipList.h:283-285 | Afterwards the highest level in use has a node, or is level 0. |
| `SkipList.List.GetRandomLevel` | src/skipList/include/skipList.h:382-389 | The level drawn is one more than the number of odd draws, at most the maximum. |
| `SkipList.List.DumpFile` | src/skipList/include/skipList.h:202-210 | The dump lists all keys in strictly increasing order, each with its value. |
| `SkipList.List.LoadFile` | src/skipList/include/skipList.h:218-230 | Loading inserts every key that is not there as its own value. |
| `SkipList.List.Size` | src/skipList/include/skipList.h:232-234 | _element_count is the number of keys. |
| `SkipList.DumpLoadKeys` | src/skipList/include/skipList.h:226-229 | Dump and load bring back the key set; they bring back the values if and only if every value equals its key. |
| `SkipList.LevelsNest` | src/skipList/include/skipList.h:119-138 | Following forward[i] from the header visits, in strictly increasing order, the nodes that reach level i; each level is a sublist of the level below; above the highest level in use there is nothing. |
| `SkipListOrder.InsertLink` | src/skipList/include/skipList.h:176-179 | Which link a new node changes on a level: only that of the node before it, and only on levels that it reaches. |
| `SkipListOrder.RemoveLink` | src/skipList/include/skipList.h:275-281 | Which link a removed node changes on a level. |
| `SkipListOrder.RankSplits` | src/skipList/include/skipList.h:155-163 | All nodes before the place where a search ends are before the key, and the key can only be at that place. |
| `SkipListOrder.LessExactly` | src/skipList/include/skipList.h:155-163 | The order of keys: the first character in which they differ decides, and if there is none the shorter comes first. |
| `KvReplay.DeliverExactly` | src/raftCore/kvServer.cpp:136-148 | A Put or Append of a client that has not got as far in the table sets its key and the client's entry; any other command changes nothing. |
| `KvReplay.CopiesAreHarmless` | src/raftCore/kvServer.cpp:127-163 | Exactly-once replay: if no Get is served under a smaller id than a Put or Append of its client delivered before it (ServedInOrder), any number of later copies of earlier commands leaves store and duplicate table unchanged. |
| `KvReplay.HarmlessExactlyInOrder` | src/raftCore/kvServer.cpp:25-41 | Exact condition: at every point of a history all copies of earlier commands are harmless if and only if Gets are served in that order. |
| `KvReplay.LateCopyRepeats` | src/raftCore/kvServer.cpp:33-34 | Wherever a Get is served out of that order, a copy right after it takes effect again: it writes its value over whatever was written since. |
| `KvReplay.StoreIsEffective` | src/raftCore/kvServer.cpp:140-148 | If no Get is served with a smaller id than the table holds (Legal), the store is what, in order, just the Put and Append commands write whose id exceeds all that came from their client before. |
| `KvReplay.ExactlyLegal` | src/raftCore/kvServer.cpp:25-41 | Exact condition: the table is the maximum at every point of a history, and the store after any next Put or Append is the effective one at every point, each if and only if no Get is served with a smaller id than the table holds. |
| `KvReplay.EffectiveOnce` | src/raftCore/kvServer.cpp:157-163 | No command takes effect twice: the effective ids of a client strictly increase. |
| `KvReplay.TableIsMaximum` | src/raftCore/kvServer.cpp:157-163 | If no Get is served with a smaller id than the table holds (Legal), a request counts as duplicate exactly if it does not exceed every earlier id of its client. |
| `KvReplay.ServeKeepsExactly` | src/raftCore/kvServer.cpp:33-34 | The Get handler's write keeps every handled request known if and only if its id is not smaller than the entry it replaces. |
| `KvReplay.GetsShadowExactly` | src/raftCore/kvServer.cpp:25-41 | The Gets that one replica serves leave the effective commands as they are if and only if no new Put or Append comes after a Get under its id or a greater one; otherwise they take some away. |
| `KvReplay.StoresAgree` | src/raftCore/kvServer.cpp:127-148 | Replicas that serve different such Gets between the same commands hold the same store. |
| `KvAck.LookUpExactly` | src/raftCore/kvServer.cpp:83-87 | A late Get goes on to be served exactly if the table holds an entry of its client of at least its id and the node leads; the look-up changes nothing. |
| `KvAck.LateGetWasKnown` | src/raftCore/kvServer.cpp:83-91 | In every run a Get that is about to be served after its timeout was known to the table, and to a leader, when it looked. |
| `KvAck.ServedExactly` | src/raftCore/kvServer.cpp:88-119 | A Get is served exactly if its look-up succeeded or the message has its client and id; then the client's entry is its id. |
| `KvAck.PutExactly` | src/raftCore/kvServer.cpp:203-229 | A Put or Append is answered OK exactly if the message has its client and id or, after the timeout, the table knows the request; nothing else changes. |
| `KvAck.LoopExactly` | src/raftCore/kvServer.cpp:136-154 | The loop takes a command to store and table as delivered, from taking it to its message. |
| `KvAck.CoveredExactly` | src/raftCore/kvServer.cpp:136-138 | A command that a snapshot covers is passed over. |
| `KvAck.OkIsNoted` | src/raftCore/kvServer.cpp:193-228 | In every interleaving of handlers and apply loop whose steps are orderly (no Get is served under a smaller id than a Put or Append of its client that may still make one answer OK, no restored snapshot forgets one), a Put or Append answered OK, through the channel or after the timeout, has an entry in the table of at least its id, unless the command that came through the channel under that id writes nothing. |
| `KvAck.OkIsNotedForClerks` | src/raftCore/kvServer.cpp:203-228 | In every orderly run, for clients that never use an id for both a Get and a Put or Append, OK always means noted. |
| `KvAck.OkWithoutWrite` | src/raftCore/kvServer.cpp:222-225 | The exception is real: for every Put or Append and every command that writes nothing under the same client and request id there is a run that answers the Put OK though nothing was written. |
| `KvAck.OkBehindTable` | src/raftCore/kvServer.cpp:33-34 | The order is needed: for every Put or Append and every Get of the same client with a smaller id there is a run, otherwise without fault, that answers the Put OK while the table holds the smaller id. |
| `KvAck.LateOkIsNoted` | src/raftCore/kvServer.cpp:203-213 | The timeout path needs no order: it answers OK exactly if the table knows the request. |
| `KvAck.SoundExactly` | src/raftCore/kvServer.cpp:193-228 | Exact condition of the answers themselves: every OK that a Put or Append gets by a writing command, whatever orderly steps of handlers and loop follow, is noted if and only if every command that can still come to such a handler is noted now. |
| `KvAck.SoundStepExactly` | src/raftCore/kvServer.cpp:25-41 | From a server with all OKs to come noted, a step leads to such a server if and only if it is orderly. |
| `KvAck.KeepsExactlyOrderly` | src/raftCore/kvServer.cpp:25-41 | Exact condition of one step: with all commands that may still make a Put or Append answer OK noted in the table, a step of a handler or of the loop, or a restored snapshot, leaves them noted if and only if it is orderly. |
| `KvAck.NotedExactlyOrderly` | src/raftCore/kvServer.cpp:127-155 | Over a whole run those commands are noted at every moment if and only if every step is orderly. |
| `KvAck.ForwardIsOrderly` | src/raftCore/kvServer.cpp:33-34 | A Get served with no smaller id than its client has in the table is orderly, and so is restoring a table in which no client is behind. |
| `KvServerObject.KvServer.constructor` | src/raftCore/kvServer.cpp:324-326 | The server starts with an empty store of at most level 6 and an empty table. |
| `KvServerObject.KvServer.GetCommandFromRaft` | src/raftCore/kvServer.cpp:127-155 | A command covered by a snapshot is skipped; a Put or Append that is new sets key and client entry, any other changes neither; Raft is given a snapshot of the result exactly if a limit is set and its state is larger than a tenth of it; and the waiter is told. |
| `KvServerObject.KvServer.MakeSnapShot` | src/raftCore/kvServer.cpp:302-306 | A snapshot lists every key and value of the store, and the table. |
| `KvServerObject.KvServer.GetSnapShotFromRaft` | src/raftCore/kvServer.cpp:292-300 | Reading a snapshot replaces the table, brings in the keys that are not there yet, and sets the snapshot index. |
| `KvServerObject.ShownExactly` | src/raftCore/include/kvServer.h:100-107 | A snapshot has every key of the store with its value, no other key, and the table. |
| `KvServerObject.SnapshotRestores` | src/raftCore/include/kvServer.h:100-115 | A server that reads the snapshot of another takes over its table, and its store if and only if it holds no other key and every key has the same value at both or, where it is new, is its own value. |
| `KvServerObject.KvServer.IfRequestDuplicate` | src/raftCore/kvServer.cpp:157-163 | A request is a duplicate if its client's entry is at least its id. |
| `KvServerObject.KvServer.ExecutePutOpOnKVDB` | src/raftCore/kvServer.cpp:43-51 | Put sets the value in the skip list and notes the request. |
| `KvServerObject.KvServer.ExecuteAppendOpOnKVDB` | src/raftCore/kvServer.cpp:13-23 | Append sets the value, as Put does, and notes the request. |
| `KvServerObject.KvServer.ExecuteGetOpOnKVDB` | src/raftCore/kvServer.cpp:25-41 | Get reads the skip list and notes the request. |
| `KvServerObject.KvServer.SendMessageToWaitChan` | src/raftCore/kvServer.cpp:264-282 | The command is pushed exactly if a channel waits at its index. |
| `KvServerObject.KvServer.FindChannel` | src/raftCore/kvServer.cpp:193-199 | A handler finds the channel of its index or makes one. |
| `KvServerObject.KvServer.AnswerPutAppend` | src/raftCore/kvServer.cpp:203-229 | The reply of PutAppend after its wait. |
| `KvServerObject.KvServer.LookUp` | src/raftCore/kvServer.cpp:83-87 | After its timeout Get serves exactly if the table knows the request and Raft still leads. |
| `KvServerObject.KvServer.AnswerGet` | src/raftCore/kvServer.cpp:88-119 | The reply of Get once it has a message or has looked the request up, and when it writes the table. |
| `KvServerObject.KvServer.DropChannel` | src/raftCore/kvServer.cpp:231-236 | The handler's last step removes the channel. |
| `TimerManagement.Drive` | src/fiber/timer.cpp:30-173 | Under a clock that never goes back, through any adds, cancels, refreshes, resets, expiries and polls, the manager holds exactly the timers, deadlines, periods, callbacks, flag and wake-ups of a plain list of plans, and every poll finds what that list says: the earliest deadline, the wake-ups since the last poll, and how long to sleep. |
| `TimerManagement.WakeUpNotMissed` | src/fiber/timer.cpp:84-173 | Wake-up not missed, of every such history: every poll leaves one finding, each starts at the deadline where the last ended, at most one wake-up lies between two, and if none does, no deadline has become earlier. |
| `TimerManagement.AfterMinded` | src/fiber/timer.cpp:163-173 | At every moment, not only at polls: the wake-ups since the last poll are one or none, as the flag says, and without one no deadline is earlier than the poller knows. |
| `TimerManagement.EarliestIsLeastOf` | src/fiber/timer.cpp:106-119 | The first timer of the ordered set has the least deadline of all that is queued. |
| `TimerManagement.PerformExpire` | src/fiber/timer.cpp:121-161 | In any such history listExpiredCb returns the callbacks of exactly the plans that are due, by deadline and then by address. |
| `TimerManagement.DueIsUnique` | src/fiber/timer.cpp:5-23 | There is only one such order. |
| `TimerManagement.TimerManager.AddTimer` | src/fiber/timer.cpp:84-90 | The new timer is in the set with deadline now + ms; the wake-up protocol and the registration invariant are kept. |
| `TimerManagement.TimerManager.AddLocked` | src/fiber/timer.cpp:163-173 | A wake-up is issued exactly if the timer comes to the front and none was issued since the last poll. |
| `TimerManagement.TimerManager.Cancel` | src/fiber/timer.cpp:30-39 | cancel succeeds exactly if the timer has its callback, finds it in the set by its key, and removes it and the callback. |
| `TimerManagement.TimerManager.Refresh` | src/fiber/timer.cpp:40-53 | refresh moves the deadline to now + ms without a wake-up, and none is missed. |
| `TimerManagement.TimerManager.Reset` | src/fiber/timer.cpp:55-78 | reset changes period and deadline, or nothing if the period is the same and counted from the start; it issues a wake-up if the timer comes to the front. |
| `TimerManagement.TimerManager.GetNextTimer` | src/fiber/timer.cpp:106-119 | The time to the earliest deadline, 0 if it has passed, none without timers; the wake-up may be issued again. |
| `TimerManagement.TimerManager.ListExpiredCb` | src/fiber/timer.cpp:121-161 | Expiry is exact: without a rollover precisely the callbacks of the timers with deadline <= now come back, in deadline order; recurring timers return with deadline now + ms, the others leave the set and lose their callback; all others are untouched. |
| `TimerManagement.TimerManager.DueEnd` | src/fiber/timer.cpp:142-146 | lower_bound with a temporary timer and the loop after it end right behind the last timer that is due. |
| `TimerManagement.TimerManager.RunExpired` | src/fiber/timer.cpp:150-160 | The loop over the expired timers collects their callbacks and re-inserts the recurring ones. |
| `TimerManagement.TimerManager.Find` | src/fiber/timer.cpp:34-35 | A search by deadline and address finds every timer whose place fits its key. |
| `TimerManagement.TimerManager.Insert` | src/fiber/timer.cpp:164-164 | The set stays ordered when a timer comes in. |
| `TimerManagement.TimerManager.HasTimer` | src/fiber/timer.cpp:184-187 | hasTimer tells whether a timer is left. |
| `TimerManagement.RolloverMeans` | src/fiber/timer.cpp:175-182 | A step back of the clock is a rollover exactly if it is more than an hour or, as the limit wraps around on unsigned 64 bits, if the earlier time lies within the first hour. |
| `IoEvents.Drive` | src/fiber/iomanager.cpp:70-350 | For any sequence of actions of any threads, with anything between the look-up of a context and its use, the manager, its timers and its scheduler are at the end what the books say, and every answer is theirs. |
| `IoHistory.HistoryGood` | src/fiber/iomanager.cpp:70-350 | Conservation in every such history, at every moment: exactly the registered events of all contexts, in the table or cut off, have a waiter; every waiter that came in still waits, was handed to the scheduler or was dropped; what was handed over, callbacks of timers too, is listed, run or done; one context of a descriptor at most has events registered. |
| `IoHistory.StopMeans` | src/fiber/iomanager.cpp:346-350 | In every history stopping is true exactly if no context, reachable or not, has an event registered, no timer is queued, the scheduler is stopped, and nothing is listed or run; and then every waiter and every callback that came in was run to its end or dropped. |
| `IoBooks.ReachedExactly` | src/fiber/iomanager.cpp:119-217 | Exact condition: a registered event can be deleted, cancelled or cancelled with all by its descriptor if and only if its context is still in the table. |
| `IoHistory.ReachedInHistory` | src/fiber/iomanager.cpp:119-180 | The same at every moment of every history, for deletion and cancelling. |
| `IoHistory.CutOffForGood` | src/fiber/iomanager.cpp:352-360 | In every history a context that a smaller table has cut off never comes back into it. |
| `IoBooks.SecondContextFails` | src/fiber/iomanager.cpp:84-96 | As long as one context of a descriptor has an event registered, adding an event to another context of it fails and changes nothing. |
| `IoBooks.ReportedExactly` | src/fiber/iomanager.cpp:292-331 | An event that epoll reports is served by its context, in the table or not: if it is registered its waiter is listed once and it is counted off, if not nothing changes. |
| `IoBooks.LateGrow` | src/fiber/iomanager.cpp:74-82 | The gap between the locks of addEvent: a late resize that cuts a registered event off takes it out of the reach of its descriptor, by every later addEvent, delEvent and cancelEvent, but it stays counted, and is served and counted off when epoll reports it. |
| `IoBooks.DispatchPanics` | src/fiber/iomanager.cpp:292-331 | A process that ends: from every state in which a descriptor is free, READ and WRITE are registered, WRITE is deleted, and a report of both is dealt with. |
| `IoBooks.TriggeredAllIs` | src/fiber/iomanager.cpp:323-330 | Triggering the reported events panics exactly if one is not registered; else exactly they are gone, their waiters listed with READ first. |
| `IoBooks.HungUpExactly` | src/fiber/iomanager.cpp:295-330 | A report with an error or a hang-up counts for all that is registered: the process ends exactly if something else is reported too; otherwise the context is freed, its waiters are listed READ first, and its events counted off. |
| `IoBooks.ReportExactly` | src/fiber/iomanager.cpp:300-330 | A report without one: nothing if none of it is registered; the end of the process if only a part is; else exactly these events are unregistered, their waiters listed, and counted off. |
| `IoBooks.AttachedExactly` | src/fiber/iomanager.cpp:84-117 | addEvent on a context panics, succeeds or fails, each in exactly its case, by what is registered on it and on the other contexts of its descriptor. |
| `IoBooks.DeletedExactly` | src/fiber/iomanager.cpp:128-148 | delEvent on a context: success exactly if the event is registered and epoll_ctl agrees; then its waiter alone is dropped. |
| `IoBooks.CancelledExactly` | src/fiber/iomanager.cpp:160-179 | cancelEvent on a context: the same, with its waiter at the end of the list. |
| `IoBooks.CancelledAllExactly` | src/fiber/iomanager.cpp:191-216 | cancelAll on a context: it is freed and all its waiters are listed, READ first. |
| `IoBooks.ResizedExactly` | src/fiber/iomanager.cpp:352-360 | A resize to any size: which contexts the rows then have, and that no context changes. |
| `IoBooks.CalledExactly` | src/fiber/iomanager.cpp:272-279 | Callbacks go to the end of the list one after the other, the empty ones left out. |
| `IoBooks.BegunExactly` | src/fiber/scheduler.cpp:105-108 | Tasks are taken from the front of the list. |
| `IoBooks.ResizedGood` | src/fiber/iomanager.cpp:352-360 | A resize to any size keeps all books and the count, whatever it cuts off. |
| `IoTable.RowChanged` | src/fiber/iomanager.cpp:98-106 | Waiter conservation for one changed context: what came in is still waiting, was scheduled or was dropped, and the counter follows the events. |
| `IoTable.NothingPending` | src/fiber/iomanager.cpp:346-350 | The counter is zero exactly if no event of any context is registered. |
| `IoEvents.OnTimers` | src/fiber/iomanager.cpp:272-279 | What idle does with the timers: the callbacks that are due go to the scheduler in their order, the empty ones left out. |
| `IoEvents.IOManager.AddEvent` | src/fiber/iomanager.cpp:70-117 | Without another thread between its two locks, addEvent finds its context, in a table of one and a half times the descriptor if that was beyond it, and does as Attach. |
| `IoEvents.IOManager.Attach` | src/fiber/iomanager.cpp:84-117 | From where it has its context, in the table or not, addEvent registers and counts the waiter exactly if the event was free and epoll_ctl accepts it; it panics exactly if the event was registered. |
| `IoEvents.IOManager.Grow` | src/fiber/iomanager.cpp:78-82 | The part of addEvent under the write lock, in any table: it has one and a half times the descriptor as its size; all books and the count are kept. |
| `IoEvents.IOManager.ContextResize` | src/fiber/iomanager.cpp:352-360 | The table takes any size: new rows get new contexts, and contexts of rows cut off live on. |
| `IoEvents.IOManager.DeleteFrom` | src/fiber/iomanager.cpp:128-148 | delEvent from where it has its context drops the waiter of a registered event, exactly one, and uncounts it. |
| `IoEvents.IOManager.DelEvent` | src/fiber/iomanager.cpp:119-149 | delEvent by descriptor, with the context that the table has. |
| `IoEvents.IOManager.CancelFrom` | src/fiber/iomanager.cpp:160-179 | cancelEvent from where it has its context schedules the waiter of a registered event, exactly once, and uncounts it. |
| `IoEvents.IOManager.CancelEvent` | src/fiber/iomanager.cpp:151-180 | cancelEvent by descriptor, with the context that the table has. |
| `IoEvents.IOManager.CancelAllFrom` | src/fiber/iomanager.cpp:191-216 | cancelAll from where it has its context schedules all its waiters, READ first, and frees it; its panic never comes. |
| `IoEvents.IOManager.CancelAll` | src/fiber/iomanager.cpp:182-217 | cancelAll by descriptor, with the context that the table has. |
| `IoEvents.IOManager.Dispatch` | src/fiber/iomanager.cpp:292-331 | One reported event, by the context that epoll holds: the registered events among those reported are triggered, or the process panics. |
| `IoEvents.IOManager.Fire` | src/fiber/iomanager.cpp:23-34 | triggerEvent hands over the waiter and frees the slot, and panics exactly on an event that is not registered. |
| `IoEvents.IOManager.ScheduleAll` | src/fiber/iomanager.cpp:272-279 | The callbacks go to the scheduler in order; it takes no empty one. |
| `IoEvents.IOManager.Stopping` | src/fiber/iomanager.cpp:346-350 | stopping is true exactly if there is no timer, nothing pending, the scheduler is stopped, and nothing is listed or run. |
| `IoEvents.IOManager.TakeTask` | src/fiber/scheduler.cpp:98-108 | A thread takes the first task and counts itself active. |
| `IoEvents.IOManager.FinishTask` | src/fiber/scheduler.cpp:117-131 | A finished task is counted off and is done. |

## Left out

- The content of snapshots in the cluster: between nodes a snapshot is its index and term. The key-value server makes
  and reads it; as `load_file` stores keys as values, most values do not survive (`SnapshotRestores`), so replicas
  are compared only where no snapshot was installed.
- RaftServer.Server.InstallSnapshot: does not say which data is handed over and saved with the snapshot.
- RaftServer.Server.SnapshotArgs: does not carry the data of the snapshot.
- Restart, the Persister and Boost serialization: its files are truncated when it is constructed, so runs have no
  restart. The commands in log entries are kept as strings, those of the state machine as records.
- Sockets, RPC framing, generated protobuf code, threads, fiber switching and hooks.
- Election and heartbeat timers: a timeout is a step that may come at any time. Nothing is said about liveness
  beyond log repair.
- Single-node clusters, in which no election ever completes.
- The width of integers: terms, indices, request ids and deadlines do not wrap around. The one place where the width
  decides, the limit of the clock rollover, is modelled on 64 bits.
- leaderUpdateCommitIndex, which is never called.
- RaftApply.ApplyStream: does not model the order in which an installed snapshot, pushed by a thread of its own, and the
  commands of getApplyLogs reach the key-value server: each is handed over in the step that made it.
- RaftServer.Server.DoHeartBeat: does not say which calls went out before an assertion ended the process.
- RaftServer.Server.GetApplyLogs: does not say how far lastApplied was counted before an assertion ended the process.
- KvAck.OkIsNoted: a channel that another handler of the same index deleted is kept, as a use of it after that is
  undefined in C++.
- TimerManagement.Drive: a clock rollover is excluded, as all timers then expire at once; addresses of timers are
  not given again while the manager remembers the timer.
- IoEvents.Drive: no descriptor is closed while events are registered for it, which would take it out of epoll without
  the manager's knowledge; which threads a task may run on is left open; and a report may name any context, whether epoll
  would report it or not.
- IoEvents.IOManager.Dispatch: registered events are a set of READ and WRITE instead of the bits 1 and 4, and each
  operation is one step under the descriptor's mutex, with the counter's change in it.
- The red-black tree inside std::set and the hash tables inside std::unordered_map: their documented behaviour is
  what the model has.
- Printing, display_list, destructors and the release of memory, configuration, the clerk's retry loop, the examples
  and the RPC provider.
