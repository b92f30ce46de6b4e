# QuorumKit, verified

This project models the core of QuorumKit (a C++ Raft library) in Dafny 4.11 and proves what the
library is for. `dafny verify dfyconfig.toml` checks everything.

| part | files |
|---|---|
| The Raft protocol of a whole group | Quorum, LogTypes, BallotBox, RaftNode (the handlers as functions), NodeHandlers (the same handlers updating a node in place), RaftHistory, RaftGrowth, RaftInvariant, RaftSteps, RaftActions, RaftLeaders, RaftProtocol, RaftTerms, RaftSafety, RaftProgress, RaftService, RaftExample, RaftStale |
| Ballots, closures, the applier | Ballot, BallotBoxes, CommitRule, ClosureQueue, FsmCaller, CommitPipeline |
| Leader and follower leases | Lease, LeaseObjects, LeaseProtocol, LeaseInvariant, LeaseSafety, LeaseProgress, LeaseExample |
| The segmented log | SegmentFormat, Segment, FlatLog, SegmentStore, StorageRuns, SegmentCrash, SegmentLife |
| The log manager | LogQueue, LogLoss, LogFlush, Conflicts, LogManager, ConfigurationManager |
| Replication | Replicator, ReplicatorRuns, ReplicatorLive, ReplicatorExample, AppendEntriesCache |
| Membership change | Membership |

What the source updates in place is a class here (`Ballot`, `BallotBox`, `ClosureQueue`, `FsmCaller`,
`Segment`, `SegmentLogStorage`, `LogManager`, `Replicator`, `NodeImpl`, ...); each of its methods is
proved equal to a function or a flat value, which the theorems are about, and says besides, in the object's own
fields, what it leaves behind.

## The main results

- **Raft safety** (`RaftSafety`): over every finite run of any number of nodes, with messages lost, repeated
  and reordered and nodes crashing onto a torn disk: one leader per term, log matching in memory and on
  disk, leader completeness, state-machine safety, and the two "cannot happen" branches of the source
  (a second leader in one term, cutting below the applied id) are dead.
- **Raft progress** (`RaftService`, `RaftProgress`): no run ever reaches a state that the group cannot get out of. From
  every moment of every run, for every quorum of members and whatever is proposed, the run can go on with the nodes of
  that quorum alone taking steps, so that one of them leads, all of them hold its whole log on disk, committed and
  applied, the proposals are the end of that log, and each of them has been handed them.
- **Commit rule** (`CommitRule`): the claim that the comment in ballot_box.cpp leaves unproved. The quorum that
  committed entry n stores every earlier pending entry, even when those had larger quorums and were never
  granted themselves.
- **Leases** (`LeaseSafety`, `Leases`, `LeaseObjects`): while one node's leader lease is valid no node leads a later
  term; a lease is valid exactly by the last stamp of the leadership that is on, and the lease objects keep step
  with the protocol. What leases let through (`LeaseProgress`): a leader keeps leading exactly if a majority was in
  contact less than an election timeout ago, a vote is given exactly if no lease is in the way and the log is good
  enough, and an unseated leader frees its followers.
- **Segmented log** (`StorageRuns`, `SegmentCrash`, `SegmentLife`, `SegmentFormat`): it reads like one flat sequence and
  like the in-memory storage over every run; over every life of the directory, with crashes between any two file
  operations and restarts, an entry is found until a cut takes it, and none is found that was not appended; a torn
  tail is cut back to exactly the entries that were written whole.
- **Log manager** (`LogManagers`, `LogLoss`, `LogFlush`, `Conflicts`): memory, storage and queued tasks make up one log
  under every interleaving, exactly as long as no entry is forgotten that is not settled; what a flush answers, and
  exactly when that is right; conflict resolution meets its specification.
- **Commit pipeline** (`CommitPipeline`, `Applier`): indexes reach the state machine in order and once, and each
  closure is given out exactly once, at its own index, or failed.
- **Replication window** (`ReplicatorRuns`): requests in flight tile the window; what is reported to `commit_at`
  is stored at the peer, and no index is skipped. A replicator is never stuck (`ReplicatorLive`): it always waits for
  something that will move it on, and from every moment of every run the whole log can get through.
- **Membership** (`Membership`): quorums of consecutive configuration entries meet, and at most one such entry of
  a term is on its way. A change whose new peers catch up in any order appends exactly its own entries and ends with
  the new peers in force.

## What was found in the source

- `truncate_suffix` answers -1 on a log without any segment (`SegmentStore.SegmentLogStorage.TruncateSuffix`).
- The header keeps the data length modulo 2^32, so exactly data of 2^32 bytes and more is misread
  (`SegmentFormat.LengthWraps`).
- `last_leader_active_timestamp` keeps half of the peers. For a leader outside the configuration that is one too
  few. For every configuration, leader and contact times, the answer is right exactly if the leader is a peer, or
  there are two or more peers and no time was reached by just half of them, or the only peer was reached that
  very moment (`Leases.AnswerIsRightIff`). With one peer left the answer is always the time it is, so the lease of
  a leader that removed itself does not run out (`Leases.RemovedLeaderNeverExpires`).
- `clear_memory_logs` compares ids by term first, so a replacement of a lower term can leave memory before it is on
  disk. Nothing is lost exactly if what each waiting write leaves in the log begins above the id
  (`LogLoss.SettledIff`); for a cut and its replacement, exactly if the first new id is above it, which can be
  seen before either is queued (`LogLoss.ReplacedIff`). `LogManagers.LosesAnEntry` reaches the loss through the object:
  the new entry is applied, and the old one is read in its place. With replacement terms above all that was cut it
  cannot happen (`LogLoss.RisingSettles`).
- The disk thread starts each batch from the disk id, which never moves down. The answer to a flush is right exactly
  if the end is where the last write or suffix cut of the batch has put it, or the batch has none and the disk id is
  that of the end (`LogFlush.AskIsRightIff`). After a batch that ends with a cut, or a replacement of a lower term, the
  next flush reports an entry that is gone (`LogFlush.StaleAfterCut`, `LogManagers.ReportsStale`). The protocol model
  lets a flush report the last id of any earlier disk that is not below the present one, and stays safe.
- The vote handler lets go of the mutex while it reads the last log id, and afterwards compares the term only. If
  entries of that term arrive in between, and no follower lease is in the way, the vote goes to a candidate that
  lacks a committed entry, and two state machines are handed different entries at one index
  (`RaftStale.LateVoteSplits`, a run of three nodes). A late answer is one that a handler reading the id at once could
  have given exactly if, in case it gives the vote away, nothing waits for the disk by then and the candidate is at
  least as up to date as the disk is by then (`RaftStale.LateIsVoteIff`); runs whose late votes meet that, for
  instance because the lease refuses them, are runs of the protocol (`RaftStale.CarefulIsRun`).
- `set_snapshot` leaves open what a snapshot that ends before the log begins would do: exactly then, unless it is an
  old one, the check in `truncate_prefix` fails (`LogManagers.LogManager.SetSnapshot`).
- `process_runable_rpcs` lowers its running index to the end of each released request, so a gap below the local
  last index holds back requests that could be handled (`AppendEntriesCaches.ReleasesReachable` says exactly when).
- A ballot opened with an old configuration that is present but empty is never granted
  (`Ballots.Ballot.Granted`, by `grantable`).

## Assumptions

- A handler is one step. In particular the vote handler gives its vote by a last id that was read in the same step;
  `RaftStale` is about what happens without that. An append request may see an applied index that lags behind.
- `LOG(FATAL)` and a failed `CHECK` end the process.
- `RaftProtocol` and `LeaseProtocol` run with one fixed configuration, plain or joint. The candidate is a member of it; for
  leases, of both halves in the joint stage: for a half that it is not in, the answer of `last_leader_active_timestamp`
  is that for a leader outside, which `Leases.AnswerIsRightIff` shows to be too late but for a tie. A change of configuration is treated in
  `CommitRule`, `CommitPipeline`
  and `Membership`.
- Term and vote are one durable cell. In `RaftProtocol` a crash may fall between sending vote requests and saving the cell.
- A disk caught by a crash holds a shorter append or an unfinished cut of the task under way.
- Clocks do not run backwards, and while one advances less than an election timeout any other advances less than
  that plus `max_clock_drift_ms`.
- File operations succeed or the process crashes; a rename is atomic.
- `RaftService`, `RaftProgress` and `ReplicatorLive` say that a good continuation exists, at every moment; that the network and the
  timers choose it is not claimed.
- Checksums are uninterpreted functions of their type and the bytes.

## Model

| member | source | states |
|---|---|---|
| Quorum.GrantedMeet | src/braft/ballot.cpp:24-79 | two sets granted under one configuration, plain or joint, share a peer of it |
| RaftSafety.OneLeaderPerTerm | src/braft/node.cpp:1681-1750 | election safety: two nodes that lead the same term, at any two moments of any run, are one node |
| RaftSafety.NoSecondLeader | src/braft/node.cpp:2440-2452 | the branch for another peer that declares itself leader of the term is never taken |
| RaftSafety.NeverFatal | src/braft/log_manager.cpp:307-313 | no append request in any run makes a node cut below what it has applied, nor below any applied index that lags behind |
| RaftSafety.LogsMatch | src/braft/node.cpp:2468-2572 | logs with one term at an index are identical up to it, across nodes and moments, in memory and on disk |
| RaftSafety.TermsRise | src/braft/log_manager.cpp:334-405 | terms never decrease along a log and never exceed the node's own |
| RaftSafety.LeadersHoldCommitted | src/braft/node.cpp:2176-2289 | leader completeness: whatever a node has committed is in the log of every leader of that or a later term from then on |
| RaftSafety.CommittedAgree | src/braft/ballot_box.cpp:49-96 | no two nodes ever commit different entries at one index |
| RaftSafety.DeliveredAgree | src/braft/fsm_caller.cpp:263-319 | everything ever handed to any state machine at one index is one entry, across restarts |
| RaftService.GroupCanServe | src/braft/node.cpp:1681-2573 | from every moment of every run, for every quorum and whatever is proposed, the run can go on, with that quorum alone taking steps, to one leader whose log all of it has on disk, committed and applied, with the proposals at its end |
| RaftProgress.Elected | src/braft/node.cpp:1394-1975 | from every moment of every run, any quorum can come to follow one of its own in a fresh term, with the first configuration entry appended |
| RaftTerms.TermAndVote | src/braft/node.cpp:1793-1874 | for every step: exactly the term it leads to, a new term starts without a vote, and a vote given stays for its term |
| RaftTerms.LeadsIff | src/braft/node.cpp:1935-1975 | for every step: a node leads exactly if a quorum has just elected it, or it led and nothing has unseated it |
| RaftSafety.StepInv | src/braft/node.cpp:2387-2573 | every step of every node keeps the group invariant |
| RaftSafety.RunInv | src/braft/node.cpp:2387-2573 | the group invariant holds at every moment of every run |
| RaftHistory.UpToDateHolds | src/braft/node.cpp:2236-2237 | a log at least as up to date as one holding a prefix holds that prefix, unless it was lost earlier |
| RaftHistory.LeaderCompleteness | src/braft/node.cpp:2253-2286 | every leader elected after an entry was chosen started with everything up to it |
| RaftHistory.LogMatching | src/braft/node.cpp:2468-2510 | log matching for any two logs that leaders' entries can make up |
| RaftHistory.ChosenAgree | src/braft/ballot_box.cpp:67-91 | two chosen entries lie on one log |
| RaftHistory.OneWinner | src/braft/node.cpp:1394-1460 | a granted set of votes for a candidate in a decided term names the winner |
| RaftActions.CastKeeps | src/braft/node.cpp:2260-2286 | casting a vote keeps the voter's part of the invariant and its answer is truthful |
| RaftActions.ElectKeeps | src/braft/node.cpp:1681-1750 | standing for election keeps the invariant, even with a last id that a cut has left behind |
| RaftActions.TakeVoteKeeps | src/braft/node.cpp:1394-1460 | counting an answer, with the own vote when the last leader grants, keeps the invariant |
| RaftLeaders.TornElectKeeps | src/braft/node.cpp:1727-1747 | a crash between sending vote requests and saving the term keeps the invariant |
| RaftLeaders.LeadKeeps | src/braft/node.cpp:1935-1975 | becoming leader, with a configuration entry first, keeps the invariant |
| RaftLeaders.ProposeKeeps | src/braft/node.cpp:2024-2079 | a leader's own entries keep the invariant |
| RaftLeaders.ReceiveKeeps | src/braft/node.cpp:2387-2573 | receiving any append request keeps the invariant and is never fatal |
| RaftLeaders.DiskKeeps | src/braft/log_manager.cpp:543-620 | a finished disk task keeps the invariant |
| RaftLeaders.ClosureKeeps | src/braft/node.cpp:2319-2365 | a stable closure answers or counts only what the disk holds |
| RaftLeaders.ReplyKeeps | src/braft/replicator.cpp:487-493 | a leader that counts a success keeps the invariant |
| RaftLeaders.CrashKeeps | src/braft/log.cpp:259-377 | a restart from the durable cell and a torn disk keeps the invariant |
| RaftLeaders.DeliverKeeps | src/braft/fsm_caller.cpp:263-319 | delivering the next committed entry keeps the invariant |
| RaftSteps.ConflictAboveCommitted | src/braft/log_manager.cpp:372-390 | a conflict with the leader lies above everything committed here |
| RaftSteps.CommittedMatches | src/braft/node.cpp:2354-2364 | what a follower has committed is a prefix of its leader's log, so it never passes the checked prefix |
| RaftExample.SomethingIsDelivered | src/braft/node.cpp:1681-1750 | there is a run that elects, writes, commits and delivers |
| RaftLeaders.LateNodeKeeps | src/braft/fsm_caller.cpp:311-318 | an append request handled with an applied index that lags behind keeps the node's part of the invariant |
| RaftStale.LateVoteSplits | src/braft/node.cpp:2224-2264 | with the last id read before the entries of the term came, and no lease in the way, two leaders commit and deliver different entries at one index |
| RaftStale.LateIsVoteIff | src/braft/node.cpp:2224-2286 | a vote judged by an id read earlier is one the protocol allows exactly if it is not given away, or nothing waits for the disk and the candidate is up to date with the disk as it is now |
| RaftStale.CarefulIsRun | src/braft/node.cpp:2224-2286 | runs whose late votes meet that condition are runs of the protocol, so every safety theorem holds of them |
| NodeHandlers.NodeImpl.constructor | src/braft/node.cpp:1681-1700 | a fresh node follows nobody in term 0, with the durable cell saying so |
| NodeHandlers.NodeImpl.StepDown | src/braft/node.cpp:1793-1874 | a follower of nobody, in the higher of the two terms; a higher term clears the vote and is durable, a leader forgets its ballots, and the log stays |
| NodeHandlers.NodeImpl.CheckStepDown | src/braft/node.cpp:1898-1917 | follows the sender unless another leader of its term is followed; a higher term is taken over; the log stays |
| NodeHandlers.NodeImpl.ElectSelf | src/braft/node.cpp:1681-1750 | the new term and the own vote are durable on return; the request names the new term |
| NodeHandlers.NodeImpl.HandleRequestVoteRequest | src/braft/node.cpp:2176-2289 | without a lease in the way a higher term is taken over whether the vote is given or not; the vote is given exactly if it is free in that term and the log is good enough; a granted answer is in the durable cell |
| NodeHandlers.NodeImpl.HandleRequestVoteResponse | src/braft/node.cpp:1394-1460 | only an answer to the question of this candidacy counts; a higher term ends it, a vote is counted, with the own one when the last leader grants |
| NodeHandlers.NodeImpl.AppendOwn | src/braft/node.cpp:2024-2079 | one entry of this term and one ballot each per payload, and one disk task |
| NodeHandlers.NodeImpl.BecomeLeader | src/braft/node.cpp:1935-1975 | ballots start behind the log and the first entry is the configuration |
| NodeHandlers.NodeImpl.FollowerAppend | src/braft/log_manager.cpp:334-447 | keeps all that matches and takes the rest from the request, with the cut and the write queued; over a gap nothing happens; fatal exactly where the request cuts below what is applied |
| NodeHandlers.RequestIsPlaced | src/braft/log_manager.cpp:334-447 | the function of the safety proof does to the log, the queue and the closures what fitting a request in means, and is fatal exactly where it cuts below what is applied |
| NodeHandlers.NodeImpl.HandleAppendEntriesRequest | src/braft/node.cpp:2387-2573 | an old term is refused, a second leader ends the term; otherwise the sender is followed, a mismatch is refused, a heartbeat commits the smaller of its commit index and its place, and entries are fitted in; replies field by field |
| NodeHandlers.NodeImpl.RunStableClosure | src/braft/node.cpp:2319-2365 | a closure of an old term is answered with failure and commits nothing; else exactly what the leader has committed up to the request's end is committed; a leader counts itself |
| Ballots.FindPeer | src/braft/ballot.h:55-67 | a place of the peer, or the end exactly if it is not listed; any hint will do |
| Ballots.ListPeers | src/braft/ballot.cpp:24-46 | lists every peer of a configuration once, unmarked |
| Ballots.Ballot.constructor | src/braft/ballot.cpp:24-46 | opens a ballot for a plain or joint configuration; grantable unless the old one is given empty |
| Ballots.Ballot.Grant | src/braft/ballot.cpp:48-79 | records the vote once whatever the hint; the new hint points at the peer |
| Ballots.Ballot.Granted | src/braft/ballot.h:44 | the two counters say exactly whether a majority of each configuration has granted |
| BallotSpec.LastGrantedIsLast | src/braft/ballot_box.cpp:67-78 | the scan finds the last granted ballot in the range |
| BallotBoxes.BallotBox.CommitAt | src/braft/ballot_box.cpp:49-96 | grants the reported range and commits through the last granted ballot, with the error cases, and notifies on change |
| BallotBoxes.BallotBox.ClearPendingTasks | src/braft/ballot_box.cpp:98-107 | forgets the ballots and fails the waiting closures in order |
| BallotBoxes.BallotBox.ResetPendingIndex | src/braft/ballot_box.cpp:109-119 | ballots and closures start at the same index |
| BallotBoxes.BallotBox.AppendPendingTask | src/braft/ballot_box.cpp:121-135 | one ballot and one closure place more |
| BallotBoxes.BallotBox.SetLastCommittedIndex | src/braft/ballot_box.cpp:137-156 | only a follower moves it, exactly to a higher index, with the two error cases, and notifies on change |
| CommitRule.CommitStaysSound | src/braft/ballot_box.cpp:49-96 | no ballot left in the queue is granted, votes stay backed by stored logs, the commit index only grows |
| CommitRule.CommitCoversEarlier | src/braft/ballot_box.cpp:79-91 | a quorum of the committed entry's own configuration stores every earlier index too |
| CommitRule.CommitsIffDecided | src/braft/ballot_box.cpp:67-91 | entry n commits exactly if a reported entry at or after it gets its own quorum |
| CommitRule.LifeIsSound | src/braft/ballot_box.cpp:49-135 | both hold over any sequence of appends and truthful reports of a leadership |
| CommitRule.EarlierBallotMayLackQuorum | src/braft/ballot_box.cpp:79-84 | an entry may be committed although its own ballot was never granted |
| Closures.ClosureQueue.Clear | src/braft/closure_queue.cpp:32-51 | all closures in it fail, in order, and the queue starts over |
| Closures.PresentJoins | src/braft/closure_queue.cpp:32-51 | the closures of a stretch come in the order of their indexes |
| Closures.ClosureQueue.ResetFirstIndex | src/braft/closure_queue.cpp:53-57 | the empty queue starts at the given index |
| Closures.ClosureQueue.AppendPendingClosure | src/braft/closure_queue.cpp:59-62 | one more place, with or without a closure |
| Closures.ClosureQueue.PopClosureUntil | src/braft/closure_queue.cpp:64-85 | each index up to the given one gets the closure that waits for it; refused past the end |
| Applier.CommitsCoalesce | src/braft/fsm_caller.cpp:59-141 | two commit notices in either order do the same as the larger one alone |
| Applier.AppliesHighest | src/braft/fsm_caller.cpp:59-141 | after any queue of tasks exactly everything up to the highest notice is applied |
| Applier.NotifiedInPlace | src/braft/fsm_caller.cpp:59-141 | another task is reported behind all that was to be applied before it and ahead of the rest |
| Applier.IteratorImpl.Next | src/braft/fsm_caller.cpp:569-588 | moves to the next index while there is one |
| Applier.IteratorImpl.Done | src/braft/fsm_caller.cpp:590-595 | the closure that belongs to the current index |
| Applier.FsmCaller.DoCommitted | src/braft/fsm_caller.cpp:263-319 | delivers exactly the indexes not applied yet, each with its entry and closure |
| Applier.FsmCaller.Run | src/braft/fsm_caller.cpp:59-141 | the merging loop equals handling every task alone, for every batch size, and applies up to the highest notice |
| CommitPipeline.AppliedInOrder | src/braft/fsm_caller.cpp:263-319 | after any run the state machine got index 1, 2, 3, ... with the committed entries |
| CommitPipeline.EachClosureOnce | src/braft/closure_queue.cpp:32-85 | every registered closure is given out once, or failed once, or still waits |
| CommitPipeline.ClosureAtItsIndex | src/braft/ballot_box.cpp:98-135 | a closure is given out with the entry it was registered for |
| CommitPipeline.NothingIsLost | src/braft/fsm_caller.cpp:211-216 | with no notice left, everything committed has been applied |
| CommitPipeline.ConsumeNeverFails | src/braft/fsm_caller.cpp:263-285 | the applier never meets an index it cannot pop closures for |
| Leases.LeaseIsOwn | src/braft/lease.cpp:32-82 | over every history of calls, a lease is valid exactly by the last stamp of the leadership that is on, which no stamp meant for an earlier one can be |
| Leases.LeaderLease.GetLeaseInfo | src/braft/lease.cpp:58-82 | each state exactly when it should be |
| Leases.FollowerLease.VotableTimeFromNow | src/braft/lease.cpp:111-123 | 0 exactly if the lease with the drift has run out, else the time that is missing |
| LeaseObjects.NodeLeases.constructor | src/braft/node.cpp:542-608 | the lease objects of a node that starts: it waits as if it had just heard a leader, unless it has never been in a term |
| LeaseObjects.NodeLeases.BecomeLeader | src/braft/node.cpp:1949-1950 | keeps the objects as the protocol has them: a new epoch that is not ready, the own follower lease forgotten |
| LeaseObjects.NodeLeases.StepDown | src/braft/node.cpp:1814-1817 | the same for stepping down: only a leader's lease stops |
| LeaseObjects.NodeLeases.HearLeader | src/braft/node.cpp:2454-2457 | the same for an append request of the leader followed |
| LeaseObjects.NodeLeases.Disrupt | src/braft/node.cpp:2200-2208 | the same for a vote request that names a disrupted leader |
| LeaseObjects.NodeLeases.StartLease | src/braft/node.cpp:3602-3608 | the same for the first commit of a leadership; late news of an earlier one changes nothing |
| LeaseObjects.NodeLeases.LeaseIsValid | src/braft/node.cpp:3432-3450 | the object answers valid exactly when the protocol, and so the safety theorem, says so |
| LeaseObjects.NodeLeases.Recheck | src/braft/node.cpp:3456-3475 | a lease that has run out is renewed from the contacts, and the leader keeps leading exactly if they are less than an election timeout old; else it follows, without a lease |
| LeaseObjects.NodeLeases.MayVote | src/braft/node.cpp:2238-2251 | the node may vote exactly when the protocol says so |
| LeaseObjects.NodeLeases.ActiveTimestamp | src/braft/node.cpp:3610-3616 | the earlier of both halves' times, as the protocol dates a lease |
| Leases.LastLeaderActiveTimestamp | src/braft/node.cpp:3624-3648 | for a leader among the peers, the largest time at which a majority with it was in contact; else the largest that half of the peers reach, or the time it is if there is but one |
| Leases.SelectionIsRight | src/braft/node.cpp:3630-3647 | the smallest kept stamp is that order statistic |
| Leases.AnswerIsRightIff | src/braft/node.cpp:3624-3648 | for every configuration, leader and contact times, exactly when the answer is the time a majority was last in contact |
| Leases.OutsideNeedsTie | src/braft/node.cpp:3635-3638 | for a leader outside two or more peers the answer is right exactly if no time was reached by just half of them |
| Leases.OutsideOfOne | src/braft/node.cpp:3640-3643 | for a leader outside a single peer it is right exactly if that peer was reached this very moment |
| Leases.RemovedLeaderNeverExpires | src/braft/node.cpp:3640-3643 | a leader that leaves one peer behind dates its lease now, whatever that peer has answered |
| Leases.OutsideLeaderIsWrong | src/braft/node.cpp:3624-3648 | two peers and an outside leader for which it is wrong |
| LeaseInvariant.LeaseEnds | src/braft/node.cpp:2238-2251 | when a later leader was elected, a lease counted from a quorum's contact had run out |
| LeaseInvariant.ValidMeansNewest | src/braft/lease.cpp:58-82 | while a lease is valid nobody has been elected in a later term |
| LeaseSafety.ActiveIsWitnessed | src/braft/node.cpp:3610-3648 | the time a leader takes for its lease is witnessed by a quorum |
| LeaseSafety.RunInv | src/braft/lease.cpp:58-123 | the lease invariant holds in every run with good clocks |
| LeaseSafety.NoLaterLeader | src/braft/lease.cpp:58-123 | while one lease is valid no node leads, or has led, a later term |
| LeaseExample.LeaseBecomesValid | src/braft/node.cpp:3602-3608 | there is a run with good clocks in which a lease is valid |
| LeaseSafety.OneValidLease | src/braft/node.cpp:3432-3475 | at most one node holds a valid lease |
| LeaseProgress.ReachedIff | src/braft/node.cpp:3610-3648 | a majority of each half was in contact at or after a time exactly if that time is not after the one the leader takes |
| LeaseProgress.KeepsLeadingIff | src/braft/node.cpp:3456-3475 | a leader whose lease has run out keeps leading, in its term and with a valid lease, exactly if a majority was in contact less than an election timeout ago; else it steps down |
| LeaseProgress.StartsValidIff | src/braft/node.cpp:3602-3608 | the lease dated by the first commit is valid exactly if a majority was in contact less than an election timeout ago |
| LeaseProgress.AckMovesStamp | src/braft/replicator.cpp:441-527 | an answer of this term moves that peer's stamp up to when the request left, and no other |
| LeaseProgress.HearingRenews | src/braft/node.cpp:2440-2457 | a leader that may be followed is, and renews the follower lease; a second one ends the term; an old one changes nothing |
| LeaseProgress.VoteGivenIff | src/braft/node.cpp:2200-2262 | a higher term is taken over exactly if no lease is in the way, and the vote given exactly if besides the log is good enough and the vote is free |
| LeaseProgress.AnswerTells | src/braft/node.cpp:2264-2289 | the answer says exactly whether the vote was given, whether only the lease was in the way, and whether a leader was unseated |
| LeaseProgress.AnswerTaken | src/braft/node.cpp:1414-1460 | a candidate counts a vote, with its own if it came from its last leader, and remembers the leader it has unseated |
| LeaseProgress.UnseatedLeaderFreesFollowers | src/braft/node.cpp:2200-2208 | a leader that gives way to a candidate frees its followers to vote for that candidate at once, however fresh their leases are |
| SegmentFormat.PackUnpack | src/braft/log.cpp:379-447 | a number that fits its field is read back |
| SegmentFormat.HeaderParses | src/braft/log.cpp:174-257 | the 24-byte header parses to what was printed, checksum included |
| SegmentFormat.LengthWraps | src/braft/log.cpp:379-447 | the length field is the length exactly for data under 2^32 bytes |
| SegmentFormat.EntryLoads | src/braft/log.cpp:174-232 | an entry that lies whole at an offset is read back as written |
| SegmentFormat.WholeWithinIsMost | src/braft/log.cpp:286-377 | the number of whole entries is the largest whose length fits |
| SegmentFormat.ScanTorn | src/braft/log.cpp:286-377 | scanning any prefix of a written file finds exactly the whole entries, with offsets and terms |
| Segments.Segment.TornScan | src/braft/log.cpp:286-377 | what the scan of a torn file leaves is exactly the printed whole entries |
| Segments.Segment.Load | src/braft/log.cpp:259-377 | the recovered segment is the whole entries, the file is cut to them, a closed one must be complete |
| Segments.Segment.Append | src/braft/log.cpp:379-447 | accepts exactly the next index and adds the entry |
| Segments.Segment.GetMeta | src/braft/log.cpp:234-257 | offset, term and length of an entry inside, nothing outside |
| Segments.Segment.Get | src/braft/log.cpp:469-526 | the entry as it was appended, nothing outside |
| Segments.Segment.GetTerm | src/braft/log.cpp:528-534 | its term, 0 outside |
| Segments.Segment.Truncate | src/braft/log.cpp:625-680 | keeps exactly what is not behind the cut and opens a closed segment again |
| MemoryLog.MemoryLogStorage.GetEntry | src/braft/memory_log.cpp:30-42 | the entry of the flat log |
| MemoryLog.MemoryLogStorage.GetTerm | src/braft/memory_log.cpp:44-56 | the term of the flat log |
| MemoryLog.MemoryLogStorage.AppendEntries | src/braft/memory_log.cpp:58-84 | the flat log, longer |
| MemoryLog.MemoryLogStorage.TruncatePrefix | src/braft/memory_log.cpp:86-109 | the flat log, cut in front |
| MemoryLog.MemoryLogStorage.TruncateSuffix | src/braft/memory_log.cpp:111-134 | the flat log, cut behind |
| MemoryLog.MemoryLogStorage.Reset | src/braft/memory_log.cpp:136-156 | an empty log that starts at the index; refused for 0 |
| Pieces.ShapeFind | src/braft/log.cpp:1230-1258 | the upper bound of the first indexes lands in the piece that holds the index |
| SegmentStore.SegmentLogStorage.OpenSegment | src/braft/log.cpp:1192-1228 | a roll changes nothing that can be read |
| SegmentStore.SegmentLogStorage.AppendEntries | src/braft/log.cpp:738-788 | refuses a gap; else the flat log, longer, across rolls |
| SegmentStore.SegmentLogStorage.GetSegment | src/braft/log.cpp:1230-1258 | a segment exactly for the indexes of the log, and it holds the entry |
| SegmentStore.SegmentLogStorage.GetEntry | src/braft/log.cpp:807-813 | the entry of the flat log |
| SegmentStore.SegmentLogStorage.GetTerm | src/braft/log.cpp:815-821 | the term of the flat log |
| SegmentStore.SegmentLogStorage.TruncatePrefix | src/braft/log.cpp:823-878 | the flat log, cut in front; the meta file names the new first index |
| SegmentStore.SegmentLogStorage.TruncateSuffix | src/braft/log.cpp:880-964 | the flat log, cut behind; failure is reported exactly on a log without a segment |
| SegmentStore.SegmentLogStorage.Reset | src/braft/log.cpp:966-997 | an empty log that starts at the index; refused for 0 |
| StorageRuns.Replay | src/braft/log.cpp:738-997 | over every run of the discipline both storages stand for the same flat log |
| StorageRuns.SameReads | src/braft/memory_log.cpp:30-56 | after every run both answer every read alike |
| SegmentCrash.LoadIsStretch | src/braft/log.cpp:1108-1149 | loading a chain of files gives the stretch of log it covers |
| SegmentCrash.RecoverFits | src/braft/log.cpp:999-1149 | a restart on files that fit together finds exactly the log they stand for |
| SegmentCrash.PrefixCrashSafe | src/braft/log.cpp:823-878 | a crash at any point of a front cut leaves the old log before the meta file is saved, the cut log after |
| SegmentCrash.SuffixCrashSafe | src/braft/log.cpp:880-964 | a crash at any point of a back cut leaves a gap-free part that keeps what had to be kept, and one open file at most |
| SegmentCrash.RollCrashSafe | src/braft/log.cpp:1192-1228 | a crash at any point of a roll leaves the whole log and one open file at most |
| SegmentLife.RestartSettles | src/braft/log.cpp:999-1149 | a restart leaves a directory that the next operation can rely on, with the same log |
| SegmentLife.EveryRestartFindsTheLog | src/braft/log.cpp:738-964 | after any life of operations, crashes inside them and restarts, a restart finds the log that the next event, finished or torn, may leave |
| SegmentLife.EntrySurvives | src/braft/log.cpp:738-964 | over such a life an entry is found until a cut, finished or torn, is meant to take it |
| SegmentLife.EntryWasAppended | src/braft/log.cpp:738-964 | and an entry that is found was appended at its index and has been there ever since |
| LogQueue.UntouchedStays | src/braft/log_manager.cpp:543-620 | an index the queue does not touch is on the storage now as it will be in the end |
| LogQueue.TouchedIsWaiting | src/braft/log_manager.cpp:543-620 | an entry the queue still touches carries an id above everything written |
| LogQueue.SafeToForget | src/braft/log_manager.cpp:125-146 | an entry at or below the disk id is not touched by the queue any more |
| LogLoss.TouchedSurvives | src/braft/log_manager.cpp:543-620 | what the log has in the end at an index the queue still touches comes from a waiting write that no later task cuts off |
| LogLoss.SettledIff | src/braft/log_manager.cpp:125-146 | for every storage, queue and id: nothing at or below the id is still touched exactly if what each waiting write leaves begins above it |
| LogLoss.ReplacedIff | src/braft/log_manager.cpp:384-390 | for a cut and its replacement: exactly if the first new id is above it |
| LogLoss.RisingSettles | src/braft/log_manager.cpp:125-146 | with rising ids everything at or below what is written is settled |
| LogFlush.AskIsRightIff | src/braft/log_manager.cpp:566-575 | what a flush answers is the id of the end exactly if the end is where the batch has last put it, or as the disk id has it |
| LogFlush.DiskIdFollows | src/braft/log_manager.cpp:617-619 | with rising ids the disk id is that of the end whenever a batch has last put the end by a write |
| LogFlush.StaleAfterCut | src/braft/log_manager.cpp:543-620 | a batch that ends with a cut, and a flush behind it that reports an entry that is gone |
| Conflicts.FirstConflict | src/braft/log_manager.cpp:372-382 | everything before matches by term, the entry there does not |
| Conflicts.ResolveAgrees | src/braft/log_manager.cpp:334-405 | the log agrees with the request over its whole range and keeps everything before the first conflict |
| Conflicts.DuplicateChangesNothing | src/braft/log_manager.cpp:384-396 | the log stays as it is exactly if it already has the whole request |
| Conflicts.LateAfterNewer | src/braft/log_manager.cpp:334-405 | any part of a request that arrives again or late changes nothing, entries after it included |
| Conflicts.FatalIffContradictsApplied | src/braft/log_manager.cpp:307-313 | the fatal branch is taken exactly if the request contradicts an applied entry |
| LogBacking.ReadBack | src/braft/log_manager.cpp:759-779 | an index that is not in memory reads from the storage as the log has it |
| LogBacking.ClearedIff | src/braft/log_manager.cpp:125-146 | popping up to an id keeps every index readable exactly if the queue has settled what ranks there |
| LogBacking.BackedForget | src/braft/log_manager.cpp:125-146 | entries at or below a settled id may leave memory; they are on the storage |
| LogBacking.RankedAppend | src/braft/log_entry.h:64-84 | new ids above everything ever held keep id order equal to index order |
| LogBacking.AppliedByRank | src/braft/log_manager.cpp:812-821 | an entry that ranks at or below the applied id is applied |
| LogManagers.LogManager.constructor | src/braft/log_manager.cpp:78-101 | starts with the log the storage recovered |
| LogManagers.LogManager.GetEntry | src/braft/log_manager.cpp:759-779 | every index of the log reads as its entry, nothing outside |
| LogManagers.LogManager.GetTerm | src/braft/log_manager.cpp:703-757 | the term of the entry; before the log, that of the snapshot ids |
| LogManagers.LogManager.FindConflict | src/braft/log_manager.cpp:372-382 | the loop finds the first conflict |
| LogManagers.LogManager.UnsafeTruncateSuffix | src/braft/log_manager.cpp:307-332 | cuts behind the index, refused exactly below the applied one |
| LogManagers.LogManager.CheckAndResolveConflict | src/braft/log_manager.cpp:334-405 | every outcome as specified; on success the log ends where what is left of the request begins |
| LogManagers.LogManager.ReceiveEntries | src/braft/log_manager.cpp:334-447 | a follower's request of any terms resolves as specified, with every outcome and the tasks it queues |
| LogManagers.LogManager.AppendEntries | src/braft/log_manager.cpp:407-447 | a leader's entries go to the end; a follower's request as above |
| LogManagers.LogManager.ClearMemoryLogs | src/braft/log_manager.cpp:125-146 | pops exactly what ranks at or below the id; all is still readable exactly if every waiting write begins above it |
| LogManagers.LogManager.SetDiskId | src/braft/log_manager.cpp:801-810 | only moves up, and clears up to the lower of disk and applied id, with the same condition; safely with rising ids |
| LogManagers.LogManager.SetAppliedId | src/braft/log_manager.cpp:812-821 | the same for the applied id |
| LogManagers.LosesAnEntry | src/braft/log_manager.cpp:801-821 | an applied replacement of a lower term leaves memory before it is on disk, and the entry it replaced is read in its place |
| LogManagers.LogManager.DiskThread | src/braft/log_manager.cpp:482-620 | gathering and flushing equals doing the tasks one by one, every flush is answered the id that follows from the tasks before it, and the log is unchanged |
| LogManagers.LogManager.DiskDone | src/braft/log_manager.cpp:616-619 | the disk id only moves up, and the next batch starts from it |
| LogManagers.ReportsStale | src/braft/log_manager.cpp:543-620 | after a replacement of a lower term has been written, a flush reports the entry that is gone |
| LogManagers.LogManager.TruncatePrefix | src/braft/log_manager.cpp:251-286 | the log, cut in front |
| LogManagers.LogManager.Reset | src/braft/log_manager.cpp:288-305 | an empty log that starts at the index |
| LogManagers.LogManager.SetSnapshot | src/braft/log_manager.cpp:622-680 | the three cases, by indexes: keep what lies behind the snapshot before, keep what lies behind the new one, or start over; old ones are ignored; fatal for a snapshot that ends before the log begins |
| LogManagers.SnapshotLeaves | src/braft/log_manager.cpp:622-680 | index by index, what a snapshot leaves: everything behind the snapshot before if the log has its entry, what lies behind it if the log ends before, nothing if the log contradicts it |
| LogManagers.LogManager.ClearBufferedLogs | src/braft/log_manager.cpp:682-688 | the log, cut behind the last snapshot |
| ConfigurationHistory.ConfsCut | src/braft/configuration_manager.cpp:40-45 | the index of a shortened history is the front of the index |
| ConfigurationHistory.ConfsLater | src/braft/configuration_manager.cpp:33-38 | dropping early entries drops the front of the index only |
| ConfigurationHistory.LookUp | src/braft/configuration_manager.cpp:52-71 | the last indexed entry at or before an index is what was in force there |
| ConfigurationManagers.ConfigurationManager.Add | src/braft/configuration_manager.cpp:21-31 | refused exactly if a later entry is held; else in force from its index on |
| ConfigurationManagers.ConfigurationManager.TruncatePrefix | src/braft/configuration_manager.cpp:33-38 | the history stands; entries before the cut are no longer held |
| ConfigurationManagers.ConfigurationManager.TruncateSuffix | src/braft/configuration_manager.cpp:40-45 | the history ends at the cut |
| ConfigurationManagers.ConfigurationManager.InstallSnapshot | src/braft/log_manager.cpp:622-680 | a received snapshot replaces the history and leaves nothing held |
| ConfigurationManagers.ConfigurationManager.Get | src/braft/configuration_manager.cpp:52-71 | from the snapshot on, the configuration in force in the full history |
| ConfigurationManagers.ConfigurationManager.LastConfiguration | src/braft/configuration_manager.cpp:73-78 | the configuration in force at the end of the log |
| Windows.SizesSumUp | src/braft/replicator.h:168-170 | the sizes in flight add up to the flying size |
| Windows.PopKeeps | src/braft/replicator.cpp:512-518 | a success removes the replied request and those before it, and nothing else |
| Windows.MismatchLowers | src/braft/replicator.cpp:441-468 | every mismatch strictly lowers the next index until it is 1, right behind the peer's log if that is lower, and probes there |
| Windows.PreparedIsMost | src/braft/replicator.cpp:600-641 | a request stops exactly at the entry limit, the end of the log or the size limit, whichever is first |
| Windows.SendIs | src/braft/replicator.cpp:643-716 | with room in the window and entries to send one request more is in flight; else there is a waiter |
| Windows.ValidIff | src/braft/replicator.cpp:381-394 | an answer is valid exactly if its call is in flight |
| Replicators.ReturnedAnswers | src/braft/replicator.cpp:361-527 | what each kind of answer makes of the window, without naming how: all given up, one lower probe, or everything up to the end of the request stored |
| Replicators.Replicator.PrepareEntries | src/braft/replicator.cpp:600-641 | as many entries as the three limits allow, and no fewer |
| Replicators.Replicator.Send | src/braft/replicator.cpp:643-716 | sends within the limits or waits, and keeps the window |
| Replicators.Replicator.IsValidRpc | src/braft/replicator.cpp:381-394 | the scan for the call id |
| Replicators.Replicator.OnRpcReturned | src/braft/replicator.cpp:361-527 | ignored exactly if its call is not in flight; else what that kind of answer asks for, and the window is kept |
| Replicators.Replicator.OnBlockTimedout | src/braft/replicator.cpp:223-242 | a probe, unless a waiter is registered |
| Replicators.Replicator.ContinueSending | src/braft/replicator.cpp:718-757 | a cancelled waiter does nothing, any other sends |
| ReplicatorRuns.TakenHolds | src/braft/log_manager.cpp:334-405 | an accepted request leaves the peer matching through its end and undoes no match |
| ReplicatorRuns.WindowTiles | src/braft/replicator.cpp:643-716 | in every run the requests in flight tile the window, or there is one probe |
| ReplicatorRuns.CommitsAreStored | src/braft/replicator.cpp:487-493 | whatever is reported to commit_at is stored and matching at the peer, under lost and reordered replies |
| ReplicatorRuns.NoIndexSkipped | src/braft/replicator.cpp:487-519 | from where probing ended no index below the window is left out of the reports |
| ReplicatorRuns.CaughtUpIsTrue | src/braft/replicator.h:207-218 | a peer called caught up lacks no more than the margin |
| ReplicatorRuns.ProbingEnds | src/braft/replicator.cpp:441-468 | mismatches bring the probe to the first entry in at most as many steps |
| ReplicatorLive.NeverStuck | src/braft/replicator.cpp:223-242 | in every run a replicator that has met no higher term waits for an answer, for new entries or for a blocking time to end |
| ReplicatorLive.EverythingGetsThrough | src/braft/replicator.cpp:361-757 | from every moment of every run the rest can go well: the peer holds the whole leader log and all of it from where probing ended is reported |
| Replicators.Replicator.IsCatchup | src/braft/replicator.h:207-218 | caught up exactly if nothing up to the last index is missing but the margin |
| ReplicatorExample.EntryIsReplicated | src/braft/replicator.cpp:361-527 | there is a run that is refused, probes again, sends an entry, reports it stored and empties its window |
| ReplicatorRuns.FirstProbeMatches | src/braft/replicator.cpp:529-556 | and that probe every peer accepts |
| AppendEntriesCaches.NeighboursDecide | src/braft/node.cpp:3022-3051 | looking at two neighbours finds every overlap |
| AppendEntriesCaches.ReleasesReachable | src/braft/node.cpp:3081-3106 | the whole reachable chain is released exactly if there is no gap below the local last index |
| AppendEntriesCaches.GapHoldsBack | src/braft/node.cpp:3081-3106 | two requests of which one is held back |
| AppendEntriesCaches.AppendEntriesCache.Store | src/braft/node.cpp:3022-3079 | holds the request in order within the bound; clears on a clash; everything else is passed on |
| AppendEntriesCaches.AppendEntriesCache.ProcessRunnableRpcs | src/braft/node.cpp:3081-3106 | releases the front of the map, each once |
| AppendEntriesCaches.AppendEntriesCache.Clear | src/braft/node.cpp:3108-3121 | passes everything on in order of arrival |
| AppendEntriesCaches.WithoutKeepsOrder | src/braft/node.cpp:3081-3106 | a request that leaves the list leaves the order of arrival of the others as it is |
| AppendEntriesCaches.AppendEntriesCache.OnTimedOut | src/braft/node.cpp:3184-3200 | a stale timer does nothing; all go exactly if the request that waits longest was there when the timer was set, or it cannot be set again; else it runs for that request |
| Membership.NeighboursMeet | src/braft/ballot.cpp:24-79 | any quorum of a configuration meets any quorum of a neighbouring one |
| Membership.TwoApartMayMiss | src/braft/node.cpp:3292-3325 | without the joint stage, quorums of a larger change may miss each other |
| Membership.Diffs | src/braft/configuration.h:273-286 | the two set differences |
| Membership.Leadership.BecomeLeader | src/braft/node.cpp:3249-3263 | the first entry repeats the configuration and keeps the context busy |
| Membership.Leadership.Register | src/braft/node.cpp:855-891 | refused exactly while another entry is on its way; the configuration that is on is confirmed at once; else a change starts, and goes on at once if it adds no peer |
| Membership.Leadership.OnCaughtUp | src/braft/node.cpp:3265-3290 | an old answer is ignored, a failure ends the change, a success takes the peer off the list, and the last one appends exactly one entry, joint for more than one change |
| Membership.CatchUp | src/braft/node.cpp:3265-3312 | once every added peer has succeeded, in any order, exactly one entry with the new peers was appended |
| Membership.Change | src/braft/node.cpp:3205-3325 | a change that is accepted, caught up in any order and committed appends exactly its own entries, ends with the new peers in force, and removes a leader that is not among them |
| Membership.Leadership.Start | src/braft/node.cpp:3205-3245 | what is to be added is what has to catch up; without any the change goes on at once |
| Membership.Leadership.NextStage | src/braft/node.cpp:3292-3325 | one entry more: joint for more than one change, else the new configuration |
| Membership.Leadership.OnConfigurationChangeDone | src/braft/node.cpp:708-720 | only a commit of this term's entry moves on; out of joint, or done |
| Membership.Leadership.ConsecutiveQuorumsMeet | src/braft/node.cpp:2081-2107 | any quorum for one configuration entry of a leadership meets any quorum for the next |

## Left out

- InstallSnapshot as a protocol step, snapshot files and copying: only the snapshot id and its effect on the log manager are modelled.
- `reset_peers`: it gives up consistency on purpose.
- Leadership transfer and TimeoutNow, readonly mode, witness replicas, shutdown, metrics and descriptions.
- Pre-vote: it only restricts when a node stands for election, and here it may at any time.
- RPC, threads and timers: messages are values in a set, timeouts are steps that may happen at any time.
- The reserved peers and the retry of votes in `VoteBallotCtx`: a vote request may be sent again at any time instead.
- I/O errors, log-error states, and errors raised by a state machine in `on_apply`.
- The protobuf encoding of configuration entries inside a segment: it arrives here as bytes.
- Crash behaviour of `SegmentLogStorage::reset`.
- The waiters of the log manager and the wake-up of replicators: a wake-up is a step of its own.
- LogManagers.LogManager.AppendEntries: it is called on a log all of whose indexes are readable; what follows after an entry has been lost is open until the queue is worked off.
- LogManagers.LogManager.DiskThread: does not model the closures it runs, which `RaftNode.DiskStep` does.
- LogManagers.LogManager.SetSnapshot: asks that ids of committed entries rank as their indexes do, and does not carry the configuration, which is in ConfigurationManagers.
- ConfigurationManagers.ConfigurationManager.Get: before the snapshot, with nothing held at or before the index, it answers the snapshot's configuration and no more is said.
- ReplicatorRuns.WindowTiles: without readonly toggles, snapshots to install and a timer that fails to start.
- Replicators.Replicator.Send: on a leader log that starts at index 1, so it never falls back to a snapshot.
- AppendEntriesCaches.AppendEntriesCache.Store: the order in which several threads handle what is passed on is open, as it is in the source.
- LeaseSafety.NoLaterLeader: logs are abstract there; whether a candidate's log is good enough is any value.
- RaftSafety.LeadersHoldCommitted: with one fixed configuration; `CommitRule` and `Membership` carry what is proved across changes.
- Members of classes that return or change objects are verified against their functions; aliasing between a node's own objects is not modelled beyond their footprints.
