# A model of the Raft video store

The program is a small Raft cluster that replicates chunked video uploads. Its consensus protocol
follows "In Search of an Understandable Consensus Algorithm" (Ongaro and Ousterhout), sections 5.2
to 5.4, and departs from it in nine places. This project models the program as it is, states each
departure, proves exactly when a handler as written does what its repaired form does, and proves the
guarantees of Raft over every run of the repaired cluster. `dafny verify dfyconfig.toml` checks it.

## How it is built

| file | holds |
|---|---|
| `types.dfy`, `handlers.dfy` | messages, node state, and every handler as a function of the state, in the modes `AsWritten` and `Repaired` |
| `node.dfy` | the classes of one node with loops and assignments, each method proved equal to the `AsWritten` function |
| `log_merge.dfy`, `commitment.dfy` | the merge of AppendEntries and the majority rule |
| `restore.dfy`, `framing.dfy`, `durability.dfy` | the two files of a node: what is on disk and what comes back |
| `rules.dfy` | what each handler leaves behind in both modes, on the fields of the node: when a vote is granted, what a follower commits, how a node starts |
| `steps.dfy` | what steps of a run bring about: who stops leading and why, what a timer starts, what an answer teaches, how far a follower commits |
| `departures.dfy` | for every handler, the condition under which both modes agree, in both directions |
| `indices.dfy`, `stale_indices.dfy` | the indices a new leader keeps as written: when they are harmless, and a run in which they are not |
| `cluster.dfy`, `network.dfy` | N nodes and a network; one step runs one handler of one node |
| `invariant.dfy`, `growth.dfy`, `votes.dfy`, `elections.dfy`, `replication.dfy`, `leadership.dfy`, `induction.dfy` | the inductive invariant of the repaired cluster and its proof |
| `safety.dfy` | the guarantees, over all runs and between any two moments of a run |
| `guarded.dfy` | runs of the code as written that meet the guards are runs of the repaired cluster |
| `scenarios.dfy` | concrete runs of three nodes: a commit that meets every guard, two leaders in one term, a committed entry lost |
| `backtracking.dfy` | how a leader repairs a lagging or diverging peer and brings it to its commit index |
| `paths.dfy`, `chunk_store.dfy`, `chunk_server.dfy`, `replicas.dfy` | file names, splitting, applying commands, replay, download; and the chunk files of a replica along a run of the cluster |

The network delays, reorders and drops. AppendEntries requests and answers may also arrive
repeatedly. A RequestVote call is answered at most once and its answer is delivered at most once,
as gRPC gives it. A node may crash and restart between any two steps.

The cluster state carries history that no handler reads: for each term its leader, the votes that
elected it, its log when it won and its log since; and the log of each voter when it voted. Vote
calls carry the number of the candidacy they belong to, because as written a node can stand twice in
one term (D2).

## Where the code departs from the paper

The code is followed everywhere; `Repaired` replaces D1 to D6 and D9 and keeps D7 and D8.

- D1, src/raft/command_log.cpp:18-21: new entries are inserted and a conflicting suffix stays behind
  them. Repaired: the suffix is dropped. Same result if and only if there is nothing to drop.
- D2, src/raft/client_callback_queue.cpp:52-66 and 74-78: replies are compared with the request they
  answer and not with the current term, although the comment at src/raft/concensus_module.cpp:45 says
  stale replies are meant to be recognised. Repaired: a reply to a request of another term is ignored.
- D3, src/raft/raft_server.cpp:56-57 and protos/raft.proto:10-11: -1, the last index and term of an
  empty log, travels as uint32 and is compared unsigned, so an empty log is the most up to date of
  all. Repaired: signed comparison. Same result if and only if both logs are empty or neither is.
- D4, src/raft/concensus_module.cpp:109-115: a new leader keeps the next and match indices of its
  last reign. Repaired: match indices start over at -1, and a next index outside the log is set to its
  end. Figure 2 of the paper sets every next index to the end; keeping those inside the log asks less.
  The code never shortens a log, so a kept index does harm only once it reaches past the end, and it
  gets there only through D5: without a moved next index the kept indices stay inside the log
  (`Indices.KeptIndicesHarmless`), and with one they commit an entry that only the new leader holds
  (`StaleIndices.KeptIndexCommits`).
- D5, src/raft/client_callback_queue.cpp:83-86: a success adds to the next index found at the time of
  the reply. Repaired: the index is computed from the request. Same result if and only if the next
  index has not moved since the request was built.
- D6, src/raft/raft_server.cpp:58-59: a granted vote is not written to disk. Repaired: it is.
- D7, src/raft/raft_server.cpp:116-117, kept: a candidate that hears the leader of its own term resets
  and clears its vote within the term, so a node can grant twice in one term. Election Safety holds
  all the same: before a term has a leader no vote in it changes, and afterwards the nodes that
  elected the leader keep theirs.
- D8, src/raft/raft_server.cpp:148, kept: the commit index is clamped to the size of the log and not
  to its last index. No message of any run reaches the clamp.
- D9, src/raft/snapshot.cpp:55-58: all records are parsed into one message object. Parsing a delimited
  record merges into the object without clearing it, and fields at their default value are not in
  the record, so such a field takes the value of the entry before. Repaired: a fresh message for each
  record. Same result if and only if no field falls back to its default from one entry to the next.

## Model

| member | source | states |
|---|---|---|
| `Safety.ElectionSafety` | src/raft/client_callback_queue.cpp:56-66 | In every run, two nodes that lead the same term, at the same or at different moments, are the same node, with the vote-clearing reset kept as written. |
| `Safety.LogMatching` | src/raft/raft_server.cpp:123-144 | Logs of any two nodes at any two moments that hold the same term at an index are identical through that index. |
| `Safety.LogTermsOrdered` | src/raft/raft_server.cpp:128-144 | Terms never go down inside a log and never exceed the node's current term. |
| `Safety.LeaderCompleteness` | src/raft/client_callback_queue.cpp:93-108 | What a leader's majority rule committed in a term is a prefix of the log of every leader of a later term, at whatever moment that one leads. |
| `Safety.CommitsReachLeaders` | src/raft/client_callback_queue.cpp:93-108 | Whatever any node's commit index covers at a moment is in the log of every leader of a later term than the node's, at whatever moment that one leads. |
| `Safety.StateMachineSafety` | src/raft/client_callback_queue.cpp:110-122 | What any two nodes have pushed to their commit queues at any two moments, across restarts, agrees at every common index; one is a prefix of the other. |
| `Safety.CommittedPrefixStays` | src/raft/raft_server.cpp:147-158 | In every run, no step but a restart of the node lowers its commit index, changes or drops a committed entry or takes back a pushed one; a restart keeps the log; and the pushed entries are exactly the log through the last applied index. |
| `Safety.CommittedForever` | src/raft/raft_server.cpp:128-158 | What a node has committed is in its log at every later moment, restarts included. |
| `Safety.MatchIndexSound` | src/raft/client_callback_queue.cpp:80-88 | A match index speaks of a moment at which the peer, in the leader's term, held the leader's log that far; while the peer's term is that term it still does. |
| `Safety.CrashLosesNothing` | src/raft/concensus_module.cpp:173-185 | At every moment a restart brings a node back with its term, vote and log, and terms never go down. |
| `Safety.NoOverread` | src/raft/raft_server.cpp:147-157 | In no reachable state can a message in flight or a heartbeat read past the end of a log; commit indices stay inside it. |
| `Replication.ClampUnreachable` | src/raft/raft_server.cpp:148 | Every message carries a commit index below its own end, and accepting it leaves the log at least that long. |
| `Induction.StepKeeps` | src/raft/raft_server.cpp:29-168 | Every event of the repaired cluster keeps the invariant. |
| `Induction.RunExtends` | src/raft/concensus_module.cpp:162-167 | Along a run terms only go up, messages stay known, a term keeps its leader and its quorum, and leaders only append. |
| `Votes.ResetKeeps` | src/raft/concensus_module.cpp:117-127 | The reset keeps the invariant, in a later term and, for a candidate that hears its leader, in the same term. |
| `Elections.MajorityBacksLeader` | src/raft/client_callback_queue.cpp:60-63 | A majority that votes for a node in a term with a leader shares a voter with the leader's quorum, so the node is that leader. |
| `Elections.UpToDateContains` | src/raft/raft_server.cpp:51-57 | A log at least as up to date as one that holds what was acknowledged in a term holds it too. |
| `Elections.WinCompletes` | src/raft/client_callback_queue.cpp:61-64 | At a win, every entry of an earlier term is in the winner's log or can never be committed. |
| `Replication.CommittedNotBlocked` | src/raft/client_callback_queue.cpp:103-106 | A committed entry cannot have a majority that moved on without it. |
| `Leadership.CommittableCommits` | src/raft/client_callback_queue.cpp:93-106 | What passes the majority rule in a reachable leader state is held by a majority of the cluster. |
| `Guarded.GuardedStep` | src/raft/raft_server.cpp:29-168 | A step of the code as written that meets its guard is, but for the vote on disk, the step of the repaired cluster. |
| `Guarded.GuardedRunsAreRepaired` | src/raft/client_callback_queue.cpp:42-129 | A run as written in which every call meets its guard is a run of the repaired cluster. |
| `Guarded.GuardedSafety` | src/raft/client_callback_queue.cpp:42-129 | On such runs the code as written has one leader per term and agreeing commit queues. |
| `Scenarios.EntryCommitted` | src/raft/client_callback_queue.cpp:84-122 | A run as written that meets every guard elects a leader and commits an entry. |
| `Scenarios.RepairedCommits` | src/raft/client_callback_queue.cpp:84-122 | By the refinement the repaired cluster has a run that commits an entry, too. |
| `Scenarios.TwoLeaders` | src/raft/client_callback_queue.cpp:56-66 | D2: a run as written that ends with two leaders of term 2. |
| `Scenarios.CommittedEntryLost` | src/raft/raft_server.cpp:54-58 | D3: a run as written in which an entry is committed and a later leader's log is empty. |
| `Departures.UpToDateExactIff` | src/raft/raft_server.cpp:56-57 | The unsigned log comparison agrees with the signed one if and only if both logs are empty or neither is. |
| `Departures.EmptyLogWinsVote` | src/raft/raft_server.cpp:56-57 | D3: an empty log beats a log with an entry, and a log with an entry loses against an empty one. |
| `Departures.RequestVoteExactIff` | src/raft/raft_server.cpp:40-67 | RequestVote as written does what the repaired one does if and only if the vote is not open or the two logs are both empty or both not. |
| `Departures.RestartExactIff` | src/raft/concensus_module.cpp:173-185 | A restart comes back as repaired if and only if the vote was on disk and no field of the log falls back. |
| `Departures.CrashForgetsVote` | src/raft/raft_server.cpp:58-59 | D6: after granting and crashing the vote is remembered if and only if it had been on disk in that term already. |
| `Departures.PromoteExactIff` | src/raft/concensus_module.cpp:109-115 | Keeping the indices equals the repaired promotion if and only if every match index is -1 and every next index lies in the log. |
| `Departures.KeptMatchCommitsIff` | src/raft/concensus_module.cpp:109-115 | D4: a new leader that submits its first entry commits it at the next pass of the commit loop if and only if a majority of the match indices it kept reach past its log; with the indices reset it never does. |
| `Indices.KeptIndicesHarmless` | src/raft/client_callback_queue.cpp:83-86 | D4 needs D5: in every run as written in which no success finds the next index moved, match indices stay below the end of the log and next indices at most at it, so a kept index commits nothing. |
| `StaleIndices.KeptIndexCommits` | src/raft/concensus_module.cpp:109-115 | A run as written, without undefined behaviour, in which a leader of term 3 commits an entry nobody else holds on the strength of an index from its reign in term 1. |
| `Departures.VoteReplyExactIff` | src/raft/client_callback_queue.cpp:42-68 | A vote reply is handled as repaired if and only if it has no effect, or answers a request of the current term and does not win with stale indices. |
| `Departures.StaleVoteElects` | src/raft/client_callback_queue.cpp:56-66 | D2: a grant of term 1 elects a leader of term 2. |
| `Departures.StaleReplyLowersTerm` | src/raft/client_callback_queue.cpp:52-55 | D2: a late rejection takes a node from term 5 back to term 2. |
| `Departures.AppendEntriesExactIff` | src/raft/raft_server.cpp:107-164 | AppendEntries as written does what the repaired one does if and only if an accepted message leaves no conflicting suffix. |
| `Departures.AppendReplyExactIff` | src/raft/client_callback_queue.cpp:70-129 | Every reply, also one to a request of a term the node has fallen back from, is handled as repaired if and only if it is not a stale rejection with effect, and either it answers a request of the current term whose next index has not moved, or it changes nothing. |
| `Departures.SecondReplyOvershoots` | src/raft/client_callback_queue.cpp:83-86 | D5: two replies for the same entry take the match index past the end of the log. |
| `Rules.GrantedIff` | src/raft/raft_server.cpp:54-57 | In both modes a vote is granted if and only if it is free and the candidate's log ends in a later term or in the same one and is not shorter, D3 apart; stated on the two logs. |
| `Rules.FreeVoteGranted` | src/raft/raft_server.cpp:49-57 | A free vote goes to a candidate with the voter's log, an extension of it in the same last term, or a log that ends in a later term; as written unless just one log is empty. |
| `Rules.VoterAfter` | src/raft/raft_server.cpp:43-67 | The answer carries the term the voter is in afterwards, the greater of its own and the request's, and the whole state after a grant or a refusal. |
| `Rules.VoteReplyTeachesIff` | src/raft/client_callback_queue.cpp:52-55 | An answer brings the candidate to the voter's term if and only if it is there already or still waits for it. |
| `Rules.GrantCounts` | src/raft/client_callback_queue.cpp:56-66 | A grant counts once, the candidate leads exactly with a strict majority, and what its indices are then. |
| `Rules.FollowerAfter` | src/raft/raft_server.cpp:107-164 | In both modes a message is a success if and only if it is not of an earlier term and follows an entry of the log; the answer carries the node's term; who hears its own or a later term is a follower; a refusal leaves log, commit index and queue alone. |
| `Rules.HearingClears` | src/raft/raft_server.cpp:107-121 | D7: vote and counted votes go with a later term, or with the role of a candidate or leader of the same term, and with nothing else; the disk follows. |
| `Rules.FollowerCommits` | src/raft/raft_server.cpp:146-159 | In both modes a node that takes a message has as commit and applied index the greater of its own and the leader's commit index, and has pushed exactly the entries in between. |
| `Rules.QueueIsLogIff` | src/raft/raft_server.cpp:146-159 | After that its queue is its log through the commit index if and only if no entry of the message contradicts a committed one (D1 inserts below the commit index otherwise). |
| `Rules.SuccessCommits` | src/raft/client_callback_queue.cpp:84-122 | After a success no entry of the leader's term above its commit index is on a strict majority by its match indices, the commit index itself is, and what was committed was pushed. |
| `Rules.AppendReplyTeachesIff` | src/raft/client_callback_queue.cpp:74-78 | An answer brings the sender of the message to the term it carries if and only if it is there already, or the answer is of a later term than the message and, repaired, the message of the current one. |
| `Rules.RestartStarts` | src/raft/concensus_module.cpp:173-185 | In both modes a restart leaves a follower with term and vote from disk, every next index at the size of the log, every match index at -1, nothing committed and nothing pushed, and no other node changed. |
| `Rules.FirstStart` | src/raft/concensus_module.cpp:5-28 | A start on empty files is the initial node. |
| `Steps.DeposedIff` | src/raft/concensus_module.cpp:30-41 | In every run of either mode a leader stops leading its term if and only if it restarts, is asked for a vote of a later term, hears a message of its own or a later term, or gets an answer of a later term than the message (repaired: to a message of its term); a timer never does it. |
| `Steps.OnlyLaterTermsDepose` | src/raft/concensus_module.cpp:117-127 | In every repaired run a leader is deposed only by a restart or by a message or answer of a later term. |
| `Steps.StaleReplyDeposes` | src/raft/client_callback_queue.cpp:74-78 | D2: as written an answer of term 2 deposes a leader of term 5. |
| `Steps.TimerActsIff` | src/raft/concensus_module.cpp:33-41 | A timer acts if and only if the node does not lead and is in the term in which the timer was set. |
| `Steps.TimerStands` | src/raft/concensus_module.cpp:43-64 | Then the node is a candidate of the next term in memory and on disk, every peer has an unanswered request with the end of its log, and no earlier call is touched. |
| `Steps.BeatSends` | src/raft/concensus_module.cpp:67-102 | A heartbeat sends every peer the log from its next index on with the entry before it and the commit index, and changes nothing else. |
| `Steps.AnswerTeaches` | src/raft/client_callback_queue.cpp:52-55 | In every run of either mode a candidate that is delivered an answer in the term of its request is afterwards at least in the term the voter was in when it answered. |
| `Steps.LongerLogGranted` | src/raft/raft_server.cpp:54-59 | In every repaired run a free vote goes to every standing candidate whose log begins with the voter's. |
| `Steps.MajorityLeads` | src/raft/client_callback_queue.cpp:60-65 | In every run of either mode no node with a peer stays candidate with a strict majority of votes counted. |
| `Steps.TakenCommits` | src/raft/raft_server.cpp:146-159 | In every repaired run a node that takes a message has committed as far as the leader had, its queue is its log that far, and its answer says so. |
| `Network.CallsKept` | src/raft/concensus_module.cpp:53-62 | In every run of either mode each vote call that was opened stays, with its request, at most one answer and at most one delivery. |
| `LogMerge.Agreeing` | src/raft/raft_server.cpp:128-137 | The scan stops at the first index whose term differs, or at the end of the log or the message. |
| `LogMerge.InsertIsReplaceIffNoConflict` | src/raft/command_log.cpp:18-21 | Inserting equals replacing if and only if nothing follows the agreeing part of the log or nothing is new in the message. |
| `LogMerge.InsertBreaksOrder` | src/raft/command_log.cpp:18-21 | D1: a suffix kept behind a newer entry makes the terms of a log go down. |
| `LogMerge.ScanIsFirst` | src/raft/raft_server.cpp:128-137 | The scan length is the one place up to which all terms agree and where, if both sides go on, the next do not. |
| `LogMerge.MergedByIndex` | src/raft/command_log.cpp:18-21 | The log after a merge, index by index: as written every old entry from the first disagreement on stands behind the new ones in its old order; repaired nothing does; without new entries the log stays. |
| `LogMerge.MergeOfSlice` | src/raft/raft_server.cpp:128-144 | An accepted slice of the leader's log leaves the follower's log as it was, when it already extends the slice, and else makes it the leader's log through the slice. |
| `LogMerge.MergeIdempotent` | src/raft/raft_server.cpp:128-144 | The merge keeps everything through the previous index, makes every entry's term present at its index, and changes nothing the second time, whatever the logs. |
| `LogMerge.MergeOrderInsensitive` | src/raft/raft_server.cpp:124-144 | Two slices of one leader's log, both acceptable to begin with, leave the same log in either order, and each is still acceptable after the other. |
| `LogMerge.AcceptsOnTheWire` | src/raft/raft_server.cpp:124-125 | The consistency check on uint32 values agrees with the signed one for every int index and log that fits an int. |
| `Commitment.AdvanceIsMajorityMaximum` | src/raft/client_callback_queue.cpp:90-108 | The new commit index is the greatest of the old one and the committable later ones, and every index it newly covers is matched by a majority. |
| `Commitment.AdvanceBelowIsGreatest` | src/raft/client_callback_queue.cpp:93-108 | The search ends at the old commit index or at a committable one, and no committable index below its bound is greater. |
| `Commitment.MatchCountIsSetSize` | src/raft/client_callback_queue.cpp:95-101 | The loop counts each peer once: its count is the size of the set of peers that match. |
| `Commitment.MatchCountAntitone` | src/raft/client_callback_queue.cpp:96-101 | An earlier index is matched by at least as many peers. |
| `Backtracking.RoundRepairsOrBacktracks` | src/raft/client_callback_queue.cpp:80-127 | In either mode, a heartbeat round succeeds exactly when the peer has the leader's entry below the next index; then the peer's log starts with the leader's and the indices say so, and else the next index goes down by one and nothing else moves. |
| `Backtracking.BacktrackingRepairs` | src/raft/client_callback_queue.cpp:123-126 | Rounds end after at most next + 1 of them, at the first index at which the logs agree, with the leader's whole log a prefix of the peer's; the peer has then committed and pushed as far as the leader had when it began. |
| `Backtracking.LeadersCanRepair` | src/raft/concensus_module.cpp:79-95 | Every leader of every run meets the conditions of the two lemmas above for every peer that has not seen a later term. |
| `Backtracking.RoundCommits` | src/raft/raft_server.cpp:146-159 | After a successful round the peer's commit index is at least the leader's, and its queue begins with the leader's committed entries if and only if the two had committed nothing different. |
| `Backtracking.RepairCommits` | src/raft/raft_server.cpp:146-159 | The same after all the rounds of a repair. |
| `Backtracking.RepairedPeerApplies` | src/raft/client_callback_queue.cpp:123-127 | In every run a leader that repairs a peer without a later term leaves it with everything the leader had committed in its queue. |
| `Node.CommandLog.constructor` | src/raft/command_log.cpp:5-11 | An empty log, indices at -1 and, for every peer, next 0 and match -1. |
| `Node.CommandLog.AppendLog` | src/raft/command_log.cpp:13-16 | The entry is the new last one. |
| `Node.CommandLog.InsertLog` | src/raft/command_log.cpp:18-21 | Below the index the old entries, then the new ones, and every old entry from the index on stands, in its old order, exactly as many places later as entries were inserted. |
| `Node.Snapshot.PersistState` | src/raft/snapshot.cpp:11-21 | The state file holds the term and the vote, the log file is untouched. |
| `Node.Snapshot.PersistLog` | src/raft/snapshot.cpp:23-35 | The file holds the records of the old entries, when appending, followed by the new ones. |
| `Node.Snapshot.RestoreState` | src/raft/snapshot.cpp:37-49 | The last persisted term and vote, or 0 and no vote. |
| `Node.Snapshot.RestoreLog` | src/raft/snapshot.cpp:51-66 | Parsing the bytes with one message object yields each entry merged over the ones before. |
| `Node.Snapshot.Empty` | src/raft/snapshot.cpp:68-73 | True exactly when nothing was ever persisted. |
| `Node.CommitChannel.Push` | src/raft/concensus_module.cpp:155-160 | The entry goes to the end of the queue. |
| `Node.CommitChannel.Pop` | src/raft/commit_channel.cpp:17-18 | The first entry is taken off the queue. |
| `Node.ConcensusModule.constructor` | src/raft/concensus_module.cpp:5-28 | A node starts as a follower from what its files hold, with every next index at the size of the log and every match index at -1; on empty files it is the initial node. |
| `Node.ConcensusModule.RestoreFromStorage` | src/raft/concensus_module.cpp:173-185 | Term, vote and log come from disk and every next index is the size of the log. |
| `Node.ConcensusModule.PointNext` | src/raft/concensus_module.cpp:181-184 | The loop points every peer's next index at the end of the log. |
| `Node.ConcensusModule.ResetToFollower` | src/raft/concensus_module.cpp:117-127 | Follower of the given term without a vote, in memory and on disk. |
| `Node.ConcensusModule.ElectionCallback` | src/raft/concensus_module.cpp:30-65 | A leader, or a node in another term than the one the timer was set in, does nothing; anyone else is a candidate of the next term in memory and on disk and has sent each peer its term, name and the end of its log. |
| `Node.ConcensusModule.HeartbeatCallback` | src/raft/concensus_module.cpp:67-102 | A leader sends each peer the log from its next index on with the term of the entry before; anyone else sends nothing. |
| `Node.ConcensusModule.PromoteToLeader` | src/raft/concensus_module.cpp:109-115 | Leader without counted votes, the indices as they were. |
| `Node.ConcensusModule.CommitEntry` | src/raft/concensus_module.cpp:155-160 | One more entry has been pushed; nothing else changes. |
| `Node.ConcensusModule.Submit` | src/raft/concensus_module.cpp:162-167 | A leader's log grows by the entry in memory and on disk; anyone else ignores it. |
| `Node.ConcensusModule.ApplyCommitted` | src/raft/raft_server.cpp:152-158 | The entries behind the last applied one are pushed in order through the commit index. |
| `Node.ConcensusModule.RequestVote` | src/raft/raft_server.cpp:40-67 | The answer carries the term the voter is then in; the vote is granted exactly when it is free and the candidate's log wins the comparison as written; the state is that of the vote rule. |
| `Node.ConcensusModule.FindMismatch` | src/raft/raft_server.cpp:128-137 | The loop finds the length of the agreeing part. |
| `Node.ConcensusModule.MergeEntries` | src/raft/raft_server.cpp:139-144 | From the first disagreement on the new entries stand in the log and every old entry stands behind them in its old order, in memory and on disk. |
| `Node.ConcensusModule.FollowLeaderCommit` | src/raft/raft_server.cpp:146-159 | The commit index is the greater of its own and the leader's, and the entries up to it have been pushed. |
| `Node.ConcensusModule.AppendEntries` | src/raft/raft_server.cpp:107-164 | The answer carries the node's term and is a success exactly for a message not of an earlier term that follows an entry of the log; then the entries are merged in by index and the node has committed and pushed as far as the leader had. |
| `Node.ConcensusModule.VoteReplyArrived` | src/raft/client_callback_queue.cpp:42-68 | The candidate counts, wins, steps down or ignores as written. |
| `Node.ConcensusModule.CountMatches` | src/raft/client_callback_queue.cpp:95-101 | One plus the number of peers whose match index reaches the index. |
| `Node.ConcensusModule.AdvanceCommitIndex` | src/raft/client_callback_queue.cpp:90-122 | The loop over all later indices ends at the greatest committable one, and the entries through it are pushed. |
| `Node.ConcensusModule.AppendReplyArrived` | src/raft/client_callback_queue.cpp:70-129 | Indices, commit index and pushed entries after a reply are those of the rule as written. |
| `Restore.ReadBackExactIff` | src/raft/snapshot.cpp:55-58 | Reading with one message object yields what was written if and only if no field falls back to its default. |
| `Restore.RestoreExactIff` | src/raft/snapshot.cpp:51-66 | The same for the whole log file. |
| `Restore.RestoreMixesUploads` | src/raft/snapshot.cpp:55-58 | D9: the first chunk of a second upload comes back with the sequence number and the mark of the last chunk of the first. |
| `Durability.RestartOnDisk` | src/raft/concensus_module.cpp:24-27 | A restart brings the log back if and only if no field of it falls back, and the vote if and only if it was on disk. |
| `Durability.StepOnDisk` | src/raft/raft_server.cpp:140-144 | A step as written leaves every node's term and log on its disk if and only if it is not a restart on a log that does not come back. |
| `Durability.RunOnDisk` | src/raft/concensus_module.cpp:117-124 | In every run as written, D1 to D6 included, disk and memory agree on term and log after every handler while all restores were exact. |
| `Framing.InjectiveIsFaithful` | src/raft/snapshot.cpp:31-33 | Every injective encoding of entries has a merge that behaves as protobuf's does. |
| `Framing.VarintRoundTrip` | src/raft/snapshot.cpp:31-33 | A length prefix is read back with its size, whatever follows it. |
| `Framing.VarintTruncated` | src/raft/snapshot.cpp:57 | No proper prefix of a length prefix parses. |
| `Framing.ParseFrame` | src/raft/snapshot.cpp:57 | A record is parsed to the message merged with its entry, and its length is found. |
| `Framing.ParseTruncated` | src/raft/snapshot.cpp:57 | No proper prefix of a record parses. |
| `Framing.FileHoldsIntended` | src/raft/snapshot.cpp:23-35 | After any sequence of appending and truncating writes the bytes are the records of the intended entries. |
| `Framing.TruncatedRestore` | src/raft/snapshot.cpp:51-66 | A file cut off at any byte restores a prefix of what the whole file restores. |
| `Framing.LogFileRoundTrip` | src/raft/snapshot.cpp:23-66 | Fresh messages restore exactly the intended entries; one message does if and only if no field falls back; a cut file restores a prefix in both cases. |
| `Paths.FilenameInjective` | src/file_system/chunk_manager.cpp:82-84 | Two chunks with the same file name have the same video, version and sequence number, even when ids contain slashes. |
| `ChunkStore.SplitIsFaithful` | src/file_system/chunk_manager.cpp:10-29 | The pieces put together are the data, every piece but the last is full, none is empty, and exactly the last is marked. |
| `ChunkStore.SplitUnique` | src/file_system/chunk_manager.cpp:10-29 | There is one such split. |
| `ChunkStore.WriteTouchesOneChunk` | src/file_system/chunk_manager.cpp:49-63 | A write is read back and leaves every other chunk of every video as it was. |
| `ChunkStore.ApplyAllAt` | src/raft/commit_channel.cpp:26-38 | After a log a path holds what the last command that touches it says, and else what was there before. |
| `ChunkStore.ReplayConverges` | src/raft/commit_channel.cpp:8-24 | After any history of partial replays, a full replay leaves the files that one replay from nothing leaves. |
| `ChunkStore.ReplayGoesBack` | src/raft/commit_channel.cpp:8-24 | Part of the way through a replay after a crash, older data shows again. |
| `ChunkStore.HistoryConverges` | src/raft/commit_channel.cpp:8-24 | The same for processes that apply their queue piece by piece and crash at any point: once one has applied all that those before it had, the files are what it alone makes of an empty store. |
| `ChunkStore.DownloadReturnsUpload` | src/file_system/chunk_server.cpp:82-90 | Whatever the files were before, after a log whose latest upload of a video is the data the download loop ends and returns exactly the data, despite other commands in between and leftover chunks of a longer upload. |
| `ChunkServer.ChunkManager.CreateChunks` | src/file_system/chunk_manager.cpp:10-29 | The loop yields the split of the data. |
| `ChunkServer.ChunkManager.WriteToChunk` | src/file_system/chunk_manager.cpp:49-63 | The chunk is in the file named after its video, version and sequence number, and no other file changes. |
| `ChunkServer.ChunkManager.DeleteChunk` | src/file_system/chunk_manager.cpp:65-80 | The file of exactly this path is gone and no other changes; a missing one changes nothing. |
| `ChunkServer.ChunkManager.ReadFromChunk` | src/file_system/chunk_manager.cpp:31-47 | The chunk in the file, or the empty message. |
| `ChunkServer.ApplyCommit` | src/raft/commit_channel.cpp:26-38 | An upload command writes its chunk to the file of its name, a delete command removes the path it carries. |
| `ChunkServer.ConsumeOne` | src/raft/commit_channel.cpp:10-22 | One round takes the first entry off the queue and applies it. |
| `ChunkServer.ConsumeEvents` | src/raft/commit_channel.cpp:8-24 | Everything queued is applied in order and the queue is empty. |
| `ChunkServer.SubmittedAppends` | src/file_system/chunk_server.cpp:34-46 | A leader's log and disk grow by the chunks in order under its term; anyone else drops them all. |
| `ChunkServer.Upload` | src/file_system/chunk_server.cpp:34-50 | The chunks of the split are submitted one after the other, and success is reported in any role. |
| `ChunkServer.Download` | src/file_system/chunk_server.cpp:82-90 | The loop returns the bytes of all chunks through the first marked one. |
| `Replicas.FilesSinceStart` | src/raft/commit_channel.cpp:8-24 | At every moment of every run, however far the consumer lags, the files of a node are those at the last restart of its process, or none, with what it has applied of its queue since. |
| `Replicas.ReplicaServesUpload` | src/file_system/chunk_server.cpp:82-90 | An upload handed to one replica is downloaded byte for byte from any other that has applied at least as many commands, unless a later one it applied touches the video, whatever crashes, elections and other uploads came in between. |
| `Replicas.UploadServed` | src/file_system/chunk_server.cpp:34-46 | End to end: after a leader has submitted the chunks of a video and committed them in its term, every replica that has applied the commands through the last chunk serves exactly the video, unless a later command it applied touches it. |
| `Replicas.FilesConverge` | src/raft/command_log.cpp:5-11 | Once a process has applied as many commands as every earlier process of its node had at any moment, the files are what those commands alone make of an empty store. |

## Left out

- gRPC and Boost: channels, tags, completion queues, the `CallStatus` cycle, the parsing of peer
  addresses. A reply carries its sender's name.
- Timers: an expired timer is a step that may happen at any time; the guards of the two callbacks are
  modelled, durations and random timeouts are not. Nothing is said about how soon a leader is elected.
- Threads: the source takes no lock around the consensus state. Every handler is one atomic step.
- Crashes inside a handler, between a change in memory and the write that follows it.
- The `Dead` role: `Shutdown` is private and nothing calls it.
- The DeleteVideo front end: `ChunkCount` (src/file_system/chunk_manager.cpp:86-94) never advances its
  counter. A delete command removes the exact path it names.
- `LockManager`: operations on the chunk files are atomic.
- Protobuf payloads: an abstract encoding with the merging behaviour of protobuf stands for them
  (`Framing.Faithful`; `Framing.InjectiveIsFaithful` builds one from any injective encoding). Length
  prefixes and records are modelled byte by byte. The state file and the chunk files hold one record
  each and are modelled as that record.
- Real file systems: directories, `.` and `..` in video ids, failing writes.
- Machine integers: terms, indices, sequence numbers and offsets are unbounded, and a video larger
  than an int can count is split as the arithmetic intends. Signed and unsigned 32-bit values are
  modelled where the code mixes them (D3, `LogMerge.AcceptsOnTheWire`).
- The floating point division in `CreateChunks`: it is the exact ceiling.
- Memory errors: a next index past the end of the log, and the clamp of D8, are undefined behaviour
  in the source. They are preconditions here, and `Safety.NoOverread` shows that the repaired cluster
  never meets them.
- ChunkServer.ConsumeEvents: the source waits for more work when the queue is empty; the model returns.
- ChunkServer.Download: without a chunk marked as last the source loops forever; the model requires one.
- ChunkServer.ChunkManager.CreateChunks: a chunk size of zero divides by zero and is excluded.
- Backtracking.BacktrackingRepairs: the rounds follow each other; heartbeats in flight at the same time
  are covered by the safety results only.
- Guarded.GuardedSafety: runs as written outside the guards have no safety theorem; `scenarios.dfy` and
  `stale_indices.dfy` show three that lose one.
- Logging, the empty orchestrator and cache classes, and the libav program.
