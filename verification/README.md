# Buoyant in Dafny

Buoyant implements the Raft consensus algorithm. This project models its servers and proves what the protocol
promises, in two layers that are joined by a refinement.

**The cluster.** `Cluster.dfy` is a step system. A server is a value (term, vote, log in memory, everything it
ever persisted, what it handed to its state machine, and its role), and a run is any sequence of actions at all;
an action that is not enabled changes nothing. Messages stay in the network for ever, so they may be lost,
repeated and reordered, and a delivery may shorten the entry list of an AppendEntries. An applier may finish its
calls at any time. Servers crash at any time and come back with what they persisted; the two writes of one
AppendEntries may be torn apart by a crash, after the follower has already committed. An exception in an operation
leaves its server as it is then, since the scheduler only tells the crash handler of the application, which may let
the server go on; a crash may follow or not.
`Protocol.dfy` says what each operation does, and `Effects.dfy` what that comes to, field by field and message by
message. The theorems about all runs are in `Safety.dfy`; the modules that it imports hold the invariants and their
preservation. `Leadership.dfy` follows the counters of one leader, `Probing.dfy` and `Convergence.dfy` how it brings
a follower up to date, and `HandedOnce.dfy` what reaches the state machines.

**The objects.** `Log`, `State`, `LogEntryApplier`, `ServerState`, `Scheduler`, `MessageBuffer`,
`InputConsumer` and the three roles are classes with the fields and loops of the originals. `RaftServer.Raft.Handle`
and its neighbours prove that the objects of one server compute the steps of the cluster, and `Refinement.dfy`
that every message in every run has the shape that they rely on. `Restoring.dfy` does the same for coming back.

Where a claim of the paper is false of this code, the code is modelled as it is:

- A follower cuts its log at every lower `prevLogIndex`, even for an empty and outdated heartbeat, where the paper
  only deletes what conflicts. So entries that were acknowledged and committed can be lost. Leader Completeness
  and State Machine Safety are proved for *clean* runs: no merge that is not as in the paper cuts a log below what
  its leader commits in the run, and leaders count only acknowledgements that were sent to them, by that peer and for
  that index, in their own term. A merge is not as in the paper exactly when the message ends before the log and
  conflicts with nothing, and then it cuts the log at the end of the message. `Counterexamples.dfy` has one run that
  shows both properties failing without the condition on merges. The writes of one message may be torn apart in all
  of this.
- A leader does not compare the term of an AcceptEntries with its own. One of an earlier term is ignored if it lies
  below nextIndex, and otherwise counted. The acknowledgements behind the counters are of the leader's term exactly
  as long as none is counted that is not; the same run ends with a leader that commits what no one else ever had.
- A follower that is told of a commit by a message with `prevLogIndex` 0 hands a missing entry to its applier. If
  the applier is idle then, it stalls: the next entry makes it take the missing one, throw and stay busy for ever, and
  the commit that handed that entry over ends there.
- A follower commits before the entries of the same message land, so it never commits these.
- A follower commits again what it has committed, and hands that entry over again, when the leader has committed more
  but sends from the same `prevLogIndex`. `HandedOnce.dfy` has the exact condition for handing everything over once.
- A leader sends entries only from matchIndex on, and heartbeats do not advance matchIndex. One that was elected with
  entries brings a follower up to date only if it gets back to the beginning of the log without meeting the
  follower's, which is so if they have nothing in common or the follower has nothing but the first entry, or if there
  is nothing to bring. Otherwise it sends heartbeats for ever. `Probing.dfy` has the exact condition.
- The comment "Shortest log first" in the fuzz runner is wrong: the logs are sorted longest first.

A server that accepted entries in term 0 of its own storage, because only the entries of a message landed before
a crash, restores none of them: the harness restores nothing for a server that never persisted a term.

## Model

| member | source | states |
|---|---|---|
| Safety.OneLeaderPerTerm | src/lib/roles/Candidate.js:67-134 | Election Safety: at any two moments of any run, two leaders of the same term are the same server, across crashes, restarts and any behaviour of the network |
| Safety.ElectionRestriction | src/lib/roles/Candidate.js:67-92 | every leader has a majority of voters, itself included; each cast its vote for it in that term, by an action before which it had no vote in that term, and its log at that moment was no more up to date than the one the leader campaigned with; since then the leader's log grew only by entries of its own term |
| Safety.AllLogsMatch | src/lib/Log.js:77-126 | Log Matching for any two logs, in memory or as a restart would replay them, of any two servers at any two moments of any run: entries of equal index and term imply equal prefixes |
| Safety.DurableReplay | src/lib/Log.js:28-53 | in every state of every run the log in memory is a prefix of what a restart would rebuild from the persisted stream, although truncations are never persisted |
| Safety.DurableReplayExact | src/lib/Log.js:77-126 | the two are equal after every append and after every merge that brings at least one entry |
| Safety.AcknowledgementSoundness | src/lib/roles/Follower.js:162-191 | whenever anyone sends AcceptEntries(t, k), for the first time or again, its whole log is at that moment the first k entries of the log of the leader of term t, seen at any moment of that leadership, even if the transport shortened the entry list |
| Safety.AcknowledgedToLeader | src/lib/roles/Follower.js:175-188 | such a leader exists: one was elected in term t, and at some moment had a log of at least k entries |
| Safety.AckWhenSent | src/lib/roles/Follower.js:175-188 | the same against the longest log of the leadership: the sender acts, and its log after the action is a beginning of it of exactly k entries |
| Safety.CommitCertificate | src/lib/roles/Leader.js:157-202 | in runs where leaders count only backed acknowledgements (see Commitment.BackedExactly): a leader with commit index i > 0 has an entry of its own term there, and at least ceil(P/2) distinct peers have each had all of its first i entries |
| Commitment.BackedExactly | src/lib/roles/Leader.js:164-167 | throughout a run an AcceptEntries of the leader's own term stands behind every matchIndex if and only if every AcceptEntries that a leader counts is, in peer and index, one that was sent to it in its term |
| Commitment.AcceptBackedExactly | src/lib/roles/Leader.js:157-174 | one step: with all matchIndex values backed, handling an accept keeps them backed if and only if it is not counted, as one below nextIndex, or is itself backed |
| Commitment.CurrentAcksAreBacked | src/lib/roles/Leader.js:164-167 | in particular runs in which every accept that is counted carries the current term are among these |
| Safety.QueuedIsCommitted | src/lib/roles/Follower.js:169-173 | in every run, whatever any server hands to its state machine was committed by some leader, at the same index |
| Safety.LeaderCompleteness | src/fuzz/Runner.js:107-119 | in clean runs (see above) what a leader has committed is in the log of every leader of a later term, at all times |
| Safety.StateMachineSafety | src/fuzz/Runner.js:167-185 | in clean runs no two servers ever hand different entries of the same index to their state machines |
| Safety.LosesExactlyWhenOutrun | src/lib/Log.js:93-99 | in every run a message is merged as the receiver rule of the Raft paper says, in full or torn by a crash, if and only if it does not both end before the log does and agree with the log on every entry it carries |
| Safety.SparesExactlyAbove | src/lib/Log.js:93-99 | such a merge leaves a log what it has of given beginnings of leaders' logs, as of what they commit, if and only if the message does not end below any of these that the log has |
| Completeness.PaperMergesSpare | src/lib/Log.js:93-99 | runs in which every merge is the one of the paper meet the condition on clean runs |
| Counterexamples.LeaderCompletenessFails | src/lib/Log.js:92-99 | without the condition on merges it is false: a run of three servers in which a delayed heartbeat makes a follower discard what its leader has committed, and the follower leads the next term without it |
| Counterexamples.StateMachineSafetyFails | src/lib/Log.js:92-99 | the same run goes on to apply different entries at index 1 on two servers |
| Counterexamples.OnlyMergesDiffer | src/lib/Log.js:92-99 | up to that point the run breaks no other condition: every accept that is counted is current and all writes are whole; only a merge differs from the receiver rule of the Raft paper, and cuts what is committed |
| Counterexamples.CommitCertificateFails | src/lib/roles/Leader.js:157-169 | with an accept that is counted and not backed it is false: the run ends with a leader that commits an index that no other server ever had |
| Counterexamples.HeartbeatThrows | src/lib/roles/Leader.js:234-252 | an operation can throw: a leader that has counted a stale accept past the end of its log has no entry at prevLogIndex for its next heartbeat; it goes on leading |
| Counterexamples.MissingIsQueued | src/lib/roles/Follower.js:169-173 | a follower can queue a missing entry: one that hears of a commit before it has any entries does, and its applier stalls |
| Counterexamples.TornWriteShows | src/lib/roles/Follower.js:163-167 | a torn write can leave newer entries than the term: a server in term 0 holds entries of term 1, in memory and replayed, and comes back with none of them |
| Terms.TermsAscend | src/lib/Log.js:77-126 | in every run, torn writes included, terms never decrease along any log, in memory, replayed, or of a leader, and the entries that a leader was elected with are of earlier terms |
| Terms.TermsWithinExactly | src/lib/roles/Follower.js:162-173 | over whole runs: no log in memory or replayed ever holds an entry newer than its server's term if and only if no torn write leaves one |
| Terms.TornWriteExact | src/lib/roles/Follower.js:163-167 | when a crash lets only the entries of one AppendEntries land, the terms in the server's logs still do not exceed its own if and only if none of these entries is newer than the persisted term |
| ElectionSafety.QuorumsMeet | src/lib/roles/Candidate.js:69-73 | two sets of more than ceil(P/2) servers share a member |
| ElectionSafety.WonOnce | src/lib/roles/Candidate.js:121-134 | a candidate whose counter reaches zero has a majority of recorded ballots, and no one else was elected in its term before |
| Operations.ElectionInvariant | src/lib/State.js:26-54 | over every run: one vote per server and term, kept across role changes and restarts; every GrantVote in the network is backed by a recorded ballot; the missing votes of a candidate plus those received are always ceil(P/2) |
| LogOperations.MergeIsLeaderPrefix | src/lib/Log.js:92-126 | when the consistency check passes, the merged log is exactly a prefix of the log of the leader of that term |
| LogOperations.LogInvariant | src/lib/roles/Leader.js:234-252 | over every run: every AppendEntries is a slice of the log of the leader of its term, every AcceptEntries names a log that its sender had, and every log is made of prefixes of leaders' logs |
| Commitment.CommitInvariant | src/lib/roles/Leader.js:157-202 | over every run whose counted acknowledgements are backed: behind every matchIndex there is an acknowledgement of the leader's term, and behind every commit a set of peers that acknowledged it |
| Completeness.CertifiedInLaterLeaders | src/lib/roles/Candidate.js:121-134 | if what was acknowledged by enough peers was spared by the merges, it is in the log of every later leader at its election |
| Completeness.CompletenessInvariant | src/lib/roles/Follower.js:108-128 | for any beginnings of leaders' logs that the merges of a run spare: once acknowledged, such a beginning stays in its holder's log, and is there when it votes in a later term, unless a leader without it was elected first |
| Completeness.MergesAsPaperExactly | src/lib/Log.js:93-99 | in any state that satisfies the log invariants a merge, torn or not, is the one of the paper if and only if the message is not outrun by the log |
| Application.AcceptQueued | src/lib/roles/Follower.js:162-173 | follower commit agreement: every entry that an accepted message makes the follower queue was committed by the leader of that term and is that leader's entry |
| Application.AcceptGrows | src/lib/roles/Follower.js:169-173 | it lies at or below prevLogIndex, and the follower queues something that cannot be applied if and only if it commits at prevLogIndex 0 |
| Application.CrashQueued | src/lib/roles/Follower.js:162-173 | what a follower hands over before a crash that loses some or all of the message's writes is committed as well |
| Application.QueuedInvariant | src/lib/Log.js:128-138 | over every run, everything in every server's queue is committed |
| Effects.EntriesAccepted | src/lib/roles/Follower.js:162-191 | on the fields of a server in any role: what entries that follow on its log do to term, vote, log and stream, and the acknowledgement; if the leader has committed more and prevLogIndex is positive, the commit index becomes the smaller of the leader's and prevLogIndex, and the queue grows by exactly the entries after the last one handed over up to there, or by that one entry again; if the leader has not, nothing is handed over |
| Effects.EntriesRejected | src/lib/roles/Follower.js:147-160 | entries that do not follow on the log change nothing but the role and term of a server that converts, and are rejected with its term and a conflict at prevLogIndex or at the end of its log |
| Effects.EntriesOfOldTerm | src/lib/roles/Follower.js:132-142 | entries of an older term change nothing, and are rejected with the server's own term except by a leader |
| Effects.BehindIsAnOrder | src/lib/Log.js:140-147 | a later last term, or the same with at least the length, is never behind; of two different ends of a log exactly one is behind the other, and none is behind itself |
| Effects.LongerIsNotBehind | src/lib/Log.js:140-147 | a log whose terms never decrease is not behind its own beginnings, and all of these but itself are behind it |
| Effects.GrantsExactly | src/lib/roles/Follower.js:95-130 | in any role a vote is granted if and only if the term is not older, the server follows or converts, its vote is free, and the last terms and lengths of the two logs, compared in that order, do not put the candidate behind |
| Effects.VoteHandled | src/lib/roles/Follower.js:95-130 | with a grant the term and vote are set; without one a newer term is adopted with no vote, an older one is denied with the server's own term, and nothing else changes |
| Effects.VoteWhileLeading | src/lib/roles/Leader.js:126-142 | a leader answers a vote request of its own term with one heartbeat to a peer, or an exception, and changes nothing |
| Effects.UpdatesSent | src/lib/roles/Leader.js:234-252 | one message to each peer in order, with the term and entries after nextIndex - 1 spelled out, up to the first peer without an entry there, which throws |
| Effects.HeartbeatsSent | src/lib/roles/Leader.js:104-106 | if every peer has one, a heartbeat goes to each |
| Effects.AppendHandled | src/lib/roles/Leader.js:209-228 | the new entry joins log, stream and pending entries, with half of the peers to wait for, and every peer gets an update |
| Effects.RejectionHandled | src/lib/roles/Leader.js:144-155 | for a conflict strictly between matchIndex and nextIndex, nextIndex becomes the conflict, nothing else changes, and the peer gets exactly one heartbeat from there, or an exception; any other rejection changes and sends nothing |
| Effects.AcceptHandled | src/lib/roles/Leader.js:157-202 | a counted accept sets nextIndex and matchIndex, lowers the counters in its range, commits exactly the first entries that then need no more, hands them over as one range, and sends the rest of the log if there is any |
| Effects.AcceptNotCounted | src/lib/roles/Leader.js:164-173 | an accept below nextIndex changes nothing, and is answered with what follows if the log goes on |
| Effects.ElectionStarted | src/lib/roles/Candidate.js:67-92 | the next term with a vote for itself, half of the peers to win, and one request to each peer with the end of the log |
| Effects.VoteCounted | src/lib/roles/Candidate.js:121-134 | each peer's vote lowers the count once in the current term; the last one makes a leader that expects every peer at the end of its log and sends each a heartbeat |
| Effects.OthersIgnored | src/lib/roles/Candidate.js:94-108 | any other message changes nothing but the term and role of a leader or candidate that hears of a newer term, and is not answered |
| Probing.RejectionsEnd | src/lib/roles/Leader.js:150-154 | over any sequence of rejections, by any peers, those that change what the leader knows of a peer each move its nextIndex down, and are fewer than the indexes from matchIndex to nextIndex |
| Probing.ReachedExactly | src/lib/roles/Leader.js:144-174 | a leader and a follower of its term that exchange updates and answers: after at most nextIndex exchanges and one more the follower's log is and stays the leader's if and only if nextIndex starts right after matchIndex or past the log, within what the logs share, or gets back to 1 because they share nothing or the follower has nothing but the first entry |
| Probing.NeverSends | src/lib/roles/Leader.js:237-250 | otherwise the same heartbeat goes back and forth for ever, and what the leader has beyond it is never sent |
| Probing.NewLeaderReaches | src/lib/roles/Leader.js:36-42 | a new leader reaches a follower if and only if that has its whole log, shares nothing with it, or has only its first entry |
| Probing.LaterEntriesNeverReach | src/lib/roles/Leader.js:237-240 | what a leader appends that was elected with a log never reaches a follower that had all of that log |
| Convergence.UpdatesInRuns | src/lib/roles/Leader.js:234-252 | any leader and follower of one term, at any moment of any run, are such a pair, if the leader has an entry at prevLogIndex |
| Counterexamples.NeverReplicated | src/lib/roles/Leader.js:237-240 | such a state is reachable: an entry of a leader never reaches a follower that has everything before it, however many heartbeats are exchanged |
| HandedOnce.OnceExactly | src/lib/Log.js:128-138 | throughout a run every server hands every entry after those it came back with to its state machine once, in order and without gaps, if and only if no message makes it commit at or below what it last handed over |
| HandedOnce.PerformOrder | src/lib/roles/Follower.js:169-173 | the same for one action of one server, leading or not, crashing or not |
| Counterexamples.AppliedTwice | src/lib/roles/Follower.js:169-173 | it is false in general: a follower that is one entry behind the leader's commit hands the same entry over with two messages, in one role and without a crash |
| Leadership.CountersAlwaysAgree | src/lib/roles/Leader.js:144-232 | over any sequence of appends and messages in one leadership, if no accepted index lies beyond the log: each pending counter is ceil(P/2) minus the number of peers with matchIndex at or past its entry, and positive |
| Leadership.CommittedExactlyAtQuorum | src/lib/roles/Leader.js:192-202 | throughout, an index appended in this leadership is committed if and only if ceil(P/2) peers have reached it, and later entries never need fewer accepts |
| Replication.AppendAgrees | src/lib/roles/Leader.js:215-223 | starting a new entry with the full count agrees with counting matchIndex if and only if no peer is already believed to hold its index |
| Replication.AcceptAgrees | src/lib/roles/Leader.js:164-190 | handling an accept, of whatever index, keeps all counters in agreement: no peer is counted twice for an entry |
| Replication.RejectAgrees | src/lib/roles/Leader.js:150-154 | moving nextIndex back keeps them in agreement, since matchIndex does not move |
| Replication.CommitIsLargestQuorum | src/lib/roles/Leader.js:195-201 | with counters in agreement the commit index is 0 or the largest index of this leadership that reached a quorum (section 5.4.2) |
| Replication.CountersAscend | src/lib/roles/Leader.js:181-195 | counters never decrease along the queue, so committing from the front misses nothing |
| Refinement.DeliveredWellFormed | src/fuzz/Runner.js:339-377 | every message of every run, however shortened in transit, has the shape that the roles rely on, so the next rows apply to every delivery |
| RaftServer.Raft.Handle | src/lib/Raft.js:107-189 | on the objects of a server, with conversions and replayed messages: the state after handling any message and everything sent are those of the cluster's step |
| RaftServer.Raft.Consume | src/lib/Raft.js:124-132 | messages consumed while roles replace each other, each new role consuming inside its own start, have the effect of the same messages handled one by one as separate steps, with none skipped or handled twice |
| RaftServer.Raft.ElectionTimeout | src/lib/roles/Follower.js:66-88 | a follower either ignores the timeout or starts the election of the cluster's step; a candidate starts over |
| RaftServer.Raft.Heartbeat | src/lib/roles/Leader.js:86-108 | the heartbeat of the cluster's step, except that one is skipped after entries were sent to all |
| RaftServer.Raft.Append | src/lib/Raft.js:191-197 | refused without effect unless the server leads; otherwise the append of the cluster's step |
| RaftServer.Raft.ConvertToFollower | src/lib/Raft.js:163-189 | a new role object, with commit index 0, handles the replayed message as a follower of the new term |
| RaftServer.Raft.ConvertToCandidate | src/lib/Raft.js:135-161 | a new role object campaigns for the next term with a vote for itself |
| RaftServer.Raft.BecomeLeader | src/lib/Raft.js:107-133 | a new role object expects every peer at the end of its log and sends one heartbeat to each |
| RaftServer.Raft.Close | src/lib/Raft.js:58-65 | the current role is destroyed, and closing is over at once if the applier is idle, and otherwise when it reaches a mark that is put behind everything that it was handed; nothing else changes |
| RaftServer.Raft.Destroy | src/lib/Raft.js:67-74 | the current role is destroyed and the applier forgets what it had not taken; term, vote, log and storage stay |
| RaftServer.Raft.Join | src/lib/Raft.js:97-100 | the first role is a follower with commit index 0, and nothing else changes |
| Restoring.ComeBack | src/fuzz/ServerState.js:61-76 | a new server that restores state and log from storage, and joins, is the restart of the cluster's step, also for a server that never persisted a term; its applier is in step with its log unless more had been applied than the log holds |
| Restoring.SettledIsPersisted | src/lib/State.js:26-54 | between operations the storage of a server holds what the restart needs: its stream, and its term and vote unless it is in term 0 |
| RaftServer.Raft.DestroyRole | src/lib/Raft.js:107-110 | destroying the current role touches neither log, state, applier nor storage, and leaves no append of a leader waiting |
| FollowerRole.Follower.HandleMessage | src/lib/roles/Follower.js:90-93 | state and messages of the cluster's step; if the role is destroyed while its writes are pending the state is the same but nothing is sent |
| FollowerRole.Follower.HandleRequestVote | src/lib/roles/Follower.js:95-130 | denies, votes, adopts the term without voting, or stays silent exactly as the conservative voting rule says, and only a granted vote makes it ignore the next timeout |
| FollowerRole.Follower.HandleAppendEntries | src/lib/roles/Follower.js:132-192 | rejects, or accepts and acknowledges the index that its log then ends at; any message of the current or a newer term makes it ignore the next timeout |
| FollowerRole.Follower.AcceptMessage | src/lib/roles/Follower.js:162-173 | cut, adopt the term, commit while the log ends at prevLogIndex, and only then let the entries land: together the single accept of the cluster's step |
| FollowerRole.Follower.HandleTimeout | src/lib/roles/Follower.js:73-87 | converts unless a leader or candidate was heard since the last timeout, and consumes that excuse |
| FollowerRole.Follower.MaybeStartElection | src/lib/roles/Follower.js:66-73 | at most one timeout handler is scheduled at a time |
| CandidateRole.Candidate.HandleMessage | src/lib/roles/Candidate.js:94-108 | state and messages of the cluster's step, up to the conversion that it ends with; nothing is sent or converted once destroyed |
| CandidateRole.Candidate.RequestVote | src/lib/roles/Candidate.js:67-92 | a new election counts from scratch, and its requests carry the persisted term and the end of the log |
| CandidateRole.Candidate.HandleGrantVote | src/lib/roles/Candidate.js:121-134 | a peer's vote counts once and only in the current term; the last missing one makes a leader |
| LeaderRole.Leader.HandleMessage | src/lib/roles/Leader.js:110-124 | state, messages and exceptions of the cluster's step, up to the conversion that it ends with |
| LeaderRole.Leader.HandleAcceptEntries | src/lib/roles/Leader.js:157-174 | the loops over the queue and the in-place counters compute the accept of the cluster's step |
| LeaderRole.Leader.HandleRejectEntries | src/lib/roles/Leader.js:144-155 | moves nextIndex back only to a conflict strictly between matchIndex and nextIndex, and then sends one heartbeat |
| LeaderRole.Leader.HandleRequestVote | src/lib/roles/Leader.js:126-142 | denies an older term; otherwise a peer gets a heartbeat, or an exception when there is no entry at its prevLogIndex |
| LeaderRole.Leader.MarkReplication | src/lib/roles/Leader.js:176-202 | both loops together: one accept is counted for every pending entry in the range, and the front of the queue is committed while nothing is missing |
| LeaderRole.Leader.CountAccepts | src/lib/roles/Leader.js:181-190 | one accept is counted for every entry in the range before the first one past it, and promises stay with their entries |
| LeaderRole.Leader.CommitNext | src/lib/roles/Leader.js:195-201 | the first pending entry is committed, and its promise goes to the log's commit in its turn |
| LeaderRole.Leader.UpdateFollower | src/lib/roles/Leader.js:234-252 | sends entries only when prevLogIndex is matchIndex, a heartbeat otherwise, and throws exactly when there is no entry at prevLogIndex |
| LeaderRole.Leader.UpdatePeers | src/lib/roles/Leader.js:104-106 | the loop over the peers sends what updating one after the other sends, up to the first exception |
| LeaderRole.Leader.HandleHeartbeat | src/lib/roles/Leader.js:93-107 | one heartbeat is skipped after entries went to all; otherwise every peer gets one |
| LeaderRole.Leader.Append | src/lib/roles/Leader.js:204-232 | the entry is persisted before it is sent; a leader that was destroyed meanwhile keeps the entry, rejects the call and sends nothing |
| LeaderRole.Leader.Destroy | src/lib/roles/Leader.js:75-84 | every call that is pending application is rejected, in order |
| ServerView.Commit | src/lib/Log.js:128-138 | what the log's commit does to the applier, stalled or not, is what the cluster's step records as handed to the state machine; when it gets to the index, the last job carries the promise |
| ServerView.EntryApplied | src/lib/LogEntryApplier.js:55-68 | when a call succeeds the applier goes on, or becomes idle by the cluster's step, in which case nothing missing was ever handed to it; it stays in step with the log |
| ServerView.EntryFailed | src/lib/LogEntryApplier.js:74-74 | a failed call changes nothing of the server but that its applier stays busy; it stays in step with the log |
| LogStore.Log.MergeEntries | src/lib/Log.js:92-126 | on a map without gaps, deletions, the filter, persisting and the final loop amount to cutting at prevLogIndex and appending all entries; a restart reloads at least the result, and exactly it unless there were no entries |
| LogStore.Log.BeginMerge | src/lib/Log.js:92-105 | up to the first await the log ends at prevLogIndex, and what remains to be persisted is what the filter keeps |
| LogStore.Log.FinishMerge | src/lib/Log.js:107-125 | after it the pending entries are durable and part of the log |
| LogStore.AllMissing | src/lib/Log.js:101-105 | after the cut the filter never removes anything from a contiguous message |
| LogStore.Log.Replace | src/lib/Log.js:28-47 | rebuilds the replay of the whole stream, overwritten indexes included, with the applier in step; refused, with nothing changed, while entries are being applied |
| LogStore.Log.AppendValue | src/lib/Log.js:77-90 | one entry of the current term at the end, after which a restart reloads exactly this log |
| LogStore.Log.DeleteConflictingEntries | src/lib/Log.js:49-53 | the loop removes everything from the index on, and nothing below it |
| LogStore.Log.PutEntry | src/lib/Log.js:38-41 | setting an entry drops everything that followed its index |
| LogStore.Log.GetTerm | src/lib/Log.js:55-63 | the term at an index, 0 before the first entry, none (an exception) past the end |
| LogStore.Log.GetEntry | src/lib/Log.js:65-67 | the entry at an index of the log, and none outside it |
| LogStore.Log.GetEntriesSince | src/lib/Log.js:69-75 | the suffix from an index on |
| LogStore.Log.Commit | src/lib/Log.js:128-138 | hands over the entries after lastQueued up to the index, in order and once each, with the promise on the last; at index 0 it hands over a missing entry and throws, and with a missing entry waiting in an idle applier it throws after the first entry and loses the promise; otherwise it keeps applier and log in step |
| LogStore.Log.AppliedInOrder | src/lib/LogEntryApplier.js:29-33 | an applier in step with the log: what it has taken and what it has queued are the entries from the last reset to lastQueued, in order and once each, and the callback was called for exactly the commands among those taken |
| LogStore.LastHasPromise | src/lib/Log.js:128-138 | one commit puts the range on the queue without a promise but for its last entry, which carries the promise of the call unless a stalled applier ended it early |
| LogStore.StaysInOrder | src/lib/Log.js:128-138 | committing past everything queued keeps them in step; Commit, Replace, AppendValue, the merges that cut nothing queued, EntryApplied and EntryFailed all ensure it |
| LogStore.KeepsOrder | src/lib/Log.js:92-126 | they stay in step whatever happens to the log past lastQueued |
| LogStore.Log.CheckOutdated | src/lib/Log.js:140-147 | the other log is behind this one in the lexicographic order of last term and length |
| LogStore.Log.Contents | src/lib/Log.js:5-13 | the map is a sequence in which every entry sits at its own index, and lastIndex and lastTerm describe its end |
| Entries.ReplayBatch | src/lib/Log.js:32-46 | replaying a stream that grew by one batch is the same as cutting the replayed log at the batch and appending it |
| Entries.ReplayLength | src/lib/Log.js:45-46 | a stream without gaps replays to a log that ends with the last entry that was persisted |
| Stable.ServerState.PersistEntries | src/fuzz/ServerState.js:40-54 | the stream keeps every entry, and the count returned makes overwritten plus replayable entries equal to all persisted ones |
| Stable.ServerState.Restart | src/fuzz/ServerState.js:61-76 | restores the stream, term, vote and applied index, and nothing at all for a server that never persisted a term |
| Stable.GapFreeReplay | src/fuzz/ServerState.js:43-51 | persisting one more entry replays to the log cut just below its index, with it at the end |
| StateStore.State.NextTerm | src/lib/State.js:26-34 | the next term and the given vote, in memory and on disk alike |
| StateStore.State.SetTerm | src/lib/State.js:36-44 | the term with no vote, in memory and on disk alike; term 0 is refused with nothing changed |
| StateStore.State.SetTermAndVote | src/lib/State.js:46-54 | term and vote, in memory and on disk alike; term 0 is refused with nothing changed |
| StateStore.State.Replace | src/lib/State.js:17-24 | takes over what was persisted, without persisting it again; a negative term is refused |
| Applier.LogEntryApplier.Reset | src/lib/LogEntryApplier.js:16-27 | starts afresh from an applied index; refused, with nothing changed, while a call is pending |
| Applier.LogEntryApplier.Enqueue | src/lib/LogEntryApplier.js:29-33 | one job joins the end; when idle, jobs are taken until a command is pending or none is left; a missing entry throws but stays queued, and if one is waiting while nothing is pending, the next entry throws instead and leaves the applier busy for ever |
| Applier.LogEntryApplier.ApplyNext | src/lib/LogEntryApplier.js:49-76 | takes nothing while busy, calls back for commands only and in order, one at a time: all jobs taken but the last are no-ops; it stops at a command, at a missing entry, or with nothing left |
| Applier.LogEntryApplier.Complete | src/lib/LogEntryApplier.js:55-68 | the pending job is done and its promise resolved before the next is taken, and only no-ops are taken with that; the applier becomes idle only with everything done, and fails only at a missing entry |
| Applier.LogEntryApplier.Fail | src/lib/LogEntryApplier.js:74-74 | after a failed call the applier stays busy for ever, so nothing follows it |
| Applier.LogEntryApplier.Finish | src/lib/LogEntryApplier.js:35-43 | resolves at once when idle, and otherwise joins the end of the queue |
| Applier.LogEntryApplier.ClosedInOrder | src/lib/LogEntryApplier.js:35-43 | with the mark behind the entries handed over, the calls are still exactly the commands among those taken, an idle applier has taken everything, and when the mark is done the promise is resolved and lastApplied is the last entry's index |
| Applier.LogEntryApplier.Destroy | src/lib/LogEntryApplier.js:45-47 | forgets what was not taken yet; a pending call can still complete |
| Applier.CallsAreCommands | src/lib/LogEntryApplier.js:70-75 | if the jobs are the log from the reset point on, the calls made are exactly its commands, in order, without the no-ops |
| Applier.ResolvedInTurn | src/lib/LogEntryApplier.js:58-61 | a promise is resolved only when its own job is among the first ones that are all done |
| Applier.AllResolved | src/lib/LogEntryApplier.js:58-61 | and every promise among those is resolved |
| Scheduling.Scheduler.Asap | src/lib/Scheduler.js:16-31 | starts an operation at once when idle, queues it when busy, and after an abort only calls its abort handler; submitted operations are always the started, queued and dropped ones, in that order; nothing counts as crashed but after an operation that threw or a promise that was rejected |
| Scheduling.Scheduler.Abort | src/lib/Scheduler.js:33-43 | drops the whole queue and calls each of its handlers once, in order; the pending operation stays pending |
| Scheduling.Scheduler.Run | src/lib/Scheduler.js:52-78 | of the operation and the queue behind it exactly those up to the first that is asynchronous, throws or aborts are started, in order; the rest stays queued, or is dropped by the abort, and without such an operation the scheduler is idle with an empty queue |
| Scheduling.Scheduler.Complete | src/lib/Scheduler.js:60-68 | the finished operation is recorded, and then the queue runs in the same way; after an abort none of it does |
| Scheduling.Scheduler.Fail | src/lib/Scheduler.js:77-77 | after a rejected promise the queue stays as it is and nothing starts |
| Scheduling.BurstExactly | src/lib/Scheduler.js:60-75 | an operation of the queue is started with the ones before it if and only if none of these is asynchronous, throws or aborts |
| Scheduling.Scheduler.WaitsForPending | src/lib/Scheduler.js:60-75 | while nothing has thrown, been rejected or aborted, an operation is queued or the scheduler busy only while one is pending |
| Scheduling.FinishedBetween | src/lib/Scheduler.js:5-6 | exclusion: in every lawful history an asynchronous operation finishes before anything else starts |
| Scheduling.NothingAfterAbort | src/lib/Scheduler.js:33-43 | nothing starts after an abort |
| Scheduling.AsyncsFinish | src/lib/Scheduler.js:70-77 | the asynchronous operations that were started are those that finished, in the same order, and at most one pending one |
| Scheduling.CalledOncePerDrop | src/lib/Scheduler.js:37-41 | an abort handler is called exactly as often as its operation was dropped |
| Settlement.AppendCalls.Accounted | src/lib/roles/Leader.js:204-232 | at all times every append call is in exactly one place: scheduler queue, in flight, pending application, handed to the log's commit, rejected, or lost to a failed write |
| Settlement.AppendCalls.SettledAfterDestroy | src/lib/roles/Leader.js:75-84 | once the leader is destroyed at most one call, the one in flight, is not settled |
| Settlement.AppendCalls.Complete | src/lib/roles/Leader.js:209-213 | when its entry is persisted a call joins the pending ones, or is rejected if the leader was destroyed meanwhile |
| Settlement.AppendCalls.Destroy | src/lib/roles/Leader.js:75-84 | everything that is pending application is rejected, and the scheduler rejects what it has queued |
| Settlement.AppendCalls.Fail | src/lib/Scheduler.js:77-77 | a call whose write fails is never settled by the leader |
| Settlement.AppendCalls.FailAfterPush | src/lib/roles/Leader.js:215-230 | a call whose entry is persisted and whose update of a peer throws stays pending application, although its operation fails |
| Buffering.MessageBuffer.Take | src/lib/MessageBuffer.js:11-19 | takes the oldest message, from the lookahead slot or the stream, and nothing else |
| Buffering.MessageBuffer.CanTake | src/lib/MessageBuffer.js:21-27 | tells whether there is a message without losing or reordering any |
| Buffering.MessageBuffer.Await | src/lib/MessageBuffer.js:29-45 | is fulfilled at once exactly when nobody waits yet and there is a message |
| Buffering.MessageBuffer.Arrive | src/lib/MessageBuffer.js:34-42 | a message joins the end, and whoever waits is woken |
| Consuming.InputConsumer.ConsumeNext | src/lib/InputConsumer.js:49-100 | terminates; takes nothing once stopped; otherwise it stops, gets stuck or waits for an operation only as the last answer of the scheduler says; its answers are those that the scheduler gives; if these handle every message at once and no other server has one waiting, it ends up awaiting with everything taken that had arrived |
| Consuming.InputConsumer.Passes | src/lib/InputConsumer.js:62-85 | the nested loops end because the messages get fewer with every pass that repeats; afterwards all peers are empty, or the consumer waits or is stopped as the recorded answers say |
| Consuming.InputConsumer.Pass | src/lib/InputConsumer.js:65-84 | one pass visits every peer once, or ends early at a peer whose message has to be waited for |
| Consuming.InputConsumer.TakeFrom | src/lib/InputConsumer.js:72-76 | fairness: when a peer is served, fewer than P messages were taken from others since its message became first; and exactly its first message is taken |
| Consuming.InputConsumer.Offer | src/lib/InputConsumer.js:72-82 | a message stays in its buffer until its operation runs, so an abort leaves it to the next role; the consumer waits for what the answer is: nothing, a promise, a queued operation, or what never comes |
| Consuming.InputConsumer.RunQueued | src/lib/InputConsumer.js:72-76 | a queued operation takes its message when it runs, still within the bound of fairness |
| Consuming.InputConsumer.Arrive | src/lib/InputConsumer.js:92-98 | a message that arrives ends the wait for one, and does not make any peer wait longer than the bound |
| Consuming.InputConsumer.ArriveNonPeer | src/lib/InputConsumer.js:92-98 | so does a message from a server that is not a peer |
| Consuming.InputConsumer.RunQueuedNonPeer | src/lib/InputConsumer.js:87-107 | its message is taken only when the operation runs, which is then waited for |
| Consuming.InputConsumer.Reject | src/lib/Scheduler.js:45-50 | a handler that fails is never waited for to the end: the consumer takes nothing more, though it is not stopped |
| Consuming.InputConsumer.ConsumeNonPeer | src/lib/InputConsumer.js:87-90 | messages of other servers are only looked at when no peer has any |
| Consuming.InputConsumer.AwaitAll | src/lib/InputConsumer.js:94-96 | the race waits on every buffer |
| RoleLife.OneLive | src/lib/Raft.js:107-189 | in every lawful history at most one role is live at any moment |
| RoleLife.InertOnceDestroyed | src/lib/roles/Follower.js:59-64 | in every lawful history a destroyed role never again sends, takes a message, converts or announces itself |
| RoleLife.RoleKeeper.Convert | src/lib/Raft.js:107-189 | conversions, however deeply nested in the start of other roles, with starts that send, that wait for a write as a candidate's does, or that crash, keep the history lawful, and only a role that is still current is announced |
| RoleLife.RoleKeeper.Consume | src/lib/InputConsumer.js:62-85 | a consumer whose role was destroyed, even by its own message, takes nothing more |
| RoleLife.RoleKeeper.Resume | src/lib/roles/Candidate.js:99-104 | a handler that waited for a write does nothing if its role was destroyed in the meantime |
| RoleLife.RoleKeeper.Timeout | src/lib/roles/Follower.js:66-88 | a timer that fires keeps the history lawful: those of destroyed roles are cleared |
| Runner.VerifyLogMatching | src/fuzz/Runner.js:121-165 | throws if and only if two neighbours in the order have equal terms at some index and different ones at a lower one |
| Runner.ComparePair | src/fuzz/Runner.js:153-163 | looking below the highest match is enough to decide one pair |
| Runner.FindMatchIndex | src/fuzz/Runner.js:131-141 | the highest index at which both logs have the same term, or 0 |
| Runner.LogCheckNeverThrows | src/fuzz/Runner.js:121-165 | no state of any run trips it, whatever servers are compared in whatever order, also while logs are cut and the entries to come are still being persisted |
| Runner.NeighboursAreNotAllPairs | src/fuzz/Runner.js:149-165 | it is weaker than Log Matching: two logs that violate it pass with a third one between them |
| Runner.ElectionCheckNeverThrows | src/fuzz/Runner.js:78-93 | in no run does it throw for a server that leads a term, however late it is made and however far the records of the other servers lag, if each record's role and term are of one moment |

## Left out

- Safety.LeaderCompleteness: proved for clean runs, which is a sufficient condition on runs and not a necessary one; a run may break it and still lose nothing. Exact for each step are Safety.LosesExactlyWhenOutrun, Safety.SparesExactlyAbove and Commitment.AcceptBackedExactly.
- Safety.StateMachineSafety: the same condition; for all runs Safety.QueuedIsCommitted is proved instead.
- Safety.CommitCertificate: its condition is exact for the acknowledgements behind the counters (Commitment.BackedExactly), not for the conclusion: a peer may have had entries that it never acknowledged in that term.
- Runner.ElectionCheckNeverThrows: the harness records a server's term when it is persisted and its role when the event is handled; a record that joins a new term to an old role is not covered, since the scheduling of the harness is not modelled.
- RaftServer.Raft.Close: the mark that closing leaves in the applier's queue is part of the view of the closed server, and not of the cluster's step for a crash.
- Scheduling.Scheduler.Run: assumes, as the callers do, that an operation does not call asap on its own scheduler in its synchronous part; such a nested call would run at once.
- Settlement.AppendCalls.Accounted: follows the promises of append calls, not the entries; LeaderRole.Leader keeps both together from the moment an entry is persisted.
- Consuming.InputConsumer.TakeFrom: the bound is for one role's consumer; a new role starts its rounds at the first peer again.
- LogStore.Log.MergeEntries: assumes contiguous entries after prevLogIndex and a matching previous entry, which Refinement.DeliveredWellFormed and the consistency check provide.
- RaftServer.Raft.Handle: a server that is closed while a write is pending is modelled in the handlers of the roles only.
- Runner.VerifyLogMatching: takes the non-empty logs in the order that the library's sort gives them.
- Probing.ReachedExactly: follows one leader and one follower while nothing else happens to them, from an update that is on its way; that messages arrive, and that elections end, is assumed or proved nowhere.
- HandedOnce.OnceExactly: counts from what a server is told on coming back; that its state machine has really applied just that is not modelled.
- Timers, election timeouts and heartbeat intervals are actions that may happen at any time; the flags that skip them are modelled in the roles.
- Promises and the event loop: a pending promise is a state, and its fulfilment an operation.
- Membership is fixed and has at least one peer; peers, streams, connections and servers outside the cluster are not modelled, beyond the last place of their messages in the consumer's order.
- Limits of safe integers: terms and indexes are natural numbers.
- The state machine of the fuzz harness (a sum), its commit log and its other checks, which compare what was applied.
- Address parsing, command-line checks, events and the random scheduling of the fuzz harness.
