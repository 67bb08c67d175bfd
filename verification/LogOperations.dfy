/** Every operation keeps to the log rules. */
module LogOperations {
  import opened Entries
  import opened Protocol
  import opened Cluster
  import opened ElectionSafety
  import opened Operations
  import opened LogMatching

  // ---------------------------------------------------------------- merging

  lemma LeaderLogFacts(h: History, t: nat)
    requires LeaderLogsOk(h) && t in h.leaderLogs
    ensures Anchored(h.leaderLogs, h.leaderLogs[t]) && Indexed(h.leaderLogs[t])
  {
    assert LeaderLogOk(h, t);
  }

  lemma SameTermSamePrefix(leaderLogs: Logs, a: seq<Entry>, b: seq<Entry>, k: nat)
    requires Anchored(leaderLogs, a) && Anchored(leaderLogs, b)
    requires k < |a| && k < |b| && a[k].term == b[k].term
    ensures a[..k + 1] == b[..k + 1]
  {
    assert a[..k + 1] <= leaderLogs[a[k].term] && b[..k + 1] <= leaderLogs[b[k].term];
  }

  /** Passing the consistency check means agreeing with the leader on everything before the entries, so what
      the merge leaves is exactly the beginning of the leader's log. */
  lemma MergeIsLeaderPrefix(h: History, log: seq<Entry>, m: Message)
    requires m.AppendEntries? && LogMessageOk(h, m) && LeaderLogsOk(h)
    requires Anchored(h.leaderLogs, log)
    requires Matches(log, m.prevLogIndex, m.prevLogTerm)
    ensures log[..m.prevLogIndex] == h.leaderLogs[m.term][..m.prevLogIndex]
    ensures Merge(log, m.prevLogIndex, m.entries) == h.leaderLogs[m.term][..m.prevLogIndex + |m.entries|]
  {
    if m.prevLogIndex > 0 {
      LeaderLogFacts(h, m.term);
      SameTermSamePrefix(h.leaderLogs, log, h.leaderLogs[m.term], m.prevLogIndex - 1);
    }
  }

  lemma AcceptedReplay(s: Server, prev: nat, entries: seq<Entry>)
    requires prev <= |s.log| && s.log <= Replay(s.stream)
    requires forall j :: 0 <= j < |entries| ==> entries[j].index == prev + 1 + j
    ensures
      var replayed := Replay(s.stream + entries);
      && Merge(s.log, prev, entries) <= replayed
      && (replayed == Merge(s.log, prev, entries) || replayed == Replay(s.stream))
  {
    ReplayBatch(s.stream, prev, entries);
    assert Replay(s.stream)[..prev] == s.log[..prev];
  }

  lemma AcceptLeaderPrefix(leaderLogs: Logs, s: Server, leaderLog: seq<Entry>, prev: nat, entries: seq<Entry>)
    requires prev <= |s.log| && prev + |entries| <= |leaderLog|
    requires entries == leaderLog[prev..prev + |entries|]
    requires Merge(s.log, prev, entries) == leaderLog[..prev + |entries|]
    requires Anchored(leaderLogs, leaderLog) && Indexed(leaderLog) && LogOk(leaderLogs, s)
    ensures LogOk(leaderLogs, s.(log := Merge(s.log, prev, entries), stream := s.stream + entries))
  {
    AnchoredPrefix(leaderLogs, leaderLog, prev + |entries|);
    AcceptedReplay(s, prev, entries);
  }

  lemma AcceptIsOk(h: History, s: Server, m: Message)
    requires m.AppendEntries? && LogMessageOk(h, m) && LeaderLogsOk(h)
    requires LogOk(h.leaderLogs, s)
    requires Matches(s.log, m.prevLogIndex, m.prevLogTerm)
    ensures
      var merged := Merge(s.log, m.prevLogIndex, m.entries);
      && merged == h.leaderLogs[m.term][..m.prevLogIndex + |m.entries|]
      && LogOk(h.leaderLogs, s.(log := merged, stream := s.stream + m.entries))
  {
    MergeIsLeaderPrefix(h, s.log, m);
    LeaderLogFacts(h, m.term);
    AcceptLeaderPrefix(h.leaderLogs, s, h.leaderLogs[m.term], m.prevLogIndex, m.entries);
  }

  // ---------------------------------------------------------------- follower and candidate

  lemma AcceptFields(s: Server, m: Message)
    requires s.role.Follower? && m.AppendEntries? && Matches(s.log, m.prevLogIndex, m.prevLogTerm)
    requires m.term >= s.term
    ensures
      var s' := Accept(s, m);
      && s'.role.Follower? && s'.term == m.term
      && s'.log == Merge(s.log, m.prevLogIndex, m.entries) && s'.stream == s.stream + m.entries
  {
  }

  lemma AckLog(n: nat, h: History, id: nat, s: Server, s': Server, m: Message, ack: Message)
    requires m.AppendEntries? && LogMessageOk(h, m)
    requires s'.role.Follower? && LogOk(h.leaderLogs, s')
    requires s'.log == h.leaderLogs[m.term][..m.prevLogIndex + |m.entries|]
    requires ack == AcceptEntries(id, m.src, m.term, |s'.log|)
    ensures LogStep(n, h, id, s, Sends(s', [ack]))
  {
  }

  lemma FollowerAcceptLog(n: nat, h: History, id: nat, s: Server, base: Server, m: Message)
    requires base.role.Follower? && m.AppendEntries? && LogMessageOk(h, m) && LeaderLogsOk(h)
    requires LogOk(h.leaderLogs, base)
    requires m.term >= base.term && Matches(base.log, m.prevLogIndex, m.prevLogTerm)
    ensures LogStep(n, h, id, s, FollowerAppendEntries(base, id, m))
  {
    var s' := Accept(base, m);
    AcceptFields(base, m);
    AcceptIsOk(h, base, m);
    AckLog(n, h, id, s, s', m, AcceptEntries(id, m.src, m.term, |s'.log|));
  }

  lemma FollowerReceiveLog(n: nat, h: History, id: nat, s: Server, base: Server, m: Message)
    requires FollowerBase(s, base)
    requires LogOk(h.leaderLogs, s) && LeaderLogsOk(h) && LogMessageOk(h, m)
    ensures LogStep(n, h, id, s, FollowerReceive(base, id, m))
  {
    if m.AppendEntries? && m.term >= base.term && Matches(base.log, m.prevLogIndex, m.prevLogTerm) {
      assert LogOk(h.leaderLogs, base);
      FollowerAcceptLog(n, h, id, s, base, m);
    } else {
      FollowerDeclineLog(n, h, id, s, base, m);
    }
  }

  /** Operations that neither lead nor touch the log. */
  lemma QuietLog(n: nat, h: History, id: nat, s: Server, o: Outcome)
    requires LogOk(h.leaderLogs, s)
    requires !o.server.role.Leader? && o.server.stream == s.stream
    requires o.server.log == s.log || o.server.log == [] || o.server.log == Replay(s.stream)
    requires forall m :: m in o.sent ==> !m.AppendEntries? && !m.AcceptEntries?
    ensures LogStep(n, h, id, s, o)
  {
  }

  lemma FollowerDeclineLog(n: nat, h: History, id: nat, s: Server, base: Server, m: Message)
    requires FollowerBase(s, base) && LogOk(h.leaderLogs, s)
    requires m.AppendEntries? ==> m.term < base.term || !Matches(base.log, m.prevLogIndex, m.prevLogTerm)
    ensures LogStep(n, h, id, s, FollowerReceive(base, id, m))
  {
    QuietLog(n, h, id, s, FollowerReceive(base, id, m));
  }

  lemma CandidateReceiveLog(n: nat, h: History, id: nat, s: Server, m: Message)
    requires s.role.Candidate? && s.term >= 1
    requires LogOk(h.leaderLogs, s) && LeaderLogsOk(h) && LogMessageOk(h, m)
    requires BecomesLeader(s, m) ==> s.term !in h.elections
    ensures LogStep(n, h, id, s, CandidateReceive(s, n, id, m))
  {
    if m.term > s.term {
      FollowerReceiveLog(n, h, id, s, ConvertToFollower(SetTerm(s, m.term)), m);
    } else if m.AppendEntries? && m.term == s.term {
      FollowerReceiveLog(n, h, id, s, ConvertToFollower(s), m);
    } else if BecomesLeader(s, m) {
      BecomeLeaderLog(n, h, id, s);
    }
  }

  predicate BecomesLeader(s: Server, m: Message) {
    s.role.Candidate? && m.GrantVote? && m.term == s.term && m.src !in s.role.votesReceived && s.role.votesRequired == 1
  }

  lemma BecomeLeaderLog(n: nat, h: History, id: nat, s: Server)
    requires s.role.Candidate? && s.term >= 1 && s.term !in h.elections
    requires LogOk(h.leaderLogs, s) && LeaderLogsOk(h)
    ensures LogStep(n, h, id, s, BecomeLeader(s, n, id))
  {
    var progress := map p | p in Peers(n, id) :: Progress(|s.log| + 1, 0);
    var s' := s.(role := Leader(0, progress, []));
    LeaderLogsExtend(h, n, id, s, s');
    LogOkGrows(h.leaderLogs, Record(h, n, id, s').leaderLogs, s, s');
    LeaderSendsLog(n, h, id, s, s', BecomeLeader(s, n, id), Peers(n, id), true);
  }

  // ---------------------------------------------------------------- leader

  lemma UpdateFollowerLog(h: History, s: Server, id: nat, peer: nat, heartbeatOnly: bool)
    requires s.role.Leader? && LeaderOk(h, s) && h.elections[s.term].leader == id && CanUpdate(s, peer)
    ensures LogMessageOk(h, UpdateFollower(s, id, peer, heartbeatOnly))
  {
  }

  /** What a leader sends comes from its own log, committed index included. */
  lemma UpdateAllLog(h: History, s: Server, id: nat, peers: seq<nat>, heartbeatOnly: bool)
    requires s.role.Leader? && LeaderOk(h, s) && h.elections[s.term].leader == id
    ensures forall m :: m in UpdateAll(s, id, peers, heartbeatOnly).sent ==> LogMessageOk(h, m)
  {
    UpdateAllSends(s, id, peers, heartbeatOnly);
    forall m | m in UpdateAll(s, id, peers, heartbeatOnly).sent
      ensures LogMessageOk(h, m)
    {
      UpdateFollowerLog(h, s, id, m.dst, heartbeatOnly);
    }
  }

  lemma LogOkGrows(a: Logs, b: Logs, s: Server, s': Server)
    requires Extends(a, b) && LogOk(a, s) && s'.log == s.log && s'.stream == s.stream
    ensures LogOk(b, s')
  {
    AnchoredGrows(a, b, s.log);
    AnchoredGrows(a, b, Replay(s.stream));
  }

  /** A leader operation is judged by the state from which it sends. */
  lemma LeaderSendsLog(n: nat, h: History, id: nat, s: Server, s': Server, o: Outcome, peers: seq<nat>,
                       heartbeatOnly: bool)
    requires s'.role.Leader? && LeaderLogStep(h, s, s')
    requires LogOk(Record(h, n, id, s').leaderLogs, s')
    requires s.role.Leader? ==> h.elections[s.term].leader == id
    requires o == UpdateAll(s', id, peers, heartbeatOnly) || o == Sends(s', [])
    ensures LogStep(n, h, id, s, o)
  {
    UpdateAllSends(s', id, peers, heartbeatOnly);
    UpdateAllLog(Record(h, n, id, s'), s', id, peers, heartbeatOnly);
  }

  /** Leader operations that leave the log alone. */
  lemma LeaderKeepsLog(n: nat, h: History, id: nat, s: Server, s': Server, o: Outcome, peers: seq<nat>,
                       heartbeatOnly: bool)
    requires s.role.Leader? && LeaderOk(h, s) && h.elections[s.term].leader == id && s.term >= 1
    requires LogOk(h.leaderLogs, s) && LeaderLogsOk(h)
    requires s'.role.Leader? && s'.term == s.term && s'.log == s.log && s'.stream == s.stream
    requires s.role.commitIndex <= s'.role.commitIndex && LeaderShape(|h.elections[s.term].log|, s')
    requires o == UpdateAll(s', id, peers, heartbeatOnly) || o == Sends(s', [])
    ensures LogStep(n, h, id, s, o)
  {
    LeaderLogsExtend(h, n, id, s, s');
    LogOkGrows(h.leaderLogs, Record(h, n, id, s').leaderLogs, s, s');
    LeaderSendsLog(n, h, id, s, s', o, peers, heartbeatOnly);
  }

  lemma LeaderAppendLog(n: nat, h: History, id: nat, s: Server, value: Payload)
    requires s.role.Leader? && LeaderOk(h, s) && h.elections[s.term].leader == id && s.term >= 1
    requires LogOk(h.leaderLogs, s) && LeaderLogsOk(h)
    ensures LogStep(n, h, id, s, LeaderAppend(s, n, id, value))
  {
    var entry := Entry(|s.log| + 1, s.term, value);
    var role := s.role.(pending := s.role.pending + [Pending(entry.index, HalfOfPeers(n))]);
    var s' := s.(log := s.log + [entry], stream := s.stream + [entry], role := role);
    assert LeaderShape(|h.elections[s.term].log|, s');
    LeaderLogsExtend(h, n, id, s, s');
    AppendIsOk(h, Record(h, n, id, s'), s, s', entry);
    LeaderSendsLog(n, h, id, s, s', LeaderAppend(s, n, id, value), Peers(n, id), false);
  }

  lemma AppendIsOk(h: History, h': History, s: Server, s': Server, entry: Entry)
    requires LogOk(h.leaderLogs, s) && Extends(h.leaderLogs, h'.leaderLogs)
    requires s'.log == s.log + [entry] && s'.stream == s.stream + [entry]
    requires entry.index == |s.log| + 1
    requires entry.term in h'.leaderLogs && h'.leaderLogs[entry.term] == s'.log
    ensures LogOk(h'.leaderLogs, s')
  {
    AppendReplays(s.log, s.stream, entry);
    AnchoredGrows(h.leaderLogs, h'.leaderLogs, s.log);
    forall j | 0 <= j < |s'.log|
      ensures s'.log[j].term in h'.leaderLogs && s'.log[..j + 1] <= h'.leaderLogs[s'.log[j].term]
    {
      if j < |s.log| {
        assert s'.log[..j + 1] == s.log[..j + 1];
        assert s'.log[j] == s.log[j];
      }
    }
  }

  // ---------------------------------------------------------------- the leader's queue

  lemma {:induction false} CountAcceptKeepsIndexes(pending: seq<Pending>, start: nat, end: nat)
    ensures forall j :: 0 <= j < |pending| ==> CountAccept(pending, start, end)[j].index == pending[j].index
  {
    if pending != [] && pending[0].index <= end {
      CountAcceptKeepsIndexes(pending[1..], start, end);
    }
  }

  lemma {:induction false} CommitReplicatedShape(initial: nat, s: Server)
    requires s.role.Leader? && LeaderShape(initial, s)
    ensures LeaderShape(initial, CommitReplicated(s))
    ensures s.role.commitIndex <= CommitReplicated(s).role.commitIndex
    decreases if s.role.Leader? then |s.role.pending| else 0
  {
    if s.role.pending != [] && s.role.pending[0].required == 0 {
      CommitReplicatedShape(initial, CommitFirst(s));
    }
  }

  lemma RecordAcceptShape(initial: nat, s: Server, peer: nat, acked: nat)
    requires s.role.Leader? && peer in s.role.progress && LeaderShape(initial, s)
    ensures LeaderShape(initial, RecordAccept(s, peer, acked))
    ensures s.role.commitIndex <= RecordAccept(s, peer, acked).role.commitIndex
  {
    var next := s.role.progress[peer].next;
    if acked >= next {
      var counted := s.(role := s.role.(pending := CountAccept(s.role.pending, next, acked)));
      CountAcceptKeepsIndexes(s.role.pending, next, acked);
      CommitReplicatedKeeps(counted);
      CommitReplicatedShape(initial, counted);
    }
  }

  lemma LeaderReceiveLog(n: nat, h: History, id: nat, s: Server, m: Message)
    requires s.role.Leader? && LeaderOk(h, s) && h.elections[s.term].leader == id && s.term >= 1
    requires m.term <= s.term
    requires LogOk(h.leaderLogs, s) && LeaderLogsOk(h) && LogMessageOk(h, m)
    ensures LogStep(n, h, id, s, LeaderReceive(s, n, id, m))
  {
    var o := LeaderReceive(s, n, id, m);
    match m
    case RequestVote(_, _, _, _, _) =>
      if m.term < s.term {
        LeaderKeepsLog(n, h, id, s, s, Sends(s, []), [], true);
      } else {
        LeaderKeepsLog(n, h, id, s, s, o, [m.src], true);
      }
    case RejectEntries(_, _, _, conflict) =>
      var s' := if m.src in s.role.progress && conflict.Some?
                then SetProgress(s, m.src, s.role.progress[m.src].(next := conflict.value)) else s;
      if o == Sends(s, []) {
        LeaderKeepsLog(n, h, id, s, s, o, [], true);
      } else {
        LeaderKeepsLog(n, h, id, s, s', o, [m.src], true);
      }
    case AcceptEntries(_, _, _, acked) =>
      if m.src in s.role.progress {
        RecordAcceptKeeps(s, m.src, acked);
        RecordAcceptShape(|h.elections[s.term].log|, s, m.src, acked);
        LeaderKeepsLog(n, h, id, s, RecordAccept(s, m.src, acked), o, [m.src], false);
      } else {
        LeaderKeepsLog(n, h, id, s, s, o, [], true);
      }
    case _ => LeaderKeepsLog(n, h, id, s, s, o, [], true);
  }

  // ---------------------------------------------------------------- all actions

  lemma ShortenedIsOk(h: History, m: Message, take: nat)
    requires LogMessageOk(h, m)
    ensures LogMessageOk(h, Shorten(m, take))
  {
  }

  lemma LeaderIsElected(c: Cluster, h: History, id: nat)
    requires id < |c.servers| && c.servers[id].role.Leader?
    requires ElectionInv(c, h) && LogInv(c, h)
    ensures LeaderOk(h, c.servers[id]) && h.elections[c.servers[id].term].leader == id && c.servers[id].term >= 1
  {
    assert RoleOk(|c.servers|, h, id, c.servers[id]);
    assert LeaderLogOk(h, c.servers[id].term);
  }

  lemma CandidateCanWin(c: Cluster, h: History, id: nat, m: Message)
    requires id < |c.servers| && c.servers[id].role.Candidate?
    requires ElectionInv(c, h) && VoteMessageOk(|c.servers|, h, m) && m.dst == id
    ensures c.servers[id].term >= 1
    ensures BecomesLeader(c.servers[id], m) ==> c.servers[id].term !in h.elections
  {
    var n, s := |c.servers|, c.servers[id];
    assert RoleOk(n, h, id, s);
    if BecomesLeader(s, m) {
      CandidateGrantVoteElection(n, h, id, s, m);
      assert CandidateGrantVote(s, n, id, m) == BecomeLeader(s, n, id);
      BecomeLeaderSends(s, n, id);
      WonOnce(c, h, id);
    }
  }

  /** What the invariants say of a message that reaches a server. */
  lemma DeliveredFacts(c: Cluster, h: History, m: Message, take: nat)
    requires ElectionInv(c, h) && LogInv(c, h) && m in c.net && m.dst < |c.servers|
    ensures VoteMessageOk(|c.servers|, h, Shorten(m, take)) && LogMessageOk(h, Shorten(m, take))
    ensures LogOk(h.leaderLogs, c.servers[m.dst]) && LeaderLogsOk(h)
  {
    assert VoteMessageOk(|c.servers|, h, m) && LogMessageOk(h, m);
    ShortenedIsOk(h, m, take);
  }

  lemma ReceiveLog(c: Cluster, h: History, m: Message, take: nat)
    requires ElectionInv(c, h) && LogInv(c, h) && Enabled(c, Deliver(m, take))
    ensures LogStep(|c.servers|, h, m.dst, c.servers[m.dst], Perform(c, Deliver(m, take)))
  {
    DeliveredFacts(c, h, m, take);
    if c.servers[m.dst].role.Candidate? {
      CandidateCanWin(c, h, m.dst, Shorten(m, take));
    } else if c.servers[m.dst].role.Leader? {
      LeaderIsElected(c, h, m.dst);
    }
    ServerReceiveLog(|c.servers|, h, m.dst, c.servers[m.dst], Shorten(m, take));
  }

  lemma ServerReceiveLog(n: nat, h: History, id: nat, s: Server, m: Message)
    requires VoteMessageOk(n, h, m) && LogMessageOk(h, m) && LogOk(h.leaderLogs, s) && LeaderLogsOk(h)
    requires m.dst == id && !s.role.Halted?
    requires s.role.Candidate? ==> s.term >= 1 && (BecomesLeader(s, m) ==> s.term !in h.elections)
    requires s.role.Leader? ==> LeaderOk(h, s) && h.elections[s.term].leader == id && s.term >= 1
    ensures LogStep(n, h, id, s, Receive(s, n, id, m))
  {
    match s.role
    case Follower(_) => FollowerReceiveLog(n, h, id, s, s, m);
    case Candidate(_, _) => CandidateReceiveLog(n, h, id, s, m);
    case Leader(_, _, _) =>
      if m.term > s.term {
        FollowerReceiveLog(n, h, id, s, ConvertToFollower(SetTerm(s, m.term)), m);
      } else {
        LeaderReceiveLog(n, h, id, s, m);
      }
  }

  lemma EntriesLandLog(n: nat, h: History, id: nat, s: Server, m: Message, o: Outcome)
    requires m.AppendEntries? && LogMessageOk(h, m) && LeaderLogsOk(h) && LogOk(h.leaderLogs, s)
    requires Matches(s.log, m.prevLogIndex, m.prevLogTerm)
    requires !o.server.role.Leader? && o.sent == []
    requires o.server.log == Merge(s.log, m.prevLogIndex, m.entries) && o.server.stream == s.stream + m.entries
    ensures LogStep(n, h, id, s, o)
  {
    AcceptIsOk(h, s, m);
  }

  lemma PerformLog(c: Cluster, h: History, a: Action)
    requires ElectionInv(c, h) && LogInv(c, h) && Enabled(c, a)
    ensures LogStep(|c.servers|, h, Actor(a), c.servers[Actor(a)], Perform(c, a))
  {
    var s := c.servers[Actor(a)];
    if a.Deliver? {
      ReceiveLog(c, h, a.m, a.take);
    } else if a.Heartbeat? || a.Append? || (a.Applied? && s.role.Leader?) {
      LeaderActionLog(c, h, a);
    } else if a.EntriesLandThenCrash? {
      TornActionLog(c, h, a);
    } else {
      QuietActionLog(c, h, a);
    }
  }

  lemma QuietActionLog(c: Cluster, h: History, a: Action)
    requires LogInv(c, h) && Enabled(c, a)
    requires !a.Deliver? && !a.Heartbeat? && !a.Append? && !a.EntriesLandThenCrash?
    requires a.Applied? ==> !c.servers[Actor(a)].role.Leader?
    ensures LogStep(|c.servers|, h, Actor(a), c.servers[Actor(a)], Perform(c, a))
  {
    assert LogOk(h.leaderLogs, c.servers[Actor(a)]);
    QuietLog(|c.servers|, h, Actor(a), c.servers[Actor(a)], Perform(c, a));
  }

  lemma TornActionLog(c: Cluster, h: History, a: Action)
    requires LogInv(c, h) && Enabled(c, a) && a.EntriesLandThenCrash?
    ensures LogStep(|c.servers|, h, Actor(a), c.servers[Actor(a)], Perform(c, a))
  {
    var n, id, s, o := |c.servers|, Actor(a), c.servers[Actor(a)], Perform(c, a);
    assert LogOk(h.leaderLogs, s) && LogMessageOk(h, a.m);
    ShortenedIsOk(h, a.m, a.take);
    EntriesLandLog(n, h, id, s, Shorten(a.m, a.take), o);
  }

  lemma LeaderActionLog(c: Cluster, h: History, a: Action)
    requires ElectionInv(c, h) && LogInv(c, h) && Enabled(c, a)
    requires a.Heartbeat? || a.Append? || (a.Applied? && c.servers[Actor(a)].role.Leader?)
    ensures LogStep(|c.servers|, h, Actor(a), c.servers[Actor(a)], Perform(c, a))
  {
    LeaderAtWork(c, h, Actor(a));
    LeaderWorksLog(|c.servers|, h, Actor(a), c.servers[Actor(a)], a, Perform(c, a));
  }

  lemma LeaderWorksLog(n: nat, h: History, id: nat, s: Server, a: Action, o: Outcome)
    requires s.role.Leader? && LeaderOk(h, s) && h.elections[s.term].leader == id && s.term >= 1
    requires LogOk(h.leaderLogs, s) && LeaderLogsOk(h)
    requires if a.Append? then o == LeaderAppend(s, n, id, a.value)
             else if a.Heartbeat? then o == LeaderHeartbeat(s, n, id) else o == Sends(s.(applying := Idle), [])
    ensures LogStep(n, h, id, s, o)
  {
    if a.Append? {
      LeaderAppendLog(n, h, id, s, a.value);
    } else {
      LeaderKeepsLog(n, h, id, s, if a.Heartbeat? then s else s.(applying := Idle), o, Peers(n, id), true);
    }
  }

  lemma LeaderAtWork(c: Cluster, h: History, id: nat)
    requires id < |c.servers| && c.servers[id].role.Leader? && ElectionInv(c, h) && LogInv(c, h)
    ensures LogOk(h.leaderLogs, c.servers[id]) && LeaderLogsOk(h) && LeaderOk(h, c.servers[id])
    ensures h.elections[c.servers[id].term].leader == id && c.servers[id].term >= 1
  {
    LeaderIsElected(c, h, id);
  }

  lemma {:induction false} LogInvariant(n: nat, run: seq<Action>)
    requires 2 <= n
    ensures LogInv(Exec(n, run), Chronicle(n, run)) && ElectionInv(Exec(n, run), Chronicle(n, run))
  {
    ElectionInvariant(n, run);
    if run != [] {
      var before, a := run[..|run| - 1], run[|run| - 1];
      LogInvariant(n, before);
      var c, h := Exec(n, before), Chronicle(n, before);
      if Enabled(c, a) {
        PerformLog(c, h, a);
        LogKept(c, Exec(n, run), h, Chronicle(n, run), Actor(a), Perform(c, a));
      }
    }
  }
}
