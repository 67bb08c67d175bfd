/** What servers hand to their state machines. */
module Application {
  import opened Entries
  import opened Protocol
  import opened Cluster
  import opened ElectionSafety
  import opened Operations
  import opened LogMatching
  import opened LogOperations

  /** The leader of term t committed this entry. */
  ghost predicate CommittedIn(h: History, t: nat, e: Entry) {
    && t in h.commits && t in h.leaderLogs
    && 1 <= e.index <= h.commits[t] && e.index <= |h.leaderLogs[t]|
    && h.leaderLogs[t][e.index - 1] == e
  }

  ghost predicate Committed(h: History, e: Entry) {
    exists t: nat :: CommittedIn(h, t, e)
  }

  ghost predicate QueuedOk(h: History, s: Server) {
    forall j :: 0 <= j < |s.queued| && s.queued[j].Some? ==> Committed(h, s.queued[j].value)
  }

  ghost predicate QueuedInv(c: Cluster, h: History) {
    forall v: nat :: v < |c.servers| ==> QueuedOk(h, c.servers[v])
  }

  // ---------------------------------------------------------------- handing over

  /** The queue grew only by entries that the log has at their index, up to the bound. */
  ghost predicate QueueGrew(log: seq<Entry>, bound: nat, s: Server, s': Server) {
    && s.queued <= s'.queued
    && (forall j :: |s.queued| <= j < |s'.queued| && s'.queued[j].Some? ==>
          var e := s'.queued[j].value;
          1 <= e.index <= bound && e.index <= |log| && e == log[e.index - 1])
  }

  lemma CommitToGrows(s: Server, index: nat, bound: nat)
    requires Indexed(s.log) && index <= bound
    ensures QueueGrew(s.log, bound, s, CommitTo(s, index))
  {
    var s' := CommitTo(s, index);
    if 1 <= index <= |s.log| {
      var from := FirstHanded(s.lastQueued, index) - 1;
      forall j | |s.queued| <= j < |s'.queued|
        ensures s'.queued[j] == Some(s.log[from + j - |s.queued|])
      {
      }
    }
  }

  lemma {:induction false} CommitReplicatedGrows(initial: nat, s: Server)
    requires s.role.Leader? && LeaderShape(initial, s) && Indexed(s.log)
    ensures QueueGrew(s.log, CommitReplicated(s).role.commitIndex, s, CommitReplicated(s))
    decreases if s.role.Leader? then |s.role.pending| else 0
  {
    if s.role.pending != [] && s.role.pending[0].required == 0 {
      var first := CommitFirst(s);
      CommitToGrows(s, s.role.pending[0].index, s.role.pending[0].index);
      CommitReplicatedGrows(initial, first);
      CommitReplicatedShape(initial, first);
      CommitReplicatedKeeps(first);
      var rest := CommitReplicated(first);
      QueueGrewTwice(s.log, first.role.commitIndex, rest.role.commitIndex, s, first, rest);
    }
  }

  lemma QueueGrewTwice(log: seq<Entry>, bound: nat, bound': nat, s: Server, s': Server, s'': Server)
    requires QueueGrew(log, bound, s, s') && QueueGrew(log, bound', s', s'') && bound <= bound'
    ensures QueueGrew(log, bound', s, s'')
  {
    forall j | |s.queued| <= j < |s''.queued| && s''.queued[j].Some?
      ensures 1 <= s''.queued[j].value.index <= bound' && s''.queued[j].value.index <= |log|
      ensures s''.queued[j].value == log[s''.queued[j].value.index - 1]
    {
      if j < |s'.queued| {
        assert s''.queued[j] == s'.queued[j];
      }
    }
  }

  lemma RecordAcceptGrows(initial: nat, s: Server, peer: nat, acked: nat)
    requires s.role.Leader? && peer in s.role.progress && LeaderShape(initial, s) && Indexed(s.log)
    ensures QueueGrew(s.log, RecordAccept(s, peer, acked).role.commitIndex, s, RecordAccept(s, peer, acked))
  {
    var next := s.role.progress[peer].next;
    if acked >= next {
      CountAcceptKeepsIndexes(s.role.pending, next, acked);
      CommitReplicatedGrows(initial, s.(role := s.role.(pending := CountAccept(s.role.pending, next, acked))));
    }
  }

  /** A follower commits before its new entries land: what it hands over lies up to prevLogIndex, and it hands
      over something that cannot be applied exactly when it commits at prevLogIndex 0. */
  lemma AcceptGrows(s: Server, m: Message)
    requires s.role.Follower? && m.AppendEntries? && Matches(s.log, m.prevLogIndex, m.prevLogTerm)
    requires Indexed(s.log)
    ensures QueueGrew(s.log[..m.prevLogIndex], Min(m.leaderCommit, m.prevLogIndex), s, Accept(s, m))
    ensures (exists j :: |s.queued| <= j < |Accept(s, m).queued| && Accept(s, m).queued[j] == None) <==>
            m.leaderCommit > s.role.commitIndex && m.prevLogIndex == 0
  {
    var cut := s.(log := s.log[..m.prevLogIndex]);
    var termed := if m.term > s.term then SetTerm(cut, m.term) else cut;
    var index := Min(m.leaderCommit, m.prevLogIndex);
    CommitToGrows(termed, index, index);
    AcceptQueuesMissing(s, m);
  }

  lemma AcceptQueuesMissing(s: Server, m: Message)
    requires s.role.Follower? && m.AppendEntries? && Matches(s.log, m.prevLogIndex, m.prevLogTerm)
    ensures (exists j :: |s.queued| <= j < |Accept(s, m).queued| && Accept(s, m).queued[j] == None) <==>
            m.leaderCommit > s.role.commitIndex && m.prevLogIndex == 0
  {
    if m.leaderCommit > s.role.commitIndex && m.prevLogIndex == 0 {
      assert Accept(s, m).queued[|s.queued|] == None;
    }
  }

  // ---------------------------------------------------------------- every entry handed over is committed

  lemma CommittedGrows(h: History, h': History, e: Entry)
    requires Committed(h, e) && Extends(h.leaderLogs, h'.leaderLogs)
    requires forall t :: t in h.commits ==> t in h'.commits && h.commits[t] <= h'.commits[t]
    ensures Committed(h', e)
  {
    var t :| CommittedIn(h, t, e);
    assert CommittedIn(h', t, e);
  }

  lemma QueueGrewOk(h: History, t: nat, log: seq<Entry>, bound: nat, s: Server, s': Server)
    requires QueueGrew(log, bound, s, s') && QueuedOk(h, s)
    requires t in h.commits && t in h.leaderLogs && bound <= h.commits[t] && log <= h.leaderLogs[t]
    ensures QueuedOk(h, s')
  {
    forall j | 0 <= j < |s'.queued| && s'.queued[j].Some?
      ensures Committed(h, s'.queued[j].value)
    {
      if j < |s.queued| {
        assert s'.queued[j] == s.queued[j];
      } else {
        assert CommittedIn(h, t, s'.queued[j].value);
      }
    }
  }

  /** Follower commit agreement: whatever a follower newly hands over, the leader of the message's term had
      committed, and has at the same index. */
  lemma AcceptQueued(h: History, s: Server, m: Message)
    requires s.role.Follower? && m.AppendEntries? && Matches(s.log, m.prevLogIndex, m.prevLogTerm)
    requires LogOk(h.leaderLogs, s) && LogMessageOk(h, m) && LeaderLogsOk(h)
    ensures
      var s' := Accept(s, m);
      forall j :: |s.queued| <= j < |s'.queued| && s'.queued[j].Some? ==> CommittedIn(h, m.term, s'.queued[j].value)
    ensures QueuedOk(h, s) ==> QueuedOk(h, Accept(s, m))
  {
    assert Indexed(s.log) by {
      assert s.log == Replay(s.stream)[..|s.log|];
    }
    AcceptGrows(s, m);
    MergeIsLeaderPrefix(h, s.log, m);
    if QueuedOk(h, s) {
      QueueGrewOk(h, m.term, s.log[..m.prevLogIndex], Min(m.leaderCommit, m.prevLogIndex), s, Accept(s, m));
    }
  }

  lemma FollowerReceiveQueued(h: History, id: nat, s: Server, m: Message)
    requires s.role.Follower? && QueuedOk(h, s)
    requires LogOk(h.leaderLogs, s) && LogMessageOk(h, m) && LeaderLogsOk(h)
    ensures QueuedOk(h, FollowerReceive(s, id, m).server)
  {
    if Accepts(s, m) {
      AcceptQueued(h, s, m);
    }
  }

  lemma LeaderReceiveQueued(n: nat, h: History, id: nat, s: Server, m: Message)
    requires s.role.Leader? && LeaderOk(h, s) && LogOk(h.leaderLogs, s) && m.term <= s.term
    ensures
      var s' := LeaderReceive(s, n, id, m).server;
      s'.role.Leader? && QueueGrew(s.log, s'.role.commitIndex, s, s')
  {
    assert Indexed(s.log) by {
      assert s.log == Replay(s.stream)[..|s.log|];
    }
    match m
    case RequestVote(_, _, _, _, _) =>
      UpdateAllSends(s, id, [m.src], true);
    case RejectEntries(_, _, _, conflict) =>
      if m.src in s.role.progress && conflict.Some? {
        UpdateAllSends(SetProgress(s, m.src, s.role.progress[m.src].(next := conflict.value)), id, [m.src], true);
      }
    case AcceptEntries(_, _, _, acked) =>
      if m.src in s.role.progress {
        RecordAcceptGrows(|h.elections[s.term].log|, s, m.src, acked);
        UpdateAllSends(RecordAccept(s, m.src, acked), id, [m.src], false);
      }
    case _ =>
  }

  /** Receiving as, or by becoming, anything but the leader of the message's term. */
  lemma ReceiveQueued(n: nat, h: History, id: nat, s: Server, m: Message)
    requires !s.role.Halted? && (s.role.Leader? ==> m.term > s.term)
    requires QueuedOk(h, s) && LogOk(h.leaderLogs, s) && LogMessageOk(h, m) && LeaderLogsOk(h)
    ensures QueuedOk(h, Receive(s, n, id, m).server)
  {
    if s.role.Follower? {
      FollowerReceiveQueued(h, id, s, m);
    } else if m.term > s.term {
      FollowerReceiveQueued(h, id, ConvertToFollower(SetTerm(s, m.term)), m);
    } else if m.AppendEntries? && m.term == s.term {
      FollowerReceiveQueued(h, id, ConvertToFollower(s), m);
    } else {
      BecomeLeaderSends(s, n, id);
    }
  }

  /** Operations in which nothing is committed by a leader: judged against the history before them. */
  lemma OtherQueued(c: Cluster, h: History, a: Action)
    requires Enabled(c, a) && LogInv(c, h) && QueuedInv(c, h)
    requires c.servers[Actor(a)].role.Leader? ==> a.Deliver? ==> a.m.term > c.servers[Actor(a)].term
    ensures QueuedOk(h, Perform(c, a).server)
  {
    var n, id, s := |c.servers|, Actor(a), c.servers[Actor(a)];
    assert QueuedOk(h, s) && LogOk(h.leaderLogs, s);
    if a.Deliver? {
      assert LogMessageOk(h, a.m);
      ShortenedIsOk(h, a.m, a.take);
      ReceiveQueued(n, h, id, s, Shorten(a.m, a.take));
    } else if a.Heartbeat? {
      UpdateAllSends(s, id, Peers(n, id), true);
    } else if a.Append? {
      AppendQueued(s, n, id, a.value);
    } else if a.CommitsThenCrash? || (s.role.Follower? && (a.TermLandsThenCrash? || a.EntriesLandThenCrash?)) {
      assert LogMessageOk(h, a.m);
      CrashQueued(h, s, a.m);
    }
  }

  /** What a follower handed over before it crashed is committed too. */
  lemma CrashQueued(h: History, s: Server, m: Message)
    requires Accepts(s, m) && QueuedOk(h, s)
    requires LogOk(h.leaderLogs, s) && LogMessageOk(h, m) && LeaderLogsOk(h)
    ensures QueuedOk(h, HandsOver(TakesUp(s, m), m))
  {
    AcceptQueued(h, TakesUp(s, m), m);
  }

  lemma AppendQueued(s: Server, n: nat, id: nat, value: Payload)
    requires s.role.Leader?
    ensures LeaderAppend(s, n, id, value).server.queued == s.queued
  {
    var entry := Entry(|s.log| + 1, s.term, value);
    var role := s.role.(pending := s.role.pending + [Pending(entry.index, HalfOfPeers(n))]);
    UpdateAllSends(s.(log := s.log + [entry], stream := s.stream + [entry], role := role), id, Peers(n, id), false);
  }

  lemma CommitsGrow(h: History, n: nat, id: nat, s: Server, s': Server)
    requires LeaderLogsOk(h) && h.commits.Keys <= h.leaderLogs.Keys && LeaderLogStep(h, s, s')
    ensures
      var h' := Record(h, n, id, s');
      forall t :: t in h.commits ==> t in h'.commits && h.commits[t] <= h'.commits[t]
  {
  }

  lemma QueuedGrows(h: History, h': History, s: Server)
    requires QueuedOk(h, s) && Extends(h.leaderLogs, h'.leaderLogs)
    requires forall t :: t in h.commits ==> t in h'.commits && h.commits[t] <= h'.commits[t]
    ensures QueuedOk(h', s)
  {
    forall j | 0 <= j < |s.queued| && s.queued[j].Some?
      ensures Committed(h', s.queued[j].value)
    {
      CommittedGrows(h, h', s.queued[j].value);
    }
  }

  lemma LeaderAtHand(c: Cluster, h: History, id: nat)
    requires id < |c.servers| && LogInv(c, h) && QueuedInv(c, h)
    ensures QueuedOk(h, c.servers[id]) && LogOk(h.leaderLogs, c.servers[id])
    ensures c.servers[id].role.Leader? ==> LeaderOk(h, c.servers[id])
  {
  }

  /** A leader that hears from its own or an earlier term. */
  lemma LeaderQueued(n: nat, h: History, h': History, id: nat, s: Server, m: Message)
    requires s.role.Leader? && m.term <= s.term
    requires LeaderOk(h, s) && LogOk(h.leaderLogs, s) && QueuedOk(h, s)
    requires h' == Record(h, n, id, LeaderReceive(s, n, id, m).server) && Extends(h.leaderLogs, h'.leaderLogs)
    requires forall t :: t in h.commits ==> t in h'.commits && h.commits[t] <= h'.commits[t]
    requires LeaderReceive(s, n, id, m).server.term == s.term && LeaderReceive(s, n, id, m).server.log == s.log
    ensures QueuedOk(h', LeaderReceive(s, n, id, m).server)
  {
    var s' := LeaderReceive(s, n, id, m).server;
    LeaderReceiveQueued(n, h, id, s, m);
    QueuedGrows(h, h', s);
    QueueGrewOk(h', s.term, s.log, s'.role.commitIndex, s, s');
  }

  lemma PerformQueued(c: Cluster, h: History, h': History, a: Action)
    requires Enabled(c, a) && VoteMessagesOk(c, h) && LogInv(c, h) && QueuedInv(c, h)
    requires h' == Record(h, |c.servers|, Actor(a), Perform(c, a).server) && Extends(h.leaderLogs, h'.leaderLogs)
    requires forall t :: t in h.commits ==> t in h'.commits && h.commits[t] <= h'.commits[t]
    ensures QueuedOk(h', Perform(c, a).server)
  {
    var n, id, s := |c.servers|, Actor(a), c.servers[Actor(a)];
    if s.role.Leader? && a.Deliver? && a.m.term <= s.term {
      LeaderAtHand(c, h, id);
      assert VoteMessageOk(n, h, a.m);
      LeaderReceiveStays(n, id, s, Shorten(a.m, a.take));
      LeaderQueued(n, h, h', id, s, Shorten(a.m, a.take));
    } else {
      OtherQueued(c, h, a);
      QueuedGrows(h, h', Perform(c, a).server);
    }
  }

  lemma QueuedKept(c: Cluster, c': Cluster, h: History, h': History, id: nat, o: Outcome)
    requires Moved(c, c', h, h', id, o)
    requires QueuedInv(c, h) && QueuedOk(h', o.server) && Extends(h.leaderLogs, h'.leaderLogs)
    requires forall t :: t in h.commits ==> t in h'.commits && h.commits[t] <= h'.commits[t]
    ensures QueuedInv(c', h')
  {
    forall v: nat | v < |c'.servers|
      ensures QueuedOk(h', c'.servers[v])
    {
      if v == id {
        assert QueuedOk(h', o.server);
      } else {
        QueuedGrows(h, h', c.servers[v]);
      }
    }
  }

  lemma {:induction false} QueuedInvariant(n: nat, run: seq<Action>)
    requires 2 <= n
    ensures QueuedInv(Exec(n, run), Chronicle(n, run))
    ensures Chronicle(n, run).commits.Keys <= Chronicle(n, run).leaderLogs.Keys
  {
    if run != [] {
      var before, a := run[..|run| - 1], run[|run| - 1];
      QueuedInvariant(n, before);
      LogInvariant(n, before);
      var c, h := Exec(n, before), Chronicle(n, before);
      if Enabled(c, a) {
        var o := Perform(c, a);
        PerformLog(c, h, a);
        LeaderLogsExtend(h, n, Actor(a), c.servers[Actor(a)], o.server);
        CommitsGrow(h, n, Actor(a), c.servers[Actor(a)], o.server);
        PerformQueued(c, h, Chronicle(n, run), a);
        QueuedKept(c, Exec(n, run), h, Chronicle(n, run), Actor(a), o);
      }
    }
  }
}
