/** The theorems, over every run of a cluster of at least two servers. */
module Safety {
  import opened Entries
  import opened Protocol
  import opened Cluster
  import opened ElectionSafety
  import opened Operations
  import opened LogMatching
  import opened LogOperations
  import opened Terms
  import opened Commitment
  import opened Completeness
  import opened Application

  /** Server id as it is after the first p actions of the run. */
  function At(n: nat, run: seq<Action>, p: nat, id: nat): Server
    requires p <= |run| && id < n
  {
    Exec(n, run[..p]).servers[id]
  }

  // ---------------------------------------------------------------- history only grows

  ghost predicate Older(h: History, h': History) {
    && (forall t :: t in h.elections ==> t in h'.elections && h'.elections[t] == h.elections[t])
    && (forall t :: t in h.commits ==> t in h'.commits && h.commits[t] <= h'.commits[t])
    && Extends(h.leaderLogs, h'.leaderLogs)
  }

  lemma OlderStep(h: History, n: nat, id: nat, s: Server, s': Server)
    requires LeaderLogsOk(h) && h.commits.Keys <= h.leaderLogs.Keys && LeaderLogStep(h, s, s')
    ensures Older(h, Record(h, n, id, s'))
  {
    LeaderLogsExtend(h, n, id, s, s');
    CommitsGrow(h, n, id, s, s');
  }

  lemma {:induction false} HistoryGrows(n: nat, run: seq<Action>, p: nat)
    requires 2 <= n && p <= |run|
    ensures Older(Chronicle(n, run[..p]), Chronicle(n, run))
    ensures Exec(n, run[..p]).net <= Exec(n, run).net
    decreases |run|
  {
    if p == |run| {
      assert run[..p] == run;
    } else {
      var before, a := run[..|run| - 1], run[|run| - 1];
      assert before[..p] == run[..p];
      HistoryGrows(n, before, p);
      var c, h := Exec(n, before), Chronicle(n, before);
      if Enabled(c, a) {
        LogInvariant(n, before);
        QueuedInvariant(n, before);
        PerformLog(c, h, a);
        OlderStep(h, n, Actor(a), c.servers[Actor(a)], Perform(c, a).server);
        OlderTransitive(Chronicle(n, run[..p]), h, Chronicle(n, run));
      }
    }
  }

  lemma OlderTransitive(a: History, b: History, c: History)
    requires Older(a, b) && Older(b, c)
    ensures Older(a, c)
  {
  }

  // ---------------------------------------------------------------- Election Safety

  /** What the invariants say of a server that leads now. */
  lemma LeaderFacts(n: nat, run: seq<Action>, i: nat)
    requires 2 <= n && i < n && Exec(n, run).servers[i].role.Leader?
    ensures
      var s, h := Exec(n, run).servers[i], Chronicle(n, run);
      && s.term in h.elections && h.elections[s.term].leader == i
      && s.term in h.leaderLogs && h.leaderLogs[s.term] == s.log && h.elections[s.term].log <= s.log
      && (forall j :: |h.elections[s.term].log| <= j < |s.log| ==> s.log[j].term == s.term)
      && s.role.commitIndex <= |s.log|
      && (s.role.commitIndex > 0 ==> s.log[s.role.commitIndex - 1].term == s.term)
      && s.term in h.commits && h.commits[s.term] == s.role.commitIndex
  {
    var c, h := Exec(n, run), Chronicle(n, run);
    LogInvariant(n, run);
    LeaderIsElected(c, h, i);
    assert LeaderLogOk(h, c.servers[i].term);
  }

  /** Whoever leads in a term at any moment is the one the history names. */
  lemma LeaderNamed(n: nat, run: seq<Action>, p: nat, i: nat)
    requires 2 <= n && p <= |run| && i < n && At(n, run, p, i).role.Leader?
    ensures
      var t, h := At(n, run, p, i).term, Chronicle(n, run);
      && t in h.elections && h.elections[t].leader == i
      && t in h.leaderLogs && At(n, run, p, i).log <= h.leaderLogs[t]
      && t in h.commits && At(n, run, p, i).role.commitIndex <= h.commits[t]
      && h.elections[t].log <= At(n, run, p, i).log
  {
    LeaderFacts(n, run[..p], i);
    HistoryGrows(n, run, p);
  }

  /** Section 5.2: at most one server is ever the leader of a term. */
  lemma OneLeaderPerTerm(n: nat, run: seq<Action>, p: nat, q: nat, i: nat, j: nat)
    requires 2 <= n && p <= |run| && q <= |run| && i < n && j < n
    requires At(n, run, p, i).role.Leader? && At(n, run, q, j).role.Leader?
    requires At(n, run, p, i).term == At(n, run, q, j).term
    ensures i == j
  {
    LeaderNamed(n, run, p, i);
    LeaderNamed(n, run, q, j);
  }

  // ---------------------------------------------------------------- Log Matching

  /** Same index and term at k means same entries up to k. */
  ghost predicate LogsMatch(a: seq<Entry>, b: seq<Entry>) {
    forall k :: 0 <= k < |a| && k < |b| && a[k].term == b[k].term ==> a[..k + 1] == b[..k + 1]
  }

  lemma AnchoredMatch(leaderLogs: Logs, a: seq<Entry>, b: seq<Entry>)
    requires Anchored(leaderLogs, a) && Anchored(leaderLogs, b)
    ensures LogsMatch(a, b)
  {
  }

  /** A log of the server at that moment: in memory, or as a restart would load it. */
  ghost predicate LogAt(n: nat, run: seq<Action>, p: nat, i: nat, log: seq<Entry>)
    requires p <= |run| && i < n
  {
    log == At(n, run, p, i).log || log == Replay(At(n, run, p, i).stream)
  }

  lemma LogAtAnchored(n: nat, run: seq<Action>, p: nat, i: nat, log: seq<Entry>)
    requires 2 <= n && p <= |run| && i < n && LogAt(n, run, p, i, log)
    ensures Anchored(Chronicle(n, run).leaderLogs, log)
  {
    LogInvariant(n, run[..p]);
    assert LogOk(Chronicle(n, run[..p]).leaderLogs, At(n, run, p, i));
    HistoryGrows(n, run, p);
    AnchoredGrows(Chronicle(n, run[..p]).leaderLogs, Chronicle(n, run).leaderLogs, log);
  }

  /** Section 5.3, for any two logs of any two servers at any two moments of a run. */
  lemma AllLogsMatch(n: nat, run: seq<Action>, p: nat, q: nat, i: nat, j: nat, a: seq<Entry>, b: seq<Entry>)
    requires 2 <= n && p <= |run| && q <= |run| && i < n && j < n
    requires LogAt(n, run, p, i, a) && LogAt(n, run, q, j, b)
    ensures LogsMatch(a, b)
  {
    LogAtAnchored(n, run, p, i, a);
    LogAtAnchored(n, run, q, j, b);
    AnchoredMatch(Chronicle(n, run).leaderLogs, a, b);
  }

  // ---------------------------------------------------------------- the persisted stream

  /** A restart loses nothing that the server had, whatever was cut and overwritten before. */
  lemma DurableReplay(n: nat, run: seq<Action>, i: nat)
    requires 2 <= n && i < n
    ensures
      var s := Exec(n, run).servers[i];
      s.log <= Replay(s.stream)
  {
    LogInvariant(n, run);
    assert LogOk(Chronicle(n, run).leaderLogs, Exec(n, run).servers[i]);
  }

  lemma MergeReplays(h: History, s: Server, m: Message)
    requires LogOk(h.leaderLogs, s) && LogMessageOk(h, m) && LeaderLogsOk(h)
    requires m.AppendEntries? && Matches(s.log, m.prevLogIndex, m.prevLogTerm) && m.entries != []
    ensures Replay(s.stream + m.entries) == Merge(s.log, m.prevLogIndex, m.entries)
  {
    LeaderLogFacts(h, m.term);
    ReplayBatch(s.stream, m.prevLogIndex, m.entries);
    assert Replay(s.stream)[..m.prevLogIndex] == s.log[..m.prevLogIndex];
  }

  /** After an append, and after a merge that brought entries, it reloads exactly the log in memory. */
  lemma DurableReplayExact(n: nat, run: seq<Action>, a: Action)
    requires 2 <= n && Enabled(Exec(n, run), a)
    requires
      || a.Append?
      || (a.Deliver? && Accepts(Exec(n, run).servers[a.m.dst], Shorten(a.m, a.take))
          && Shorten(a.m, a.take).entries != [])
    ensures
      var s := Exec(n, run + [a]).servers[Actor(a)];
      s.log == Replay(s.stream)
  {
    var c, h := Exec(n, run), Chronicle(n, run);
    LogInvariant(n, run);
    DurableReplayStep(c, h, a);
    LastAction(n, run, a);
  }

  lemma LastAction(n: nat, run: seq<Action>, a: Action)
    requires Enabled(Exec(n, run), a)
    ensures
      var s, s' := Exec(n, run + [a]).servers[Actor(a)], Perform(Exec(n, run), a).server;
      s.log == s'.log && s.stream == s'.stream
  {
    assert (run + [a])[..|run|] == run;
  }

  lemma DurableReplayStep(c: Cluster, h: History, a: Action)
    requires Enabled(c, a) && VoteMessagesOk(c, h) && LogInv(c, h)
    requires
      || a.Append?
      || (a.Deliver? && Accepts(c.servers[a.m.dst], Shorten(a.m, a.take)) && Shorten(a.m, a.take).entries != [])
    ensures Perform(c, a).server.log == Replay(Perform(c, a).server.stream)
  {
    var s := c.servers[Actor(a)];
    assert LogOk(h.leaderLogs, s);
    if a.Append? {
      ActionShape(c, a);
      AppendReplays(s.log, s.stream, Entry(|s.log| + 1, s.term, a.value));
    } else {
      assert VoteMessageOk(|c.servers|, h, a.m) && LogMessageOk(h, a.m);
      ShortenedIsOk(h, a.m, a.take);
      ReceiveShape(s, |c.servers|, Actor(a), Shorten(a.m, a.take));
      MergeReplays(h, s, Shorten(a.m, a.take));
    }
  }

  // ---------------------------------------------------------------- acknowledgements

  /** At this moment the server's whole log was this one. */
  ghost predicate HadLog(n: nat, run: seq<Action>, id: nat, log: seq<Entry>) {
    id < n && exists p :: 0 <= p <= |run| && At(n, run, p, id).log == log
  }

  lemma {:induction false} HeldHappened(n: nat, run: seq<Action>, id: nat, log: seq<Entry>)
    requires (id, log) in Chronicle(n, run).held
    ensures HadLog(n, run, id, log)
  {
    var before, a := run[..|run| - 1], run[|run| - 1];
    if (id, log) in Chronicle(n, before).held {
      HeldHappened(n, before, id, log);
      var p :| 0 <= p <= |before| && At(n, before, p, id).log == log;
      assert before[..p] == run[..p];
      assert At(n, run, p, id).log == log;
    } else {
      assert run[..|run|] == run;
      assert At(n, run, |run|, id).log == log;
    }
  }

  /** Action p sends this message. */
  ghost predicate SentAt(n: nat, run: seq<Action>, p: nat, m: Message)
    requires p < |run|
  {
    Enabled(Exec(n, run[..p]), run[p]) && m in Perform(Exec(n, run[..p]), run[p]).sent
  }

  lemma {:induction false} SentOnce(n: nat, run: seq<Action>, m: Message) returns (p: nat)
    requires m in Exec(n, run).net
    ensures p < |run| && SentAt(n, run, p, m)
  {
    var before, a := run[..|run| - 1], run[|run| - 1];
    if m in Exec(n, before).net {
      p := SentOnce(n, before, m);
      assert before[..p] == run[..p];
    } else {
      p := |run| - 1;
    }
  }

  lemma AfterAction(n: nat, run: seq<Action>, p: nat)
    requires p < |run| && Enabled(Exec(n, run[..p]), run[p])
    ensures At(n, run, p + 1, Actor(run[p])) == Perform(Exec(n, run[..p]), run[p]).server
  {
    assert run[..p + 1][..p] == run[..p];
  }

  /** When an acknowledgement is sent, the sender's whole log is a beginning of the log of the leader of its term. */
  lemma AckWhenSent(n: nat, run: seq<Action>, p: nat, m: Message)
    requires 2 <= n && p < |run| && SentAt(n, run, p, m) && m.AcceptEntries?
    ensures m.src == Actor(run[p]) && m.src < n && m.term in Chronicle(n, run).leaderLogs
    ensures
      var leaderLog := Chronicle(n, run).leaderLogs[m.term];
      m.ackedIndex <= |leaderLog| && At(n, run, p + 1, m.src).log == leaderLog[..m.ackedIndex]
  {
    LogInvariant(n, run[..p]);
    AckedByAction(Exec(n, run[..p]), Chronicle(n, run[..p]), run[p], m);
    HistoryGrows(n, run, p);
    AfterAction(n, run, p);
    PrefixOf(Chronicle(n, run[..p]).leaderLogs, Chronicle(n, run).leaderLogs, m.term, At(n, run, p + 1, m.src).log);
  }

  lemma AckedByAction(c: Cluster, h: History, a: Action, m: Message)
    requires Enabled(c, a) && VoteMessagesOk(c, h) && LogInv(c, h) && m in Perform(c, a).sent && m.AcceptEntries?
    ensures m.src == Actor(a) && m.ackedIndex == |Perform(c, a).server.log|
    ensures m.term in h.leaderLogs && Perform(c, a).server.log <= h.leaderLogs[m.term]
  {
    PerformAcks(c, h, a);
  }

  lemma PrefixOf(a: Logs, b: Logs, t: nat, log: seq<Entry>)
    requires Extends(a, b) && t in a && log <= a[t]
    ensures t in b && |log| <= |b[t]| && log == b[t][..|log|]
  {
  }

  /** Whenever anyone sends an acknowledgement of index k in term t, its whole log is then the first k entries of
      the log of the leader of term t, at whatever moment of its leadership that leader is looked at. */
  lemma AcknowledgementSoundness(n: nat, run: seq<Action>, p: nat, m: Message, q: nat, leader: nat)
    requires 2 <= n && p < |run| && SentAt(n, run, p, m) && m.AcceptEntries?
    requires q <= |run| && leader < n && At(n, run, q, leader).role.Leader? && At(n, run, q, leader).term == m.term
    requires m.ackedIndex <= |At(n, run, q, leader).log|
    ensures m.src == Actor(run[p]) && m.src < n
    ensures At(n, run, p + 1, m.src).log == At(n, run, q, leader).log[..m.ackedIndex]
  {
    AckWhenSent(n, run, p, m);
    LeaderNamed(n, run, q, leader);
    var leaderLog := Chronicle(n, run).leaderLogs[m.term];
    assert leaderLog[..m.ackedIndex] == At(n, run, q, leader).log[..m.ackedIndex];
  }

  /** So whoever acknowledged it had those entries, as its whole log, at some moment. */
  lemma AckHappened(n: nat, run: seq<Action>, m: Message)
    requires 2 <= n && m in Exec(n, run).net && m.AcceptEntries?
    ensures
      var leaderLogs := Chronicle(n, run).leaderLogs;
      && m.term in leaderLogs && m.ackedIndex <= |leaderLogs[m.term]|
      && HadLog(n, run, m.src, leaderLogs[m.term][..m.ackedIndex])
  {
    var p := SentOnce(n, run, m);
    AckWhenSent(n, run, p, m);
  }

  lemma {:induction false} LeaderLogHeld(n: nat, run: seq<Action>, t: nat)
    requires 2 <= n && t in Chronicle(n, run).leaderLogs
    ensures
      var h := Chronicle(n, run);
      t in h.elections && (h.elections[t].leader, h.leaderLogs[t]) in h.held
  {
    var before, a := run[..|run| - 1], run[|run| - 1];
    var c, h := Exec(n, before), Chronicle(n, before);
    LogInvariant(n, before);
    if Enabled(c, a) {
      var s' := Perform(c, a).server;
      if s'.role.Leader? && s'.term == t {
        PerformElection(c, h, a);
        RoleSettles(c, h, Actor(a), Perform(c, a));
        assert RoleOk(n, Chronicle(n, run), Actor(a), s');
      } else {
        LeaderLogHeld(n, before, t);
      }
    } else {
      LeaderLogHeld(n, before, t);
    }
  }

  /** Such a leader exists: the one elected in that term, which at some moment had a log at least that long. */
  lemma AcknowledgedToLeader(n: nat, run: seq<Action>, p: nat, m: Message) returns (leader: nat, log: seq<Entry>)
    requires 2 <= n && p < |run| && SentAt(n, run, p, m) && m.AcceptEntries?
    ensures m.term in Chronicle(n, run).elections && leader == Chronicle(n, run).elections[m.term].leader
    ensures HadLog(n, run, leader, log) && m.ackedIndex <= |log|
    ensures m.src < n && At(n, run, p + 1, m.src).log == log[..m.ackedIndex]
  {
    var h := Chronicle(n, run);
    AckWhenSent(n, run, p, m);
    LeaderLogHeld(n, run, m.term);
    leader, log := h.elections[m.term].leader, h.leaderLogs[m.term];
    HeldHappened(n, run, leader, log);
  }

  // ---------------------------------------------------------------- election restriction

  /** At some moment the server cast its vote of this term for this candidate, and its log was then no more up
      to date than the candidate's. */
  ghost predicate Supported(n: nat, run: seq<Action>, v: nat, t: nat, candidate: nat, log: seq<Entry>) {
    v < n && exists p :: 0 <= p < |run| && SupportedAt(n, run, p, v, t, candidate, log)
  }

  /** Action p is the one by which it did. */
  ghost predicate SupportedAt(n: nat, run: seq<Action>, p: nat, v: nat, t: nat, candidate: nat, log: seq<Entry>)
    requires p < |run| && v < n
  {
    var s, s' := At(n, run, p, v), At(n, run, p + 1, v);
    && s.term <= t && (s.term == t ==> s.vote == None)
    && s'.term == t && s'.vote == Some(candidate) && !Outdated(s'.log, LastTerm(log), |log|)
  }

  lemma {:induction false} BallotHappened(n: nat, run: seq<Action>, k: (nat, nat), log: seq<Entry>)
    requires 2 <= n && k in Chronicle(n, run).ballots
    requires !Outdated(Chronicle(n, run).ballots[k].log, LastTerm(log), |log|)
    ensures Supported(n, run, k.0, k.1, Chronicle(n, run).ballots[k].candidate, log)
  {
    var before := run[..|run| - 1];
    var candidate := Chronicle(n, run).ballots[k].candidate;
    if k in Chronicle(n, before).ballots {
      BallotHappened(n, before, k, log);
      StillSupported(n, run, k.0, k.1, candidate, log);
    } else {
      BallotCast(n, run, k, log);
      assert SupportedAt(n, run, |run| - 1, k.0, k.1, candidate, log);
    }
  }

  lemma StillSupported(n: nat, run: seq<Action>, v: nat, t: nat, candidate: nat, log: seq<Entry>)
    requires run != [] && Supported(n, run[..|run| - 1], v, t, candidate, log)
    ensures Supported(n, run, v, t, candidate, log)
  {
    var before := run[..|run| - 1];
    var p :| 0 <= p < |before| && SupportedAt(n, before, p, v, t, candidate, log);
    assert before[..p] == run[..p] && before[..p + 1] == run[..p + 1];
    assert SupportedAt(n, run, p, v, t, candidate, log);
  }

  /** The last action cast this vote: the server had none in this term before. */
  lemma BallotCast(n: nat, run: seq<Action>, k: (nat, nat), log: seq<Entry>)
    requires 2 <= n && k in Chronicle(n, run).ballots && run != []
    requires k !in Chronicle(n, run[..|run| - 1]).ballots
    requires !Outdated(Chronicle(n, run).ballots[k].log, LastTerm(log), |log|)
    ensures k.0 < n && SupportedAt(n, run, |run| - 1, k.0, k.1, Chronicle(n, run).ballots[k].candidate, log)
  {
    var p := |run| - 1;
    var c, h := Exec(n, run[..p]), Chronicle(n, run[..p]);
    ElectionInvariant(n, run[..p]);
    PerformElection(c, h, run[p]);
    AfterAction(n, run, p);
    assert k == (Actor(run[p]), Perform(c, run[p]).server.term);
    VoteIsNew(c, h, k.0, Perform(c, run[p]).server);
  }

  lemma VoteIsNew(c: Cluster, h: History, id: nat, s': Server)
    requires id < |c.servers| && VotesRecorded(c, h) && TermStep(c.servers[id], s')
    requires (id, s'.term) !in h.ballots
    ensures c.servers[id].term <= s'.term && (c.servers[id].term == s'.term ==> c.servers[id].vote == None)
  {
  }

  /** The server started this election with this log. */
  ghost predicate CampaignedAt(n: nat, run: seq<Action>, p: nat, id: nat, t: nat, log: seq<Entry>)
    requires p < |run| && id < n
  {
    var s := At(n, run, p + 1, id);
    && run[p] == ElectionTimeout(id) && At(n, run, p, id).term < t
    && s.role.Candidate? && s.term == t && s.log == log && s.vote == Some(id)
  }

  lemma {:induction false} CampaignHappened(n: nat, run: seq<Action>, k: (nat, nat)) returns (p: nat)
    requires 2 <= n && k in Chronicle(n, run).campaigns
    ensures p < |run| && k.0 < n && CampaignedAt(n, run, p, k.0, k.1, Chronicle(n, run).campaigns[k])
  {
    var before := run[..|run| - 1];
    if k in Chronicle(n, before).campaigns {
      p := CampaignHappened(n, before, k);
      assert before[..p] == run[..p] && before[..p + 1] == run[..p + 1];
    } else {
      p := |run| - 1;
      CampaignBegun(n, run, k);
    }
  }

  /** The last action started this election. */
  lemma CampaignBegun(n: nat, run: seq<Action>, k: (nat, nat))
    requires 2 <= n && k in Chronicle(n, run).campaigns && run != []
    requires k !in Chronicle(n, run[..|run| - 1]).campaigns
    ensures k.0 < n && CampaignedAt(n, run, |run| - 1, k.0, k.1, Chronicle(n, run).campaigns[k])
  {
    var p, a := |run| - 1, run[|run| - 1];
    var c, h := Exec(n, run[..p]), Chronicle(n, run[..p]);
    ElectionInvariant(n, run[..p]);
    PerformElection(c, h, a);
    OnlyTimeoutsCampaign(c, h, a);
    AfterAction(n, run, p);
    assert k == (Actor(a), Perform(c, a).server.term) && Perform(c, a) == StartElection(c.servers[k.0], n, k.0);
  }

  lemma OnlyTimeoutsCampaign(c: Cluster, h: History, a: Action)
    requires Enabled(c, a) && Perform(c, a).server.role.Candidate?
    requires (Actor(a), Perform(c, a).server.term) !in h.campaigns
    requires RoleStep(|c.servers|, h, Actor(a), c.servers[Actor(a)], Perform(c, a).server)
    ensures a == ElectionTimeout(Actor(a))
  {
    if a.Deliver? {
      CandidatesStay(c.servers[Actor(a)], |c.servers|, Actor(a), Shorten(a.m, a.take));
    } else if a.Heartbeat? || a.Append? {
      StaysOutOfCampaigns(c, a);
    }
  }

  lemma CandidatesStay(s: Server, n: nat, id: nat, m: Message)
    requires !s.role.Halted?
    ensures
      var s' := Receive(s, n, id, m).server;
      s'.role.Candidate? ==> s.role.Candidate? && s'.term == s.term
  {
    if s.role.Candidate? {
      BecomeLeaderSends(s, n, id);
    } else if s.role.Leader? && m.src in s.role.progress {
      if m.RequestVote? {
        UpdateAllSends(s, id, [m.src], true);
      } else if m.RejectEntries? && m.conflictingIndex.Some? {
        var p := s.role.progress[m.src].(next := m.conflictingIndex.value);
        UpdateAllSends(SetProgress(s, m.src, p), id, [m.src], true);
      } else if m.AcceptEntries? {
        UpdateAllSends(RecordAccept(s, m.src, m.ackedIndex), id, [m.src], false);
      }
    }
  }

  lemma StaysOutOfCampaigns(c: Cluster, a: Action)
    requires Enabled(c, a) && (a.Heartbeat? || a.Append?)
    ensures Perform(c, a).server.role.Leader?
  {
    var n, id, s := |c.servers|, Actor(a), c.servers[Actor(a)];
    if a.Append? {
      LeaderAppendStays(s, n, id, a.value);
    } else {
      UpdateAllSends(s, id, Peers(n, id), true);
    }
  }

  lemma ElectionFacts(n: nat, run: seq<Action>, t: nat)
    requires 2 <= n && t in Chronicle(n, run).elections
    ensures
      var e, h := Chronicle(n, run).elections[t], Chronicle(n, run);
      && e.leader < n && (e.leader, t) in h.campaigns && h.campaigns[(e.leader, t)] == e.log
      && e.voters <= Ids(n) && |e.voters| > HalfOfPeers(n)
      && forall v :: v in e.voters ==>
           VotedFor(h, v, t, e.leader) && !Outdated(h.ballots[(v, t)].log, LastTerm(e.log), |e.log|)
  {
    var c, h := Exec(n, run), Chronicle(n, run);
    ElectionInvariant(n, run);
    assert ElectionOk(c, h, t);
    forall v | v in h.elections[t].voters
      ensures VotedFor(h, v, t, h.elections[t].leader)
      ensures !Outdated(h.ballots[(v, t)].log, LastTerm(h.elections[t].log), |h.elections[t].log|)
    {
      WonWithBallot(c, h, t, v);
    }
  }

  /** Section 5.4.1: a leader was voted for by a majority, itself included, none of which had a more up-to-date
      log when it voted; and since the election started its log has changed only by entries of its own term. */
  lemma ElectionRestriction(n: nat, run: seq<Action>, i: nat) returns (voters: set<nat>, start: nat)
    requires 2 <= n && i < n && Exec(n, run).servers[i].role.Leader?
    ensures i in voters && voters <= Ids(n) && |voters| > HalfOfPeers(n)
    ensures
      var s := Exec(n, run).servers[i];
      && start < |run| && CampaignedAt(n, run, start, i, s.term, At(n, run, start + 1, i).log)
      && (forall v :: v in voters ==> Supported(n, run, v, s.term, i, At(n, run, start + 1, i).log))
      && At(n, run, start + 1, i).log <= s.log
      && (forall j :: |At(n, run, start + 1, i).log| <= j < |s.log| ==> s.log[j].term == s.term)
  {
    var h, t := Chronicle(n, run), Exec(n, run).servers[i].term;
    LeaderFacts(n, run, i);
    ElectionFacts(n, run, t);
    start := CampaignHappened(n, run, (i, t));
    var log := h.elections[t].log;
    assert SupportedAt(n, run, start, i, t, i, log);
    voters := h.elections[t].voters + {i};
    SubsetSize(h.elections[t].voters, voters);
    forall v | v in voters
      ensures Supported(n, run, v, t, i, log)
    {
      if v != i {
        assert VotedFor(h, v, t, i);
        BallotHappened(n, run, (v, t), log);
      }
    }
  }

  // ---------------------------------------------------------------- commits

  ghost predicate HadPrefix(n: nat, run: seq<Action>, id: nat, prefix: seq<Entry>) {
    id < n && exists p :: 0 <= p <= |run| && prefix <= At(n, run, p, id).log
  }

  lemma HadLogHadPrefix(n: nat, run: seq<Action>, id: nat, log: seq<Entry>, prefix: seq<Entry>)
    requires HadLog(n, run, id, log) && prefix <= log
    ensures HadPrefix(n, run, id, prefix)
  {
    var p :| 0 <= p <= |run| && At(n, run, p, id).log == log;
    assert prefix <= At(n, run, p, id).log;
  }

  lemma CommitFacts(n: nat, run: seq<Action>, t: nat)
    requires 2 <= n && t in Chronicle(n, run).commits
    ensures
      var h := Chronicle(n, run);
      && t in h.elections && t in h.leaderLogs && h.commits[t] <= |h.leaderLogs[t]|
      && h.elections[t].log <= h.leaderLogs[t]
      && (h.commits[t] > 0 ==> h.leaderLogs[t][h.commits[t] - 1].term == t)
  {
    LogInvariant(n, run);
    QueuedInvariant(n, run);
    assert LeaderLogOk(Chronicle(n, run), t);
  }

  lemma CommitIsCertified(n: nat, run: seq<Action>, t: nat)
    requires 2 <= n && BackedAcks(n, run)
    requires t in Chronicle(n, run).commits && Chronicle(n, run).commits[t] > 0
    ensures
      var h := Chronicle(n, run);
      t in h.elections && Certified(n, Exec(n, run).net, h.elections[t].leader, t, h.commits[t])
  {
    CommitFacts(n, run, t);
    CommitInvariant(n, run);
  }

  /** When a leader commits index i, at least half of its peers have each had its first i entries, and entry i
      is of the leader's own term (section 5.4.2). */
  lemma CommitCertificate(n: nat, run: seq<Action>, i: nat) returns (peers: set<nat>)
    requires 2 <= n && i < n && BackedAcks(n, run)
    requires Exec(n, run).servers[i].role.Leader? && Exec(n, run).servers[i].role.commitIndex > 0
    ensures
      var s := Exec(n, run).servers[i];
      && s.role.commitIndex <= |s.log| && s.log[s.role.commitIndex - 1].term == s.term
      && i !in peers && |peers| >= HalfOfPeers(n)
      && forall u :: u in peers ==> HadPrefix(n, run, u, s.log[..s.role.commitIndex])
  {
    var s := Exec(n, run).servers[i];
    LeaderFacts(n, run, i);
    CommitIsCertified(n, run, s.term);
    peers :| Certificate(n, Exec(n, run).net, i, s.term, s.role.commitIndex, peers);
    forall u | u in peers
      ensures HadPrefix(n, run, u, s.log[..s.role.commitIndex])
    {
      var k: nat :| k >= s.role.commitIndex && AcceptEntries(u, i, s.term, k) in Exec(n, run).net;
      AckHappened(n, run, AcceptEntries(u, i, s.term, k));
      HadLogHadPrefix(n, run, u, s.log[..k], s.log[..s.role.commitIndex]);
    }
  }

  lemma CommittedPrefixLasts(n: nat, run: seq<Action>, t: nat, u: nat)
    requires 2 <= n && CleanRun(n, run)
    requires t in Chronicle(n, run).commits && u in Chronicle(n, run).elections && t < u
    ensures
      var h := Chronicle(n, run);
      && t in h.leaderLogs && h.commits[t] <= |h.leaderLogs[t]| && u in h.leaderLogs
      && h.leaderLogs[t][..h.commits[t]] <= h.elections[u].log <= h.leaderLogs[u]
  {
    var c, h := Exec(n, run), Chronicle(n, run);
    CommitFacts(n, run, t);
    LogInvariant(n, run);
    ElectedLogIsPrefix(h, u);
    if h.commits[t] > 0 {
      CommitIsCertified(n, run, t);
      CompletenessInvariant(n, run, h.commits);
      CampaignLogInvariant(n, run);
      CertifiedInLaterLeaders(c, h, h.commits, t, h.commits[t], u);
    }
  }

  /** Leader Completeness (section 5.4), in clean runs: what any leader ever committed is in the log that a
      leader of a later term was elected with, and in its log ever after. */
  lemma LeaderCompleteness(n: nat, run: seq<Action>, p: nat, q: nat, i: nat, j: nat)
    requires 2 <= n && CleanRun(n, run) && p <= |run| && q <= |run| && i < n && j < n
    requires At(n, run, p, i).role.Leader? && At(n, run, q, j).role.Leader?
    requires At(n, run, p, i).term < At(n, run, q, j).term
    ensures
      var committed := At(n, run, p, i).role.commitIndex;
      committed <= |At(n, run, p, i).log| && At(n, run, p, i).log[..committed] <= At(n, run, q, j).log
  {
    LeaderFacts(n, run[..p], i);
    LeaderNamed(n, run, p, i);
    LeaderNamed(n, run, q, j);
    CommittedPrefixLasts(n, run, At(n, run, p, i).term, At(n, run, q, j).term);
    var h, s, committed := Chronicle(n, run), At(n, run, p, i), At(n, run, p, i).role.commitIndex;
    assert s.log[..committed] == h.leaderLogs[s.term][..committed];
  }

  /** What the leader of term t committed, the leader of term u has. */
  ghost predicate Inherited(h: History, t: nat, u: nat) {
    && t in h.commits && t in h.leaderLogs && u in h.leaderLogs && h.commits[t] <= |h.leaderLogs[t]|
    && h.leaderLogs[t][..h.commits[t]] <= h.leaderLogs[u]
  }

  lemma InheritedAgree(h: History, t: nat, e: Entry, u: nat, f: Entry)
    requires CommittedIn(h, t, e) && CommittedIn(h, u, f) && e.index == f.index
    requires t == u || Inherited(h, t, u)
    ensures e == f
  {
    if t != u {
      assert h.leaderLogs[t][..h.commits[t]][e.index - 1] == e;
    }
  }

  lemma CommitsInherited(n: nat, run: seq<Action>, t: nat, u: nat)
    requires 2 <= n && CleanRun(n, run) && t < u
    requires t in Chronicle(n, run).commits && u in Chronicle(n, run).commits
    ensures Inherited(Chronicle(n, run), t, u)
  {
    CommitFacts(n, run, u);
    CommittedPrefixLasts(n, run, t, u);
  }

  lemma CommittedOnce(n: nat, run: seq<Action>, e: Entry, f: Entry)
    requires 2 <= n && CleanRun(n, run) && e.index == f.index
    requires Committed(Chronicle(n, run), e) && Committed(Chronicle(n, run), f)
    ensures e == f
  {
    var h := Chronicle(n, run);
    var t: nat :| CommittedIn(h, t, e);
    var u: nat :| CommittedIn(h, u, f);
    if t < u {
      CommitsInherited(n, run, t, u);
      InheritedAgree(h, t, e, u, f);
    } else {
      if u < t {
        CommitsInherited(n, run, u, t);
      }
      InheritedAgree(h, u, f, t, e);
    }
  }

  /** State Machine Safety (section 5.4.3), in clean runs: no two servers ever hand different entries of the
      same index to their state machines. */
  lemma StateMachineSafety(n: nat, run: seq<Action>, p: nat, q: nat, i: nat, j: nat, e: Entry, f: Entry)
    requires 2 <= n && CleanRun(n, run) && p <= |run| && q <= |run| && i < n && j < n
    requires Some(e) in At(n, run, p, i).queued && Some(f) in At(n, run, q, j).queued
    requires e.index == f.index
    ensures e == f
  {
    QueuedIsCommitted(n, run, p, i, e);
    QueuedIsCommitted(n, run, q, j, f);
    CommittedOnce(n, run, e, f);
  }

  /** In every run, an entry that a server hands to its state machine was committed by a leader. */
  lemma QueuedIsCommitted(n: nat, run: seq<Action>, p: nat, i: nat, e: Entry)
    requires 2 <= n && p <= |run| && i < n && Some(e) in At(n, run, p, i).queued
    ensures Committed(Chronicle(n, run), e)
  {
    QueuedInvariant(n, run[..p]);
    assert QueuedOk(Chronicle(n, run[..p]), At(n, run, p, i));
    HistoryGrows(n, run, p);
    CommittedGrows(Chronicle(n, run[..p]), Chronicle(n, run), e);
  }

  /** In every run a message is merged as in the paper unless it is outrun by the log that it meets: the first
      condition on clean runs can be told from the message and the log, before the message is handled. */
  lemma LosesExactlyWhenOutrun(n: nat, run: seq<Action>, a: Action)
    requires 2 <= n && Merges(Exec(n, run), a)
    ensures MergesAsPaper(Exec(n, run), a) <==>
            !Outrun(Exec(n, run).servers[Actor(a)].log, Shorten(a.m, a.take))
  {
    LogInvariant(n, run);
    MergesAsPaperExactly(Exec(n, run), Chronicle(n, run), a);
  }

  /** In every run a merge spares entries at stake unless it is outrun and ends below them: the condition on clean
      runs is that no such message ends below what is committed and the log has. */
  lemma SparesExactlyAbove(n: nat, run: seq<Action>, a: Action, marks: Marks)
    requires 2 <= n && Merges(Exec(n, run), a)
    ensures
      var log, m := Exec(n, run).servers[Actor(a)].log, Shorten(a.m, a.take);
      Spares(Exec(n, run), Chronicle(n, run), a, marks) <==>
        (Outrun(log, m) ==>
          forall t: nat, j: nat :: Marked(marks, t, j) && HasMark(Chronicle(n, run), log, t, j) ==>
            j <= m.prevLogIndex + |m.entries|)
  {
    LogInvariant(n, run);
    SparesExactly(Exec(n, run), Chronicle(n, run), a, marks);
  }
}
