/** Section 5.3: every log is, up to any of its entries, the log of the leader that created that entry. */
module LogMatching {
  import opened Entries
  import opened Protocol
  import opened Cluster
  import opened ElectionSafety

  type Logs = map<nat, seq<Entry>>

  // ---------------------------------------------------------------- invariant

  /** Up to each of its entries, the log equals the log of the leader of that entry's term. */
  ghost predicate Anchored(leaderLogs: Logs, log: seq<Entry>) {
    forall j :: 0 <= j < |log| ==>
      log[j].term in leaderLogs && log[..j + 1] <= leaderLogs[log[j].term]
  }

  ghost predicate LogOk(leaderLogs: Logs, s: Server) {
    && Anchored(leaderLogs, s.log)
    && Anchored(leaderLogs, Replay(s.stream))
    && s.log <= Replay(s.stream)
  }

  ghost predicate LogsOk(c: Cluster, h: History) {
    forall v: nat :: v < |c.servers| ==> LogOk(h.leaderLogs, c.servers[v])
  }

  /** The pending entries are the last ones of the log, all appended in this leadership, and everything
      appended before them is committed. */
  ghost predicate LeaderShape(initial: nat, s: Server)
    requires s.role.Leader?
  {
    && initial + |s.role.pending| <= |s.log|
    && (forall j :: 0 <= j < |s.role.pending| ==>
          s.role.pending[j].index == |s.log| - |s.role.pending| + 1 + j)
    && s.role.commitIndex ==
         (if |s.log| - |s.role.pending| == initial then 0 else |s.log| - |s.role.pending|)
  }

  ghost predicate LeaderOk(h: History, s: Server)
    requires s.role.Leader?
  {
    && s.term in h.elections && s.term in h.leaderLogs && s.term in h.commits
    && h.leaderLogs[s.term] == s.log
    && h.commits[s.term] == s.role.commitIndex
    && LeaderShape(|h.elections[s.term].log|, s)
  }

  ghost predicate LeadersOk(c: Cluster, h: History) {
    forall v: nat :: v < |c.servers| && c.servers[v].role.Leader? ==> LeaderOk(h, c.servers[v])
  }

  ghost predicate LeaderLogOk(h: History, t: nat)
    requires t in h.leaderLogs
  {
    && t in h.elections && t in h.commits && t >= 1
    && Anchored(h.leaderLogs, h.leaderLogs[t])
    && Indexed(h.leaderLogs[t])
    && h.elections[t].log <= h.leaderLogs[t]
    && (forall j :: |h.elections[t].log| <= j < |h.leaderLogs[t]| ==> h.leaderLogs[t][j].term == t)
    && h.commits[t] <= |h.leaderLogs[t]|
    && (h.commits[t] > 0 ==> h.commits[t] > |h.elections[t].log|)
  }

  ghost predicate LeaderLogsOk(h: History) {
    && h.elections.Keys == h.leaderLogs.Keys
    && (forall t :: t in h.leaderLogs ==> LeaderLogOk(h, t))
  }

  ghost predicate LogMessageOk(h: History, m: Message) {
    && (m.AppendEntries? ==>
          m.term in h.leaderLogs && m.term in h.elections && m.term in h.commits
          && var log := h.leaderLogs[m.term];
          && m.src == h.elections[m.term].leader
          && m.prevLogIndex + |m.entries| <= |log|
          && m.entries == log[m.prevLogIndex..m.prevLogIndex + |m.entries|]
          && m.prevLogTerm == TermAt(log, m.prevLogIndex)
          && m.leaderCommit <= h.commits[m.term])
    && (m.AcceptEntries? ==>
          m.term in h.leaderLogs && m.ackedIndex <= |h.leaderLogs[m.term]|
          && (m.src, h.leaderLogs[m.term][..m.ackedIndex]) in h.held)
  }

  ghost predicate LogMessagesOk(c: Cluster, h: History) {
    forall m :: m in c.net ==> LogMessageOk(h, m)
  }

  ghost predicate LogInv(c: Cluster, h: History) {
    && LogsOk(c, h) && LeadersOk(c, h) && LeaderLogsOk(h) && LogMessagesOk(c, h)
  }

  // ---------------------------------------------------------------- what an operation may do

  ghost predicate LeaderLogStep(h: History, s: Server, s': Server) {
    s'.role.Leader? ==>
      && s'.term == s.term && s'.term >= 1
      && (|| (s.role.Candidate? && s'.log == s.log && s.term !in h.elections
              && s'.role.commitIndex == 0 && s'.role.pending == [])
          || (s.role.Leader? && LeaderOk(h, s)
              && s.log <= s'.log && s.role.commitIndex <= s'.role.commitIndex
              && (forall j :: |s.log| <= j < |s'.log| ==> s'.log[j].term == s.term)
              && LeaderShape(|h.elections[s.term].log|, s')))
  }

  ghost predicate LogStep(n: nat, h: History, id: nat, s: Server, o: Outcome) {
    var h' := Record(h, n, id, o.server);
    && LogOk(h'.leaderLogs, o.server)
    && LeaderLogStep(h, s, o.server)
    && (forall m :: m in o.sent ==> LogMessageOk(h', m))
  }

  // ---------------------------------------------------------------- such operations keep the invariant

  ghost predicate Extends(a: Logs, b: Logs) {
    forall t :: t in a ==> t in b && a[t] <= b[t]
  }

  lemma AnchoredGrows(a: Logs, b: Logs, log: seq<Entry>)
    requires Extends(a, b) && Anchored(a, log)
    ensures Anchored(b, log)
  {
  }

  lemma AnchoredPrefix(leaderLogs: Logs, log: seq<Entry>, k: nat)
    requires Anchored(leaderLogs, log) && k <= |log|
    ensures Anchored(leaderLogs, log[..k])
  {
    forall j | 0 <= j < k
      ensures log[j].term in leaderLogs && log[..k][..j + 1] <= leaderLogs[log[j].term]
    {
      assert log[..k][..j + 1] == log[..j + 1];
    }
  }

  lemma LeaderLogsExtend(h: History, n: nat, id: nat, s: Server, s': Server)
    requires LeaderLogsOk(h) && LeaderLogStep(h, s, s')
    ensures Extends(h.leaderLogs, Record(h, n, id, s').leaderLogs)
  {
  }

  lemma LogsKept(c: Cluster, c': Cluster, h: History, h': History, id: nat, o: Outcome)
    requires Moved(c, c', h, h', id, o)
    requires LogsOk(c, h) && LogOk(h'.leaderLogs, o.server) && Extends(h.leaderLogs, h'.leaderLogs)
    ensures LogsOk(c', h')
  {
    forall v: nat | v < |c'.servers|
      ensures LogOk(h'.leaderLogs, c'.servers[v])
    {
      if v != id {
        assert LogOk(h.leaderLogs, c.servers[v]);
        AnchoredGrows(h.leaderLogs, h'.leaderLogs, c.servers[v].log);
        AnchoredGrows(h.leaderLogs, h'.leaderLogs, Replay(c.servers[v].stream));
      }
    }
  }

  lemma LeadersKept(c: Cluster, c': Cluster, h: History, h': History, id: nat, o: Outcome)
    requires Moved(c, c', h, h', id, o)
    requires LeadersOk(c, h) && RolesOk(c, h) && LeaderLogsOk(h)
    requires LeaderLogStep(h, c.servers[id], o.server)
    ensures LeadersOk(c', h')
  {
    forall v: nat | v < |c'.servers| && c'.servers[v].role.Leader?
      ensures LeaderOk(h', c'.servers[v])
    {
      if v != id {
        assert LeaderOk(h, c.servers[v]);
        assert RoleOk(|c.servers|, h, v, c.servers[v]) && RoleOk(|c.servers|, h, id, c.servers[id]);
      }
    }
  }

  lemma LeaderLogStands(h: History, h': History, n: nat, id: nat, s: Server, s': Server, t: nat)
    requires h' == Record(h, n, id, s') && LeaderLogStep(h, s, s')
    requires Extends(h.leaderLogs, h'.leaderLogs)
    requires t in h.leaderLogs && LeaderLogOk(h, t) && (s'.role.Leader? ==> t != s'.term)
    ensures t in h'.leaderLogs && LeaderLogOk(h', t)
  {
    AnchoredGrows(h.leaderLogs, h'.leaderLogs, h.leaderLogs[t]);
  }

  lemma LeaderLogMoves(h: History, h': History, n: nat, id: nat, s: Server, s': Server)
    requires h' == Record(h, n, id, s') && LeaderLogStep(h, s, s') && s'.role.Leader?
    requires LeaderLogsOk(h) && LogOk(h'.leaderLogs, s')
    ensures s'.term in h'.leaderLogs && LeaderLogOk(h', s'.term)
  {
    if s.role.Leader? {
      assert LeaderLogOk(h, s.term);
    }
  }

  lemma LeaderLogsKept(h: History, h': History, n: nat, id: nat, s: Server, s': Server)
    requires h' == Record(h, n, id, s') && LeaderLogStep(h, s, s')
    requires LeaderLogsOk(h) && LogOk(h'.leaderLogs, s')
    requires Extends(h.leaderLogs, h'.leaderLogs)
    ensures LeaderLogsOk(h')
  {
    forall t | t in h'.leaderLogs
      ensures LeaderLogOk(h', t)
    {
      if s'.role.Leader? && t == s'.term {
        LeaderLogMoves(h, h', n, id, s, s');
      } else {
        LeaderLogStands(h, h', n, id, s, s', t);
      }
    }
  }

  lemma LogMessageStands(h: History, h': History, n: nat, id: nat, s: Server, s': Server, m: Message)
    requires h' == Record(h, n, id, s') && LeaderLogStep(h, s, s')
    requires Extends(h.leaderLogs, h'.leaderLogs)
    requires LogMessageOk(h, m) && h.elections.Keys == h.leaderLogs.Keys
    ensures LogMessageOk(h', m)
  {
    if m.AppendEntries? {
      var log, log' := h.leaderLogs[m.term], h'.leaderLogs[m.term];
      assert log'[..|log|] == log;
      assert log'[m.prevLogIndex..m.prevLogIndex + |m.entries|] == log[m.prevLogIndex..m.prevLogIndex + |m.entries|];
    } else if m.AcceptEntries? {
      assert h'.leaderLogs[m.term][..m.ackedIndex] == h.leaderLogs[m.term][..m.ackedIndex];
    }
  }

  lemma LogMessagesKept(c: Cluster, c': Cluster, h: History, h': History, id: nat, o: Outcome)
    requires Moved(c, c', h, h', id, o)
    requires LogMessagesOk(c, h) && h.elections.Keys == h.leaderLogs.Keys
    requires LogStep(|c.servers|, h, id, c.servers[id], o)
    requires Extends(h.leaderLogs, h'.leaderLogs)
    ensures LogMessagesOk(c', h')
  {
    forall m | m in c'.net
      ensures LogMessageOk(h', m)
    {
      if m in c.net {
        LogMessageStands(h, h', |c.servers|, id, c.servers[id], o.server, m);
      }
    }
  }

  lemma LogKept(c: Cluster, c': Cluster, h: History, h': History, id: nat, o: Outcome)
    requires Moved(c, c', h, h', id, o)
    requires LogInv(c, h) && RolesOk(c, h)
    requires LogStep(|c.servers|, h, id, c.servers[id], o)
    ensures LogInv(c', h')
  {
    LeaderLogsExtend(h, |c.servers|, id, c.servers[id], o.server);
    LogsKept(c, c', h, h', id, o);
    LeadersKept(c, c', h, h', id, o);
    LeaderLogsKept(h, h', |c.servers|, id, c.servers[id], o.server);
    LogMessagesKept(c, c', h, h', id, o);
  }
}
