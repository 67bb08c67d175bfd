/** How operations move logs, and the order of terms along a log. */
module Terms {
  import opened Entries
  import opened Protocol
  import opened Cluster
  import opened ElectionSafety
  import opened Operations
  import opened LogMatching
  import opened LogOperations

  // ---------------------------------------------------------------- how operations move logs

  ghost predicate Unmoved(s: Server, s': Server) {
    s'.log == s.log && s'.stream == s.stream && s.term <= s'.term
  }

  ghost predicate Accepted(s: Server, s': Server, m: Message)
    requires Accepts(s, m)
  {
    && s'.term == m.term
    && s'.log == Merge(s.log, m.prevLogIndex, m.entries)
    && s'.stream == s.stream + m.entries
  }

  lemma FollowerReceiveShape(s: Server, id: nat, m: Message)
    requires s.role.Follower?
    ensures
      var o := FollowerReceive(s, id, m);
      if Accepts(s, m) then
        Accepted(s, o.server, m) && o.sent == [AcceptEntries(id, m.src, m.term, |o.server.log|)]
      else
        Unmoved(s, o.server) && forall x :: x in o.sent ==> !x.AcceptEntries?
  {
    if Accepts(s, m) {
      AcceptFields(s, m);
    }
  }

  lemma ReceiveShape(s: Server, n: nat, id: nat, m: Message)
    requires !s.role.Halted? && m.dst == id && m.src < n && m.src != id && id < n
    ensures
      var o := Receive(s, n, id, m);
      if Accepts(s, m) then
        Accepted(s, o.server, m) && o.sent == [AcceptEntries(id, m.src, m.term, |o.server.log|)]
      else
        Unmoved(s, o.server) && forall x :: x in o.sent ==> !x.AcceptEntries?
  {
    match s.role
    case Follower(_) => FollowerReceiveShape(s, id, m);
    case Candidate(_, _) =>
      if m.term > s.term {
        FollowerReceiveShape(ConvertToFollower(SetTerm(s, m.term)), id, m);
      } else if m.AppendEntries? && m.term == s.term {
        FollowerReceiveShape(ConvertToFollower(s), id, m);
      } else {
        BecomeLeaderSends(s, n, id);
      }
    case Leader(_, _, _) =>
      if m.term > s.term {
        FollowerReceiveShape(ConvertToFollower(SetTerm(s, m.term)), id, m);
      } else {
        LeaderReceiveStays(n, id, s, m);
      }
  }

  /** The other actions: a log is unmoved, extended by its leader, loaded, or overtaken by a crash. */
  lemma ActionShape(c: Cluster, a: Action)
    requires Enabled(c, a) && !a.Deliver?
    ensures
      var s, o := c.servers[Actor(a)], Perform(c, a);
      && (forall x :: x in o.sent ==> !x.AcceptEntries?)
      && match a
         case Append(_, value) =>
           o.server.term == s.term && o.server.log == s.log + [Entry(|s.log| + 1, s.term, value)]
           && o.server.stream == s.stream + [Entry(|s.log| + 1, s.term, value)]
         case Return(_, _) =>
           o.server.term == s.term && o.server.stream == s.stream
           && o.server.log == (if s.term == 0 then [] else Replay(s.stream))
         case EntriesLandThenCrash(m, take) =>
           o.server.term == s.term
           && o.server.log == Merge(s.log, m.prevLogIndex, Shorten(m, take).entries)
           && o.server.stream == s.stream + Shorten(m, take).entries
         case _ => Unmoved(s, o.server)
  {
    var n, id, s := |c.servers|, Actor(a), c.servers[Actor(a)];
    match a
    case Heartbeat(_) => UpdateAllSends(s, id, Peers(n, id), true);
    case Append(_, value) => LeaderAppendStays(s, n, id, value);
    case _ =>
  }

  // ---------------------------------------------------------------- no winner has entries of later terms

  /** A crash that tears the writes of a message apart may leave a server with entries of terms that it has not
      reached. When it then campaigns for an earlier term, nobody who elected the leaders of those entries
      votes for it. */
  ghost predicate CampaignLogOk(h: History, k: (nat, nat))
    requires k in h.campaigns
  {
    && Anchored(h.leaderLogs, h.campaigns[k])
    && forall j :: 0 <= j < |h.campaigns[k]| && h.campaigns[k][j].term >= k.1 ==>
         h.campaigns[k][j].term in h.elections && Opposed(h, h.campaigns[k][j].term, k)
  }

  /** No voter of the election of term x votes for this candidacy. */
  ghost predicate Opposed(h: History, x: nat, k: (nat, nat))
    requires x in h.elections
  {
    forall v :: v in h.elections[x].voters ==> !VotedFor(h, v, k.1, k.0)
  }

  ghost predicate CampaignLogsOk(h: History) {
    forall k :: k in h.campaigns ==> CampaignLogOk(h, k)
  }

  lemma OpposedStands(c: Cluster, h: History, h': History, id: nat, s': Server, x: nat, k: (nat, nat))
    requires id < |c.servers| && h' == Record(h, |c.servers|, id, s') && TermStep(c.servers[id], s')
    requires BallotsOk(c, h) && x in h.elections && ElectionOk(c, h, x)
    requires k.1 <= x && Opposed(h, x, k)
    ensures x in h'.elections && Opposed(h', x, k)
  {
    forall v | v in h'.elections[x].voters
      ensures !VotedFor(h', v, k.1, k.0)
    {
      assert VotedFor(h, v, x, h.elections[x].leader);
    }
  }

  /** A voter of election x had reached term x before, so it cannot have voted in this new campaign. */
  lemma NewlyOpposed(c: Cluster, h: History, h': History, id: nat, s': Server, x: nat)
    requires id < |c.servers| && h' == Record(h, |c.servers|, id, s') && c.servers[id].term < s'.term <= x
    requires BallotsOk(c, h) && BallotLogsOk(h) && x in h.elections && ElectionOk(c, h, x)
    requires (id, s'.term) !in h.campaigns
    ensures x in h'.elections && Opposed(h', x, (id, s'.term))
  {
    forall v | v in h'.elections[x].voters
      ensures !VotedFor(h', v, s'.term, id)
    {
      assert VotedFor(h, v, x, h.elections[x].leader);
      if (v, s'.term) in h.ballots {
        assert BallotLogOk(h, (v, s'.term));
      }
    }
  }

  lemma CampaignLogsKept(c: Cluster, h: History, h': History, id: nat, s': Server)
    requires id < |c.servers| && h' == Record(h, |c.servers|, id, s')
    requires BallotsOk(c, h) && BallotLogsOk(h) && ElectionsOk(c, h) && CampaignLogsOk(h)
    requires TermStep(c.servers[id], s') && RoleStep(|c.servers|, h, id, c.servers[id], s')
    requires Extends(h.leaderLogs, h'.leaderLogs) && h.elections.Keys == h.leaderLogs.Keys
    requires Anchored(h'.leaderLogs, s'.log)
    ensures CampaignLogsOk(h')
  {
    forall k | k in h'.campaigns
      ensures CampaignLogOk(h', k)
    {
      if k in h.campaigns {
        assert CampaignLogOk(h, k);
        AnchoredGrows(h.leaderLogs, h'.leaderLogs, h.campaigns[k]);
        OldCampaignStands(c, h, h', id, s', k);
      } else {
        NewCampaignLog(c, h, h', id, s');
      }
    }
  }

  lemma OldCampaignStands(c: Cluster, h: History, h': History, id: nat, s': Server, k: (nat, nat))
    requires id < |c.servers| && h' == Record(h, |c.servers|, id, s') && TermStep(c.servers[id], s')
    requires BallotsOk(c, h) && ElectionsOk(c, h) && k in h.campaigns && CampaignLogOk(h, k)
    requires Anchored(h'.leaderLogs, h.campaigns[k])
    ensures k in h'.campaigns && CampaignLogOk(h', k)
  {
    var log := h.campaigns[k];
    forall j | 0 <= j < |log| && log[j].term >= k.1
      ensures log[j].term in h'.elections && Opposed(h', log[j].term, k)
    {
      assert ElectionOk(c, h, log[j].term);
      OpposedStands(c, h, h', id, s', log[j].term, k);
    }
  }

  lemma NewCampaignLog(c: Cluster, h: History, h': History, id: nat, s': Server)
    requires id < |c.servers| && h' == Record(h, |c.servers|, id, s')
    requires BallotsOk(c, h) && BallotLogsOk(h) && ElectionsOk(c, h) && h.elections.Keys == h.leaderLogs.Keys
    requires s'.role.Candidate? && (id, s'.term) !in h.campaigns
    requires RoleStep(|c.servers|, h, id, c.servers[id], s') && Anchored(h'.leaderLogs, s'.log)
    ensures CampaignLogOk(h', (id, s'.term))
  {
    forall j | 0 <= j < |s'.log| && s'.log[j].term >= s'.term
      ensures s'.log[j].term in h'.elections && Opposed(h', s'.log[j].term, (id, s'.term))
    {
      assert ElectionOk(c, h, s'.log[j].term);
      NewlyOpposed(c, h, h', id, s', s'.log[j].term);
    }
  }

  lemma {:induction false} CampaignLogInvariant(n: nat, run: seq<Action>)
    requires 2 <= n
    ensures CampaignLogsOk(Chronicle(n, run))
  {
    if run != [] {
      var before, a := run[..|run| - 1], run[|run| - 1];
      CampaignLogInvariant(n, before);
      LogInvariant(n, before);
      var c, h := Exec(n, before), Chronicle(n, before);
      if Enabled(c, a) {
        PerformElection(c, h, a);
        PerformLog(c, h, a);
        LeaderLogsExtend(h, n, Actor(a), c.servers[Actor(a)], Perform(c, a).server);
        CampaignLogsKept(c, h, Chronicle(n, run), Actor(a), Perform(c, a).server);
      }
    }
  }

  /** A leader is elected with entries of earlier terms only. */
  ghost predicate ElectedBelow(h: History, t: nat)
    requires t in h.elections
  {
    forall j :: 0 <= j < |h.elections[t].log| ==> h.elections[t].log[j].term < t
  }

  /** The voters of two elections share a server, which would have to oppose the candidate that it elected. */
  lemma WinnersAreBelow(c: Cluster, h: History, t: nat)
    requires ElectionsOk(c, h) && CampaignLogsOk(h) && t in h.elections
    ensures ElectedBelow(h, t)
  {
    var n, e := |c.servers|, h.elections[t];
    assert ElectionOk(c, h, t);
    forall j | 0 <= j < |e.log|
      ensures e.log[j].term < t
    {
      if e.log[j].term >= t {
        var x := e.log[j].term;
        assert CampaignLogOk(h, (e.leader, t));
        assert ElectionOk(c, h, x);
        assert e.voters <= Ids(n) && h.elections[x].voters <= Ids(n);
        var v := QuorumsMeet(n, e.voters, h.elections[x].voters);
      }
    }
  }

  // ---------------------------------------------------------------- terms never decrease along a log

  ghost predicate Ascending(log: seq<Entry>) {
    && (forall j :: 0 <= j < |log| ==> log[j].term >= 1)
    && (forall j, k :: 0 <= j < k < |log| ==> log[j].term <= log[k].term)
  }

  ghost predicate Bounded(log: seq<Entry>, bound: nat) {
    forall j :: 0 <= j < |log| ==> log[j].term <= bound
  }

  ghost predicate LeaderLogsOrdered(h: History) {
    forall t :: t in h.leaderLogs ==> Ascending(h.leaderLogs[t]) && Bounded(h.leaderLogs[t], t)
  }

  ghost predicate WinnersBelow(h: History) {
    forall t :: t in h.elections ==> ElectedBelow(h, t)
  }

  /** Up to any entry of an earlier term, a leader's log is the beginning of that term's leader's log. */
  lemma {:induction false} LeaderLogOrdered(h: History, t: nat)
    requires LeaderLogsOk(h) && WinnersBelow(h) && t in h.leaderLogs
    ensures Ascending(h.leaderLogs[t]) && Bounded(h.leaderLogs[t], t)
    decreases t
  {
    var log := h.leaderLogs[t];
    assert LeaderLogOk(h, t) && ElectedBelow(h, t);
    forall k | 0 <= k < |log|
      ensures 1 <= log[k].term <= t && forall j :: 0 <= j < k ==> log[j].term <= log[k].term
    {
      if k < |h.elections[t].log| {
        assert log[k] == h.elections[t].log[k];
        LeaderLogOrdered(h, log[k].term);
        SameStart(log, h.leaderLogs[log[k].term], k);
      } else {
        forall j | 0 <= j < k
          ensures log[j].term <= t
        {
          assert j < |h.elections[t].log| ==> log[j] == h.elections[t].log[j];
        }
      }
    }
  }

  lemma SameStart(a: seq<Entry>, b: seq<Entry>, k: nat)
    requires k < |a| && a[..k + 1] <= b
    ensures k < |b| && forall j :: 0 <= j <= k ==> a[j] == b[j]
  {
    forall j | 0 <= j <= k
      ensures a[j] == b[j]
    {
      assert a[..k + 1][j] == a[j];
    }
  }

  lemma AnchoredAscends(h: History, log: seq<Entry>)
    requires LeaderLogsOrdered(h) && Anchored(h.leaderLogs, log)
    ensures Ascending(log)
  {
    forall k | 0 <= k < |log|
      ensures 1 <= log[k].term && forall j :: 0 <= j < k ==> log[j].term <= log[k].term
    {
      SameStart(log, h.leaderLogs[log[k].term], k);
    }
  }

  /** In every run, torn writes included: terms never decrease along any log of any server or leader, and those
      that a leader was elected with are earlier than its own. */
  lemma TermsAscend(n: nat, run: seq<Action>)
    requires 2 <= n
    ensures WinnersBelow(Chronicle(n, run)) && LeaderLogsOrdered(Chronicle(n, run))
    ensures forall v: nat :: v < n ==>
              Ascending(Exec(n, run).servers[v].log) && Ascending(Replay(Exec(n, run).servers[v].stream))
  {
    var c, h := Exec(n, run), Chronicle(n, run);
    LogInvariant(n, run);
    CampaignLogInvariant(n, run);
    HistoryOrdered(c, h);
    forall v: nat | v < n
      ensures Ascending(c.servers[v].log) && Ascending(Replay(c.servers[v].stream))
    {
      assert LogOk(h.leaderLogs, c.servers[v]);
      AnchoredAscends(h, c.servers[v].log);
      AnchoredAscends(h, Replay(c.servers[v].stream));
    }
  }

  lemma HistoryOrdered(c: Cluster, h: History)
    requires ElectionsOk(c, h) && LeaderLogsOk(h) && CampaignLogsOk(h)
    ensures WinnersBelow(h) && LeaderLogsOrdered(h)
  {
    forall t | t in h.elections
      ensures ElectedBelow(h, t)
    {
      WinnersAreBelow(c, h, t);
    }
    forall t | t in h.leaderLogs
      ensures Ascending(h.leaderLogs[t]) && Bounded(h.leaderLogs[t], t)
    {
      LeaderLogOrdered(h, t);
    }
  }

  // ---------------------------------------------------------------- and stay within the holder's term

  ghost predicate WithinTerm(s: Server) {
    Bounded(s.log, s.term) && Bounded(Replay(s.stream), s.term)
  }

  ghost predicate AllWithinTerm(c: Cluster) {
    forall v: nat :: v < |c.servers| ==> WithinTerm(c.servers[v])
  }

  /** When only the entries of a message land before a crash, none of them is newer than the persisted term. */
  ghost predicate HarmlessTear(c: Cluster, a: Action) {
    Enabled(c, a) && a.EntriesLandThenCrash? ==> Bounded(Shorten(a.m, a.take).entries, c.servers[Actor(a)].term)
  }

  ghost predicate HarmlessTears(n: nat, run: seq<Action>) {
    forall k :: 0 <= k < |run| ==> HarmlessTear(Exec(n, run[..k]), run[k])
  }

  /** After a merge the log is a beginning of the leader's, and so is the replayed log unless nothing was written. */
  lemma AcceptedLogs(h: History, s: Server, m: Message)
    requires LogOk(h.leaderLogs, s) && LogMessageOk(h, m) && LeaderLogsOk(h)
    requires m.AppendEntries? && Matches(s.log, m.prevLogIndex, m.prevLogTerm)
    ensures m.term in h.leaderLogs && m.prevLogIndex + |m.entries| <= |h.leaderLogs[m.term]|
    ensures Merge(s.log, m.prevLogIndex, m.entries) == h.leaderLogs[m.term][..m.prevLogIndex + |m.entries|]
    ensures
      var replayed := Replay(s.stream + m.entries);
      replayed == Merge(s.log, m.prevLogIndex, m.entries) || replayed == Replay(s.stream)
  {
    MergeIsLeaderPrefix(h, s.log, m);
    LeaderLogFacts(h, m.term);
    AcceptedReplay(s, m.prevLogIndex, m.entries);
  }

  lemma AcceptWithin(s: Server, s': Server, leaderLog: seq<Entry>, k: nat, term: nat)
    requires WithinTerm(s) && s.term <= term && s'.term == term
    requires Bounded(leaderLog, term) && k <= |leaderLog| && s'.log == leaderLog[..k]
    requires Replay(s'.stream) == s'.log || Replay(s'.stream) == Replay(s.stream)
    ensures WithinTerm(s')
  {
  }

  lemma AppendWithin(s: Server, s': Server, entry: Entry)
    requires WithinTerm(s) && s.log <= Replay(s.stream)
    requires entry.index == |s.log| + 1 && entry.term == s.term && s'.term == s.term
    requires s'.log == s.log + [entry] && s'.stream == s.stream + [entry]
    ensures WithinTerm(s')
  {
    AppendReplays(s.log, s.stream, entry);
  }

  lemma ReceiveWithin(n: nat, h: History, id: nat, s: Server, m: Message)
    requires !s.role.Halted? && id < n && m.dst == id && m.src < n && m.src != id
    requires WithinTerm(s) && LogOk(h.leaderLogs, s) && LogMessageOk(h, m) && LeaderLogsOk(h) && LeaderLogsOrdered(h)
    ensures WithinTerm(Receive(s, n, id, m).server)
  {
    var s' := Receive(s, n, id, m).server;
    ReceiveShape(s, n, id, m);
    if Accepts(s, m) {
      AcceptedLogs(h, s, m);
      AcceptWithin(s, s', h.leaderLogs[m.term], m.prevLogIndex + |m.entries|, m.term);
    }
  }

  lemma OtherWithin(c: Cluster, a: Action)
    requires Enabled(c, a) && !a.Deliver? && !a.EntriesLandThenCrash?
    requires WithinTerm(c.servers[Actor(a)]) && c.servers[Actor(a)].log <= Replay(c.servers[Actor(a)].stream)
    ensures WithinTerm(Perform(c, a).server)
  {
    var s := c.servers[Actor(a)];
    ActionShape(c, a);
    if a.Append? {
      AppendWithin(s, Perform(c, a).server, Entry(|s.log| + 1, s.term, a.value));
    }
  }

  /** What one torn write does: the terms stay within the holder's if and only if no entry is newer. */
  lemma TornServerExact(h: History, s: Server, s': Server, m: Message)
    requires WithinTerm(s) && LogOk(h.leaderLogs, s) && LeaderLogsOk(h) && LogMessageOk(h, m)
    requires m.AppendEntries? && Matches(s.log, m.prevLogIndex, m.prevLogTerm)
    requires s'.term == s.term && s'.log == Merge(s.log, m.prevLogIndex, m.entries) && s'.stream == s.stream + m.entries
    ensures WithinTerm(s') <==> Bounded(m.entries, s.term)
  {
    AcceptedLogs(h, s, m);
    TornBounds(s, s', m.prevLogIndex, m.entries);
  }

  lemma TornBounds(s: Server, s': Server, prev: nat, entries: seq<Entry>)
    requires WithinTerm(s) && prev <= |s.log|
    requires s'.term == s.term && s'.log == Merge(s.log, prev, entries)
    requires Replay(s'.stream) == s'.log || Replay(s'.stream) == Replay(s.stream)
    ensures WithinTerm(s') <==> Bounded(entries, s.term)
  {
    forall j | 0 <= j < |entries|
      ensures s'.log[prev + j] == entries[j]
    {
    }
  }

  lemma TornWriteExact(c: Cluster, h: History, a: Action)
    requires Enabled(c, a) && a.EntriesLandThenCrash?
    requires LogInv(c, h) && WithinTerm(c.servers[Actor(a)])
    ensures WithinTerm(Perform(c, a).server) <==> HarmlessTear(c, a)
  {
    var s, m := c.servers[Actor(a)], Shorten(a.m, a.take);
    assert LogOk(h.leaderLogs, s) && LogMessageOk(h, a.m);
    ShortenedIsOk(h, a.m, a.take);
    TornServerExact(h, s, Perform(c, a).server, m);
  }

  lemma PerformWithin(c: Cluster, h: History, a: Action)
    requires Enabled(c, a) && HarmlessTear(c, a)
    requires ElectionInv(c, h) && LogInv(c, h) && LeaderLogsOrdered(h) && WithinTerm(c.servers[Actor(a)])
    ensures WithinTerm(Perform(c, a).server)
  {
    if a.Deliver? {
      DeliveredFacts(c, h, a.m, a.take);
      ReceiveWithin(|c.servers|, h, a.m.dst, c.servers[a.m.dst], Shorten(a.m, a.take));
    } else if a.EntriesLandThenCrash? {
      TornWriteExact(c, h, a);
    } else {
      assert LogOk(h.leaderLogs, c.servers[Actor(a)]);
      OtherWithin(c, a);
    }
  }

  lemma {:induction false} TermsWithin(n: nat, run: seq<Action>)
    requires 2 <= n && HarmlessTears(n, run)
    ensures AllWithinTerm(Exec(n, run))
  {
    if run != [] {
      var before, a := run[..|run| - 1], run[|run| - 1];
      forall k | 0 <= k < |before|
        ensures HarmlessTear(Exec(n, before[..k]), before[k])
      {
        assert before[..k] == run[..k];
      }
      assert HarmlessTear(Exec(n, run[..|before|]), run[|before|]);
      TermsWithin(n, before);
      LogInvariant(n, before);
      TermsAscend(n, before);
      if Enabled(Exec(n, before), a) {
        assert WithinTerm(Exec(n, before).servers[Actor(a)]);
        PerformWithin(Exec(n, before), Chronicle(n, before), a);
      }
    }
  }

  /** Throughout a run every term stays within its holder's if and only if every torn write is harmless, which
      can be told before the message is handled. */
  lemma TermsWithinExactly(n: nat, run: seq<Action>)
    requires 2 <= n
    ensures HarmlessTears(n, run) <==> forall p: nat :: p <= |run| ==> AllWithinTerm(Exec(n, run[..p]))
  {
    if HarmlessTears(n, run) {
      forall p: nat | p <= |run|
        ensures AllWithinTerm(Exec(n, run[..p]))
      {
        forall k | 0 <= k < p
          ensures HarmlessTear(Exec(n, run[..p][..k]), run[..p][k])
        {
          assert run[..p][..k] == run[..k];
        }
        TermsWithin(n, run[..p]);
      }
    } else {
      var k: nat :| k < |run| && !HarmlessTear(Exec(n, run[..k]), run[k]);
      LogInvariant(n, run[..k]);
      if AllWithinTerm(Exec(n, run[..k])) {
        TornOutside(n, run, k);
      }
    }
  }

  lemma TornOutside(n: nat, run: seq<Action>, k: nat)
    requires 2 <= n && k < |run| && !HarmlessTear(Exec(n, run[..k]), run[k]) && AllWithinTerm(Exec(n, run[..k]))
    ensures !AllWithinTerm(Exec(n, run[..k + 1]))
  {
    LogInvariant(n, run[..k]);
    TornStep(Exec(n, run[..k]), Chronicle(n, run[..k]), run[k]);
    assert run[..k + 1][..k] == run[..k];
  }

  lemma TornStep(c: Cluster, h: History, a: Action)
    requires LogInv(c, h) && AllWithinTerm(c) && !HarmlessTear(c, a)
    ensures !AllWithinTerm(Next(c, a))
  {
    TornWriteExact(c, h, a);
    assert Next(c, a).servers[Actor(a)] == Perform(c, a).server;
  }

  /** Runs without torn writes. */
  ghost predicate WholeWrites(run: seq<Action>) {
    forall k :: 0 <= k < |run| ==> !run[k].EntriesLandThenCrash?
  }
}
