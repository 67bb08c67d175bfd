/** Leader Completeness (section 5.4): proved for the runs in which the code keeps it. */
module Completeness {
  import opened Entries
  import opened Protocol
  import opened Cluster
  import opened ElectionSafety
  import opened Operations
  import opened LogMatching
  import opened LogOperations
  import opened Terms
  import opened Commitment

  // ---------------------------------------------------------------- the runs in question

  /** The action merges the entries of a message into a log, all the way or up to a crash that tears its writes. */
  predicate Merges(c: Cluster, a: Action) {
    && Enabled(c, a) && (a.Deliver? || a.EntriesLandThenCrash?)
    && Accepts(c.servers[Actor(a)], Shorten(a.m, a.take))
  }

  /** Accepted entries are merged as the Raft paper's receiver rule would merge them. */
  ghost predicate MergesAsPaper(c: Cluster, a: Action) {
    Merges(c, a) ==>
      var log, m := c.servers[Actor(a)].log, Shorten(a.m, a.take);
      Merge(log, m.prevLogIndex, m.entries) == PaperMerge(log, m.prevLogIndex, m.entries)
  }

  /** The message reaches less far than the log, and nothing in it conflicts with the log: an outdated
      heartbeat, or entries that were received before. */
  predicate Outrun(log: seq<Entry>, m: Message)
    requires m.AppendEntries?
  {
    && m.prevLogIndex + |m.entries| < |log|
    && forall j :: 0 <= j < |m.entries| ==> log[m.prevLogIndex + j].term == m.entries[j].term
  }

  /** Exactly such messages are not merged as in the paper, and lose the rest of the log, provided that a message
      which ends where the log does, and with the same term, holds the same entries. */
  lemma DiscardsWhenOutrun(log: seq<Entry>, m: Message)
    requires m.AppendEntries? && m.prevLogIndex <= |log|
    requires EndsAlike(log, m) ==> Merge(log, m.prevLogIndex, m.entries) == log
    ensures Merge(log, m.prevLogIndex, m.entries) == PaperMerge(log, m.prevLogIndex, m.entries) <==> !Outrun(log, m)
  {
    assert log[..|log|] == log;
  }

  predicate EndsAlike(log: seq<Entry>, m: Message)
    requires m.AppendEntries?
  {
    && m.prevLogIndex + |m.entries| == |log|
    && (m.entries != [] ==> log[|log| - 1].term == m.entries[|m.entries| - 1].term)
  }

  lemma SameToTheEnd(h: History, log: seq<Entry>, m: Message)
    requires m.AppendEntries? && LogMessageOk(h, m) && LeaderLogsOk(h) && Anchored(h.leaderLogs, log)
    requires Matches(log, m.prevLogIndex, m.prevLogTerm) && EndsAlike(log, m)
    ensures Merge(log, m.prevLogIndex, m.entries) == log
  {
    if m.entries == [] {
      NothingMerged(log, m.prevLogIndex);
    } else {
      var leaderLog, last := h.leaderLogs[m.term], |log| - 1;
      MergeIsLeaderPrefix(h, log, m);
      LeaderLogFacts(h, m.term);
      LastOfMerge(log, leaderLog, m.prevLogIndex, m.entries, last);
      SameTermSamePrefix(h.leaderLogs, log, leaderLog, last);
      SamePrefixes(log, leaderLog, m.prevLogIndex, m.entries, last);
    }
  }

  lemma NothingMerged(log: seq<Entry>, prev: nat)
    requires prev == |log|
    ensures Merge(log, prev, []) == log
  {
  }

  lemma LastOfMerge(log: seq<Entry>, leaderLog: seq<Entry>, prev: nat, entries: seq<Entry>, last: nat)
    requires entries != [] && prev <= |log| && last + 1 == prev + |entries| <= |leaderLog|
    requires Merge(log, prev, entries) == leaderLog[..prev + |entries|]
    ensures entries[|entries| - 1] == leaderLog[last]
  {
    assert leaderLog[last] == leaderLog[..prev + |entries|][last];
  }

  lemma SamePrefixes(log: seq<Entry>, leaderLog: seq<Entry>, prev: nat, entries: seq<Entry>, last: nat)
    requires last + 1 == |log| == prev + |entries| && |log| <= |leaderLog|
    requires log[..last + 1] == leaderLog[..last + 1]
    requires Merge(log, prev, entries) == leaderLog[..prev + |entries|]
    ensures Merge(log, prev, entries) == log
  {
    assert log[..last + 1] == log;
  }

  lemma MergesAsPaperExactly(c: Cluster, h: History, a: Action)
    requires Merges(c, a) && LogInv(c, h)
    ensures MergesAsPaper(c, a) <==> !Outrun(c.servers[Actor(a)].log, Shorten(a.m, a.take))
  {
    var log, m := c.servers[Actor(a)].log, Shorten(a.m, a.take);
    assert LogOk(h.leaderLogs, c.servers[Actor(a)]) && LogMessageOk(h, a.m);
    ShortenedIsOk(h, a.m, a.take);
    if EndsAlike(log, m) {
      SameToTheEnd(h, log, m);
    }
    DiscardsWhenOutrun(log, m);
  }

  ghost predicate PaperMerges(n: nat, run: seq<Action>) {
    forall k :: 0 <= k < |run| ==> MergesAsPaper(Exec(n, run[..k]), run[k])
  }

  /** By term, how many of the leader's entries are at stake. */
  type Marks = map<nat, nat>

  predicate Marked(marks: Marks, t: nat, j: nat) {
    t in marks && marks[t] == j
  }

  /** The log has the first j entries of the log of the leader of term t. */
  ghost predicate HasMark(h: History, log: seq<Entry>, t: nat, j: nat) {
    t in h.leaderLogs && j <= |h.leaderLogs[t]| && h.leaderLogs[t][..j] <= log
  }

  /** A merge that is not as in the paper leaves a server what it has of the entries at stake. */
  ghost predicate Spares(c: Cluster, h: History, a: Action, marks: Marks) {
    Merges(c, a) && !MergesAsPaper(c, a) ==>
      forall t: nat, j: nat :: Marked(marks, t, j) && HasMark(h, c.servers[Actor(a)].log, t, j) ==>
        HasMark(h, Perform(c, a).server.log, t, j)
  }

  ghost predicate Spared(n: nat, run: seq<Action>, marks: Marks) {
    forall k :: 0 <= k < |run| ==> Spares(Exec(n, run[..k]), Chronicle(n, run[..k]), run[k], marks)
  }

  /** Being outrun, a message leaves what the log has up to the message's own end, and nothing else. */
  lemma OutrunCutsToEnd(h: History, log: seq<Entry>, m: Message)
    requires m.AppendEntries? && LogMessageOk(h, m) && LeaderLogsOk(h) && Anchored(h.leaderLogs, log)
    requires Matches(log, m.prevLogIndex, m.prevLogTerm) && Outrun(log, m)
    ensures Merge(log, m.prevLogIndex, m.entries) == log[..m.prevLogIndex + |m.entries|]
  {
    if m.entries != [] {
      var leaderLog, last := h.leaderLogs[m.term], m.prevLogIndex + |m.entries| - 1;
      MergeIsLeaderPrefix(h, log, m);
      LeaderLogFacts(h, m.term);
      LastOfMerge(log, leaderLog, m.prevLogIndex, m.entries, last);
      assert log[m.prevLogIndex + (|m.entries| - 1)].term == m.entries[|m.entries| - 1].term;
      SameTermSamePrefix(h.leaderLogs, log, leaderLog, last);
    }
  }

  /** So it spares the entries at stake if and only if it does not end below any of them that the log has. */
  lemma SparesExactly(c: Cluster, h: History, a: Action, marks: Marks)
    requires Merges(c, a) && VoteMessagesOk(c, h) && LogInv(c, h)
    ensures
      var log, m := c.servers[Actor(a)].log, Shorten(a.m, a.take);
      Spares(c, h, a, marks) <==>
        (Outrun(log, m) ==> forall t: nat, j: nat :: Marked(marks, t, j) && HasMark(h, log, t, j) ==>
                              j <= m.prevLogIndex + |m.entries|)
  {
    var log, m := c.servers[Actor(a)].log, Shorten(a.m, a.take);
    MergesAsPaperExactly(c, h, a);
    assert LogOk(h.leaderLogs, c.servers[Actor(a)]) && VoteMessageOk(|c.servers|, h, a.m) && LogMessageOk(h, a.m);
    if Outrun(log, m) {
      ShortenedIsOk(h, a.m, a.take);
      MergeShape(c, a);
      OutrunCutsToEnd(h, log, m);
      forall t: nat, j: nat | Marked(marks, t, j) && HasMark(h, log, t, j)
        ensures HasMark(h, Perform(c, a).server.log, t, j) <==> j <= m.prevLogIndex + |m.entries|
      {
        CutKeepsMark(h, log, t, j, m.prevLogIndex + |m.entries|);
      }
    }
  }

  lemma CutKeepsMark(h: History, log: seq<Entry>, t: nat, j: nat, end: nat)
    requires HasMark(h, log, t, j) && end <= |log|
    ensures HasMark(h, log[..end], t, j) <==> j <= end
  {
  }

  /** So no outdated message cuts a log below what its leader has committed, or will have by the end of the run. */
  ghost predicate CommitsSpared(n: nat, run: seq<Action>) {
    Spared(n, run, Chronicle(n, run).commits)
  }

  lemma PaperMergesSpare(n: nat, run: seq<Action>)
    requires PaperMerges(n, run)
    ensures CommitsSpared(n, run)
  {
  }

  lemma SparedPrefix(n: nat, run: seq<Action>, marks: Marks)
    requires Spared(n, run, marks) && run != []
    ensures Spared(n, run[..|run| - 1], marks)
    ensures Spares(Exec(n, run[..|run| - 1]), Chronicle(n, run[..|run| - 1]), run[|run| - 1], marks)
  {
    var before := run[..|run| - 1];
    forall k | 0 <= k < |before|
      ensures Spares(Exec(n, before[..k]), Chronicle(n, before[..k]), before[k], marks)
    {
      assert before[..k] == run[..k];
    }
  }

  // ---------------------------------------------------------------- invariant

  /** Server v once had the first j entries of the log of the leader of term t, and told that leader, or is it. */
  ghost predicate Holds(c: Cluster, h: History, v: nat, t: nat, j: nat) {
    && t in h.leaderLogs && t in h.elections && j <= |h.leaderLogs[t]|
    && (v == h.elections[t].leader || AckedTo(c.net, v, h.elections[t].leader, t, j))
  }

  /** A later leader was elected without the first j entries of the log of the leader of term t. */
  ghost predicate LostBy(h: History, t: nat, j: nat, u: nat) {
    && t in h.leaderLogs && j <= |h.leaderLogs[t]|
    && u in h.elections && t < u && !(h.leaderLogs[t][..j] <= h.elections[u].log)
  }

  /** One of the first elections was. */
  ghost predicate LostBefore(h: History, t: nat, j: nat, rank: nat) {
    exists u :: LostBy(h, t, j, u) && h.elections[u].rank < rank
  }

  /** What a server holds stays in its log until some leader is elected that lacks it. */
  ghost predicate HoldOk(h: History, s: Server, t: nat, j: nat)
    requires t in h.leaderLogs && j <= |h.leaderLogs[t]|
  {
    t <= s.term && (h.leaderLogs[t][..j] <= s.log || LostBefore(h, t, j, |h.elections|))
  }

  ghost predicate HoldsOk(c: Cluster, h: History, marks: Marks) {
    forall v: nat, t: nat, j: nat :: v < |c.servers| && Marked(marks, t, j) && Holds(c, h, v, t, j) ==>
      HoldOk(h, c.servers[v], t, j)
  }

  /** So it was in the voter's log when it voted in a later term, or some leader had been elected without it. */
  ghost predicate VoteOk(h: History, v: nat, t: nat, j: nat, u: nat)
    requires t in h.leaderLogs && j <= |h.leaderLogs[t]| && (v, u) in h.ballots
  {
    h.leaderLogs[t][..j] <= h.ballots[(v, u)].log || LostBefore(h, t, j, h.ballots[(v, u)].rank)
  }

  ghost predicate HeldVotesOk(c: Cluster, h: History, marks: Marks) {
    forall v: nat, t: nat, j: nat, u: nat ::
      v < |c.servers| && Marked(marks, t, j) && Holds(c, h, v, t, j) && (v, u) in h.ballots && t < u ==>
        VoteOk(h, v, t, j, u)
  }

  /** Votes come before the election that they decide, and so do the leaders whose entries its winner has. */
  ghost predicate RankOk(h: History, t: nat)
    requires t in h.elections
  {
    var e := h.elections[t];
    && e.rank < |h.elections|
    && (forall v :: v in e.voters ==> (v, t) in h.ballots && h.ballots[(v, t)].rank <= e.rank)
    && (forall j :: 0 <= j < |e.log| ==> e.log[j].term in h.elections && h.elections[e.log[j].term].rank < e.rank)
  }

  ghost predicate RanksOk(h: History) {
    && (forall k :: k in h.ballots ==> h.ballots[k].rank <= |h.elections|)
    && (forall t :: t in h.elections ==> RankOk(h, t))
  }

  ghost predicate BallotsAnchored(h: History) {
    forall k :: k in h.ballots ==> Anchored(h.leaderLogs, h.ballots[k].log)
  }

  ghost predicate CompletenessInv(c: Cluster, h: History, marks: Marks) {
    HoldsOk(c, h, marks) && HeldVotesOk(c, h, marks) && RanksOk(h) && BallotsAnchored(h)
  }

  // ---------------------------------------------------------------- past votes and elections

  lemma BallotsAnchoredKept(h: History, h': History, n: nat, id: nat, s': Server)
    requires h' == Record(h, n, id, s') && BallotsAnchored(h)
    requires Extends(h.leaderLogs, h'.leaderLogs) && Anchored(h'.leaderLogs, s'.log)
    ensures BallotsAnchored(h')
  {
    forall k | k in h'.ballots
      ensures Anchored(h'.leaderLogs, h'.ballots[k].log)
    {
      if k in h.ballots {
        AnchoredGrows(h.leaderLogs, h'.leaderLogs, h.ballots[k].log);
      }
    }
  }

  lemma RanksKept(h: History, h': History, n: nat, id: nat, s: Server, s': Server)
    requires h' == Record(h, n, id, s') && RanksOk(h) && LeaderLogStep(h, s, s')
    requires h.elections.Keys == h.leaderLogs.Keys && Anchored(h.leaderLogs, s.log)
    ensures RanksOk(h')
  {
    forall t | t in h'.elections
      ensures RankOk(h', t)
    {
      if t in h.elections {
        RankStands(h, h', n, id, s', t);
      } else {
        NewRank(h, h', n, id, s, s');
      }
    }
  }

  lemma RankStands(h: History, h': History, n: nat, id: nat, s': Server, t: nat)
    requires h' == Record(h, n, id, s') && t in h.elections && RankOk(h, t)
    ensures t in h'.elections && RankOk(h', t)
  {
  }

  /** A winner's entries are of terms that had their leaders before. */
  lemma NewRank(h: History, h': History, n: nat, id: nat, s: Server, s': Server)
    requires h' == Record(h, n, id, s') && RanksOk(h) && s'.role.Leader? && s'.term !in h.elections
    requires s'.log == s.log && h.elections.Keys == h.leaderLogs.Keys && Anchored(h.leaderLogs, s.log)
    ensures RankOk(h', s'.term)
  {
    forall j | 0 <= j < |s'.log|
      ensures s'.log[j].term in h.elections && h.elections[s'.log[j].term].rank < |h.elections|
    {
      assert RankOk(h, s'.log[j].term);
    }
  }

  // ---------------------------------------------------------------- what is held stays held

  lemma LostStands(h: History, h': History, t: nat, j: nat, rank: nat, rank': nat)
    requires t in h.leaderLogs && j <= |h.leaderLogs[t]| && rank <= rank'
    requires Extends(h.leaderLogs, h'.leaderLogs)
    requires forall u :: u in h.elections ==> u in h'.elections && h'.elections[u] == h.elections[u]
    requires LostBefore(h, t, j, rank)
    ensures LostBefore(h', t, j, rank')
  {
    var u :| LostBy(h, t, j, u) && h.elections[u].rank < rank;
    assert h'.leaderLogs[t][..j] == h.leaderLogs[t][..j];
    assert LostBy(h', t, j, u);
  }

  lemma PrefixStands(h: History, h': History, t: nat, j: nat)
    requires t in h.leaderLogs && j <= |h.leaderLogs[t]| && Extends(h.leaderLogs, h'.leaderLogs)
    ensures t in h'.leaderLogs && j <= |h'.leaderLogs[t]| && h'.leaderLogs[t][..j] == h.leaderLogs[t][..j]
  {
  }

  /** A merge that follows the paper's rule keeps every beginning that the leader's log shares. */
  lemma MergeKeepsShared(log: seq<Entry>, prev: nat, entries: seq<Entry>, leaderLog: seq<Entry>, j: nat,
                         held: seq<Entry>)
    requires prev <= |log| && prev + |entries| <= |leaderLog|
    requires Merge(log, prev, entries) == leaderLog[..prev + |entries|]
    requires Merge(log, prev, entries) == PaperMerge(log, prev, entries)
    requires |held| == j && held <= log && held <= leaderLog
    ensures held <= Merge(log, prev, entries)
  {
    var k := prev + |entries|;
    if k < j {
      forall i | 0 <= i < |entries|
        ensures log[prev + i].term == entries[i].term
      {
        assert Merge(log, prev, entries)[prev + i] == entries[i];
        assert leaderLog[prev + i] == held[prev + i] == log[prev + i];
      }
    }
  }

  lemma ElectedLogIsPrefix(h: History, t: nat)
    requires LeaderLogsOk(h) && t in h.leaderLogs
    ensures t in h.elections && t >= 1 && h.elections[t].log <= h.leaderLogs[t]
  {
    assert LeaderLogOk(h, t);
  }

  lemma AcceptKeepsShared(h: History, s: Server, m: Message, j: nat, held: seq<Entry>)
    requires LogOk(h.leaderLogs, s) && LogMessageOk(h, m) && LeaderLogsOk(h) && Accepts(s, m)
    requires Merge(s.log, m.prevLogIndex, m.entries) == PaperMerge(s.log, m.prevLogIndex, m.entries)
    requires |held| == j && held <= s.log && held <= h.leaderLogs[m.term]
    ensures held <= Merge(s.log, m.prevLogIndex, m.entries)
  {
    MergeIsLeaderPrefix(h, s.log, m);
    MergeKeepsShared(s.log, m.prevLogIndex, m.entries, h.leaderLogs[m.term], j, held);
  }

  /** A merge that follows the paper's rule loses what is held only to a leader that was elected without it. */
  lemma MergeKeepsHold(h: History, s: Server, s': Server, m: Message, t: nat, j: nat)
    requires LogOk(h.leaderLogs, s) && LogMessageOk(h, m) && LeaderLogsOk(h) && RanksOk(h)
    requires Accepts(s, m) && s.term <= s'.term && s'.log == Merge(s.log, m.prevLogIndex, m.entries)
    requires Merge(s.log, m.prevLogIndex, m.entries) == PaperMerge(s.log, m.prevLogIndex, m.entries)
    requires t in h.leaderLogs && j <= |h.leaderLogs[t]| && HoldOk(h, s, t, j)
    ensures HoldOk(h, s', t, j)
  {
    if !LostBefore(h, t, j, |h.elections|) {
      assert m.term in h.elections ==> RankOk(h, m.term);
      LeaderShares(h, t, j, m.term);
      AcceptKeepsShared(h, s, m, j, h.leaderLogs[t][..j]);
    }
  }

  lemma LeaderShares(h: History, t: nat, j: nat, u: nat)
    requires LeaderLogsOk(h) && t in h.leaderLogs && u in h.leaderLogs && j <= |h.leaderLogs[t]|
    requires t <= u && !LostBy(h, t, j, u)
    ensures h.leaderLogs[t][..j] <= h.leaderLogs[u]
  {
    ElectedLogIsPrefix(h, u);
  }

  lemma ActorKeepsHold(c: Cluster, h: History, a: Action, marks: Marks, t: nat, j: nat)
    requires Enabled(c, a) && Spares(c, h, a, marks) && Marked(marks, t, j)
    requires VoteMessagesOk(c, h) && LogInv(c, h) && RanksOk(h)
    requires t in h.leaderLogs && t >= 1 && j <= |h.leaderLogs[t]| && HoldOk(h, c.servers[Actor(a)], t, j)
    ensures HoldOk(h, Perform(c, a).server, t, j)
  {
    var s, s' := c.servers[Actor(a)], Perform(c, a).server;
    assert LogOk(h.leaderLogs, s);
    if Merges(c, a) {
      assert VoteMessageOk(|c.servers|, h, a.m) && LogMessageOk(h, a.m);
      ShortenedIsOk(h, a.m, a.take);
      MergeShape(c, a);
      if MergesAsPaper(c, a) {
        MergeKeepsHold(h, s, s', Shorten(a.m, a.take), t, j);
      } else {
        assert h.leaderLogs[t][..j] <= s.log ==> HasMark(h, s.log, t, j) && HasMark(h, s'.log, t, j);
      }
    } else {
      OtherShape(c, h, a);
      ExtendedKeepsHold(h, s, s', t, j);
    }
  }

  /** Any other action leaves a log as it is or extends it, except that a server in term 0 comes back without one. */
  lemma OtherShape(c: Cluster, h: History, a: Action)
    requires Enabled(c, a) && !Merges(c, a) && VoteMessagesOk(c, h) && LogOk(h.leaderLogs, c.servers[Actor(a)])
    ensures
      var s, s' := c.servers[Actor(a)], Perform(c, a).server;
      s.term <= s'.term && (s.log <= s'.log || s.term == 0)
  {
    if a.Deliver? {
      assert VoteMessageOk(|c.servers|, h, a.m);
      ReceiveShape(c.servers[Actor(a)], |c.servers|, Actor(a), Shorten(a.m, a.take));
    } else {
      ActionShape(c, a);
    }
  }

  lemma MergeShape(c: Cluster, a: Action)
    requires Merges(c, a) && a.m.src < |c.servers| && a.m.src != a.m.dst
    ensures
      var s, s', m := c.servers[Actor(a)], Perform(c, a).server, Shorten(a.m, a.take);
      s.term <= s'.term && s'.log == Merge(s.log, m.prevLogIndex, m.entries)
  {
    if a.Deliver? {
      ReceiveShape(c.servers[Actor(a)], |c.servers|, Actor(a), Shorten(a.m, a.take));
    } else {
      ActionShape(c, a);
    }
  }

  lemma ExtendedKeepsHold(h: History, s: Server, s': Server, t: nat, j: nat)
    requires t in h.leaderLogs && t >= 1 && j <= |h.leaderLogs[t]| && HoldOk(h, s, t, j)
    requires s.term <= s'.term && (s.log <= s'.log || s.term == 0)
    ensures HoldOk(h, s', t, j)
  {
  }

  // ---------------------------------------------------------------- new holds

  /** An acknowledgement is sent with a log that is a beginning of the log of its term's leader. */
  ghost predicate AckStep(leaderLogs: Logs, id: nat, o: Outcome) {
    forall x :: x in o.sent && x.AcceptEntries? ==>
      && x.src == id && x.term == o.server.term && x.ackedIndex == |o.server.log| && !o.server.role.Leader?
      && x.term in leaderLogs && o.server.log <= leaderLogs[x.term]
  }

  lemma PerformAcks(c: Cluster, h: History, a: Action)
    requires Enabled(c, a) && VoteMessagesOk(c, h) && LogInv(c, h)
    ensures AckStep(h.leaderLogs, Actor(a), Perform(c, a))
  {
    if a.Deliver? {
      var n, id, s, d := |c.servers|, Actor(a), c.servers[Actor(a)], Shorten(a.m, a.take);
      assert VoteMessageOk(n, h, a.m) && LogMessageOk(h, a.m) && LogOk(h.leaderLogs, s);
      ShortenedIsOk(h, a.m, a.take);
      ReceiveShape(s, n, id, d);
      if Accepts(s, d) {
        AcceptedLogs(h, s, d);
        AcceptsFollows(s, n, id, d);
      }
    } else {
      ActionShape(c, a);
    }
  }

  lemma AcceptsFollows(s: Server, n: nat, id: nat, m: Message)
    requires Accepts(s, m)
    ensures Receive(s, n, id, m).server.role.Follower?
  {
  }

  lemma NewHold(c: Cluster, c': Cluster, h: History, h': History, id: nat, o: Outcome, v: nat, t: nat, j: nat)
    requires Moved(c, c', h, h', id, o)
    requires LogMessagesOk(c, h) && h.elections.Keys == h.leaderLogs.Keys && RoleOk(|c.servers|, h', id, o.server)
    requires AckStep(h.leaderLogs, id, o) && Extends(h.leaderLogs, h'.leaderLogs)
    requires Holds(c', h', v, t, j) && !Holds(c, h, v, t, j)
    ensures v == id && t == o.server.term && h'.leaderLogs[t][..j] <= o.server.log
  {
    var leader := h'.elections[t].leader;
    if v != leader {
      var k: nat :| k >= j && AcceptEntries(v, leader, t, k) in c'.net;
    }
  }

  // ---------------------------------------------------------------- the invariant is kept

  lemma HoldStands(h: History, h': History, s: Server, t: nat, j: nat)
    requires t in h.leaderLogs && j <= |h.leaderLogs[t]| && HoldOk(h, s, t, j)
    requires Extends(h.leaderLogs, h'.leaderLogs)
    requires forall u :: u in h.elections ==> u in h'.elections && h'.elections[u] == h.elections[u]
    requires |h.elections| <= |h'.elections|
    ensures t in h'.leaderLogs && j <= |h'.leaderLogs[t]| && HoldOk(h', s, t, j)
  {
    PrefixStands(h, h', t, j);
    if LostBefore(h, t, j, |h.elections|) {
      LostStands(h, h', t, j, |h.elections|, |h'.elections|);
    }
  }

  lemma HoldsKept(c: Cluster, c': Cluster, h: History, h': History, a: Action, marks: Marks)
    requires Enabled(c, a) && Spares(c, h, a, marks)
    requires Moved(c, c', h, h', Actor(a), Perform(c, a))
    requires VoteMessagesOk(c, h) && LogInv(c, h) && HoldsOk(c, h, marks) && RanksOk(h)
    requires AckStep(h.leaderLogs, Actor(a), Perform(c, a)) && Extends(h.leaderLogs, h'.leaderLogs)
    requires RoleOk(|c.servers|, h', Actor(a), Perform(c, a).server)
    ensures HoldsOk(c', h', marks)
  {
    forall v: nat, t: nat, j: nat | v < |c'.servers| && Marked(marks, t, j) && Holds(c', h', v, t, j)
      ensures HoldOk(h', c'.servers[v], t, j)
    {
      if v == Actor(a) && Holds(c, h, v, t, j) {
        ElectedLogIsPrefix(h, t);
        ActorKeepsHold(c, h, a, marks, t, j);
      }
      HoldKept(c, c', h, h', Actor(a), Perform(c, a), v, t, j);
    }
  }

  lemma HoldKept(c: Cluster, c': Cluster, h: History, h': History, id: nat, o: Outcome, v: nat, t: nat, j: nat)
    requires Moved(c, c', h, h', id, o) && v < |c.servers|
    requires LogMessagesOk(c, h) && h.elections.Keys == h.leaderLogs.Keys && RoleOk(|c.servers|, h', id, o.server)
    requires AckStep(h.leaderLogs, id, o) && Extends(h.leaderLogs, h'.leaderLogs)
    requires Holds(c, h, v, t, j) ==> HoldOk(h, if v == id then o.server else c.servers[v], t, j)
    requires Holds(c', h', v, t, j)
    ensures HoldOk(h', c'.servers[v], t, j)
  {
    if Holds(c, h, v, t, j) {
      HoldStands(h, h', if v == id then o.server else c.servers[v], t, j);
    } else {
      NewHold(c, c', h, h', id, o, v, t, j);
    }
  }

  lemma VoteStands(h: History, h': History, n: nat, id: nat, s: Server, v: nat, t: nat, j: nat, u: nat)
    requires h' == Record(h, n, id, s) && Extends(h.leaderLogs, h'.leaderLogs)
    requires t in h.leaderLogs && j <= |h.leaderLogs[t]| && (v, u) in h.ballots && VoteOk(h, v, t, j, u)
    ensures t in h'.leaderLogs && j <= |h'.leaderLogs[t]| && (v, u) in h'.ballots && VoteOk(h', v, t, j, u)
  {
    PrefixStands(h, h', t, j);
    if LostBefore(h, t, j, h.ballots[(v, u)].rank) {
      LostStands(h, h', t, j, h.ballots[(v, u)].rank, h.ballots[(v, u)].rank);
    }
  }

  /** A vote is cast with everything held before, unless a leader had been elected without it. */
  lemma NewVoteOk(h: History, h': History, n: nat, id: nat, s': Server, t: nat, j: nat)
    requires h' == Record(h, n, id, s')
    requires s'.vote.Some? && (id, s'.term) !in h.ballots && t < s'.term
    requires t in h'.leaderLogs && j <= |h'.leaderLogs[t]| && HoldOk(h', s', t, j)
    requires s'.role.Leader? ==> s'.term in h.elections || (id, s'.term) in h.ballots
    ensures (id, s'.term) in h'.ballots && VoteOk(h', id, t, j, s'.term)
  {
  }

  lemma HeldVotesKept(c: Cluster, c': Cluster, h: History, h': History, id: nat, o: Outcome, marks: Marks)
    requires Moved(c, c', h, h', id, o)
    requires BallotsOk(c, h) && LogMessagesOk(c, h)
    requires h.elections.Keys == h.leaderLogs.Keys
    requires HeldVotesOk(c, h, marks) && HoldsOk(c', h', marks)
    requires TermStep(c.servers[id], o.server)
    requires o.server.role.Leader? ==> o.server.term in h.elections || (id, o.server.term) in h.ballots
    requires AckStep(h.leaderLogs, id, o) && Extends(h.leaderLogs, h'.leaderLogs)
    requires RoleOk(|c.servers|, h', id, o.server)
    ensures HeldVotesOk(c', h', marks)
  {
    forall v: nat, t: nat, j: nat, u: nat |
      v < |c'.servers| && Marked(marks, t, j) && Holds(c', h', v, t, j) && (v, u) in h'.ballots && t < u
      ensures VoteOk(h', v, t, j, u)
    {
      if (v, u) !in h.ballots {
        assert HoldOk(h', c'.servers[v], t, j);
        NewVoteOk(h, h', |c.servers|, id, o.server, t, j);
      } else if Holds(c, h, v, t, j) {
        assert VoteOk(h, v, t, j, u);
        VoteStands(h, h', |c.servers|, id, o.server, v, t, j, u);
      } else {
        NewHold(c, c', h, h', id, o, v, t, j);
      }
    }
  }

  /** Runs in which Leader Completeness holds. */
  ghost predicate CleanRun(n: nat, run: seq<Action>) {
    BackedAcks(n, run) && CommitsSpared(n, run)
  }

  lemma CompletenessStep(c: Cluster, c': Cluster, h: History, h': History, a: Action, marks: Marks)
    requires Enabled(c, a) && Spares(c, h, a, marks)
    requires Moved(c, c', h, h', Actor(a), Perform(c, a))
    requires ElectionInv(c, h) && LogInv(c, h) && CompletenessInv(c, h, marks)
    requires LogStep(|c.servers|, h, Actor(a), c.servers[Actor(a)], Perform(c, a))
    requires ElectionStep(|c.servers|, h, Actor(a), c.servers[Actor(a)], Perform(c, a))
    requires RoleOk(|c.servers|, h', Actor(a), Perform(c, a).server)
    ensures CompletenessInv(c', h', marks)
  {
    var id, s, o := Actor(a), c.servers[Actor(a)], Perform(c, a);
    LeaderLogsExtend(h, |c.servers|, id, s, o.server);
    PerformAcks(c, h, a);
    BallotsAnchoredKept(h, h', |c.servers|, id, o.server);
    assert LogOk(h.leaderLogs, s);
    RanksKept(h, h', |c.servers|, id, s, o.server);
    HoldsKept(c, c', h, h', a, marks);
    LeaderVoted(c, h, id, o.server);
    HeldVotesKept(c, c', h, h', id, o, marks);
  }

  lemma LeaderVoted(c: Cluster, h: History, id: nat, s': Server)
    requires id < |c.servers| && RolesOk(c, h) && VotesRecorded(c, h)
    requires LeaderLogStep(h, c.servers[id], s')
    ensures s'.role.Leader? ==> s'.term in h.elections || (id, s'.term) in h.ballots
  {
    assert RoleOk(|c.servers|, h, id, c.servers[id]);
  }

  lemma {:induction false} CompletenessInvariant(n: nat, run: seq<Action>, marks: Marks)
    requires 2 <= n && Spared(n, run, marks)
    ensures CompletenessInv(Exec(n, run), Chronicle(n, run), marks)
  {
    if run != [] {
      var before, a := run[..|run| - 1], run[|run| - 1];
      SparedPrefix(n, run, marks);
      CompletenessInvariant(n, before, marks);
      LogInvariant(n, before);
      var c, h := Exec(n, before), Chronicle(n, before);
      if Enabled(c, a) {
        PerformLog(c, h, a);
        PerformElection(c, h, a);
        RoleSettles(c, h, Actor(a), Perform(c, a));
        CompletenessStep(c, Exec(n, run), h, Chronicle(n, run), a, marks);
      }
    }
  }

  // ---------------------------------------------------------------- no later leader lacks what was committed

  /** A log whose last entry is of term w is a beginning of the log of the leader of term w. */
  lemma AnchoredAtEnd(leaderLogs: Logs, log: seq<Entry>)
    requires Anchored(leaderLogs, log) && log != []
    ensures LastTerm(log) in leaderLogs && log <= leaderLogs[LastTerm(log)]
  {
    assert log[..|log| - 1 + 1] == log;
  }

  /** Leaders that were elected before the leader of term u, and later in terms than t, have the prefix. */
  ghost predicate EarlierHave(h: History, t: nat, prefix: seq<Entry>, u: nat)
    requires u in h.elections
  {
    forall w :: w in h.elections && t < w && h.elections[w].rank < h.elections[u].rank ==> prefix <= h.elections[w].log
  }

  /** The voter's log has the prefix and its last term is at least that of the prefix; the winner's log is at
      least as up to date. Then the winner's log has the prefix too, given that the leaders elected before do. */
  lemma WinnerHasPrefix(h: History, ballot: seq<Entry>, prefix: seq<Entry>, t: nat, u: nat)
    requires LeaderLogsOk(h) && WinnersBelow(h) && u in h.elections && RankOk(h, u)
    requires Anchored(h.leaderLogs, ballot) && Anchored(h.leaderLogs, h.elections[u].log) && Ascending(ballot)
    requires prefix != [] && prefix <= ballot && LastTerm(prefix) == t
    requires !Outdated(ballot, LastTerm(h.elections[u].log), |h.elections[u].log|)
    requires EarlierHave(h, t, prefix, u)
    ensures prefix <= h.elections[u].log
  {
    var winner := h.elections[u].log;
    var w := LastTerm(winner);
    AnchoredAtEnd(h.leaderLogs, ballot);
    assert ballot[|prefix| - 1] == prefix[|prefix| - 1];
    assert 1 <= t <= LastTerm(ballot) <= w;
    AnchoredAtEnd(h.leaderLogs, winner);
    if w == LastTerm(ballot) {
      assert ballot <= winner;
    } else {
      assert winner[|winner| - 1].term == w;
      ReachesPastElected(h, winner, w);
      assert prefix <= h.elections[w].log;
    }
  }

  /** A log that ends with an entry of term w is longer than what the leader of term w was elected with. */
  lemma ReachesPastElected(h: History, log: seq<Entry>, w: nat)
    requires LeaderLogsOk(h) && WinnersBelow(h) && log != [] && LastTerm(log) == w
    requires w in h.leaderLogs && log <= h.leaderLogs[w]
    ensures w in h.elections && h.elections[w].log <= log
  {
    ElectedLogIsPrefix(h, w);
    var initial := h.elections[w].log;
    assert ElectedBelow(h, w);
    forall j | 0 <= j < |initial|
      ensures h.leaderLogs[w][j].term < w
    {
      assert h.leaderLogs[w][j] == initial[j];
    }
    assert h.leaderLogs[w][|log| - 1] == log[|log| - 1];
  }

  lemma QuorumWithLeader(n: nat, peers: set<nat>, leader: nat)
    requires leader < n && leader !in peers && |peers| >= HalfOfPeers(n)
    requires forall u :: u in peers ==> u < n
    ensures peers + {leader} <= Ids(n) && |peers + {leader}| > HalfOfPeers(n)
  {
  }

  lemma ElectedLogAnchored(h: History, u: nat)
    requires LeaderLogsOk(h) && u in h.leaderLogs
    ensures u in h.elections && Anchored(h.leaderLogs, h.elections[u].log)
  {
    ElectedLogIsPrefix(h, u);
    LeaderLogFacts(h, u);
    AnchoredPrefix(h.leaderLogs, h.leaderLogs[u], |h.elections[u].log|);
    assert h.elections[u].log == h.leaderLogs[u][..|h.elections[u].log|];
  }

  /** Everything certified in term t was in the log of every later leader when it was elected: by induction over
      the order in which leaders were elected. */
  lemma {:induction false} CertifiedInLaterLeaders(c: Cluster, h: History, marks: Marks, t: nat, i: nat, u: nat)
    requires ElectionInv(c, h) && LogInv(c, h) && CampaignLogsOk(h) && CompletenessInv(c, h, marks)
    requires Marked(marks, t, i)
    requires t in h.leaderLogs && t in h.elections && 1 <= i <= |h.leaderLogs[t]| && h.leaderLogs[t][i - 1].term == t
    requires Certified(|c.servers|, c.net, h.elections[t].leader, t, i)
    requires u in h.elections && t < u
    ensures h.leaderLogs[t][..i] <= h.elections[u].log
    decreases h.elections[u].rank
  {
    forall w | w in h.elections && t < w && h.elections[w].rank < h.elections[u].rank
      ensures h.leaderLogs[t][..i] <= h.elections[w].log
    {
      CertifiedInLaterLeaders(c, h, marks, t, i, w);
    }
    var peers :| Certificate(|c.servers|, c.net, h.elections[t].leader, t, i, peers);
    var v := VoterAmongHolders(c, h, t, i, u, peers);
    WonWithBallot(c, h, u, v);
    VotedWithPrefix(c, h, marks, v, t, i, u);
    HistoryOrdered(c, h);
    ElectedLogAnchored(h, u);
    AnchoredAscends(h, h.ballots[(v, u)].log);
    WinnerHasPrefix(h, h.ballots[(v, u)].log, h.leaderLogs[t][..i], t, u);
  }

  lemma VoterAmongHolders(c: Cluster, h: History, t: nat, i: nat, u: nat, peers: set<nat>) returns (v: nat)
    requires t in h.elections && t in h.leaderLogs && i <= |h.leaderLogs[t]| && u in h.elections
    requires ElectionsOk(c, h)
    requires Certificate(|c.servers|, c.net, h.elections[t].leader, t, i, peers)
    ensures v < |c.servers| && v in h.elections[u].voters && Holds(c, h, v, t, i)
  {
    var n, leader := |c.servers|, h.elections[t].leader;
    assert ElectionOk(c, h, t) && ElectionOk(c, h, u);
    QuorumWithLeader(n, peers, leader);
    assert h.elections[u].voters <= Ids(n);
    v := QuorumsMeet(n, peers + {leader}, h.elections[u].voters);
  }

  lemma WonWithBallot(c: Cluster, h: History, u: nat, v: nat)
    requires ElectionsOk(c, h) && BallotLogsOk(h) && u in h.elections && v in h.elections[u].voters
    ensures (v, u) in h.ballots
    ensures !Outdated(h.ballots[(v, u)].log, LastTerm(h.elections[u].log), |h.elections[u].log|)
  {
    assert ElectionOk(c, h, u);
    assert VotedFor(h, v, u, h.elections[u].leader);
    assert BallotLogOk(h, (v, u));
  }

  lemma VotedWithPrefix(c: Cluster, h: History, marks: Marks, v: nat, t: nat, i: nat, u: nat)
    requires HeldVotesOk(c, h, marks) && Marked(marks, t, i) && RanksOk(h) && BallotsAnchored(h)
    requires v < |c.servers| && Holds(c, h, v, t, i) && (v, u) in h.ballots && t < u
    requires u in h.elections && v in h.elections[u].voters
    requires EarlierHave(h, t, h.leaderLogs[t][..i], u)
    ensures h.leaderLogs[t][..i] <= h.ballots[(v, u)].log && RankOk(h, u)
    ensures Anchored(h.leaderLogs, h.ballots[(v, u)].log)
  {
    assert VoteOk(h, v, t, i, u) && RankOk(h, u);
  }
}
