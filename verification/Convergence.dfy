/** The leaders and followers of every run are as Probing has them. */
module Convergence {
  import opened Entries
  import opened Protocol
  import opened Cluster
  import opened Safety
  import opened Effects
  import opened Probing

  ghost predicate KnowsPeers(n: nat, id: nat, s: Server) {
    s.role.Leader? ==>
      && (forall p: nat :: p in s.role.progress <==> p < n && p != id)
      && (forall p :: p in s.role.progress ==> Known(s.role.progress[p]))
  }

  lemma AnswersKnow(s: Server, n: nat, id: nat, m: Message)
    requires s.role.Leader? && m.term <= s.term && KnowsPeers(n, id, s)
    ensures KnowsPeers(n, id, Receive(s, n, id, m).server)
  {
    match m
    case RequestVote(_, _, _, _, _) =>
      UpdateSent(s, id, m.src, true);
    case RejectEntries(_, _, _, _) =>
      RejectionHandled(s, n, id, m);
    case AcceptEntries(_, _, _, acked) =>
      if m.src in s.role.progress {
        UpdateSent(RecordAccept(s, m.src, acked), id, m.src, false);
      }
    case _ =>
  }

  lemma ReceiveKnows(s: Server, n: nat, id: nat, m: Message)
    requires !s.role.Halted? && KnowsPeers(n, id, s)
    ensures KnowsPeers(n, id, Receive(s, n, id, m).server)
  {
    if s.role.Leader? && m.term <= s.term {
      AnswersKnow(s, n, id, m);
    } else if s.role.Candidate? && m.GrantVote? && m.term <= s.term {
      VoteCounted(s, n, id, m);
    }
  }

  lemma PerformKnows(c: Cluster, a: Action)
    requires Enabled(c, a) && KnowsPeers(|c.servers|, Actor(a), c.servers[Actor(a)])
    ensures KnowsPeers(|c.servers|, Actor(a), Perform(c, a).server)
  {
    var n, id, s := |c.servers|, Actor(a), c.servers[Actor(a)];
    if a.Deliver? {
      ReceiveKnows(s, n, id, Shorten(a.m, a.take));
    } else if a.Heartbeat? {
      UpdatesSent(s, id, Peers(n, id), true, 0);
    } else if a.Append? {
      UpdatesSent(Appended(s, n, a.value), id, Peers(n, id), false, 0);
    }
  }

  lemma {:induction false} LeadersKnow(n: nat, run: seq<Action>, v: nat)
    requires v < n
    ensures KnowsPeers(n, v, Exec(n, run).servers[v])
  {
    if run != [] {
      var c, a := Exec(n, run[..|run| - 1]), run[|run| - 1];
      LeadersKnow(n, run[..|run| - 1], v);
      if Enabled(c, a) && Actor(a) == v {
        PerformKnows(c, a);
      }
    }
  }

  lemma {:induction false} HasCommon(a: seq<Entry>, b: seq<Entry>, k: nat)
    requires LogsMatch(a, b) && k <= |a| && k <= |b|
    requires forall j :: k <= j < |a| && j < |b| ==> a[j].term != b[j].term
    ensures exists common: nat :: CommonUpTo(a, b, common)
  {
    if k > 0 && a[k - 1].term != b[k - 1].term {
      HasCommon(a, b, k - 1);
    } else {
      assert CommonUpTo(a, b, k);
    }
  }

  /** Any leader and follower of one term, at any moment of any run, are as there, if the leader has an entry at
      prevLogIndex: Probing.ReachedExactly says whether it will reach the follower. */
  lemma UpdatesInRuns(n: nat, run: seq<Action>, i: nat, j: nat, heartbeatOnly: bool)
    requires 2 <= n && i < n && j < n && i != j
    requires Exec(n, run).servers[i].role.Leader? && Exec(n, run).servers[j].role.Follower?
    requires Exec(n, run).servers[i].term == Exec(n, run).servers[j].term
    requires CanUpdate(Exec(n, run).servers[i], j)
    ensures
      var l, f := Exec(n, run).servers[i], Exec(n, run).servers[j];
      && Updating(i, j, Pair(l, f, Some(UpdateFollower(l, i, j, heartbeatOnly))))
      && exists common: nat :: CommonUpTo(l.log, f.log, common)
  {
    var l, f := Exec(n, run).servers[i], Exec(n, run).servers[j];
    LeadersKnow(n, run, i);
    UpdateIs(l, i, j, heartbeatOnly);
    assert run[..|run|] == run;
    AllLogsMatch(n, run, |run|, |run|, i, j, l.log, f.log);
    HasCommon(l.log, f.log, Min(|l.log|, |f.log|));
  }
}
