/** Facts about single operations, and that each keeps to the election rules. */
module Operations {
  import opened Entries
  import opened Protocol
  import opened Cluster
  import opened ElectionSafety

  lemma {:induction false} UpdateAllSends(s: Server, id: nat, peers: seq<nat>, heartbeatOnly: bool)
    requires s.role.Leader?
    ensures UpdateAll(s, id, peers, heartbeatOnly).server == s
    ensures forall m :: m in UpdateAll(s, id, peers, heartbeatOnly).sent ==>
              m.dst in peers && CanUpdate(s, m.dst) && m == UpdateFollower(s, id, m.dst, heartbeatOnly)
  {
    if peers != [] && CanUpdate(s, peers[0]) {
      UpdateAllSends(s, id, peers[1..], heartbeatOnly);
    }
  }

  /** How the state that a follower's handler starts from relates to the state before the operation. */
  ghost predicate FollowerBase(s: Server, base: Server) {
    && base.role.Follower?
    && base.log == s.log && base.stream == s.stream
    && ((base.term == s.term && base.vote == s.vote) || (base.term > s.term && base.vote == None))
  }

  /** No ballot of this server is newer than its term, and a ballot of its term is its vote. */
  ghost predicate BallotsOf(h: History, id: nat, s: Server) {
    forall k :: k in h.ballots && k.0 == id ==>
      k.1 <= s.term && (k.1 == s.term ==> s.vote == Some(h.ballots[k].candidate))
  }

  lemma FollowerReceiveElection(n: nat, h: History, id: nat, s: Server, base: Server, m: Message)
    requires FollowerBase(s, base) && BallotsOf(h, id, s)
    requires VoteMessageOk(n, h, m) && m.dst == id
    ensures ElectionStep(n, h, id, s, FollowerReceive(base, id, m))
  {
  }

  lemma StartElectionElection(n: nat, h: History, id: nat, s: Server)
    requires 2 <= n && id < n
    requires forall k :: k in h.campaigns && k.0 == id ==> k.1 <= s.term
    ensures ElectionStep(n, h, id, s, StartElection(s, n, id))
  {
    var o := StartElection(s, n, id);
    var h' := Record(h, n, id, o.server);
    assert h'.campaigns[(id, o.server.term)] == o.server.log;
    forall m | m in o.sent
      ensures VoteMessageOk(n, h', m)
    {
      assert m.dst in Peers(n, id);
    }
  }

  lemma CandidateReceiveElection(n: nat, h: History, id: nat, s: Server, m: Message)
    requires s.role.Candidate? && CandidateOk(n, h, id, s) && BallotsOf(h, id, s)
    requires VoteMessageOk(n, h, m) && m.dst == id
    ensures ElectionStep(n, h, id, s, CandidateReceive(s, n, id, m))
  {
    if m.term > s.term {
      FollowerReceiveElection(n, h, id, s, ConvertToFollower(SetTerm(s, m.term)), m);
    } else if m.GrantVote? {
      CandidateGrantVoteElection(n, h, id, s, m);
    } else if m.AppendEntries? && m.term == s.term {
      FollowerReceiveElection(n, h, id, s, ConvertToFollower(s), m);
    }
  }

  lemma CandidateGrantVoteElection(n: nat, h: History, id: nat, s: Server, m: Message)
    requires s.role.Candidate? && CandidateOk(n, h, id, s)
    requires VoteMessageOk(n, h, m) && m.dst == id && m.GrantVote?
    ensures ElectionStep(n, h, id, s, CandidateGrantVote(s, n, id, m))
  {
    if m.term == s.term && m.src !in s.role.votesReceived && s.role.votesRequired == 1 {
      var received := s.role.votesReceived + {m.src};
      var voters := VotersFor(n, h.ballots, s.term, id) - {id};
      assert received <= voters;
      SubsetSize(received, voters);
      BecomeLeaderSends(s, n, id);
    }
  }

  lemma BecomeLeaderSends(s: Server, n: nat, id: nat)
    ensures
      var o := BecomeLeader(s, n, id);
      && o.server.role.Leader? && o.server.role.commitIndex == 0 && o.server.role.pending == []
      && o.server == s.(role := o.server.role)
      && (forall m :: m in o.sent ==> m.AppendEntries? && m.src == id && m.dst in Peers(n, id))
  {
    var progress := map p | p in Peers(n, id) :: Progress(|s.log| + 1, 0);
    UpdateAllSends(s.(role := Leader(0, progress, [])), id, Peers(n, id), true);
  }

  /** Leaders that stay leaders change neither term nor vote. */
  ghost predicate StaysLeader(n: nat, id: nat, s: Server, o: Outcome) {
    && s.role.Leader? && o.server.role.Leader?
    && o.server.term == s.term && o.server.vote == s.vote
    && (forall m :: m in o.sent ==>
          m.src == id && m.dst < n && m.dst != id && (m.AppendEntries? || m.DenyVote?))
  }

  lemma LeaderReceiveStays(n: nat, id: nat, s: Server, m: Message)
    requires s.role.Leader? && m.term <= s.term && m.dst == id
    requires m.src < n && m.src != id && id < n
    ensures StaysLeader(n, id, s, LeaderReceive(s, n, id, m))
    ensures
      var s' := LeaderReceive(s, n, id, m).server;
      s'.log == s.log && s'.stream == s.stream
  {
    match m
    case RequestVote(_, _, _, _, _) =>
      UpdateAllSends(s, id, [m.src], true);
    case RejectEntries(_, _, _, conflict) =>
      if m.src in s.role.progress && conflict.Some? {
        UpdateAllSends(SetProgress(s, m.src, s.role.progress[m.src].(next := conflict.value)), id, [m.src], true);
      }
    case AcceptEntries(_, _, _, acked) =>
      if m.src in s.role.progress {
        RecordAcceptKeeps(s, m.src, acked);
        UpdateAllSends(RecordAccept(s, m.src, acked), id, [m.src], false);
      }
    case _ =>
  }

  /** Recording an accept touches only the replication bookkeeping and the applier. */
  lemma RecordAcceptKeeps(s: Server, peer: nat, acked: nat)
    requires s.role.Leader? && peer in s.role.progress
    ensures
      var s' := RecordAccept(s, peer, acked);
      s' == s.(role := s'.role, queued := s'.queued, lastQueued := s'.lastQueued, applying := s'.applying)
  {
    if acked >= s.role.progress[peer].next {
      var pending := CountAccept(s.role.pending, s.role.progress[peer].next, acked);
      CommitReplicatedKeeps(s.(role := s.role.(pending := pending)));
    }
  }

  lemma {:induction false} CommitReplicatedKeeps(s: Server)
    requires s.role.Leader?
    ensures
      var s' := CommitReplicated(s);
      s' == s.(role := s'.role, queued := s'.queued, lastQueued := s'.lastQueued, applying := s'.applying)
    decreases if s.role.Leader? then |s.role.pending| else 0
  {
    if s.role.pending != [] && s.role.pending[0].required == 0 {
      CommitReplicatedKeeps(CommitFirst(s));
    }
  }

  lemma StaysLeaderElection(n: nat, h: History, id: nat, s: Server, o: Outcome)
    requires StaysLeader(n, id, s, o) && id < n
    ensures ElectionStep(n, h, id, s, o)
  {
  }

  lemma LeaderAppendStays(s: Server, n: nat, id: nat, value: Payload)
    requires s.role.Leader? && id < n
    ensures StaysLeader(n, id, s, LeaderAppend(s, n, id, value))
    ensures LeaderAppend(s, n, id, value).server.log == s.log + [Entry(|s.log| + 1, s.term, value)]
  {
    var entry := Entry(|s.log| + 1, s.term, value);
    var role := s.role.(pending := s.role.pending + [Pending(entry.index, HalfOfPeers(n))]);
    UpdateAllSends(s.(log := s.log + [entry], stream := s.stream + [entry], role := role), id, Peers(n, id), false);
  }

  lemma ReceiveElection(c: Cluster, h: History, m: Message, take: nat)
    requires ElectionInv(c, h) && Enabled(c, Deliver(m, take))
    ensures ElectionStep(|c.servers|, h, m.dst, c.servers[m.dst], Perform(c, Deliver(m, take)))
  {
    var n, id, s, d := |c.servers|, m.dst, c.servers[m.dst], Shorten(m, take);
    assert VoteMessageOk(n, h, m) && VoteMessageOk(n, h, d);
    assert RoleOk(n, h, id, s) && BallotsOf(h, id, s);
    match s.role
    case Follower(_) => FollowerReceiveElection(n, h, id, s, s, d);
    case Candidate(_, _) => CandidateReceiveElection(n, h, id, s, d);
    case Leader(_, _, _) =>
      if d.term > s.term {
        FollowerReceiveElection(n, h, id, s, ConvertToFollower(SetTerm(s, d.term)), d);
      } else {
        LeaderReceiveStays(n, id, s, d);
        StaysLeaderElection(n, h, id, s, LeaderReceive(s, n, id, d));
      }
  }

  /** What the applier does is no business of elections. */
  lemma AppliedElection(n: nat, h: History, id: nat, s: Server)
    requires s.role.Candidate? ==> CandidateOk(n, h, id, s)
    ensures ElectionStep(n, h, id, s, Sends(s.(applying := Idle), []))
  {
  }

  /** Every action keeps to the election rules. */
  lemma PerformElection(c: Cluster, h: History, a: Action)
    requires 2 <= |c.servers| && ElectionInv(c, h) && Enabled(c, a)
    ensures ElectionStep(|c.servers|, h, Actor(a), c.servers[Actor(a)], Perform(c, a))
  {
    var n, id, s := |c.servers|, Actor(a), c.servers[Actor(a)];
    assert RoleOk(n, h, id, s);
    match a
    case Deliver(m, take) => ReceiveElection(c, h, m, take);
    case ElectionTimeout(_) => StartElectionElection(n, h, id, s);
    case Heartbeat(_) =>
      UpdateAllSends(s, id, Peers(n, id), true);
      StaysLeaderElection(n, h, id, s, Perform(c, a));
    case Append(_, value) =>
      LeaderAppendStays(s, n, id, value);
      StaysLeaderElection(n, h, id, s, Perform(c, a));
    case Applied(_) => AppliedElection(n, h, id, s);
    case Return(_, _) => ReturnElection(n, h, id, s, Perform(c, a).server);
    case _ => CrashElection(c, h, a);
  }

  lemma ReturnElection(n: nat, h: History, id: nat, s: Server, s': Server)
    requires s'.role.Follower? && s'.term == s.term && s'.vote == s.vote
    ensures ElectionStep(n, h, id, s, Sends(s', []))
  {
  }

  /** A crash ends the role; at most the term of a message has landed, without a vote. */
  lemma CrashElection(c: Cluster, h: History, a: Action)
    requires Enabled(c, a)
    requires a.Crash? || a.CommitsThenCrash? || a.TermLandsThenCrash? || a.EntriesLandThenCrash?
    ensures ElectionStep(|c.servers|, h, Actor(a), c.servers[Actor(a)], Perform(c, a))
  {
  }

  lemma {:induction false} ElectionInvariant(n: nat, run: seq<Action>)
    requires 2 <= n
    ensures ElectionInv(Exec(n, run), Chronicle(n, run))
  {
    if run != [] {
      var before, a := run[..|run| - 1], run[|run| - 1];
      ElectionInvariant(n, before);
      var c, h := Exec(n, before), Chronicle(n, before);
      if Enabled(c, a) {
        PerformElection(c, h, a);
        ElectionKept(c, Exec(n, run), h, Chronicle(n, run), Actor(a), Perform(c, a));
      }
    }
  }
}
