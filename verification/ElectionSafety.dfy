/** Section 5.2 and 5.4.1: votes, elections, and at most one leader in a term. */
module ElectionSafety {
  import opened Entries
  import opened Protocol
  import opened Cluster

  // ---------------------------------------------------------------- invariant

  ghost predicate BallotsOk(c: Cluster, h: History) {
    forall k :: k in h.ballots ==>
      k.0 < |c.servers| && k.1 <= c.servers[k.0].term
      && (k.1 == c.servers[k.0].term ==> c.servers[k.0].vote == Some(h.ballots[k].candidate))
  }

  ghost predicate VotesRecorded(c: Cluster, h: History) {
    forall v: nat :: v < |c.servers| && c.servers[v].vote.Some? ==> (v, c.servers[v].term) in h.ballots
  }

  ghost predicate CampaignsOk(c: Cluster, h: History) {
    forall k :: k in h.campaigns ==> k.0 < |c.servers| && 1 <= k.1 <= c.servers[k.0].term
  }

  /** Every ballot went to a candidate whose campaign log was up to date for the voter. */
  ghost predicate BallotLogsOk(h: History) {
    forall k :: k in h.ballots ==> BallotLogOk(h, k)
  }

  ghost predicate BallotLogOk(h: History, k: (nat, nat))
    requires k in h.ballots
  {
    var candidacy := (h.ballots[k].candidate, k.1);
    && candidacy in h.campaigns
    && !Outdated(h.ballots[k].log, LastTerm(h.campaigns[candidacy]), |h.campaigns[candidacy]|)
  }

  ghost predicate VotedFor(h: History, voter: nat, term: nat, candidate: nat) {
    (voter, term) in h.ballots && h.ballots[(voter, term)].candidate == candidate
  }

  ghost predicate CandidateOk(n: nat, h: History, v: nat, s: Server)
    requires s.role.Candidate?
  {
    && (v, s.term) in h.campaigns && h.campaigns[(v, s.term)] == s.log
    && s.vote == Some(v)
    && s.role.votesRequired > 0 && s.role.votesRequired + |s.role.votesReceived| == HalfOfPeers(n)
    && (forall u :: u in s.role.votesReceived ==> u < n && u != v && VotedFor(h, u, s.term, v))
    && !(s.term in h.elections && h.elections[s.term].leader == v)
  }

  ghost predicate RoleOk(n: nat, h: History, v: nat, s: Server) {
    && (s.role.Candidate? ==> CandidateOk(n, h, v, s))
    && (s.role.Leader? ==> s.term in h.elections && h.elections[s.term].leader == v)
  }

  ghost predicate RolesOk(c: Cluster, h: History) {
    forall v: nat :: v < |c.servers| ==> RoleOk(|c.servers|, h, v, c.servers[v])
  }

  ghost predicate ElectionOk(c: Cluster, h: History, t: nat)
    requires t in h.elections
  {
    var e := h.elections[t];
    && e.leader < |c.servers| && t <= c.servers[e.leader].term
    && |e.voters| > HalfOfPeers(|c.servers|)
    && (forall u :: u in e.voters ==> u < |c.servers| && VotedFor(h, u, t, e.leader))
    && (e.leader, t) in h.campaigns && h.campaigns[(e.leader, t)] == e.log
  }

  ghost predicate ElectionsOk(c: Cluster, h: History) {
    forall t :: t in h.elections ==> ElectionOk(c, h, t)
  }

  ghost predicate VoteMessageOk(n: nat, h: History, m: Message) {
    && m.src < n && m.dst < n && m.src != m.dst
    && (m.GrantVote? ==> VotedFor(h, m.src, m.term, m.dst))
    && (m.RequestVote? ==>
          (m.src, m.term) in h.campaigns
          && m.lastLogIndex == |h.campaigns[(m.src, m.term)]|
          && m.lastLogTerm == LastTerm(h.campaigns[(m.src, m.term)]))
  }

  ghost predicate VoteMessagesOk(c: Cluster, h: History) {
    forall m :: m in c.net ==> VoteMessageOk(|c.servers|, h, m)
  }

  ghost predicate ElectionInv(c: Cluster, h: History) {
    && BallotsOk(c, h) && VotesRecorded(c, h) && CampaignsOk(c, h) && BallotLogsOk(h)
    && RolesOk(c, h) && ElectionsOk(c, h) && VoteMessagesOk(c, h)
  }

  // ---------------------------------------------------------------- what an operation may do

  /** Enough servers other than the candidate voted for it in this term. */
  ghost predicate Won(n: nat, h: History, id: nat, term: nat) {
    |VotersFor(n, h.ballots, term, id) - {id}| >= HalfOfPeers(n)
  }

  ghost predicate TermStep(s: Server, s': Server) {
    && s.term <= s'.term
    && (s'.term == s.term && s.vote.Some? ==> s'.vote == s.vote)
  }

  ghost predicate VoteStep(h: History, id: nat, s: Server, s': Server) {
    s'.vote.Some? ==>
      || (s'.term == s.term && s'.vote == s.vote)
      || (s'.vote == Some(id) && s'.role.Candidate? && s'.term > s.term)
      || ((s'.vote.value, s'.term) in h.campaigns
          && !Outdated(s'.log, LastTerm(h.campaigns[(s'.vote.value, s'.term)]),
                       |h.campaigns[(s'.vote.value, s'.term)]|))
  }

  ghost predicate RoleStep(n: nat, h: History, id: nat, s: Server, s': Server) {
    && (s'.role.Candidate? ==>
          || (s'.term > s.term && s'.vote == Some(id) && s'.role.votesRequired == HalfOfPeers(n)
              && s'.role.votesReceived == {} && HalfOfPeers(n) > 0)
          || (s'.term == s.term && s'.log == s.log && s.role.Candidate? && CandidateOk(n, h, id, s')))
    && (s'.role.Leader? ==>
          s'.term == s.term
          && (s.role.Leader? || (s.role.Candidate? && s'.log == s.log && s'.vote == s.vote && Won(n, h, id, s.term))))
  }

  /** The messages are judged against the history after the operation. */
  ghost predicate ElectionStep(n: nat, h: History, id: nat, s: Server, o: Outcome) {
    && TermStep(s, o.server) && VoteStep(h, id, s, o.server) && RoleStep(n, h, id, s, o.server)
    && (forall m :: m in o.sent ==> VoteMessageOk(n, Record(h, n, id, o.server), m))
  }

  // ---------------------------------------------------------------- such operations keep the invariant

  ghost predicate Moved(c: Cluster, c': Cluster, h: History, h': History, id: nat, o: Outcome) {
    && id < |c.servers|
    && c' == Cluster(c.servers[id := o.server], c.net + (set m | m in o.sent))
    && h' == Record(h, |c.servers|, id, o.server)
  }

  lemma BallotsKept(c: Cluster, c': Cluster, h: History, h': History, id: nat, o: Outcome)
    requires Moved(c, c', h, h', id, o)
    requires BallotsOk(c, h) && VotesRecorded(c, h)
    requires TermStep(c.servers[id], o.server)
    ensures BallotsOk(c', h') && VotesRecorded(c', h')
  {
  }

  lemma CampaignsKept(c: Cluster, c': Cluster, h: History, h': History, id: nat, o: Outcome)
    requires Moved(c, c', h, h', id, o)
    requires CampaignsOk(c, h)
    requires TermStep(c.servers[id], o.server) && RoleStep(|c.servers|, h, id, c.servers[id], o.server)
    ensures CampaignsOk(c', h')
  {
  }

  lemma BallotLogsKept(c: Cluster, c': Cluster, h: History, h': History, id: nat, o: Outcome)
    requires Moved(c, c', h, h', id, o)
    requires BallotLogsOk(h) && CampaignsOk(c, h) && VotesRecorded(c, h)
    requires TermStep(c.servers[id], o.server) && VoteStep(h, id, c.servers[id], o.server)
    ensures BallotLogsOk(h')
  {
    forall k | k in h'.ballots
      ensures BallotLogOk(h', k)
    {
      if k in h.ballots {
        BallotLogStands(h, |c.servers|, id, o.server, k);
      } else {
        NewBallotLog(c, h, id, o);
      }
    }
  }

  lemma BallotLogStands(h: History, n: nat, id: nat, s: Server, k: (nat, nat))
    requires k in h.ballots && BallotLogOk(h, k)
    ensures k in Record(h, n, id, s).ballots && BallotLogOk(Record(h, n, id, s), k)
  {
  }

  lemma NewBallotLog(c: Cluster, h: History, id: nat, o: Outcome)
    requires id < |c.servers| && CampaignsOk(c, h) && VotesRecorded(c, h)
    requires o.server.vote.Some? && (id, o.server.term) !in h.ballots
    requires TermStep(c.servers[id], o.server) && VoteStep(h, id, c.servers[id], o.server)
    ensures BallotLogOk(Record(h, |c.servers|, id, o.server), (id, o.server.term))
  {
  }

  /** What was recorded before stays recorded. */
  lemma RecordGrows(h: History, n: nat, id: nat, s: Server, m: Message)
    ensures VoteMessageOk(n, h, m) ==> VoteMessageOk(n, Record(h, n, id, s), m)
    ensures forall u, t, v :: VotedFor(h, u, t, v) ==> VotedFor(Record(h, n, id, s), u, t, v)
  {
  }

  lemma VotersGrow(n: nat, h: History, h': History, id: nat, s: Server, term: nat, candidate: nat)
    requires h' == Record(h, n, id, s)
    ensures VotersFor(n, h.ballots, term, candidate) <= VotersFor(n, h'.ballots, term, candidate)
  {
  }

  lemma SubsetSize<T>(a: set<T>, b: set<T>)
    requires a <= b
    ensures |a| <= |b|
  {
    if a != {} {
      var x :| x in a;
      SubsetSize(a - {x}, b - {x});
    }
  }

  /** Two sets of more than half of the servers share a server. */
  lemma QuorumsMeet(n: nat, a: set<nat>, b: set<nat>) returns (v: nat)
    requires a <= Ids(n) && b <= Ids(n)
    requires |a| > HalfOfPeers(n) && |b| > HalfOfPeers(n)
    ensures v in a && v in b
  {
    if a * b == {} {
      assert |a + b| == |a| + |b|;
      SubsetSize(a + b, Ids(n));
    }
    v :| v in a * b;
  }

  lemma VoteMessagesKept(c: Cluster, c': Cluster, h: History, h': History, id: nat, o: Outcome)
    requires Moved(c, c', h, h', id, o)
    requires VoteMessagesOk(c, h)
    requires ElectionStep(|c.servers|, h, id, c.servers[id], o)
    ensures VoteMessagesOk(c', h')
  {
    forall m | m in c'.net
      ensures VoteMessageOk(|c'.servers|, h', m)
    {
      RecordGrows(h, |c.servers|, id, o.server, m);
    }
  }

  /** The winner of an election was not elected in that term before, and neither was anyone else. */
  lemma WonOnce(c: Cluster, h: History, id: nat)
    requires id < |c.servers| && c.servers[id].role.Candidate?
    requires RolesOk(c, h) && ElectionsOk(c, h)
    requires BallotsOk(c, h) && VotesRecorded(c, h)
    requires Won(|c.servers|, h, id, c.servers[id].term)
    ensures |VotersFor(|c.servers|, h.ballots, c.servers[id].term, id)| > HalfOfPeers(|c.servers|)
    ensures c.servers[id].term !in h.elections
  {
    var n, term := |c.servers|, c.servers[id].term;
    var voters := VotersFor(n, h.ballots, term, id);
    assert id in voters;
    assert voters == (voters - {id}) + {id};
    if term in h.elections {
      assert ElectionOk(c, h, term);
      var e := h.elections[term];
      assert e.voters <= Ids(n);
      var v := QuorumsMeet(n, voters, e.voters);
    }
  }

  lemma RolesKept(c: Cluster, c': Cluster, h: History, h': History, id: nat, o: Outcome)
    requires Moved(c, c', h, h', id, o)
    requires RolesOk(c, h) && RoleOk(|c.servers|, h', id, o.server)
    ensures RolesOk(c', h')
  {
    forall v: nat | v < |c'.servers|
      ensures RoleOk(|c'.servers|, h', v, c'.servers[v])
    {
      if v != id {
        RoleUndisturbed(|c.servers|, h, id, o.server, v, c.servers[v]);
      }
    }
  }

  lemma RoleUndisturbed(n: nat, h: History, id: nat, s': Server, v: nat, s: Server)
    requires v != id && RoleOk(n, h, v, s)
    ensures RoleOk(n, Record(h, n, id, s'), v, s)
  {
  }

  lemma RoleSettles(c: Cluster, h: History, id: nat, o: Outcome)
    requires id < |c.servers| && ElectionInv(c, h)
    requires ElectionStep(|c.servers|, h, id, c.servers[id], o)
    ensures RoleOk(|c.servers|, Record(h, |c.servers|, id, o.server), id, o.server)
  {
    assert RoleOk(|c.servers|, h, id, c.servers[id]);
    if o.server.role.Candidate? {
      CandidateSettles(c, h, id, o);
    } else if o.server.role.Leader? && c.servers[id].role.Candidate? {
      WonOnce(c, h, id);
    }
  }

  lemma CandidateSettles(c: Cluster, h: History, id: nat, o: Outcome)
    requires id < |c.servers| && o.server.role.Candidate?
    requires CampaignsOk(c, h) && ElectionsOk(c, h)
    requires TermStep(c.servers[id], o.server) && RoleStep(|c.servers|, h, id, c.servers[id], o.server)
    ensures CandidateOk(|c.servers|, Record(h, |c.servers|, id, o.server), id, o.server)
  {
    var t := o.server.term;
    if t in h.elections {
      assert ElectionOk(c, h, t);
    }
  }

  lemma ElectionsKept(c: Cluster, c': Cluster, h: History, h': History, id: nat, o: Outcome)
    requires Moved(c, c', h, h', id, o)
    requires ElectionsOk(c, h) && TermStep(c.servers[id], o.server)
    requires o.server.role.Leader? && o.server.term !in h.elections ==> ElectionOk(c', h', o.server.term)
    ensures ElectionsOk(c', h')
  {
    forall t | t in h'.elections
      ensures ElectionOk(c', h', t)
    {
      if t in h.elections {
        ElectionStands(c, c', h, h', id, o, t);
      }
    }
  }

  lemma ElectionStands(c: Cluster, c': Cluster, h: History, h': History, id: nat, o: Outcome, t: nat)
    requires Moved(c, c', h, h', id, o) && TermStep(c.servers[id], o.server)
    requires t in h.elections && ElectionOk(c, h, t)
    ensures t in h'.elections && ElectionOk(c', h', t)
  {
    assert h'.elections[t] == h.elections[t];
  }

  lemma NewElection(c: Cluster, h: History, id: nat, o: Outcome)
    requires id < |c.servers| && o.server.role.Leader? && o.server.term !in h.elections
    requires ElectionInv(c, h)
    requires ElectionStep(|c.servers|, h, id, c.servers[id], o)
    ensures
      var c' := Cluster(c.servers[id := o.server], c.net + (set m | m in o.sent));
      ElectionOk(c', Record(h, |c.servers|, id, o.server), o.server.term)
  {
    var n, s, s' := |c.servers|, c.servers[id], o.server;
    assert RoleOk(n, h, id, s);
    WonOnce(c, h, id);
    ElectionRecorded(n, h, id, s');
  }

  lemma ElectionRecorded(n: nat, h: History, id: nat, s': Server)
    requires s'.role.Leader? && s'.term !in h.elections
    requires |VotersFor(n, h.ballots, s'.term, id)| > HalfOfPeers(n)
    ensures
      var e := Record(h, n, id, s').elections[s'.term];
      && e.leader == id && e.log == s'.log && |e.voters| > HalfOfPeers(n)
      && forall u :: u in e.voters ==> u < n && VotedFor(Record(h, n, id, s'), u, s'.term, id)
  {
    var h' := Record(h, n, id, s');
    VotersGrow(n, h, h', id, s', s'.term, id);
    SubsetSize(VotersFor(n, h.ballots, s'.term, id), VotersFor(n, h'.ballots, s'.term, id));
  }

  lemma ElectionKept(c: Cluster, c': Cluster, h: History, h': History, id: nat, o: Outcome)
    requires Moved(c, c', h, h', id, o)
    requires ElectionInv(c, h)
    requires ElectionStep(|c.servers|, h, id, c.servers[id], o)
    ensures ElectionInv(c', h')
  {
    BallotsKept(c, c', h, h', id, o);
    CampaignsKept(c, c', h, h', id, o);
    BallotLogsKept(c, c', h, h', id, o);
    RoleSettles(c, h, id, o);
    RolesKept(c, c', h, h', id, o);
    if o.server.role.Leader? && o.server.term !in h.elections {
      NewElection(c, h, id, o);
    }
    ElectionsKept(c, c', h, h', id, o);
    VoteMessagesKept(c, c', h, h', id, o);
  }
}
