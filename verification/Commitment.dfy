/** What a commit certifies: a quorum acknowledged the entry to the leader that committed it. */
module Commitment {
  import opened Entries
  import opened Protocol
  import opened Cluster
  import opened ElectionSafety
  import opened Operations
  import opened LogMatching
  import opened LogOperations
  import opened Replication

  // ---------------------------------------------------------------- the runs in question

  /** The branch in which an accept changes anything. */
  predicate Counts(s: Server, m: Message)
    requires s.role.Leader? && m.AcceptEntries?
  {
    m.src in s.role.progress && m.ackedIndex >= s.role.progress[m.src].next
  }

  /** A leader counts this action's accept. */
  predicate CountsAck(c: Cluster, a: Action) {
    && Enabled(c, a) && a.Deliver? && a.m.AcceptEntries? && c.servers[Actor(a)].role.Leader?
    && a.m.term <= c.servers[Actor(a)].term && Counts(c.servers[Actor(a)], a.m)
  }

  /** An accept that a leader counts is, in peer and index, one that was sent in the leader's term. */
  ghost predicate AckIsBacked(c: Cluster, a: Action) {
    CountsAck(c, a) ==> AcceptEntries(a.m.src, Actor(a), c.servers[Actor(a)].term, a.m.ackedIndex) in c.net
  }

  ghost predicate BackedAcks(n: nat, run: seq<Action>) {
    forall k :: 0 <= k < |run| ==> AckIsBacked(Exec(n, run[..k]), run[k])
  }

  lemma BackedAcksPrefix(n: nat, run: seq<Action>)
    requires BackedAcks(n, run) && run != []
    ensures BackedAcks(n, run[..|run| - 1]) && AckIsBacked(Exec(n, run[..|run| - 1]), run[|run| - 1])
  {
    var before := run[..|run| - 1];
    forall k | 0 <= k < |before|
      ensures AckIsBacked(Exec(n, before[..k]), before[k])
    {
      assert before[..k] == run[..k];
    }
  }

  /** In particular, one that carries the leader's current term. */
  ghost predicate CurrentAcks(n: nat, run: seq<Action>) {
    forall k :: 0 <= k < |run| && CountsAck(Exec(n, run[..k]), run[k]) ==>
      run[k].m.term == Exec(n, run[..k]).servers[Actor(run[k])].term
  }

  lemma CurrentAcksAreBacked(n: nat, run: seq<Action>)
    requires CurrentAcks(n, run)
    ensures BackedAcks(n, run)
  {
  }

  // ---------------------------------------------------------------- invariant

  ghost predicate AckedTo(net: set<Message>, u: nat, leader: nat, t: nat, i: nat) {
    exists k: nat :: k >= i && AcceptEntries(u, leader, t, k) in net
  }

  /** Enough peers of the leader acknowledged everything up to i. */
  ghost predicate Certificate(n: nat, net: set<Message>, leader: nat, t: nat, i: nat, peers: set<nat>) {
    |peers| >= HalfOfPeers(n) && forall u :: u in peers ==> u < n && u != leader && AckedTo(net, u, leader, t, i)
  }

  ghost predicate Certified(n: nat, net: set<Message>, leader: nat, t: nat, i: nat) {
    exists peers :: Certificate(n, net, leader, t, i, peers)
  }

  /** Behind every matchIndex is an acknowledgement that was sent to this leader in its term. */
  ghost predicate Backed(net: set<Message>, id: nat, s: Server)
    requires s.role.Leader?
  {
    forall p :: p in s.role.progress && s.role.progress[p].matched > 0 ==>
      AcceptEntries(p, id, s.term, s.role.progress[p].matched) in net
  }

  ghost predicate AllBacked(c: Cluster) {
    forall v: nat :: v < |c.servers| && c.servers[v].role.Leader? ==> Backed(c.net, v, c.servers[v])
  }

  /** The leader's bookkeeping: its counters, and an acknowledgement behind every matchIndex. */
  ghost predicate Bookkeeping(n: nat, net: set<Message>, id: nat, initial: nat, s: Server)
    requires s.role.Leader?
  {
    && LeaderInv(HalfOfPeers(n), initial, s) && WithinLog(s) && Backed(net, id, s)
    && (forall p :: p in s.role.progress ==> p < n && p != id)
  }

  ghost predicate BookkeepingOk(c: Cluster, h: History) {
    forall v: nat :: v < |c.servers| && c.servers[v].role.Leader? && c.servers[v].term in h.elections ==>
      Bookkeeping(|c.servers|, c.net, v, |h.elections[c.servers[v].term].log|, c.servers[v])
  }

  ghost predicate CommitsCertified(c: Cluster, h: History) {
    forall t :: t in h.commits && t in h.elections && h.commits[t] > 0 ==>
      Certified(|c.servers|, c.net, h.elections[t].leader, t, h.commits[t])
  }

  // ---------------------------------------------------------------- what an operation does

  ghost predicate BookkeepingStep(n: nat, net: set<Message>, h: History, id: nat, s: Server, s': Server) {
    s'.role.Leader? ==>
      Bookkeeping(n, net, id, if s.role.Leader? && s.term in h.elections then |h.elections[s.term].log| else |s'.log|,
                  s')
  }

  lemma BecomeLeaderBooks(n: nat, net: set<Message>, h: History, id: nat, s: Server)
    requires s.role.Candidate?
    ensures BookkeepingStep(n, net, h, id, s, BecomeLeader(s, n, id).server)
  {
    var progress := map p | p in Peers(n, id) :: Progress(|s.log| + 1, 0);
    UpdateAllSends(s.(role := Leader(0, progress, [])), id, Peers(n, id), true);
    StartAgrees(HalfOfPeers(n), BecomeLeader(s, n, id).server);
  }

  lemma AppendBooks(n: nat, net: set<Message>, h: History, id: nat, s: Server, value: Payload)
    requires s.role.Leader? && s.term in h.elections && 2 <= n
    requires Bookkeeping(n, net, id, |h.elections[s.term].log|, s)
    ensures BookkeepingStep(n, net, h, id, s, LeaderAppend(s, n, id, value).server)
  {
    var entry := Entry(|s.log| + 1, s.term, value);
    var role := s.role.(pending := s.role.pending + [Pending(entry.index, HalfOfPeers(n))]);
    var s' := s.(log := s.log + [entry], stream := s.stream + [entry], role := role);
    UpdateAllSends(s', id, Peers(n, id), false);
    AppendedBooks(n, net, id, |h.elections[s.term].log|, s, s');
  }

  lemma AppendedBooks(n: nat, net: set<Message>, id: nat, initial: nat, s: Server, s': Server)
    requires s.role.Leader? && 2 <= n && Bookkeeping(n, net, id, initial, s)
    requires s'.role.Leader? && |s'.log| == |s.log| + 1 && s'.term == s.term
    requires s'.role == s.role.(pending := s.role.pending + [Pending(|s.log| + 1, HalfOfPeers(n))])
    ensures Bookkeeping(n, net, id, initial, s')
  {
    NoneBeyondLog(s);
    AppendAgrees(HalfOfPeers(n), initial, s, s');
  }

  lemma RecordAcceptBooks(n: nat, net: set<Message>, id: nat, initial: nat, s: Server, m: Message)
    requires s.role.Leader? && Bookkeeping(n, net, id, initial, s)
    requires m.AcceptEntries? && Counts(s, m) && m.ackedIndex <= |s.log|
    requires AcceptEntries(m.src, id, s.term, m.ackedIndex) in net
    ensures Bookkeeping(n, net, id, initial, RecordAccept(s, m.src, m.ackedIndex))
  {
    RecordAcceptKeeps(s, m.src, m.ackedIndex);
    AcceptAgrees(HalfOfPeers(n), initial, s, m.src, m.ackedIndex);
  }

  lemma RejectBooks(n: nat, net: set<Message>, id: nat, initial: nat, s: Server, peer: nat, conflict: nat)
    requires s.role.Leader? && Bookkeeping(n, net, id, initial, s) && peer in s.role.progress
    requires s.role.progress[peer].matched < conflict < s.role.progress[peer].next
    ensures Bookkeeping(n, net, id, initial, SetProgress(s, peer, s.role.progress[peer].(next := conflict)))
  {
    RejectAgrees(HalfOfPeers(n), initial, s, peer, conflict);
  }

  lemma LeaderRejectBooks(n: nat, net: set<Message>, id: nat, initial: nat, s: Server, m: Message)
    requires s.role.Leader? && m.RejectEntries? && Bookkeeping(n, net, id, initial, s)
    ensures
      var s' := LeaderRejectEntries(s, id, m).server;
      s'.role.Leader? && Bookkeeping(n, net, id, initial, s')
  {
    if m.src in s.role.progress && m.conflictingIndex.Some? {
      var p, conflict := s.role.progress[m.src], m.conflictingIndex.value;
      UpdateAllSends(SetProgress(s, m.src, p.(next := conflict)), id, [m.src], true);
      if p.matched < conflict < p.next {
        RejectBooks(n, net, id, initial, s, m.src, conflict);
      }
    }
  }

  lemma LeaderAcceptBooks(n: nat, net: set<Message>, id: nat, initial: nat, s: Server, m: Message)
    requires s.role.Leader? && Bookkeeping(n, net, id, initial, s)
    requires m.AcceptEntries?
    requires Counts(s, m) ==> AcceptEntries(m.src, id, s.term, m.ackedIndex) in net && m.ackedIndex <= |s.log|
    ensures
      var s' := LeaderAcceptEntries(s, id, m).server;
      s'.role.Leader? && Bookkeeping(n, net, id, initial, s')
  {
    if m.src in s.role.progress {
      if Counts(s, m) {
        RecordAcceptBooks(n, net, id, initial, s, m);
      }
      UpdateAllSends(RecordAccept(s, m.src, m.ackedIndex), id, [m.src], false);
    }
  }

  lemma LeaderReceiveBooks(n: nat, net: set<Message>, h: History, id: nat, s: Server, m: Message)
    requires s.role.Leader? && s.term in h.elections && m.term <= s.term
    requires Bookkeeping(n, net, id, |h.elections[s.term].log|, s)
    requires m.AcceptEntries? && Counts(s, m) ==>
               AcceptEntries(m.src, id, s.term, m.ackedIndex) in net && m.ackedIndex <= |s.log|
    ensures BookkeepingStep(n, net, h, id, s, LeaderReceive(s, n, id, m).server)
  {
    var initial := |h.elections[s.term].log|;
    if m.RequestVote? {
      UpdateAllSends(s, id, [m.src], true);
    } else if m.RejectEntries? {
      LeaderRejectBooks(n, net, id, initial, s, m);
    } else if m.AcceptEntries? {
      LeaderAcceptBooks(n, net, id, initial, s, m);
    }
  }

  lemma CandidateReceiveBooks(n: nat, net: set<Message>, h: History, id: nat, s: Server, m: Message)
    requires s.role.Candidate?
    ensures BookkeepingStep(n, net, h, id, s, CandidateReceive(s, n, id, m).server)
  {
    BecomeLeaderBooks(n, net, h, id, s);
  }

  /** What is known of an acknowledgement that was sent in the term of this leader. */
  lemma AckWithinLog(h: History, s: Server, m: Message)
    requires s.role.Leader? && LeaderOk(h, s)
    requires LogMessageOk(h, m) && m.AcceptEntries? && m.term == s.term
    ensures m.ackedIndex <= |s.log|
  {
  }

  lemma PerformBooks(c: Cluster, h: History, a: Action)
    requires 2 <= |c.servers| && Enabled(c, a) && AckIsBacked(c, a)
    requires ElectionInv(c, h) && LogInv(c, h) && BookkeepingOk(c, h)
    ensures BookkeepingStep(|c.servers|, c.net, h, Actor(a), c.servers[Actor(a)], Perform(c, a).server)
  {
    var n, id, s := |c.servers|, Actor(a), c.servers[Actor(a)];
    if s.role.Candidate? && a.Deliver? {
      CandidatePerformBooks(c, h, a);
    } else if !s.role.Leader? {
      NoNewLeader(c, a);
    } else {
      LeaderIsElected(c, h, id);
      if CountsAck(c, a) {
        AckWithinLog(h, s, AcceptEntries(a.m.src, id, s.term, a.m.ackedIndex));
      }
      LeaderPerformBooks(c, h, a);
    }
  }

  lemma CandidatePerformBooks(c: Cluster, h: History, a: Action)
    requires Enabled(c, a) && a.Deliver? && c.servers[Actor(a)].role.Candidate?
    ensures BookkeepingStep(|c.servers|, c.net, h, Actor(a), c.servers[Actor(a)], Perform(c, a).server)
  {
    CandidateReceiveBooks(|c.servers|, c.net, h, Actor(a), c.servers[Actor(a)], Shorten(a.m, a.take));
  }

  /** Only a candidate that receives a message becomes leader. */
  lemma NoNewLeader(c: Cluster, a: Action)
    requires Enabled(c, a) && !c.servers[Actor(a)].role.Leader?
    requires c.servers[Actor(a)].role.Candidate? ==> !a.Deliver?
    ensures !Perform(c, a).server.role.Leader?
  {
  }

  lemma LeaderPerformBooks(c: Cluster, h: History, a: Action)
    requires 2 <= |c.servers| && Enabled(c, a) && AckIsBacked(c, a)
    requires c.servers[Actor(a)].role.Leader? && c.servers[Actor(a)].term in h.elections && BookkeepingOk(c, h)
    requires CountsAck(c, a) ==> a.m.ackedIndex <= |c.servers[Actor(a)].log|
    ensures BookkeepingStep(|c.servers|, c.net, h, Actor(a), c.servers[Actor(a)], Perform(c, a).server)
  {
    var n, id, s := |c.servers|, Actor(a), c.servers[Actor(a)];
    match a
    case Append(_, value) => AppendBooks(n, c.net, h, id, s, value);
    case Heartbeat(_) => UpdateAllSends(s, id, Peers(n, id), true);
    case Deliver(m, take) =>
      if m.term <= s.term {
        LeaderReceiveBooks(n, c.net, h, id, s, Shorten(m, take));
      }
    case _ =>
  }

  // ---------------------------------------------------------------- the invariant is kept

  lemma BookkeepingGrows(n: nat, net: set<Message>, net': set<Message>, id: nat, initial: nat, s: Server)
    requires s.role.Leader? && net <= net' && Bookkeeping(n, net, id, initial, s)
    ensures Bookkeeping(n, net', id, initial, s)
  {
  }

  lemma CertifiedGrows(n: nat, net: set<Message>, net': set<Message>, leader: nat, t: nat, i: nat)
    requires net <= net' && Certified(n, net, leader, t, i)
    ensures Certified(n, net', leader, t, i)
  {
    var peers :| Certificate(n, net, leader, t, i, peers);
    assert Certificate(n, net', leader, t, i, peers);
  }

  /** A committed index has its certificate in the leader's own bookkeeping. */
  lemma CommitIndexCertified(n: nat, net: set<Message>, id: nat, initial: nat, s: Server)
    requires s.role.Leader? && Bookkeeping(n, net, id, initial, s) && s.role.commitIndex > 0
    ensures Certified(n, net, id, s.term, s.role.commitIndex)
  {
    var peers := Holders(s.role.progress, s.role.commitIndex);
    assert Certificate(n, net, id, s.term, s.role.commitIndex, peers);
  }

  lemma BookkeepingKept(c: Cluster, c': Cluster, h: History, h': History, id: nat, o: Outcome)
    requires Moved(c, c', h, h', id, o)
    requires BookkeepingOk(c, h) && RolesOk(c, h)
    requires LeaderLogStep(h, c.servers[id], o.server)
    requires BookkeepingStep(|c.servers|, c.net, h, id, c.servers[id], o.server)
    ensures BookkeepingOk(c', h')
  {
    forall v: nat | v < |c'.servers| && c'.servers[v].role.Leader? && c'.servers[v].term in h'.elections
      ensures Bookkeeping(|c'.servers|, c'.net, v, |h'.elections[c'.servers[v].term].log|, c'.servers[v])
    {
      if v == id {
        assert RoleOk(|c.servers|, h, id, c.servers[id]);
        BookkeepingGrows(|c.servers|, c.net, c'.net, v, |h'.elections[o.server.term].log|, o.server);
      } else {
        assert RoleOk(|c.servers|, h, v, c.servers[v]);
        BookkeepingGrows(|c.servers|, c.net, c'.net, v, |h.elections[c.servers[v].term].log|, c.servers[v]);
      }
    }
  }

  lemma CommitsKept(c: Cluster, c': Cluster, h: History, h': History, id: nat, o: Outcome)
    requires Moved(c, c', h, h', id, o)
    requires CommitsCertified(c, h) && LeaderLogsOk(h)
    requires o.server.role.Leader? && o.server.role.commitIndex > 0 && o.server.term in h'.elections ==>
               h'.elections[o.server.term].leader == id
               && Certified(|c.servers|, c.net, id, o.server.term, o.server.role.commitIndex)
    ensures CommitsCertified(c', h')
  {
    forall t | t in h'.commits && t in h'.elections && h'.commits[t] > 0
      ensures Certified(|c'.servers|, c'.net, h'.elections[t].leader, t, h'.commits[t])
    {
      CertifiedGrows(|c.servers|, c.net, c'.net, h'.elections[t].leader, t, h'.commits[t]);
    }
  }

  ghost predicate CommitInv(c: Cluster, h: History) {
    BookkeepingOk(c, h) && CommitsCertified(c, h) && h.commits.Keys == h.elections.Keys
  }

  lemma CommitKept(c: Cluster, c': Cluster, h: History, h': History, id: nat, o: Outcome)
    requires Moved(c, c', h, h', id, o)
    requires RolesOk(c, h) && LeaderLogsOk(h) && CommitInv(c, h)
    requires LeaderLogStep(h, c.servers[id], o.server)
    requires BookkeepingStep(|c.servers|, c.net, h, id, c.servers[id], o.server)
    requires RoleOk(|c.servers|, h', id, o.server)
    ensures CommitInv(c', h')
  {
    var n, s, s' := |c.servers|, c.servers[id], o.server;
    BookkeepingKept(c, c', h, h', id, o);
    if s'.role.Leader? && s'.role.commitIndex > 0 {
      var initial := if s.role.Leader? && s.term in h.elections then |h.elections[s.term].log| else |s'.log|;
      CommitIndexCertified(n, c.net, id, initial, s');
    }
    CommitsKept(c, c', h, h', id, o);
  }

  lemma {:induction false} CommitInvariant(n: nat, run: seq<Action>)
    requires 2 <= n && BackedAcks(n, run)
    ensures CommitInv(Exec(n, run), Chronicle(n, run))
  {
    if run != [] {
      var before, a := run[..|run| - 1], run[|run| - 1];
      BackedAcksPrefix(n, run);
      CommitInvariant(n, before);
      LogInvariant(n, before);
      var c, h := Exec(n, before), Chronicle(n, before);
      if Enabled(c, a) {
        PerformLog(c, h, a);
        PerformElection(c, h, a);
        PerformBooks(c, h, a);
        RoleSettles(c, h, Actor(a), Perform(c, a));
        CommitKept(c, Exec(n, run), h, Chronicle(n, run), Actor(a), Perform(c, a));
      }
    }
  }

  // ---------------------------------------------------------------- exactly these runs

  /** Handling an accept keeps every matchIndex backed if and only if it is not counted or is itself backed. */
  lemma AcceptBackedExactly(net: set<Message>, id: nat, s: Server, m: Message)
    requires s.role.Leader? && m.AcceptEntries? && Backed(net, id, s)
    requires forall p :: p in s.role.progress ==> s.role.progress[p].next >= 1
    ensures
      var s' := LeaderAcceptEntries(s, id, m).server;
      && s'.role.Leader?
      && (Backed(net, id, s') <==> (Counts(s, m) ==> AcceptEntries(m.src, id, s.term, m.ackedIndex) in net))
  {
    if m.src in s.role.progress {
      RecordAcceptKeeps(s, m.src, m.ackedIndex);
      var s' := RecordAccept(s, m.src, m.ackedIndex);
      UpdateAllSends(s', id, [m.src], false);
      if Counts(s, m) {
        assert s'.role.progress[m.src] == Progress(m.ackedIndex + 1, m.ackedIndex);
      }
    }
  }

  /** The leader goes on after an accept: it sends entries at most, and never throws. */
  lemma AcceptGoesOn(s: Server, id: nat, m: Message)
    requires s.role.Leader? && m.AcceptEntries? && Counts(s, m)
    ensures
      var o := LeaderAcceptEntries(s, id, m);
      !o.thrown && o.server.role.Leader? && o.server.term == s.term && forall x :: x in o.sent ==> x.AppendEntries?
  {
    RecordAcceptKeeps(s, m.src, m.ackedIndex);
    UpdateAllSends(RecordAccept(s, m.src, m.ackedIndex), id, [m.src], false);
    assert [m.src][1..] == [];
  }

  lemma UnbackedShows(n: nat, run: seq<Action>, k: nat)
    requires 2 <= n && k < |run| && BackedAcks(n, run[..k]) && !AckIsBacked(Exec(n, run[..k]), run[k])
    ensures !AllBacked(Exec(n, run[..k + 1]))
  {
    var c, a := Exec(n, run[..k]), run[k];
    var id, s := Actor(a), c.servers[Actor(a)];
    LeaderIsBacked(n, run[..k], id);
    AcceptBackedExactly(c.net, id, s, a.m);
    AcceptGoesOn(s, id, a.m);
    assert run[..k + 1][..k] == run[..k];
    assert Perform(c, a) == LeaderAcceptEntries(s, id, a.m);
    UnbackedStays(c, a);
  }

  lemma UnbackedStays(c: Cluster, a: Action)
    requires Enabled(c, a) && !Perform(c, a).thrown && Perform(c, a).server.role.Leader?
    requires !Backed(c.net, Actor(a), Perform(c, a).server)
    requires forall x :: x in Perform(c, a).sent ==> x.AppendEntries?
    ensures !AllBacked(Next(c, a))
  {
    var id, s' := Actor(a), Perform(c, a).server;
    var p :| p in s'.role.progress && s'.role.progress[p].matched > 0
             && AcceptEntries(p, id, s'.term, s'.role.progress[p].matched) !in c.net;
    assert AcceptEntries(p, id, s'.term, s'.role.progress[p].matched) !in Next(c, a).net;
    assert Next(c, a).servers[id] == s';
  }

  lemma LeaderIsBacked(n: nat, run: seq<Action>, v: nat)
    requires 2 <= n && BackedAcks(n, run) && v < n && Exec(n, run).servers[v].role.Leader?
    ensures
      var c := Exec(n, run);
      && Backed(c.net, v, c.servers[v])
      && forall p :: p in c.servers[v].role.progress ==> c.servers[v].role.progress[p].next >= 1
  {
    var c, h := Exec(n, run), Chronicle(n, run);
    CommitInvariant(n, run);
    LogInvariant(n, run);
    assert RoleOk(n, h, v, c.servers[v]);
    assert Bookkeeping(n, c.net, v, |h.elections[c.servers[v].term].log|, c.servers[v]);
  }

  lemma BackedThroughout(n: nat, run: seq<Action>, p: nat)
    requires 2 <= n && p <= |run| && BackedAcks(n, run)
    ensures AllBacked(Exec(n, run[..p]))
  {
    forall k | 0 <= k < p
      ensures AckIsBacked(Exec(n, run[..p][..k]), run[..p][k])
    {
      assert run[..p][..k] == run[..k];
    }
    forall v: nat | v < n && Exec(n, run[..p]).servers[v].role.Leader?
      ensures Backed(Exec(n, run[..p]).net, v, Exec(n, run[..p]).servers[v])
    {
      LeaderIsBacked(n, run[..p], v);
    }
  }

  lemma {:induction false} FirstUnbacked(n: nat, run: seq<Action>) returns (k: nat)
    requires !BackedAcks(n, run)
    ensures k < |run| && BackedAcks(n, run[..k]) && !AckIsBacked(Exec(n, run[..k]), run[k])
  {
    k :| 0 <= k < |run| && !AckIsBacked(Exec(n, run[..k]), run[k]);
    if !BackedAcks(n, run[..k]) {
      var first := FirstUnbacked(n, run[..k]);
      assert run[..k][..first] == run[..first];
      k := first;
    }
  }

  /** Throughout a run every matchIndex is backed if and only if every accept that a leader counts is. */
  lemma BackedExactly(n: nat, run: seq<Action>)
    requires 2 <= n
    ensures BackedAcks(n, run) <==> forall p: nat :: p <= |run| ==> AllBacked(Exec(n, run[..p]))
  {
    if BackedAcks(n, run) {
      forall p: nat | p <= |run|
        ensures AllBacked(Exec(n, run[..p]))
      {
        BackedThroughout(n, run, p);
      }
    } else {
      var k := FirstUnbacked(n, run);
      UnbackedShows(n, run, k);
    }
  }
}
