/** Whether every entry is handed to the state machine once, in order: exactly when no commit comes again. */
module HandedOnce {
  import opened Entries
  import opened Protocol
  import opened Cluster
  import opened LogMatching
  import opened LogOperations
  import opened Effects

  /** What the state machine had applied when the server last came back. */
  function Base(n: nat, run: seq<Action>, v: nat): nat {
    if run == [] then 0
    else
      var before, a := run[..|run| - 1], run[|run| - 1];
      if Enabled(Exec(n, before), a) && a.Return? && a.id == v then a.lastApplied else Base(n, before, v)
  }

  /** Since then every index after the base was handed over, in order, without gaps and only once. */
  ghost predicate InOrder(base: nat, s: Server) {
    && s.lastQueued == base + |s.queued| && s.applying != Stalled
    && forall j :: 0 <= j < |s.queued| ==> s.queued[j].Some? && s.queued[j].value.index == base + 1 + j
  }

  // ---------------------------------------------------------------- one commit

  lemma RangeInOrder(base: nat, s: Server, s': Server, log: seq<Entry>, first: nat, last: nat)
    requires 1 <= first <= last <= |log| && Handed(s, s', log, first, last) && Indexed(log) && InOrder(base, s)
    ensures InOrder(base, s') <==> first == s.lastQueued + 1
  {
    if first == s.lastQueued + 1 {
      forall j | 0 <= j < |s'.queued|
        ensures s'.queued[j].Some? && s'.queued[j].value.index == base + 1 + j
      {
        if j < |s.queued| {
          assert s'.queued[j] == s.queued[j];
        }
      }
    }
  }

  lemma SameOrder(base: nat, s: Server, s': Server)
    requires NothingHanded(s, s')
    ensures InOrder(base, s) <==> InOrder(base, s')
  {
  }

  lemma FollowerOrder(base: nat, s: Server, s': Server, before: nat, leaderCommit: nat, prev: nat)
    requires Indexed(s.log) && prev <= |s.log| && InOrder(base, s)
    requires s'.role.Follower? && Committed(s, s', before, leaderCommit, prev)
    ensures InOrder(base, s') <==> !(leaderCommit > before && Min(leaderCommit, prev) <= s.lastQueued)
  {
    if leaderCommit <= before {
      SameOrder(base, s, s');
    } else if prev == 0 {
      assert s'.queued[|s.queued|] == None;
    } else {
      var i := s'.role.commitIndex;
      RangeInOrder(base, s, s', s.log, if s.lastQueued < i then s.lastQueued + 1 else i, i);
    }
  }

  lemma LeaderOrder(base: nat, s: Server, s': Server, k: nat)
    requires s.role.Leader? && Consecutive(s) && k <= |s.role.pending| && Indexed(s.log) && InOrder(base, s)
    requires FirstCommitted(s, s', k)
    ensures InOrder(base, s') <==> !(k > 0 && s.role.pending[0].index <= s.lastQueued)
  {
    if k == 0 {
      SameOrder(base, s, s');
    } else {
      var from, to := s.role.pending[0].index, s.role.pending[k - 1].index;
      RangeInOrder(base, s, s', s.log, if s.lastQueued < from then s.lastQueued + 1 else from, to);
    }
  }

  lemma {:induction false} CompletesSome(s: Server, peer: nat, acked: nat, k: nat)
    requires s.role.Leader? && peer in s.role.progress && k <= |s.role.pending|
    requires forall j :: 0 <= j < k ==> Remaining(s.role.pending[j], s.role.progress[peer].next, acked) == 0
    ensures exists k': nat :: Completes(s, peer, acked, k') && k <= k'
    decreases |s.role.pending| - k
  {
    if k < |s.role.pending| && Remaining(s.role.pending[k], s.role.progress[peer].next, acked) == 0 {
      CompletesSome(s, peer, acked, k + 1);
    } else {
      assert Completes(s, peer, acked, k);
    }
  }

  // ---------------------------------------------------------------- one action

  /** The message makes a server commit that is, or becomes, a follower, and not past what was last handed over. */
  predicate FollowerAgain(s: Server, m: Message) {
    && Accepts(s, m) && m.leaderCommit > (if s.role.Follower? then s.role.commitIndex else 0)
    && Min(m.leaderCommit, m.prevLogIndex) <= s.lastQueued
  }

  /** The accept is the last one that the leader's first pending entry requires, and that was handed over before. */
  predicate LeaderAgain(s: Server, m: Message) {
    && s.role.Leader? && m.AcceptEntries? && m.term <= s.term && m.src in s.role.progress
    && m.ackedIndex >= s.role.progress[m.src].next && s.role.pending != []
    && Remaining(s.role.pending[0], s.role.progress[m.src].next, m.ackedIndex) == 0
    && s.role.pending[0].index <= s.lastQueued
  }

  predicate CommitsAgain(c: Cluster, a: Action) {
    Enabled(c, a) &&
    var s := c.servers[Actor(a)];
    match a
    case Deliver(m, take) => FollowerAgain(s, m) || LeaderAgain(s, m)
    case CommitsThenCrash(m) => FollowerAgain(s, m)
    case TermLandsThenCrash(m) => s.role.Follower? && FollowerAgain(s, m)
    case EntriesLandThenCrash(m, _) => FollowerAgain(s, m)
    case _ => false
  }

  lemma AcceptOrder(base: nat, s: Server, n: nat, id: nat, m: Message)
    requires Accepts(s, m) && Indexed(s.log) && InOrder(base, s)
    ensures InOrder(base, Receive(s, n, id, m).server) <==> !FollowerAgain(s, m)
  {
    EntriesAccepted(s, n, id, m);
    FollowerOrder(base, s, Receive(s, n, id, m).server, if s.role.Follower? then s.role.commitIndex else 0,
                  m.leaderCommit, m.prevLogIndex);
  }

  lemma CrashOrder(base: nat, s: Server, m: Message)
    requires Accepts(s, m) && Indexed(s.log) && InOrder(base, s)
    ensures InOrder(base, HandsOver(TakesUp(s, m), m)) <==> !FollowerAgain(s, m)
  {
    AcceptOrder(base, s, 0, 0, m);
    AnyRoleFollows(s, 0, 0, m);
    SameOrder(base, Receive(s, 0, 0, m).server, HandsOver(TakesUp(s, m), m));
  }

  lemma AnswerOrder(base: nat, s: Server, n: nat, id: nat, m: Message)
    requires s.role.Leader? && m.AcceptEntries? && m.term <= s.term
    requires Consecutive(s) && Indexed(s.log) && InOrder(base, s)
    ensures InOrder(base, Receive(s, n, id, m).server) <==> !LeaderAgain(s, m)
  {
    var s' := Receive(s, n, id, m).server;
    if m.src in s.role.progress && m.ackedIndex >= s.role.progress[m.src].next {
      CompletesSome(s, m.src, m.ackedIndex, 0);
      var k: nat :| Completes(s, m.src, m.ackedIndex, k);
      AcceptHandled(s, n, id, m, k);
      LeaderOrder(base, s, s', k);
    } else if m.src in s.role.progress {
      UpdateSent(s, id, m.src, false);
    }
  }

  lemma NothingElseHanded(s: Server, n: nat, id: nat, m: Message)
    requires !s.role.Halted? && !Accepts(s, m) && !(s.role.Leader? && m.AcceptEntries? && m.term <= s.term)
    ensures NothingHanded(s, Receive(s, n, id, m).server)
  {
    if s.role.Candidate? && m.GrantVote? && m.term <= s.term {
      VoteCounted(s, n, id, m);
    } else if s.role.Leader? && m.term <= s.term {
      UpdateSent(s, id, m.src, true);
      if m.RejectEntries? {
        RejectionHandled(s, n, id, m);
      }
    }
  }

  lemma ReceiveOrder(base: nat, s: Server, n: nat, id: nat, m: Message)
    requires !s.role.Halted? && Indexed(s.log) && InOrder(base, s) && (s.role.Leader? ==> Consecutive(s))
    ensures InOrder(base, Receive(s, n, id, m).server) <==> !FollowerAgain(s, m) && !LeaderAgain(s, m)
  {
    if Accepts(s, m) {
      AcceptOrder(base, s, n, id, m);
    } else if s.role.Leader? && m.AcceptEntries? && m.term <= s.term {
      AnswerOrder(base, s, n, id, m);
    } else {
      NothingElseHanded(s, n, id, m);
      SameOrder(base, s, Receive(s, n, id, m).server);
    }
  }

  lemma PerformOrder(c: Cluster, a: Action, base: nat)
    requires Enabled(c, a) && !a.Return?
    requires
      var s := c.servers[Actor(a)];
      Indexed(s.log) && InOrder(base, s) && (s.role.Leader? ==> Consecutive(s))
    ensures InOrder(base, Perform(c, a).server) <==> !CommitsAgain(c, a)
  {
    var n, id, s, o := |c.servers|, Actor(a), c.servers[Actor(a)], Perform(c, a);
    match a
    case Deliver(m, take) =>
      ReceiveOrder(base, s, n, id, Shorten(m, take));
    case CommitsThenCrash(m) =>
      CrashOrder(base, s, m);
      SameOrder(base, HandsOver(TakesUp(s, m), m), o.server);
    case TermLandsThenCrash(m) =>
      if s.role.Follower? {
        CrashOrder(base, s, m);
        SameOrder(base, HandsOver(s, m), o.server);
      } else {
        SameOrder(base, s, o.server);
      }
    case EntriesLandThenCrash(m, _) =>
      CrashOrder(base, s, m);
      SameOrder(base, HandsOver(s, m), o.server);
    case Heartbeat(_) =>
      UpdatesSent(s, id, Peers(n, id), true, 0);
    case Append(_, value) =>
      UpdatesSent(Appended(s, n, value), id, Peers(n, id), false, 0);
      SameOrder(base, s, o.server);
    case _ =>
  }

  // ---------------------------------------------------------------- whole runs

  ghost predicate AllInOrder(n: nat, run: seq<Action>) {
    forall v: nat :: v < n ==> InOrder(Base(n, run, v), Exec(n, run).servers[v])
  }

  ghost predicate NeverAgain(n: nat, run: seq<Action>) {
    forall k :: 0 <= k < |run| ==> !CommitsAgain(Exec(n, run[..k]), run[k])
  }

  lemma StateFacts(n: nat, run: seq<Action>, v: nat)
    requires 2 <= n && v < n
    ensures
      var s := Exec(n, run).servers[v];
      Indexed(s.log) && (s.role.Leader? ==> Consecutive(s))
  {
    LogInvariant(n, run);
    ServerFacts(Chronicle(n, run), Exec(n, run), v);
  }

  lemma ServerFacts(h: History, c: Cluster, v: nat)
    requires LogsOk(c, h) && LeadersOk(c, h) && v < |c.servers|
    ensures Indexed(c.servers[v].log) && (c.servers[v].role.Leader? ==> Consecutive(c.servers[v]))
  {
    assert LogOk(h.leaderLogs, c.servers[v]);
    BeginsIndexed(c.servers[v].log, c.servers[v].stream);
    assert c.servers[v].role.Leader? ==> LeaderOk(h, c.servers[v]);
  }

  lemma BeginsIndexed(log: seq<Entry>, stream: seq<Entry>)
    requires log <= Replay(stream)
    ensures Indexed(log)
  {
    assert log == Replay(stream)[..|log|];
  }

  /** One action of a run: if everything was in order it still is if and only if nothing is committed again. */
  lemma StepInOrder(n: nat, run: seq<Action>, a: Action)
    requires 2 <= n && AllInOrder(n, run)
    ensures AllInOrder(n, run + [a]) <==> !CommitsAgain(Exec(n, run), a)
  {
    var c, all := Exec(n, run), run + [a];
    assert all[..|run|] == run && all[|run|] == a;
    if Enabled(c, a) {
      var v := Actor(a);
      StateFacts(n, run, v);
      assert InOrder(Base(n, run, v), c.servers[v]);
      if !a.Return? {
        PerformOrder(c, a, Base(n, run, v));
        assert Exec(n, all).servers[v] == Perform(c, a).server && Base(n, all, v) == Base(n, run, v);
      }
      forall u: nat | u < n && u != v
        ensures InOrder(Base(n, all, u), Exec(n, all).servers[u])
      {
        assert InOrder(Base(n, run, u), c.servers[u]);
      }
    }
  }

  lemma {:induction false} NeverAgainInOrder(n: nat, run: seq<Action>)
    requires 2 <= n && NeverAgain(n, run)
    ensures AllInOrder(n, run)
  {
    if run != [] {
      var before, a := run[..|run| - 1], run[|run| - 1];
      forall k | 0 <= k < |before|
        ensures !CommitsAgain(Exec(n, before[..k]), before[k])
      {
        assert before[..k] == run[..k];
      }
      NeverAgainInOrder(n, before);
      StepInOrder(n, before, a);
      assert before + [a] == run && run[..|before|] == before;
    }
  }

  /** Throughout a run every server hands every entry to its state machine once, in order, if and only if no
      commit ends at or below what the server had handed over before, which can be told before the message is
      handled. */
  lemma OnceExactly(n: nat, run: seq<Action>)
    requires 2 <= n
    ensures NeverAgain(n, run) <==> forall p: nat :: p <= |run| ==> AllInOrder(n, run[..p])
  {
    if NeverAgain(n, run) {
      forall p: nat | p <= |run|
        ensures AllInOrder(n, run[..p])
      {
        InOrderSoFar(n, run, p);
      }
    } else {
      var k: nat :| k < |run| && CommitsAgain(Exec(n, run[..k]), run[k]);
      if AllInOrder(n, run[..k]) {
        OutOfOrder(n, run, k);
      }
    }
  }

  lemma InOrderSoFar(n: nat, run: seq<Action>, p: nat)
    requires 2 <= n && NeverAgain(n, run) && p <= |run|
    ensures AllInOrder(n, run[..p])
  {
    forall k | 0 <= k < p
      ensures !CommitsAgain(Exec(n, run[..p][..k]), run[..p][k])
    {
      assert run[..p][..k] == run[..k];
    }
    NeverAgainInOrder(n, run[..p]);
  }

  lemma OutOfOrder(n: nat, run: seq<Action>, k: nat)
    requires 2 <= n && k < |run| && CommitsAgain(Exec(n, run[..k]), run[k]) && AllInOrder(n, run[..k])
    ensures !AllInOrder(n, run[..k + 1])
  {
    StepInOrder(n, run[..k], run[k]);
    assert run[..k + 1] == run[..k] + [run[k]];
  }
}
