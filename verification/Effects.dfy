/** What every operation does to the fields of a server, and what it sends, in so many words. */
module Effects {
  import opened Entries
  import opened Protocol
  import opened LogOperations
  import opened Terms
  import opened Replication

  // ---------------------------------------------------------------- handing entries to the applier

  /** The applier was handed the entries of the log from first to last, in order, and nothing else. It is idle
      afterwards only if it was before and there is no command among them. */
  ghost predicate Handed(s: Server, s': Server, log: seq<Entry>, first: nat, last: nat)
    requires 1 <= first <= last <= |log|
  {
    && s'.lastQueued == last
    && s.queued <= s'.queued && |s'.queued| == |s.queued| + (last - first + 1)
    && (forall j :: |s.queued| <= j < |s'.queued| ==> s'.queued[j] == Some(log[first - 1 + (j - |s.queued|)]))
    && (if s.applying == Idle && (forall k :: first - 1 <= k < last ==> log[k].value == Noop)
        then s'.applying == Idle else s'.applying == Busy)
  }

  ghost predicate NothingHanded(s: Server, s': Server) {
    s'.queued == s.queued && s'.lastQueued == s.lastQueued && s'.applying == s.applying
  }

  /** The applier was handed the missing entry at index 0: it stalls unless a call is pending. */
  ghost predicate MissingHanded(s: Server, s': Server) {
    && s'.queued == s.queued + [None] && s'.lastQueued == s.lastQueued
    && s'.applying == (if s.applying == Busy then Busy else Stalled)
  }

  lemma {:induction false} AfterAllIdle(applying: Applying, log: seq<Entry>, from: nat, to: nat)
    requires from < to <= |log|
    ensures if applying == Idle && (forall k :: from <= k < to ==> log[k].value == Noop)
            then AfterAll(applying, log, from, to) == Idle else AfterAll(applying, log, from, to) == Busy
  {
    if from < to - 1 {
      AfterAllIdle(applying, log, from, to - 1);
    } else {
      assert AfterAll(applying, log, from, to - 1) == applying;
    }
  }

  lemma CommitHands(s: Server, index: nat)
    requires 1 <= index <= |s.log|
    ensures
      var first := if s.lastQueued < index then s.lastQueued + 1 else index;
      var s' := CommitTo(s, index);
      && Handed(s, s', s.log, first, if s.applying == Stalled then first else index)
      && s' == s.(queued := s'.queued, lastQueued := s'.lastQueued, applying := s'.applying)
  {
    var first := if s.lastQueued < index then s.lastQueued + 1 else index;
    var last := if s.applying == Stalled then first else index;
    assert CommitTo(s, index) ==
           s.(queued := s.queued + Queueable(s.log[first - 1..last]), lastQueued := last,
              applying := AfterAll(s.applying, s.log, first - 1, last));
    SliceHanded(s, CommitTo(s, index), s.log, first, last);
  }

  lemma SliceHanded(s: Server, s': Server, log: seq<Entry>, first: nat, last: nat)
    requires 1 <= first <= last <= |log| && s'.lastQueued == last
    requires s'.queued == s.queued + Queueable(log[first - 1..last])
    requires s'.applying == AfterAll(s.applying, log, first - 1, last)
    ensures Handed(s, s', log, first, last)
  {
    AfterAllIdle(s.applying, log, first - 1, last);
    QueuedSlice(s.queued, log, first - 1, last);
  }

  lemma QueuedSlice(queued: seq<Option<Entry>>, log: seq<Entry>, from: nat, to: nat)
    requires from <= to <= |log|
    ensures
      var all := queued + Queueable(log[from..to]);
      && queued <= all && |all| == |queued| + (to - from)
      && forall j :: |queued| <= j < |all| ==> all[j] == Some(log[from + (j - |queued|)])
  {
  }

  // ---------------------------------------------------------------- entries for a follower

  /** Follower.js:170-173: the commit index is raised to the leader's, up to prevLogIndex; if it is, everything
      after the last entry handed over is handed over, or the entry at the commit index once more. */
  ghost predicate Committed(s: Server, s': Server, before: nat, leaderCommit: nat, prev: nat)
    requires s'.role.Follower? && prev <= |s.log|
  {
    var i := s'.role.commitIndex;
    if leaderCommit <= before then i == before && NothingHanded(s, s')
    else if prev == 0 then i == 0 && MissingHanded(s, s')
    else
      var first := if s.lastQueued < i then s.lastQueued + 1 else i;
      && 1 <= i && (i == leaderCommit <= prev || i == prev <= leaderCommit)
      && Handed(s, s', s.log, first, if s.applying == Stalled then first else i)
  }

  /** Follower.js:162-191: what any role does with entries that follow on its log. One that converts has
      committed nothing before. */
  lemma EntriesAccepted(s: Server, n: nat, id: nat, m: Message)
    requires m.AppendEntries? && !s.role.Halted? && (m.term > s.term || (m.term == s.term && !s.role.Leader?))
    requires m.prevLogIndex == 0 || (m.prevLogIndex <= |s.log| && s.log[m.prevLogIndex - 1].term == m.prevLogTerm)
    ensures
      var o, prev := Receive(s, n, id, m), m.prevLogIndex;
      var s' := o.server;
      && !o.thrown && o.sent == [AcceptEntries(id, m.src, m.term, prev + |m.entries|)]
      && s'.term == m.term && s'.vote == (if m.term > s.term then None else s.vote)
      && s'.log == s.log[..prev] + m.entries && s'.stream == s.stream + m.entries
      && s'.role.Follower?
      && Committed(s, s', if s.role.Follower? then s.role.commitIndex else 0, m.leaderCommit, prev)
  {
    AnyRoleFollows(s, n, id, m);
    FollowerAccepts(TakesUp(s, m), id, m);
    SameCommitted(TakesUp(s, m), s, Receive(s, n, id, m).server, m.leaderCommit, m.prevLogIndex);
  }

  lemma AnyRoleFollows(s: Server, n: nat, id: nat, m: Message)
    requires Accepts(s, m)
    ensures Receive(s, n, id, m) == FollowerAppendEntries(TakesUp(s, m), id, m)
  {
  }

  lemma SameCommitted(base: Server, s: Server, s': Server, leaderCommit: nat, prev: nat)
    requires base.log == s.log && NothingHanded(base, s) && base.role.Follower? && s'.role.Follower? && prev <= |s.log|
    requires Committed(base, s', base.role.commitIndex, leaderCommit, prev)
    ensures Committed(s, s', base.role.commitIndex, leaderCommit, prev)
  {
  }

  lemma FollowerAccepts(s: Server, id: nat, m: Message)
    requires s.role.Follower? && m.AppendEntries? && m.term >= s.term
    requires Matches(s.log, m.prevLogIndex, m.prevLogTerm)
    ensures
      var o, prev := FollowerAppendEntries(s, id, m), m.prevLogIndex;
      var s' := o.server;
      && !o.thrown && o.sent == [AcceptEntries(id, m.src, m.term, prev + |m.entries|)]
      && s'.term == m.term && s'.vote == (if m.term > s.term then None else s.vote)
      && s'.log == s.log[..prev] + m.entries && s'.stream == s.stream + m.entries
      && s'.role.Follower? && Committed(s, s', s.role.commitIndex, m.leaderCommit, prev)
  {
    AcceptHands(s, m);
  }

  lemma AcceptHands(s: Server, m: Message)
    requires s.role.Follower? && m.AppendEntries? && Matches(s.log, m.prevLogIndex, m.prevLogTerm)
    ensures Accept(s, m).role.Follower?
    ensures Committed(s, Accept(s, m), s.role.commitIndex, m.leaderCommit, m.prevLogIndex)
  {
    var cut := s.(log := s.log[..m.prevLogIndex]);
    var termed := if m.term > s.term then SetTerm(cut, m.term) else cut;
    var i := Min(m.leaderCommit, m.prevLogIndex);
    if m.leaderCommit > s.role.commitIndex && m.prevLogIndex > 0 {
      CommitHands(termed, i);
      HandedBelowCut(termed, CommitTo(termed, i), s, Accept(s, m), i);
    }
  }

  lemma HandedBelowCut(cut: Server, cut': Server, s: Server, s': Server, i: nat)
    requires 1 <= i <= |cut.log| && cut.log <= s.log && NothingHanded(s, cut) && NothingHanded(s', cut')
    requires
      var first := if cut.lastQueued < i then cut.lastQueued + 1 else i;
      Handed(cut, cut', cut.log, first, if cut.applying == Stalled then first else i)
    ensures
      var first := if s.lastQueued < i then s.lastQueued + 1 else i;
      Handed(s, s', s.log, first, if s.applying == Stalled then first else i)
  {
    assert forall k :: 0 <= k < i ==> cut.log[k] == s.log[k];
  }

  /** Follower.js:136-160: entries that do not follow on the log. A role that converts has adopted the term,
      but a follower has not, and answers with its own. The conflict is at prevLogIndex, or where the log ends. */
  lemma EntriesRejected(s: Server, n: nat, id: nat, m: Message)
    requires m.AppendEntries? && !s.role.Halted? && (m.term > s.term || (m.term == s.term && !s.role.Leader?))
    requires m.prevLogIndex > |s.log| || (m.prevLogIndex > 0 && s.log[m.prevLogIndex - 1].term != m.prevLogTerm)
    ensures
      var o, prev := Receive(s, n, id, m), m.prevLogIndex;
      var conflict := if prev <= |s.log| then prev else if s.log == [] then 1 else |s.log|;
      && !o.thrown && o.sent == [RejectEntries(id, m.src, o.server.term, Some(conflict))]
      && o.server == (if s.role.Follower? then s else
                        s.(term := m.term, vote := if m.term > s.term then None else s.vote, role := Follower(0)))
  {
  }

  /** Entries of an older term, or of the leader's own, change nothing; who does not lead answers with its term. */
  lemma EntriesOfOldTerm(s: Server, n: nat, id: nat, m: Message)
    requires m.AppendEntries? && !s.role.Halted? && (m.term < s.term || (m.term == s.term && s.role.Leader?))
    ensures
      var o := Receive(s, n, id, m);
      && !o.thrown && o.server == s
      && o.sent == (if s.role.Leader? then [] else [RejectEntries(id, m.src, s.term, None)])
  {
  }

  // ---------------------------------------------------------------- votes

  /** Who campaigns with a later last term, or with the same and a log at least as long, is never behind; of two
      different ends of a log exactly one is behind the other, and none is behind itself. */
  lemma BehindIsAnOrder(log: seq<Entry>, other: seq<Entry>)
    ensures LastTerm(other) > LastTerm(log) ==> !Outdated(log, LastTerm(other), |other|)
    ensures LastTerm(other) == LastTerm(log) && |other| >= |log| ==> !Outdated(log, LastTerm(other), |other|)
    ensures !(Outdated(log, LastTerm(other), |other|) && Outdated(other, LastTerm(log), |log|))
    ensures !Outdated(log, LastTerm(other), |other|) && !Outdated(other, LastTerm(log), |log|) <==>
            LastTerm(other) == LastTerm(log) && |other| == |log|
    ensures !Outdated(log, LastTerm(log), |log|)
  {
  }

  lemma BehindIsTransitive(a: seq<Entry>, b: seq<Entry>, c: seq<Entry>)
    requires Outdated(a, LastTerm(b), |b|) && Outdated(b, LastTerm(c), |c|)
    ensures Outdated(a, LastTerm(c), |c|)
  {
  }

  /** A log whose terms never decrease is never behind its own beginnings, and these are behind it. */
  lemma LongerIsNotBehind(log: seq<Entry>, longer: seq<Entry>)
    requires log <= longer && Ascending(longer)
    ensures !Outdated(log, LastTerm(longer), |longer|)
    ensures Outdated(longer, LastTerm(log), |log|) <==> log != longer
  {
    if log != longer && log != [] {
      assert log[|log| - 1] == longer[|log| - 1];
    }
  }

  /** Follower.js:95-130 with Log.js:140-147: a vote is granted if and only if the term is not older, the server
      follows or converts, its vote is free, and its log does not end in a later term, or in the same term
      with more entries. A follower's vote of an older term is not free for anyone else in a newer one. */
  lemma GrantsExactly(s: Server, n: nat, id: nat, m: Message)
    requires m.RequestVote? && !s.role.Halted?
    ensures
      var last := if s.log == [] then 0 else s.log[|s.log| - 1].term;
      (exists k :: 0 <= k < |Receive(s, n, id, m).sent| && Receive(s, n, id, m).sent[k].GrantVote?) <==>
        && m.term >= s.term && (s.role.Follower? || m.term > s.term)
        && (s.role.Follower? && s.vote.Some? ==> s.vote.value == m.src)
        && (m.lastLogTerm > last || (m.lastLogTerm == last && m.lastLogIndex >= |s.log|))
  {
    var o := Receive(s, n, id, m);
    var last := if s.log == [] then 0 else s.log[|s.log| - 1].term;
    var upToDate := m.lastLogTerm > last || (m.lastLogTerm == last && m.lastLogIndex >= |s.log|);
    var free := s.role.Follower? && s.vote.Some? ==> s.vote.value == m.src;
    if s.role.Leader? && m.term == s.term && m.src in s.role.progress {
      UpdatesSent(s, id, [m.src], true, 0);
    } else if m.term >= s.term && (s.role.Follower? || m.term > s.term) && free && upToDate {
      assert o.sent[0] == GrantVote(id, m.src, m.term);
    }
  }

  /** What goes with it: the vote is recorded for the term of the grant; without one a newer term is adopted
      with no vote, an older one is denied with the server's own, and anything else changes nothing. */
  lemma VoteHandled(s: Server, n: nat, id: nat, m: Message)
    requires m.RequestVote? && !s.role.Halted? && (s.role.Leader? ==> m.term != s.term)
    ensures
      var o, role := Receive(s, n, id, m), if s.role.Follower? then s.role else Follower(0);
      && !o.thrown
      && (if m.term < s.term then
            o.server == s && o.sent == [DenyVote(id, m.src, s.term)]
          else if o.sent != [] then
            && o.server == s.(term := m.term, vote := Some(m.src), role := role)
            && o.sent == [GrantVote(id, m.src, m.term)]
          else if m.term > s.term then
            o.server == s.(term := m.term, vote := None, role := role)
          else o.server == s)
  {
  }

  // ---------------------------------------------------------------- what a leader sends

  /** There is an entry at prevLogIndex. */
  ghost predicate HasPrevious(s: Server, peer: nat)
    requires s.role.Leader?
  {
    peer in s.role.progress && 1 <= s.role.progress[peer].next <= |s.log| + 1
  }

  /** Leader.js:234-252: everything from nextIndex on if that follows matchIndex, and otherwise only a heartbeat. */
  ghost predicate Updates(m: Message, s: Server, id: nat, peer: nat, heartbeatOnly: bool)
    requires s.role.Leader?
  {
    && HasPrevious(s, peer)
    && var g := s.role.progress[peer];
       m == AppendEntries(id, peer, s.term, g.next - 1, if g.next == 1 then 0 else s.log[g.next - 2].term,
                          s.role.commitIndex,
                          if heartbeatOnly || g.next != g.matched + 1 then [] else s.log[g.next - 1..])
  }

  /** One message to each peer, in order, up to the first without an entry at prevLogIndex, which throws. */
  lemma {:induction false} UpdatesSent(s: Server, id: nat, peers: seq<nat>, heartbeatOnly: bool, k: nat)
    requires s.role.Leader?
    ensures
      var o := UpdateAll(s, id, peers, heartbeatOnly);
      && o.server == s && |o.sent| <= |peers|
      && (k < |o.sent| ==> Updates(o.sent[k], s, id, peers[k], heartbeatOnly))
      && (k == |o.sent| ==> (o.thrown <==> k < |peers|) && (o.thrown ==> !HasPrevious(s, peers[k])))
      && (o.thrown <==> |o.sent| < |peers|)
  {
    if peers != [] && HasPrevious(s, peers[0]) {
      UpdatesSent(s, id, peers[1..], heartbeatOnly, if k == 0 then 0 else k - 1);
      UpdateIs(s, id, peers[0], heartbeatOnly);
    }
  }

  lemma UpdateIs(s: Server, id: nat, peer: nat, heartbeatOnly: bool)
    requires s.role.Leader? && HasPrevious(s, peer)
    ensures Updates(UpdateFollower(s, id, peer, heartbeatOnly), s, id, peer, heartbeatOnly)
  {
  }

  /** The same for a single peer. */
  lemma UpdateSent(s: Server, id: nat, peer: nat, heartbeatOnly: bool)
    requires s.role.Leader?
    ensures
      var o := UpdateAll(s, id, [peer], heartbeatOnly);
      && o.server == s && (o.thrown <==> !HasPrevious(s, peer))
      && (if o.thrown then o.sent == [] else |o.sent| == 1 && Updates(o.sent[0], s, id, peer, heartbeatOnly))
  {
    UpdatesSent(s, id, [peer], heartbeatOnly, 0);
  }

  lemma AllUpdated(s: Server, id: nat, peers: seq<nat>, heartbeatOnly: bool, k: nat)
    requires s.role.Leader? && k < |peers| && forall p :: p in peers ==> HasPrevious(s, p)
    ensures
      var o := UpdateAll(s, id, peers, heartbeatOnly);
      o.server == s && !o.thrown && |o.sent| == |peers| && Updates(o.sent[k], s, id, peers[k], heartbeatOnly)
  {
    UpdatesSent(s, id, peers, heartbeatOnly, |UpdateAll(s, id, peers, heartbeatOnly).sent|);
    UpdatesSent(s, id, peers, heartbeatOnly, k);
  }

  lemma {:induction false} PeersAscend(n: nat, id: nat)
    ensures forall j, k :: 0 <= j < k < |Peers(n, id)| ==> Peers(n, id)[j] < Peers(n, id)[k]
    ensures forall p: nat :: p in Peers(n, id) <==> p < n && p != id
  {
    if n > 0 {
      PeersAscend(n - 1, id);
      var others := Peers(n - 1, id);
      assert forall j :: 0 <= j < |others| ==> others[j] in others;
    }
  }

  /** Leader.js:104-106: a heartbeat to every peer. */
  lemma HeartbeatsSent(s: Server, n: nat, id: nat, k: nat)
    requires s.role.Leader? && k < |Peers(n, id)|
    requires forall p: nat :: p < n && p != id ==> HasPrevious(s, p)
    ensures
      var o := LeaderHeartbeat(s, n, id);
      && o.server == s && !o.thrown && |o.sent| == |Peers(n, id)|
      && Updates(o.sent[k], s, id, Peers(n, id)[k], true)
  {
    AllUpdated(s, id, Peers(n, id), true, k);
  }

  /** Leader.js:204-232: the entry joins the log and the stream, and waits for half of the peers; then every peer
      gets an update. */
  lemma AppendHandled(s: Server, n: nat, id: nat, value: Payload, k: nat)
    requires s.role.Leader? && k < |Peers(n, id)|
    requires forall p: nat :: p < n && p != id ==> HasPrevious(s, p)
    ensures
      var o, entry := LeaderAppend(s, n, id, value), Entry(|s.log| + 1, s.term, value);
      && !o.thrown && |o.sent| == |Peers(n, id)|
      && o.server == s.(log := s.log + [entry], stream := s.stream + [entry],
                        role := Leader(s.role.commitIndex, s.role.progress,
                                       s.role.pending + [Pending(entry.index, n / 2)]))
      && Updates(o.sent[k], o.server, id, Peers(n, id)[k], false)
  {
    var s' := Appended(s, n, value);
    assert s'.role.progress == s.role.progress && |s'.log| == |s.log| + 1;
    forall p | p in Peers(n, id) ensures HasPrevious(s', p) {
      assert HasPrevious(s, p);
    }
    AllUpdated(s', id, Peers(n, id), false, k);
  }

  // ---------------------------------------------------------------- answers to a leader

  /** Leader.js:144-155: nextIndex moves back to a conflict strictly between matchIndex and nextIndex, nothing else
      changes, and the peer gets a heartbeat from there; any other rejection does nothing. */
  lemma RejectionHandled(s: Server, n: nat, id: nat, m: Message)
    requires s.role.Leader? && m.RejectEntries? && m.term <= s.term
    ensures
      var o := Receive(s, n, id, m);
      if m.src in s.role.progress && m.conflictingIndex.Some?
         && s.role.progress[m.src].matched < m.conflictingIndex.value < s.role.progress[m.src].next then
        var c := m.conflictingIndex.value;
        var progress := s.role.progress[m.src := Progress(c, s.role.progress[m.src].matched)];
        && o.server == s.(role := Leader(s.role.commitIndex, progress, s.role.pending))
        && (o.thrown <==> c > |s.log| + 1)
        && o.sent == (if c > |s.log| + 1 then [] else
                        [AppendEntries(id, m.src, s.term, c - 1, if c == 1 then 0 else s.log[c - 2].term,
                                       s.role.commitIndex, [])])
      else o == Outcome(s, [], false)
  {
    if m.src in s.role.progress && m.conflictingIndex.Some?
       && s.role.progress[m.src].matched < m.conflictingIndex.value < s.role.progress[m.src].next {
      var p := s.role.progress[m.src];
      UpdateSent(SetProgress(s, m.src, p.(next := m.conflictingIndex.value)), id, m.src, true);
    }
  }

  /** What is still required after one more accept of the indexes from start to end. */
  function Remaining(p: Pending, start: nat, end: nat): int {
    p.required - (if start <= p.index <= end then 1 else 0)
  }

  /** The pending entries are the last ones of the log. */
  ghost predicate Consecutive(s: Server)
    requires s.role.Leader?
  {
    && |s.role.pending| <= |s.log|
    && forall j :: 0 <= j < |s.role.pending| ==> s.role.pending[j].index == |s.log| - |s.role.pending| + 1 + j
  }

  lemma HandedTwice(s: Server, s': Server, s'': Server, log: seq<Entry>, first: nat, middle: nat, last: nat)
    requires 1 <= first <= middle < last <= |log|
    requires Handed(s, s', log, first, middle) && Handed(s', s'', log, middle + 1, last)
    ensures Handed(s, s'', log, first, last)
  {
    forall j | |s.queued| <= j < |s''.queued|
      ensures s''.queued[j] == Some(log[first - 1 + (j - |s.queued|)])
    {
      if j < |s'.queued| {
        assert s''.queued[j] == s'.queued[j];
      }
    }
  }

  /** Leader.js:195-201: the first k pending entries need no more accepts, and are committed and handed over as
      one range. A stalled applier ends the first commit after one entry, but not the next one. */
  ghost predicate FirstCommitted(s: Server, s': Server, k: nat)
    requires s.role.Leader? && Consecutive(s) && k <= |s.role.pending|
  {
    if k == 0 then NothingHanded(s, s')
    else
      var from, to := s.role.pending[0].index, s.role.pending[k - 1].index;
      var first := if s.lastQueued < from then s.lastQueued + 1 else from;
      Handed(s, s', s.log, first, if s.applying == Stalled && k == 1 then first else to)
  }

  lemma {:induction false} CommitsFirst(s: Server, k: nat)
    requires s.role.Leader? && Consecutive(s) && k <= |s.role.pending|
    requires forall j :: 0 <= j < k ==> s.role.pending[j].required == 0
    requires k < |s.role.pending| ==> s.role.pending[k].required != 0
    ensures
      var s', commit := CommitReplicated(s), if k == 0 then s.role.commitIndex else s.role.pending[k - 1].index;
      && s' == s.(queued := s'.queued, lastQueued := s'.lastQueued, applying := s'.applying,
                  role := Leader(commit, s.role.progress, s.role.pending[k..]))
      && FirstCommitted(s, s', k)
    decreases k
  {
    if k > 0 {
      var one := CommitFirst(s);
      FirstOfMany(s);
      assert CommitReplicated(s) == CommitReplicated(one);
      CommitsFirst(one, k - 1);
      OneMoreCommitted(s, one, CommitReplicated(s), k);
      assert s.role.pending[1..][k - 1..] == s.role.pending[k..];
    }
  }

  lemma FirstOfMany(s: Server)
    requires s.role.Leader? && Consecutive(s) && s.role.pending != []
    ensures
      var one, index := CommitFirst(s), s.role.pending[0].index;
      && one == s.(queued := one.queued, lastQueued := one.lastQueued, applying := one.applying,
                   role := Leader(index, s.role.progress, s.role.pending[1..]))
      && Consecutive(one) && FirstCommitted(s, one, 1)
  {
    var index := s.role.pending[0].index;
    CommitHands(s, index);
    SameHanded(s, CommitTo(s, index), CommitFirst(s), 1);
  }

  lemma SameHanded(s: Server, s': Server, s'': Server, k: nat)
    requires s.role.Leader? && Consecutive(s) && k <= |s.role.pending|
    requires FirstCommitted(s, s', k) && NothingHanded(s', s'')
    ensures FirstCommitted(s, s'', k)
  {
  }

  lemma OneMoreCommitted(s: Server, one: Server, s': Server, k: nat)
    requires s.role.Leader? && Consecutive(s) && 1 <= k <= |s.role.pending| && FirstCommitted(s, one, 1)
    requires one.role.Leader? && Consecutive(one) && one.role.pending == s.role.pending[1..] && one.log == s.log
    requires FirstCommitted(one, s', k - 1)
    ensures FirstCommitted(s, s', k)
  {
    if k > 1 {
      var index := s.role.pending[0].index;
      var first := if s.lastQueued < index then s.lastQueued + 1 else index;
      HandedTwice(s, one, s', s.log, first, one.lastQueued, s.role.pending[k - 1].index);
    }
  }

  /** Leader.js:164-169 and 176-201: what one counted accept changes, if it leaves the first k pending entries with
      nothing to wait for. */
  ghost predicate AcceptCounted(s: Server, s': Server, peer: nat, acked: nat, k: nat)
    requires s.role.Leader? && peer in s.role.progress && Consecutive(s) && k <= |s.role.pending|
  {
    var pending, next := s.role.pending, s.role.progress[peer].next;
    && s'.role.Leader?
    && s'.role.progress == s.role.progress[peer := Progress(acked + 1, acked)]
    && s'.role.commitIndex == (if k == 0 then s.role.commitIndex else pending[k - 1].index)
    && |s'.role.pending| == |pending| - k
    && (forall j :: 0 <= j < |pending| - k ==>
          s'.role.pending[j] == Pending(pending[k + j].index, Remaining(pending[k + j], next, acked)))
    && s' == s.(queued := s'.queued, lastQueued := s'.lastQueued, applying := s'.applying, role := s'.role)
    && FirstCommitted(s, s', k)
  }

  /** The first k pending entries have enough accepts with this one, and the next one has not. */
  ghost predicate Completes(s: Server, peer: nat, acked: nat, k: nat)
    requires s.role.Leader? && peer in s.role.progress
  {
    var pending, next := s.role.pending, s.role.progress[peer].next;
    && k <= |pending|
    && (forall j :: 0 <= j < k ==> Remaining(pending[j], next, acked) == 0)
    && (k < |pending| ==> Remaining(pending[k], next, acked) != 0)
  }

  lemma RecordsAccept(s: Server, peer: nat, acked: nat, k: nat)
    requires s.role.Leader? && peer in s.role.progress && Consecutive(s)
    requires acked >= s.role.progress[peer].next && Completes(s, peer, acked, k)
    ensures AcceptCounted(s, RecordAccept(s, peer, acked), peer, acked, k)
  {
    var next := s.role.progress[peer].next;
    var counted := s.(role := s.role.(pending := CountAccept(s.role.pending, next, acked)));
    CountsRemaining(s.role.pending, next, acked);
    CommitsFirst(counted, k);
    CountedFirst(s, counted, CommitReplicated(counted), RecordAccept(s, peer, acked), k);
  }

  lemma CountsRemaining(pending: seq<Pending>, next: nat, acked: nat)
    requires forall j, k :: 0 <= j < k < |pending| ==> pending[j].index < pending[k].index
    ensures forall j :: 0 <= j < |pending| ==>
              CountAccept(pending, next, acked)[j] == Pending(pending[j].index, Remaining(pending[j], next, acked))
  {
    CountAcceptKeepsIndexes(pending, next, acked);
    CountAcceptCounts(pending, next, acked);
  }

  lemma CountedFirst(s: Server, counted: Server, committed: Server, s': Server, k: nat)
    requires s.role.Leader? && Consecutive(s) && k <= |s.role.pending|
    requires counted.role.Leader? && Consecutive(counted) && |counted.role.pending| == |s.role.pending|
    requires counted.log == s.log && NothingHanded(s, counted) && NothingHanded(committed, s')
    requires FirstCommitted(counted, committed, k)
    ensures FirstCommitted(s, s', k)
  {
  }

  lemma AcceptHandled(s: Server, n: nat, id: nat, m: Message, k: nat)
    requires s.role.Leader? && m.AcceptEntries? && m.term <= s.term && m.src in s.role.progress && Consecutive(s)
    requires m.ackedIndex >= s.role.progress[m.src].next && Completes(s, m.src, m.ackedIndex, k)
    ensures
      var o, acked := Receive(s, n, id, m), m.ackedIndex;
      && !o.thrown && AcceptCounted(s, o.server, m.src, acked, k)
      && o.sent == (if acked >= |s.log| then [] else
                      [AppendEntries(id, m.src, s.term, acked, if acked == 0 then 0 else s.log[acked - 1].term,
                                     o.server.role.commitIndex, s.log[acked..])])
  {
    RecordsAccept(s, m.src, m.ackedIndex, k);
    RestSent(RecordAccept(s, m.src, m.ackedIndex), id, m.src, m.ackedIndex);
  }

  lemma RestSent(s: Server, id: nat, peer: nat, acked: nat)
    requires s.role.Leader? && peer in s.role.progress && s.role.progress[peer] == Progress(acked + 1, acked)
    ensures acked < |s.log| ==>
              UpdateAll(s, id, [peer], false) ==
              Outcome(s, [AppendEntries(id, peer, s.term, acked, if acked == 0 then 0 else s.log[acked - 1].term,
                                        s.role.commitIndex, s.log[acked..])], false)
  {
    UpdateSent(s, id, peer, false);
  }

  /** An accept below nextIndex is not counted, but the peer gets what the log has from there. */
  lemma AcceptNotCounted(s: Server, n: nat, id: nat, m: Message)
    requires s.role.Leader? && m.AcceptEntries? && m.term <= s.term
    requires m.src in s.role.progress ==> 1 <= s.role.progress[m.src].next && m.ackedIndex < s.role.progress[m.src].next
    ensures
      var o := Receive(s, n, id, m);
      && !o.thrown && o.server == s
      && (if m.src in s.role.progress && s.role.progress[m.src].next <= |s.log|
          then |o.sent| == 1 && Updates(o.sent[0], s, id, m.src, false) else o.sent == [])
  {
    if m.src in s.role.progress {
      UpdateSent(s, id, m.src, false);
    }
  }

  /** Leader.js:126-142: a vote request for the leader's own term is answered with a heartbeat. */
  lemma VoteWhileLeading(s: Server, n: nat, id: nat, m: Message)
    requires s.role.Leader? && m.RequestVote? && m.term == s.term
    ensures
      var o := Receive(s, n, id, m);
      && o.server == s && (o.thrown <==> m.src in s.role.progress && !HasPrevious(s, m.src))
      && (if m.src in s.role.progress && !o.thrown
          then |o.sent| == 1 && Updates(o.sent[0], s, id, m.src, true) else o.sent == [])
  {
    if m.src in s.role.progress {
      UpdateSent(s, id, m.src, true);
    }
  }

  // ---------------------------------------------------------------- elections

  /** Candidate.js:67-92: the next term with a vote for itself, half of the peers' votes to get, and a request to
      every peer that names the end of the log. */
  lemma ElectionStarted(s: Server, n: nat, id: nat)
    ensures
      var o, peers, last := StartElection(s, n, id), Peers(n, id), if s.log == [] then 0 else s.log[|s.log| - 1].term;
      && !o.thrown && |o.sent| == |peers|
      && o.server == s.(term := s.term + 1, vote := Some(id), role := Candidate(n / 2, {}))
      && (forall j :: 0 <= j < |o.sent| ==> o.sent[j] == RequestVote(id, peers[j], s.term + 1, |s.log|, last))
  {
    var s', peers := s.(term := s.term + 1, vote := Some(id), role := Candidate(HalfOfPeers(n), {})), Peers(n, id);
    forall j | 0 <= j < |peers|
      ensures RequestVotes(s', id, peers)[j] == RequestVote(id, peers[j], s'.term, |s'.log|, LastTerm(s'.log))
    {
    }
    assert StartElection(s, n, id).sent == RequestVotes(s', id, peers);
  }

  /** A new leader has committed nothing, expects every peer at the end of its log, and sends each a heartbeat. */
  ghost predicate StartsToLead(s: Server, n: nat, id: nat, o: Outcome) {
    var peers, last := Peers(n, id), if s.log == [] then 0 else s.log[|s.log| - 1].term;
    && !o.thrown && o.server.role.Leader?
    && o.server == s.(role := Leader(0, o.server.role.progress, []))
    && (forall p: nat :: p in o.server.role.progress <==> p < n && p != id)
    && (forall p :: p in o.server.role.progress ==> o.server.role.progress[p] == Progress(|s.log| + 1, 0))
    && |o.sent| == |peers|
    && (forall k :: 0 <= k < |peers| ==> o.sent[k] == AppendEntries(id, peers[k], s.term, |s.log|, last, 0, []))
  }

  /** Candidate.js:121-134: a vote counts once for each peer, in the current term, and the last one that was
      required makes a leader. */
  lemma VoteCounted(s: Server, n: nat, id: nat, m: Message)
    requires s.role.Candidate? && m.GrantVote? && m.term <= s.term
    ensures
      var o := Receive(s, n, id, m);
      if m.term < s.term || m.src in s.role.votesReceived then o == Outcome(s, [], false)
      else if s.role.votesRequired == 1 then StartsToLead(s, n, id, o)
      else o == Outcome(s.(role := Candidate(s.role.votesRequired - 1, s.role.votesReceived + {m.src})), [], false)
  {
    if m.term == s.term && m.src !in s.role.votesReceived && s.role.votesRequired == 1 {
      Elected(s, n, id);
    }
  }

  lemma Elected(s: Server, n: nat, id: nat)
    ensures StartsToLead(s, n, id, BecomeLeader(s, n, id))
  {
    var progress := map p | p in Peers(n, id) :: Progress(|s.log| + 1, 0);
    var leader := s.(role := Leader(0, progress, []));
    assert BecomeLeader(s, n, id) == LeaderHeartbeat(leader, n, id);
    UpdatesSent(leader, id, Peers(n, id), true, |LeaderHeartbeat(leader, n, id).sent|);
    forall k | 0 <= k < |Peers(n, id)| {
      HeartbeatsSent(leader, n, id, k);
    }
  }

  // ---------------------------------------------------------------- anything else

  /** Any other message of a newer term makes a leader or candidate a follower of that term. Everything else that
      a role has no handler for, or that is of an older term, changes nothing and is not answered. */
  lemma OthersIgnored(s: Server, n: nat, id: nat, m: Message)
    requires !s.role.Halted? && !m.RequestVote? && !m.AppendEntries?
    requires m.term <= s.term ==> (s.role.Candidate? ==> !m.GrantVote?)
    requires m.term <= s.term ==> (s.role.Leader? ==> !m.RejectEntries? && !m.AcceptEntries?)
    ensures
      Receive(s, n, id, m) ==
      Outcome(if s.role.Follower? || m.term <= s.term then s
              else s.(term := m.term, vote := None, role := Follower(0)), [], false)
  {
  }
}
