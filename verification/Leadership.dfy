/** A whole leadership: whatever a leader appends and whatever messages it handles, in any order. */
module Leadership {
  import opened Entries
  import opened Protocol
  import opened Operations
  import opened Replication

  datatype Work = Appends(value: Payload) | Receives(m: Message)

  /** One operation; a message of a newer term would end the leadership. */
  function Worked(n: nat, id: nat, s: Server, w: Work): (s': Server)
    requires s.role.Leader?
    ensures s'.role.Leader?
  {
    match w
    case Appends(value) =>
      UpdateAllSends(Appended(s, n, value), id, Peers(n, id), false);
      LeaderAppend(s, n, id, value).server
    case Receives(m) =>
      if m.term > s.term then s
      else
        StaysLeading(n, id, s, m);
        LeaderReceive(s, n, id, m).server
  }

  lemma StaysLeading(n: nat, id: nat, s: Server, m: Message)
    requires s.role.Leader? && m.term <= s.term
    ensures LeaderReceive(s, n, id, m).server.role.Leader?
  {
    if m.RequestVote? {
      UpdateAllSends(s, id, [m.src], true);
    } else if m.RejectEntries? && m.src in s.role.progress && m.conflictingIndex.Some? {
      var p := s.role.progress[m.src];
      UpdateAllSends(SetProgress(s, m.src, p.(next := m.conflictingIndex.value)), id, [m.src], true);
    } else if m.AcceptEntries? && m.src in s.role.progress {
      UpdateAllSends(RecordAccept(s, m.src, m.ackedIndex), id, [m.src], false);
    }
  }

  function Led(n: nat, id: nat, s: Server, work: seq<Work>): (s': Server)
    requires s.role.Leader?
    ensures s'.role.Leader?
  {
    if work == [] then s else Worked(n, id, Led(n, id, s, work[..|work| - 1]), work[|work| - 1])
  }

  /** No accepted index that is handled lies beyond the leader's log. */
  ghost predicate AckedWithin(s: Server, w: Work) {
    w.Receives? && w.m.AcceptEntries? ==> w.m.ackedIndex <= |s.log|
  }

  ghost predicate AlwaysAckedWithin(n: nat, id: nat, s: Server, work: seq<Work>)
    requires s.role.Leader?
  {
    forall k :: 0 <= k < |work| ==> AckedWithin(Led(n, id, s, work[..k]), work[k])
  }

  ghost predicate Fresh(s: Server) {
    && s.role.Leader? && s.role.commitIndex == 0 && s.role.pending == []
    && forall p :: p in s.role.progress ==> s.role.progress[p] == Progress(|s.log| + 1, 0)
  }

  /** One operation keeps the counters in agreement with counting matchIndex. */
  lemma WorkAgrees(n: nat, id: nat, initial: nat, s: Server, w: Work)
    requires 2 <= n && s.role.Leader? && LeaderInv(HalfOfPeers(n), initial, s) && WithinLog(s)
    requires AckedWithin(s, w)
    ensures LeaderInv(HalfOfPeers(n), initial, Worked(n, id, s, w)) && WithinLog(Worked(n, id, s, w))
  {
    if w.Appends? {
      UpdateAllSends(Appended(s, n, w.value), id, Peers(n, id), false);
      NoneBeyondLog(s);
      AppendAgrees(HalfOfPeers(n), initial, s, Appended(s, n, w.value));
    } else if w.m.term <= s.term {
      ReceiveAgrees(n, id, initial, s, w.m);
    }
  }

  lemma ReceiveAgrees(n: nat, id: nat, initial: nat, s: Server, m: Message)
    requires s.role.Leader? && LeaderInv(HalfOfPeers(n), initial, s) && WithinLog(s)
    requires m.term <= s.term && (m.AcceptEntries? ==> m.ackedIndex <= |s.log|)
    ensures
      var s' := LeaderReceive(s, n, id, m).server;
      s'.role.Leader? && LeaderInv(HalfOfPeers(n), initial, s') && WithinLog(s')
  {
    if m.RequestVote? {
      UpdateAllSends(s, id, [m.src], true);
    } else if m.RejectEntries? {
      RejectEntriesAgrees(HalfOfPeers(n), id, initial, s, m);
    } else if m.AcceptEntries? {
      AcceptEntriesAgrees(HalfOfPeers(n), id, initial, s, m);
    }
  }

  lemma RejectEntriesAgrees(half: nat, id: nat, initial: nat, s: Server, m: Message)
    requires s.role.Leader? && m.RejectEntries? && LeaderInv(half, initial, s) && WithinLog(s)
    ensures
      var s' := LeaderRejectEntries(s, id, m).server;
      s'.role.Leader? && LeaderInv(half, initial, s') && WithinLog(s')
  {
    if m.src in s.role.progress && m.conflictingIndex.Some? {
      var p, conflict := s.role.progress[m.src], m.conflictingIndex.value;
      UpdateAllSends(SetProgress(s, m.src, p.(next := conflict)), id, [m.src], true);
      if p.matched < conflict < p.next {
        RejectAgrees(half, initial, s, m.src, conflict);
      }
    }
  }

  lemma AcceptEntriesAgrees(half: nat, id: nat, initial: nat, s: Server, m: Message)
    requires s.role.Leader? && m.AcceptEntries? && LeaderInv(half, initial, s) && WithinLog(s)
    requires m.ackedIndex <= |s.log|
    ensures
      var s' := LeaderAcceptEntries(s, id, m).server;
      s'.role.Leader? && LeaderInv(half, initial, s') && WithinLog(s')
  {
    if m.src in s.role.progress {
      UpdateAllSends(RecordAccept(s, m.src, m.ackedIndex), id, [m.src], false);
      RecordAcceptKeeps(s, m.src, m.ackedIndex);
      AcceptAgrees(half, initial, s, m.src, m.ackedIndex);
    }
  }

  /** Throughout a leadership every counter is ceil(P / 2) minus the number of peers whose matchIndex reaches
      its entry, all counters are positive, and the commit index is the largest that reached a quorum. */
  lemma {:induction false} CountersAlwaysAgree(n: nat, id: nat, s: Server, work: seq<Work>)
    requires 2 <= n && Fresh(s) && AlwaysAckedWithin(n, id, s, work)
    ensures LeaderInv(HalfOfPeers(n), |s.log|, Led(n, id, s, work)) && WithinLog(Led(n, id, s, work))
  {
    if work == [] {
      StartAgrees(HalfOfPeers(n), s);
    } else {
      var before := work[..|work| - 1];
      forall k | 0 <= k < |before|
        ensures AckedWithin(Led(n, id, s, before[..k]), before[k])
      {
        assert before[..k] == work[..k];
      }
      CountersAlwaysAgree(n, id, s, before);
      assert AckedWithin(Led(n, id, s, work[..|before|]), work[|before|]);
      WorkAgrees(n, id, |s.log|, Led(n, id, s, before), work[|before|]);
    }
  }

  /** Throughout it, an index appended in this leadership is committed exactly when enough peers hold it, and
      later entries never need fewer accepts. */
  lemma CommittedExactlyAtQuorum(n: nat, id: nat, s: Server, work: seq<Work>, i: nat)
    requires 2 <= n && Fresh(s) && AlwaysAckedWithin(n, id, s, work)
    requires |s.log| < i <= |Led(n, id, s, work).log|
    ensures
      var s' := Led(n, id, s, work);
      && (i <= s'.role.commitIndex <==> |Holders(s'.role.progress, i)| >= HalfOfPeers(n))
      && forall j, k :: 0 <= j <= k < |s'.role.pending| ==>
           0 < s'.role.pending[j].required <= s'.role.pending[k].required
  {
    var s' := Led(n, id, s, work);
    CountersAlwaysAgree(n, id, s, work);
    CommitIsLargestQuorum(HalfOfPeers(n), |s.log|, s', i);
    forall j, k | 0 <= j <= k < |s'.role.pending|
      ensures 0 < s'.role.pending[j].required <= s'.role.pending[k].required
    {
      CountersAscend(HalfOfPeers(n), |s.log|, s', j, k);
    }
  }
}
