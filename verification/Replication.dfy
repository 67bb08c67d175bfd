/** The leader's counters: decremented one accept at a time, they always agree with counting matchIndex. */
module Replication {
  import opened Protocol
  import opened ElectionSafety
  import opened LogMatching
  import opened LogOperations

  type Peering = map<nat, Progress>

  /** The peers known to hold everything up to index i. */
  function Holders(progress: Peering, i: nat): set<nat> {
    set p | p in progress && progress[p].matched >= i
  }

  /** nextIndex is past matchIndex; they are adjacent unless nextIndex still lies within the log that the
      leader was elected with. */
  ghost predicate ProgressOk(initial: nat, s: Server)
    requires s.role.Leader?
  {
    forall p :: p in s.role.progress ==>
      var g := s.role.progress[p];
      g.matched < g.next && (g.next == g.matched + 1 || g.next <= initial + 1)
  }

  /** No peer is believed to hold more than the leader has. */
  ghost predicate WithinLog(s: Server)
    requires s.role.Leader?
  {
    forall p :: p in s.role.progress ==> s.role.progress[p].next <= |s.log| + 1
  }

  /** Each counter is what the definition says is still missing. */
  ghost predicate CountersAgree(half: nat, s: Server)
    requires s.role.Leader?
  {
    forall j :: 0 <= j < |s.role.pending| ==>
      s.role.pending[j].required == half - |Holders(s.role.progress, s.role.pending[j].index)|
  }

  ghost predicate AllPositive(pending: seq<Pending>) {
    forall j :: 0 <= j < |pending| ==> pending[j].required > 0
  }

  ghost predicate CommitReached(half: nat, s: Server)
    requires s.role.Leader?
  {
    s.role.commitIndex > 0 ==> |Holders(s.role.progress, s.role.commitIndex)| >= half
  }

  ghost predicate LeaderInv(half: nat, initial: nat, s: Server)
    requires s.role.Leader?
  {
    && LeaderShape(initial, s) && ProgressOk(initial, s)
    && CountersAgree(half, s) && AllPositive(s.role.pending) && CommitReached(half, s)
  }

  /** Section 5.4.2: the commit index is the largest index of this leadership that reached a quorum. */
  lemma CommitIsLargestQuorum(half: nat, initial: nat, s: Server, i: nat)
    requires s.role.Leader? && LeaderInv(half, initial, s)
    requires initial < i <= |s.log|
    ensures i <= s.role.commitIndex <==> |Holders(s.role.progress, i)| >= half
    ensures s.role.commitIndex == 0 || initial < s.role.commitIndex <= |s.log|
  {
    var first := |s.log| - |s.role.pending| + 1;
    if i >= first {
      assert s.role.pending[i - first].index == i;
    } else {
      SubsetSize(Holders(s.role.progress, s.role.commitIndex), Holders(s.role.progress, i));
    }
  }

  /** Later entries need at least as many further accepts. */
  lemma CountersAscend(half: nat, initial: nat, s: Server, j: nat, k: nat)
    requires s.role.Leader? && LeaderShape(initial, s) && CountersAgree(half, s)
    requires j <= k < |s.role.pending|
    ensures s.role.pending[j].required <= s.role.pending[k].required
  {
    SubsetSize(Holders(s.role.progress, s.role.pending[k].index), Holders(s.role.progress, s.role.pending[j].index));
  }

  // ---------------------------------------------------------------- operations

  lemma StartAgrees(half: nat, s: Server)
    requires s.role.Leader? && s.role.commitIndex == 0 && s.role.pending == []
    requires forall p :: p in s.role.progress ==> s.role.progress[p] == Progress(|s.log| + 1, 0)
    ensures LeaderInv(half, |s.log|, s)
  {
  }

  /** A new entry starts with the full count. That agrees with the definition if and only if no peer is
      already believed to hold its index. */
  lemma AppendAgrees(half: nat, initial: nat, s: Server, s': Server)
    requires s.role.Leader? && LeaderInv(half, initial, s) && half > 0
    requires s'.role.Leader? && |s'.log| == |s.log| + 1
    requires s'.role == s.role.(pending := s.role.pending + [Pending(|s.log| + 1, half)])
    ensures LeaderInv(half, initial, s') <==> Holders(s.role.progress, |s.log| + 1) == {}
  {
    var ahead := Holders(s.role.progress, |s.log| + 1);
    if ahead == {} {
      assert |ahead| == 0;
    } else {
      var p :| p in ahead;
      assert |ahead| == |ahead - {p}| + 1;
      assert s'.role.pending[|s.role.pending|] == Pending(|s.log| + 1, half);
    }
  }

  lemma NoneBeyondLog(s: Server)
    requires s.role.Leader? && WithinLog(s)
    requires forall p :: p in s.role.progress ==> s.role.progress[p].matched < s.role.progress[p].next
    ensures Holders(s.role.progress, |s.log| + 1) == {}
  {
  }

  lemma RejectAgrees(half: nat, initial: nat, s: Server, peer: nat, conflict: nat)
    requires s.role.Leader? && LeaderInv(half, initial, s) && peer in s.role.progress
    requires s.role.progress[peer].matched < conflict < s.role.progress[peer].next
    ensures LeaderInv(half, initial, SetProgress(s, peer, s.role.progress[peer].(next := conflict)))
  {
    var s' := SetProgress(s, peer, s.role.progress[peer].(next := conflict));
    forall i: nat
      ensures Holders(s'.role.progress, i) == Holders(s.role.progress, i)
    {
    }
  }

  lemma HoldersAfterAccept(progress: Peering, peer: nat, acked: nat, i: nat)
    requires peer in progress && acked >= progress[peer].matched
    ensures Holders(progress[peer := Progress(acked + 1, acked)], i) ==
            Holders(progress, i) + (if i <= acked then {peer} else {})
  {
  }

  lemma {:induction false} CountAcceptCounts(pending: seq<Pending>, start: nat, end: nat)
    requires forall j, k :: 0 <= j < k < |pending| ==> pending[j].index < pending[k].index
    ensures forall j :: 0 <= j < |pending| ==>
              CountAccept(pending, start, end)[j].required ==
              pending[j].required - (if start <= pending[j].index <= end then 1 else 0)
  {
    if pending != [] && pending[0].index <= end {
      CountAcceptCounts(pending[1..], start, end);
    }
  }

  /** The state in which markReplication has counted an accept but not yet committed anything. */
  function Counted(s: Server, peer: nat, acked: nat): (s': Server)
    requires s.role.Leader? && peer in s.role.progress
    ensures s'.role.Leader?
  {
    s.(role := s.role.(
      pending := CountAccept(s.role.pending, s.role.progress[peer].next, acked),
      progress := s.role.progress[peer := Progress(acked + 1, acked)]))
  }

  /** How one accept changes the number of holders of a pending index: by one, if it lies in the counted range. */
  lemma HoldersCounted(initial: nat, s: Server, peer: nat, acked: nat, i: nat)
    requires s.role.Leader? && ProgressOk(initial, s) && peer in s.role.progress
    requires acked >= s.role.progress[peer].next && i > initial
    ensures
      var progress' := s.role.progress[peer := Progress(acked + 1, acked)];
      |Holders(progress', i)| ==
        |Holders(s.role.progress, i)| + (if s.role.progress[peer].next <= i <= acked then 1 else 0)
  {
    var g := s.role.progress[peer];
    HoldersAfterAccept(s.role.progress, peer, acked, i);
    assert i < g.next ==> i <= g.matched;
    assert i <= g.matched ==>
      Holders(s.role.progress[peer := Progress(acked + 1, acked)], i) == Holders(s.role.progress, i);
    assert i > g.matched ==> peer !in Holders(s.role.progress, i);
  }

  lemma CountedAgrees(half: nat, initial: nat, s: Server, peer: nat, acked: nat)
    requires s.role.Leader? && LeaderInv(half, initial, s)
    requires peer in s.role.progress && acked >= s.role.progress[peer].next
    ensures
      var s' := Counted(s, peer, acked);
      LeaderShape(initial, s') && ProgressOk(initial, s') && CountersAgree(half, s') && CommitReached(half, s')
      && forall j :: 0 <= j < |s'.role.pending| ==> s'.role.pending[j].required >= 0
  {
    var s', next := Counted(s, peer, acked), s.role.progress[peer].next;
    CountAcceptKeepsIndexes(s.role.pending, next, acked);
    CountAcceptCounts(s.role.pending, next, acked);
    forall j | 0 <= j < |s'.role.pending|
      ensures s'.role.pending[j].required == half - |Holders(s'.role.progress, s'.role.pending[j].index)|
    {
      HoldersCounted(initial, s, peer, acked, s.role.pending[j].index);
    }
    HoldersAfterAccept(s.role.progress, peer, acked, s.role.commitIndex);
    SubsetSize(Holders(s.role.progress, s.role.commitIndex), Holders(s'.role.progress, s.role.commitIndex));
  }

  lemma {:induction false} CommitReplicatedAgrees(half: nat, initial: nat, s: Server)
    requires s.role.Leader?
    requires LeaderShape(initial, s) && ProgressOk(initial, s) && CountersAgree(half, s) && CommitReached(half, s)
    requires forall j :: 0 <= j < |s.role.pending| ==> s.role.pending[j].required >= 0
    ensures LeaderInv(half, initial, CommitReplicated(s))
    decreases if s.role.Leader? then |s.role.pending| else 0
  {
    if s.role.pending != [] {
      if s.role.pending[0].required == 0 {
        CommitFirstAgrees(half, initial, s);
        CommitReplicatedAgrees(half, initial, CommitFirst(s));
      } else {
        forall j | 0 <= j < |s.role.pending|
          ensures s.role.pending[j].required > 0
        {
          CountersAscend(half, initial, s, 0, j);
        }
      }
    }
  }

  lemma CommitFirstAgrees(half: nat, initial: nat, s: Server)
    requires s.role.Leader? && s.role.pending != [] && s.role.pending[0].required == 0
    requires LeaderShape(initial, s) && ProgressOk(initial, s) && CountersAgree(half, s)
    ensures
      var s' := CommitFirst(s);
      LeaderShape(initial, s') && ProgressOk(initial, s') && CountersAgree(half, s') && CommitReached(half, s')
  {
    assert s.role.pending[0].index > 0;
  }

  lemma {:induction false} CommitReplicatedIgnoresProgress(s: Server, progress: Peering)
    requires s.role.Leader?
    ensures
      var s' := CommitReplicated(s.(role := s.role.(progress := progress)));
      s' == CommitReplicated(s).(role := CommitReplicated(s).role.(progress := progress))
    decreases if s.role.Leader? then |s.role.pending| else 0
  {
    if s.role.pending != [] && s.role.pending[0].required == 0 {
      CommitReplicatedIgnoresProgress(CommitFirst(s), progress);
    }
  }

  /** Whatever index is accepted, counting it keeps every counter in agreement. */
  lemma AcceptAgrees(half: nat, initial: nat, s: Server, peer: nat, acked: nat)
    requires s.role.Leader? && LeaderInv(half, initial, s) && peer in s.role.progress
    ensures LeaderInv(half, initial, RecordAccept(s, peer, acked))
  {
    if acked >= s.role.progress[peer].next {
      CountedAgrees(half, initial, s, peer, acked);
      CommitReplicatedAgrees(half, initial, Counted(s, peer, acked));
      var counted := s.(role := s.role.(pending := CountAccept(s.role.pending, s.role.progress[peer].next, acked)));
      CommitReplicatedIgnoresProgress(counted, s.role.progress[peer := Progress(acked + 1, acked)]);
    }
  }
}
