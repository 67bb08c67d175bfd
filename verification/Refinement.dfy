/** The roles rely on the shape of the messages that other servers send. In every run they have it, so a step
    of the cluster is what Raft.Handle does on the receiving server. */
module Refinement {
  import opened Protocol
  import opened Cluster
  import opened ElectionSafety
  import opened Operations
  import opened LogMatching
  import opened LogOperations
  import opened ServerView

  lemma EntriesWellFormed(h: History, m: Message)
    requires m.AppendEntries? && LogMessageOk(h, m) && LeaderLogsOk(h)
    ensures WellFormed(m)
  {
    var log := h.leaderLogs[m.term];
    assert LeaderLogOk(h, m.term);
    forall j | 0 <= j < |m.entries|
      ensures m.entries[j].index == m.prevLogIndex + 1 + j
    {
      assert m.entries[j] == log[m.prevLogIndex + j];
    }
  }

  lemma ShortenedWellFormed(m: Message, take: nat)
    requires WellFormed(m)
    ensures WellFormed(Shorten(m, take))
  {
  }

  /** Whatever was sent in any run, and however much of it the transport delivers, meets what the roles rely on. */
  lemma DeliveredWellFormed(n: nat, run: seq<Action>, m: Message, take: nat)
    requires 2 <= n && m in Exec(n, run).net
    ensures WellFormed(Shorten(m, take))
  {
    var c, h := Exec(n, run), Chronicle(n, run);
    ElectionInvariant(n, run);
    LogInvariant(n, run);
    if m.AppendEntries? {
      assert LogMessageOk(h, m);
      EntriesWellFormed(h, m);
    } else if m.RequestVote? {
      assert VoteMessageOk(n, h, m);
      assert 1 <= m.term by {
        assert CampaignsOk(c, h) && (m.src, m.term) in h.campaigns;
      }
    }
    ShortenedWellFormed(m, take);
  }
}
