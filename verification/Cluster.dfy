/** The cluster as a step system, and the history that its runs leave behind. */
module Cluster {
  import opened Entries
  import opened Protocol

  /** net holds every message ever sent: a message may be delivered late, more than once, or never. */
  datatype Cluster = Cluster(servers: seq<Server>, net: set<Message>)

  datatype Action =
    | Deliver(m: Message, take: nat)              // take: how many of its entries the transport delivers
    | ElectionTimeout(id: nat)
    | Heartbeat(id: nat)
    | Append(id: nat, value: Payload)
    | Applied(id: nat)                            // the applier has applied everything that it was handed
    | Crash(id: nat)
    | Return(id: nat, lastApplied: nat)           // comes back, knowing what its state machine has applied
    | CommitsThenCrash(m: Message)                // crash after committing, before anything of the message lands
    | TermLandsThenCrash(m: Message)              // crash when of the message only its term has landed
    | EntriesLandThenCrash(m: Message, take: nat) // crash after persistEntries, before persistState

  function Init(n: nat): Cluster {
    Cluster(seq(n, _ => Server(0, None, [], [], 0, [], Idle, Follower(0))), {})
  }

  function Shorten(m: Message, take: nat): Message {
    if m.AppendEntries? && take < |m.entries| then m.(entries := m.entries[..take]) else m
  }

  function Actor(a: Action): nat {
    match a
    case Deliver(m, _) => m.dst
    case CommitsThenCrash(m) => m.dst
    case TermLandsThenCrash(m) => m.dst
    case EntriesLandThenCrash(m, _) => m.dst
    case _ => a.id
  }

  predicate Enabled(c: Cluster, a: Action) {
    Actor(a) < |c.servers| &&
    var s := c.servers[Actor(a)];
    match a
    case Deliver(m, _) => m in c.net && !s.role.Halted?
    case ElectionTimeout(_) => s.role.Follower? || s.role.Candidate?
    case Heartbeat(_) => s.role.Leader?
    case Append(_, _) => s.role.Leader?
    case Applied(_) => s.applying == Busy && None !in s.queued
    case Crash(_) => true
    case Return(_, _) => s.role.Halted?
    case CommitsThenCrash(m) => m in c.net && Accepts(s, m)
    case TermLandsThenCrash(m) =>
      m in c.net && !s.role.Halted? && m.term > s.term
      && (s.role.Follower? ==> m.AppendEntries? && Matches(s.log, m.prevLogIndex, m.prevLogTerm))
    case EntriesLandThenCrash(m, take) =>
      m in c.net && s.role.Follower? && m.AppendEntries? && m.term > s.term
      && Matches(s.log, m.prevLogIndex, m.prevLogTerm) && Shorten(m, take).entries != []
  }

  /** What the enabled action does to the server that performs it. */
  function Perform(c: Cluster, a: Action): Outcome
    requires Enabled(c, a)
  {
    var n, id, s := |c.servers|, Actor(a), c.servers[Actor(a)];
    match a
    case Deliver(m, take) => Receive(s, n, id, Shorten(m, take))
    case ElectionTimeout(_) => StartElection(s, n, id)
    case Heartbeat(_) => LeaderHeartbeat(s, n, id)
    case Append(_, value) => LeaderAppend(s, n, id, value)
    case Applied(_) => Sends(s.(applying := Idle), [])
    case Crash(_) => Sends(s.(role := Halted), [])
    case Return(_, lastApplied) => Sends(Restart(s, lastApplied), [])
    case CommitsThenCrash(m) => Sends(HandsOver(TakesUp(s, m), m).(role := Halted), [])
    case TermLandsThenCrash(m) =>
      Sends(SetTerm(if s.role.Follower? then HandsOver(s, m) else s, m.term).(role := Halted), [])
    case EntriesLandThenCrash(m, take) =>
      Sends(HandsOver(s, m).(log := Merge(s.log, m.prevLogIndex, Shorten(m, take).entries),
              stream := s.stream + Shorten(m, take).entries, role := Halted), [])
  }

  /** An operation that throws leaves its server as it is then, in its role: the crash handler is told, and it is up
      to the application to close the server or to go on with it. */
  function Next(c: Cluster, a: Action): Cluster {
    if !Enabled(c, a) then c
    else
      var o := Perform(c, a);
      Cluster(c.servers[Actor(a) := o.server], c.net + (set m | m in o.sent))
  }

  /** The state after a run, which is any sequence of actions at all. */
  function Exec(n: nat, run: seq<Action>): (c: Cluster)
    ensures |c.servers| == n
  {
    if run == [] then Init(n) else Next(Exec(n, run[..|run| - 1]), run[|run| - 1])
  }

  // ---------------------------------------------------------------- history

  /** The rank of a ballot or an election is the number of elections that were won before it. */
  datatype Ballot = Ballot(candidate: nat, log: seq<Entry>, rank: nat)

  datatype Election = Election(leader: nat, voters: set<nat>, log: seq<Entry>, rank: nat)

  /** Things that happened: by (candidate, term) the log it campaigned with, by (voter, term) its first vote
      and its log at that time, by term the election that was won, the leader's log and the highest index it
      committed, and every log that a server ever had in memory. */
  datatype History = History(
    campaigns: map<(nat, nat), seq<Entry>>,
    ballots: map<(nat, nat), Ballot>,
    elections: map<nat, Election>,
    leaderLogs: map<nat, seq<Entry>>,
    commits: map<nat, nat>,
    held: set<(nat, seq<Entry>)>)

  function Ids(n: nat): (ids: set<nat>)
    ensures forall i: nat :: i in ids <==> i < n
    ensures |ids| == n
  {
    if n == 0 then {} else Ids(n - 1) + {n - 1}
  }

  function VotersFor(n: nat, ballots: map<(nat, nat), Ballot>, term: nat, candidate: nat): set<nat> {
    set v | v in Ids(n) && (v, term) in ballots && ballots[(v, term)].candidate == candidate
  }

  /** The history after server id came to be in state s. */
  function Record(h: History, n: nat, id: nat, s: Server): History {
    var campaigns :=
      if s.role.Candidate? && (id, s.term) !in h.campaigns then h.campaigns[(id, s.term) := s.log]
      else h.campaigns;
    var ballots :=
      if s.vote.Some? && (id, s.term) !in h.ballots
      then h.ballots[(id, s.term) := Ballot(s.vote.value, s.log, |h.elections|)]
      else h.ballots;
    var elections :=
      if s.role.Leader? && s.term !in h.elections
      then h.elections[s.term := Election(id, VotersFor(n, ballots, s.term, id), s.log, |h.elections|)]
      else h.elections;
    var leaderLogs := if s.role.Leader? then h.leaderLogs[s.term := s.log] else h.leaderLogs;
    var commits := if s.role.Leader? then h.commits[s.term := s.role.commitIndex] else h.commits;
    History(campaigns, ballots, elections, leaderLogs, commits, h.held + {(id, s.log)})
  }

  function Chronicle(n: nat, run: seq<Action>): History {
    if run == [] then History(map[], map[], map[], map[], map[], {})
    else
      var c, a := Exec(n, run[..|run| - 1]), run[|run| - 1];
      var h := Chronicle(n, run[..|run| - 1]);
      if Enabled(c, a) then Record(h, n, Actor(a), Perform(c, a).server) else h
  }
}
