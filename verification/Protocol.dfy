/** What one scheduled operation does to one server: the state it leaves and the messages it sends.
    The role classes are proved to compute these functions; the cluster takes them as its steps. */
module Protocol {
  import opened Entries

  datatype Message =
    | RequestVote(src: nat, dst: nat, term: nat, lastLogIndex: nat, lastLogTerm: nat)
    | GrantVote(src: nat, dst: nat, term: nat)
    | DenyVote(src: nat, dst: nat, term: nat)
    | AppendEntries(src: nat, dst: nat, term: nat, prevLogIndex: nat, prevLogTerm: nat,
                    leaderCommit: nat, entries: seq<Entry>)
    | RejectEntries(src: nat, dst: nat, term: nat, conflictingIndex: Option<nat>)
    | AcceptEntries(src: nat, dst: nat, term: nat, ackedIndex: nat)

  /** nextIndex and matchIndex of one peer. */
  datatype Progress = Progress(next: nat, matched: nat)

  /** An entry appended in this leadership and not yet committed. */
  datatype Pending = Pending(index: nat, required: int)

  datatype Role =
    | Follower(commitIndex: nat)
    | Candidate(votesRequired: int, votesReceived: set<nat>)
    | Leader(commitIndex: nat, progress: map<nat, Progress>, pending: seq<Pending>)
    | Halted

  /** A server: its term and vote (which are persisted with every change), its log in memory, everything it
      ever persisted to its log, what it handed to its applier since the last reset, and its role. */
  datatype Server = Server(
    term: nat,
    vote: Option<nat>,
    log: seq<Entry>,
    stream: seq<Entry>,
    lastQueued: nat,
    queued: seq<Option<Entry>>,
    applying: Applying,
    role: Role)

  /** The result of an operation; thrown says that it ended in an exception, after the given sends. */
  datatype Outcome = Outcome(server: Server, sent: seq<Message>, thrown: bool)

  /** ceil(P / 2) for the P = n - 1 peers of a cluster of n servers. */
  function HalfOfPeers(n: nat): nat {
    n / 2
  }

  function Peers(n: nat, id: nat): (peers: seq<nat>)
    ensures forall p: nat :: p in peers <==> p < n && p != id
  {
    if n == 0 then []
    else if n - 1 == id then Peers(n - 1, id)
    else Peers(n - 1, id) + [n - 1]
  }

  function Min(a: nat, b: nat): nat {
    if a < b then a else b
  }

  function Max(a: nat, b: nat): nat {
    if a < b then b else a
  }

  function Sends(server: Server, sent: seq<Message>): Outcome {
    Outcome(server, sent, false)
  }

  // ---------------------------------------------------------------- shared state

  /** Log.commit: everything after the last queued entry, up to index, is handed to the applier. Asking for
      index 0 hands it nothing that it can apply. To a stalled applier only the first entry is handed. */
  function CommitTo(s: Server, index: nat): Server {
    if 1 <= index <= |s.log| then
      var from, last := FirstHanded(s.lastQueued, index) - 1, LastHanded(s.applying, s.lastQueued, index);
      s.(queued := s.queued + Queueable(s.log[from..last]), lastQueued := last,
         applying := AfterAll(s.applying, s.log, from, last))
    else
      s.(queued := s.queued + [None], applying := AfterMissing(s.applying))
  }

  function Queueable(entries: seq<Entry>): (r: seq<Option<Entry>>)
    ensures |r| == |entries|
    ensures forall j :: 0 <= j < |r| ==> r[j] == Some(entries[j])
  {
    seq(|entries|, j requires 0 <= j < |entries| => Some(entries[j]))
  }

  function SetTerm(s: Server, term: nat): Server {
    s.(term := term, vote := None)
  }

  function ConvertToFollower(s: Server): Server {
    s.(role := Follower(0))
  }

  // ---------------------------------------------------------------- follower

  function FollowerReceive(s: Server, id: nat, m: Message): Outcome
    requires s.role.Follower?
  {
    match m
    case RequestVote(_, _, _, _, _) => FollowerRequestVote(s, id, m)
    case AppendEntries(_, _, _, _, _, _, _) => FollowerAppendEntries(s, id, m)
    case _ => Sends(s, [])
  }

  function FollowerRequestVote(s: Server, id: nat, m: Message): Outcome
    requires m.RequestVote?
  {
    if m.term < s.term then
      Sends(s, [DenyVote(id, m.src, s.term)])
    else if (s.vote == None || s.vote == Some(m.src)) && !Outdated(s.log, m.lastLogTerm, m.lastLogIndex) then
      Sends(s.(term := m.term, vote := Some(m.src)), [GrantVote(id, m.src, m.term)])
    else if m.term > s.term then
      Sends(SetTerm(s, m.term), [])
    else
      Sends(s, [])
  }

  /** The consistency check: there is an entry at prevLogIndex and it has the right term. */
  predicate Matches(log: seq<Entry>, prev: nat, prevTerm: nat) {
    prev == 0 || (prev <= |log| && log[prev - 1].term == prevTerm)
  }

  function FollowerAppendEntries(s: Server, id: nat, m: Message): Outcome
    requires s.role.Follower? && m.AppendEntries?
  {
    if m.term < s.term then
      Sends(s, [RejectEntries(id, m.src, s.term, None)])
    else if !Matches(s.log, m.prevLogIndex, m.prevLogTerm) then
      Sends(s, [RejectEntries(id, m.src, s.term, Some(Min(m.prevLogIndex, Max(|s.log|, 1))))])
    else
      var after := Accept(s, m);
      Sends(after, [AcceptEntries(id, m.src, after.term, |after.log|)])
  }

  /** The state after accepted entries: the log is cut, the term adopted, entries are committed while
      lastIndex is still prevLogIndex, and only then the new entries land. */
  function Accept(s: Server, m: Message): Server
    requires s.role.Follower? && m.AppendEntries? && Matches(s.log, m.prevLogIndex, m.prevLogTerm)
  {
    var cut := s.(log := s.log[..m.prevLogIndex]);
    var termed := if m.term > s.term then SetTerm(cut, m.term) else cut;
    var committed :=
      if m.leaderCommit > s.role.commitIndex then
        var index := Min(m.leaderCommit, m.prevLogIndex);
        CommitTo(termed, index).(role := Follower(index))
      else termed;
    committed.(log := Merge(s.log, m.prevLogIndex, m.entries), stream := s.stream + m.entries)
  }

  // ---------------------------------------------------------------- candidate

  function StartElection(s: Server, n: nat, id: nat): Outcome {
    var s' := s.(term := s.term + 1, vote := Some(id), role := Candidate(HalfOfPeers(n), {}));
    Sends(s', RequestVotes(s', id, Peers(n, id)))
  }

  function RequestVotes(s: Server, id: nat, peers: seq<nat>): seq<Message> {
    seq(|peers|, j requires 0 <= j < |peers| => RequestVote(id, peers[j], s.term, |s.log|, LastTerm(s.log)))
  }

  function CandidateReceive(s: Server, n: nat, id: nat, m: Message): Outcome
    requires s.role.Candidate?
  {
    if m.term > s.term then
      FollowerReceive(ConvertToFollower(SetTerm(s, m.term)), id, m)
    else
      match m
      case RequestVote(_, _, _, _, _) =>
        Sends(s, if m.term < s.term then [DenyVote(id, m.src, s.term)] else [])
      case GrantVote(_, _, _) => CandidateGrantVote(s, n, id, m)
      case AppendEntries(_, _, _, _, _, _, _) =>
        if m.term == s.term then FollowerReceive(ConvertToFollower(s), id, m)
        else Sends(s, [RejectEntries(id, m.src, s.term, None)])
      case _ => Sends(s, [])
  }

  function CandidateGrantVote(s: Server, n: nat, id: nat, m: Message): Outcome
    requires s.role.Candidate?
  {
    if m.term != s.term || m.src in s.role.votesReceived then
      Sends(s, [])
    else
      var required, received := s.role.votesRequired - 1, s.role.votesReceived + {m.src};
      if required == 0 then BecomeLeader(s, n, id)
      else Sends(s.(role := Candidate(required, received)), [])
  }

  // ---------------------------------------------------------------- leader

  function BecomeLeader(s: Server, n: nat, id: nat): Outcome {
    var progress := map p | p in Peers(n, id) :: Progress(|s.log| + 1, 0);
    LeaderHeartbeat(s.(role := Leader(0, progress, [])), n, id)
  }

  /** updateFollower looks up the term at prevLogIndex, which throws when the log has no such entry. */
  predicate CanUpdate(s: Server, peer: nat)
    requires s.role.Leader?
  {
    peer in s.role.progress && 1 <= s.role.progress[peer].next <= |s.log| + 1
  }

  function UpdateFollower(s: Server, id: nat, peer: nat, heartbeatOnly: bool): Message
    requires s.role.Leader? && CanUpdate(s, peer)
  {
    var prev := s.role.progress[peer].next - 1;
    AppendEntries(id, peer, s.term, prev, TermAt(s.log, prev), s.role.commitIndex,
                  if heartbeatOnly || prev != s.role.progress[peer].matched then [] else s.log[prev..])
  }

  function UpdateAll(s: Server, id: nat, peers: seq<nat>, heartbeatOnly: bool): Outcome
    requires s.role.Leader?
  {
    if peers == [] then
      Sends(s, [])
    else if !CanUpdate(s, peers[0]) then
      Outcome(s, [], true)
    else
      var rest := UpdateAll(s, id, peers[1..], heartbeatOnly);
      Outcome(s, [UpdateFollower(s, id, peers[0], heartbeatOnly)] + rest.sent, rest.thrown)
  }

  function LeaderHeartbeat(s: Server, n: nat, id: nat): Outcome
    requires s.role.Leader?
  {
    UpdateAll(s, id, Peers(n, id), true)
  }

  function LeaderAppend(s: Server, n: nat, id: nat, value: Payload): Outcome
    requires s.role.Leader?
  {
    UpdateAll(Appended(s, n, value), id, Peers(n, id), false)
  }

  /** The new entry is the leader's own, and waits for at least half of the peers. */
  function Appended(s: Server, n: nat, value: Payload): (s': Server)
    requires s.role.Leader?
    ensures s'.role.Leader?
  {
    var entry := Entry(|s.log| + 1, s.term, value);
    var role := s.role.(pending := s.role.pending + [Pending(entry.index, HalfOfPeers(n))]);
    s.(log := s.log + [entry], stream := s.stream + [entry], role := role)
  }

  function LeaderReceive(s: Server, n: nat, id: nat, m: Message): Outcome
    requires s.role.Leader?
  {
    if m.term > s.term then
      FollowerReceive(ConvertToFollower(SetTerm(s, m.term)), id, m)
    else
      match m
      case RequestVote(_, _, _, _, _) =>
        if m.term < s.term then Sends(s, [DenyVote(id, m.src, s.term)])
        else if m.src in s.role.progress then UpdateAll(s, id, [m.src], true)
        else Sends(s, [])
      case RejectEntries(_, _, _, _) => LeaderRejectEntries(s, id, m)
      case AcceptEntries(_, _, _, _) => LeaderAcceptEntries(s, id, m)
      case _ => Sends(s, [])
  }

  function SetProgress(s: Server, peer: nat, p: Progress): Server
    requires s.role.Leader?
  {
    s.(role := s.role.(progress := s.role.progress[peer := p]))
  }

  function LeaderRejectEntries(s: Server, id: nat, m: Message): Outcome
    requires s.role.Leader? && m.RejectEntries?
  {
    if m.src !in s.role.progress || m.conflictingIndex == None then Sends(s, [])
    else
      var p, conflict := s.role.progress[m.src], m.conflictingIndex.value;
      if p.matched < conflict < p.next then
        UpdateAll(SetProgress(s, m.src, p.(next := conflict)), id, [m.src], true)
      else Sends(s, [])
  }

  function LeaderAcceptEntries(s: Server, id: nat, m: Message): Outcome
    requires s.role.Leader? && m.AcceptEntries?
  {
    if m.src !in s.role.progress then Sends(s, [])
    else
      var s' := RecordAccept(s, m.src, m.ackedIndex);
      if s'.role.progress[m.src].next <= |s'.log| then UpdateAll(s', id, [m.src], false)
      else Sends(s', [])
  }

  function RecordAccept(s: Server, peer: nat, acked: nat): (s': Server)
    requires s.role.Leader? && peer in s.role.progress
    ensures s'.role.Leader? && s'.role.progress.Keys == s.role.progress.Keys
  {
    if acked >= s.role.progress[peer].next then
      SetProgress(MarkReplication(s, s.role.progress[peer].next, acked), peer, Progress(acked + 1, acked))
    else s
  }

  function MarkReplication(s: Server, start: nat, end: nat): (s': Server)
    requires s.role.Leader?
    ensures s'.role.Leader? && s'.role.progress == s.role.progress
  {
    CommitReplicated(s.(role := s.role.(pending := CountAccept(s.role.pending, start, end))))
  }

  /** One more accept for every pending entry from start to end; the loop stops at the first one past end. */
  function CountAccept(pending: seq<Pending>, start: nat, end: nat): (r: seq<Pending>)
    ensures |r| == |pending|
  {
    if pending == [] || pending[0].index > end then pending
    else
      [if pending[0].index >= start then pending[0].(required := pending[0].required - 1) else pending[0]]
      + CountAccept(pending[1..], start, end)
  }

  /** Commits from the front of the queue while no more accepts are required. */
  function CommitReplicated(s: Server): (s': Server)
    requires s.role.Leader?
    ensures s'.role.Leader? && s'.role.progress == s.role.progress
    decreases if s.role.Leader? then |s.role.pending| else 0
  {
    if s.role.pending != [] && s.role.pending[0].required == 0 then
      CommitReplicated(CommitFirst(s))
    else s
  }

  function CommitFirst(s: Server): (s': Server)
    requires s.role.Leader? && s.role.pending != []
    ensures s'.role.Leader? && s'.role.progress == s.role.progress && s'.role.pending == s.role.pending[1..]
  {
    var index := s.role.pending[0].index;
    CommitTo(s, index).(role := s.role.(commitIndex := index, pending := s.role.pending[1..]))
  }

  // ---------------------------------------------------------------- any role

  function Receive(s: Server, n: nat, id: nat, m: Message): Outcome
    requires !s.role.Halted?
  {
    match s.role
    case Follower(_) => FollowerReceive(s, id, m)
    case Candidate(_, _) => CandidateReceive(s, n, id, m)
    case Leader(_, _, _) => LeaderReceive(s, n, id, m)
  }

  /** The server, in whatever role, takes up the entries of this message. */
  predicate Accepts(s: Server, m: Message) {
    && m.AppendEntries? && !s.role.Halted?
    && (if s.role.Leader? then m.term > s.term else m.term >= s.term)
    && Matches(s.log, m.prevLogIndex, m.prevLogTerm)
  }

  /** A role other than a follower adopts the term and converts before it handles the message. */
  function TakesUp(s: Server, m: Message): (s': Server)
    requires Accepts(s, m)
    ensures s'.role.Follower? && s'.log == s.log && s'.stream == s.stream
  {
    if s.role.Follower? then s else ConvertToFollower(if m.term > s.term then SetTerm(s, m.term) else s)
  }

  /** What a follower has handed to its state machine by the time that its writes begin to land. */
  function HandsOver(s: Server, m: Message): Server
    requires s.role.Follower? && m.AppendEntries? && Matches(s.log, m.prevLogIndex, m.prevLogTerm)
  {
    var after := Accept(s, m);
    s.(queued := after.queued, lastQueued := after.lastQueued, applying := after.applying)
  }

  /** A server that comes back has only what it persisted; the harness restores no entries for a server
      that never persisted a term. */
  function Restart(s: Server, lastApplied: nat): Server {
    var log := if s.term == 0 then [] else Replay(s.stream);
    Server(s.term, s.vote, log, s.stream, lastApplied, [], Idle, Follower(0))
  }
}
