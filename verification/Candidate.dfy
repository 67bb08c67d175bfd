/** The candidate role. */
module CandidateRole {
  import opened Entries
  import opened Protocol
  import opened StateStore
  import opened LogStore
  import opened ServerView

  class Candidate {
    var destroyed: bool
    var votesRequired: int
    var votesAlreadyReceived: set<nat>
    const id: nat
    const peers: seq<nat>
    const log: Log
    const state: State

    ghost predicate Valid()
      reads this, log, log.applier, log.disk, state
    {
      Settled(log, state)
    }

    ghost function View(): (s: Server)
      requires log.Valid()
      reads this, log, log.applier, log.disk, state
    {
      ViewOf(log, state, Protocol.Candidate(votesRequired, votesAlreadyReceived))
    }

    constructor (id: nat, peers: seq<nat>, log: Log, state: State)
      requires Settled(log, state)
      ensures Valid() && !destroyed
      ensures this.id == id && this.peers == peers && this.log == log && this.state == state
      ensures View() == ViewOf(log, state, Protocol.Candidate(0, {}))
    {
      destroyed, votesRequired, votesAlreadyReceived := false, 0, {};
      this.id, this.peers, this.log, this.state := id, peers, log, state;
    }

    method Destroy()
      modifies this`destroyed
      ensures destroyed && votesRequired == old(votesRequired) && votesAlreadyReceived == old(votesAlreadyReceived)
    {
      destroyed := true;
    }

    /** A new election: the votes are counted from scratch, and the new term with the vote for itself is
        persisted before any vote is requested. */
    method RequestVote(closed: bool) returns (sent: seq<Message>)
      requires Valid() && !destroyed && peers == Peers(|peers| + 1, id)
      modifies this, state, log.disk`currentTerm, log.disk`votedFor
      ensures Valid() && View() == StartElection(old(View()), |peers| + 1, id).server
      ensures sent == (if destroyed then [] else StartElection(old(View()), |peers| + 1, id).sent)
      ensures destroyed == closed
    {
      votesRequired, votesAlreadyReceived := (|peers| + 1) / 2, {};
      NextTerm(log, state, id, Protocol.Candidate(votesRequired, votesAlreadyReceived));
      if closed {
        Destroy();
      }
      sent := [];
      if !destroyed {
        sent := AskPeers();
      }
    }

    method AskPeers() returns (sent: seq<Message>)
      requires Valid()
      ensures sent == RequestVotes(View(), id, peers)
    {
      sent := [];
      for k := 0 to |peers|
        invariant sent == RequestVotes(View(), id, peers[..k])
      {
        sent := sent + [Message.RequestVote(id, peers[k], state.currentTerm, log.lastIndex, log.lastTerm)];
        assert RequestVotes(View(), id, peers[..k + 1]) == RequestVotes(View(), id, peers[..k]) + [sent[k]];
      }
      assert peers[..|peers|] == peers;
    }

    /** Handles any message as the cluster's step does, up to the conversion that the step ends with. */
    method HandleMessage(m: Message, closed: bool) returns (sent: seq<Message>, convert: Conversion)
      requires Valid() && !destroyed
      modifies this, state, log.disk`currentTerm, log.disk`votedFor
      ensures Valid() && (destroyed ==> closed && sent == [] && convert == Stay)
      ensures Converts(old(View()), m, View(), sent, convert, destroyed)
    {
      sent, convert := [], Stay;
      if m.term > state.currentTerm {
        convert := FollowNewer(m, closed);
      } else {
        sent, convert := Dispatch(m);
      }
    }

    /** A message that is not of a newer term. */
    method Dispatch(m: Message) returns (sent: seq<Message>, convert: Conversion)
      requires Valid() && m.term <= state.currentTerm
      modifies this`votesRequired, this`votesAlreadyReceived
      ensures Valid() && Converts(old(View()), m, View(), sent, convert, false)
    {
      sent, convert := [], Stay;
      if m.RequestVote? {
        sent := HandleRequestVote(m);
      } else if m.GrantVote? {
        convert := CountVote(m);
      } else if m.AppendEntries? {
        sent, convert := HandleAppendEntries(m);
      }
    }

    method HandleRequestVote(m: Message) returns (sent: seq<Message>)
      requires Valid() && m.RequestVote? && m.term <= state.currentTerm
      ensures Converts(View(), m, View(), sent, Stay, false)
    {
      sent := if m.term < state.currentTerm then [DenyVote(id, m.src, state.currentTerm)] else [];
    }

    /** A leader of the current term is followed, one of an older term is told about the current one. */
    method HandleAppendEntries(m: Message) returns (sent: seq<Message>, convert: Conversion)
      requires Valid() && m.AppendEntries? && m.term <= state.currentTerm
      ensures Converts(View(), m, View(), sent, convert, false)
    {
      if m.term == state.currentTerm {
        return [], ToFollower(m);
      }
      sent, convert := [RejectEntries(id, m.src, state.currentTerm, None)], Stay;
    }

    method CountVote(m: Message) returns (convert: Conversion)
      requires Valid() && m.GrantVote? && m.term <= state.currentTerm
      modifies this`votesRequired, this`votesAlreadyReceived
      ensures Valid() && Converts(old(View()), m, View(), [], convert, false)
    {
      ghost var s := View();
      convert := HandleGrantVote(m);
      VoteCounted(s, m, View(), convert);
    }

    lemma VoteCounted(s: Server, m: Message, s': Server, convert: Conversion)
      requires s.role.Candidate? && m.GrantVote? && m.term <= s.term
      requires Counts(s, m, s', convert)
      ensures Converts(s, m, s', [], convert, false)
    {
    }

    ghost predicate Counts(s: Server, m: Message, s': Server, convert: Conversion)
      requires s.role.Candidate?
    {
      if m.term != s.term || m.src in s.role.votesReceived then convert == Stay && s' == s
      else
        && convert == (if s.role.votesRequired == 1 then ToLeader else Stay)
        && s' == s.(role := Protocol.Candidate(s.role.votesRequired - 1, s.role.votesReceived + {m.src}))
    }

    /** What handling m in state s comes to: the step of the cluster is the new state and what was sent,
        followed by the first operation of the role that was asked for. */
    ghost predicate Converts(s: Server, m: Message, s': Server, sent: seq<Message>, convert: Conversion, cut: bool) {
      && s.role.Candidate? && s'.role.Candidate?
      && match convert
         case Stay =>
           if cut then m.term > s.term && s' == SetTerm(s, m.term)
           else CandidateReceive(s, |peers| + 1, id, m) == Sends(s', sent)
         case ToFollower(replay) =>
           && replay == m && sent == []
           && CandidateReceive(s, |peers| + 1, id, m) == FollowerReceive(ConvertToFollower(s'), id, m)
         case ToLeader =>
           && sent == []
           && CandidateReceive(s, |peers| + 1, id, m) == BecomeLeader(s', |peers| + 1, id)
         case ToCandidate => false
    }

    method FollowNewer(m: Message, closed: bool) returns (convert: Conversion)
      requires Valid() && !destroyed && m.term > state.currentTerm
      modifies this`destroyed, state, log.disk`currentTerm, log.disk`votedFor
      ensures Valid() && View() == SetTerm(old(View()), m.term) && destroyed == closed
      ensures convert == if destroyed then Stay else ToFollower(m)
    {
      AdoptTerm(log, state, m.term, Protocol.Candidate(votesRequired, votesAlreadyReceived));
      if closed {
        Destroy();
      }
      convert := if destroyed then Stay else ToFollower(m);
    }

    /** A peer's vote counts once, and only for the current term. */
    method HandleGrantVote(m: Message) returns (convert: Conversion)
      requires Valid() && m.GrantVote? && m.term <= state.currentTerm
      modifies this`votesRequired, this`votesAlreadyReceived
      ensures Valid() && Counts(old(View()), m, View(), convert)
    {
      if m.term != state.currentTerm || m.src in votesAlreadyReceived {
        return Stay;
      }
      votesAlreadyReceived, votesRequired := votesAlreadyReceived + {m.src}, votesRequired - 1;
      convert := if votesRequired == 0 then ToLeader else Stay;
    }
  }
}
