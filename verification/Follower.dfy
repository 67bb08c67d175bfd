/** The follower role. */
module FollowerRole {
  import opened Entries
  import opened Protocol
  import opened StateStore
  import opened LogStore
  import opened ServerView

  class Follower {
    var commitIndex: nat
    var destroyed: bool
    var ignoreNextElectionTimeout: bool
    var scheduledTimeoutHandler: bool
    const id: nat
    const log: Log
    const state: State

    ghost predicate Valid()
      reads this, log, log.applier, log.disk, state
    {
      Settled(log, state)
    }

    ghost function View(): (s: Server)
      requires log.Valid()
      reads this, log, log.applier, log.disk, state
    {
      ViewOf(log, state, Protocol.Follower(commitIndex))
    }

    constructor (id: nat, log: Log, state: State)
      requires Settled(log, state)
      ensures Valid() && this.id == id && this.log == log && this.state == state
      ensures !destroyed && !ignoreNextElectionTimeout && !scheduledTimeoutHandler
      ensures View() == ViewOf(log, state, Protocol.Follower(0))
    {
      commitIndex, destroyed, ignoreNextElectionTimeout, scheduledTimeoutHandler := 0, false, false, false;
      this.id, this.log, this.state := id, log, state;
    }

    method Destroy()
      modifies this`destroyed
      ensures destroyed
    {
      destroyed := true;
    }

    /** The timer fires; the handler is scheduled unless an earlier one has not run yet. */
    method MaybeStartElection() returns (schedule: bool)
      modifies this`scheduledTimeoutHandler
      ensures scheduledTimeoutHandler && schedule == !old(scheduledTimeoutHandler)
    {
      schedule := !scheduledTimeoutHandler;
      scheduledTimeoutHandler := true;
    }

    /** The scheduled handler: one timeout is ignored after the leader or a candidate was heard. */
    method HandleTimeout() returns (convertToCandidate: bool)
      modifies this`scheduledTimeoutHandler, this`ignoreNextElectionTimeout
      ensures !scheduledTimeoutHandler && !ignoreNextElectionTimeout
      ensures convertToCandidate == !old(ignoreNextElectionTimeout)
    {
      scheduledTimeoutHandler := false;
      if ignoreNextElectionTimeout {
        ignoreNextElectionTimeout := false;
        return false;
      }
      convertToCandidate := true;
    }

    /** Handles any message as the cluster's step does. When the role is closed while the handler waits for
        its writes, the state is the same but nothing is sent. */
    method HandleMessage(m: Message, closed: bool) returns (sent: seq<Message>)
      requires Valid() && !destroyed && WellFormed(m)
      modifies this, log, log.applier, log.disk, state
      ensures Valid() && View() == FollowerReceive(old(View()), id, m).server
      ensures sent == (if destroyed then [] else FollowerReceive(old(View()), id, m).sent)
      ensures destroyed ==> closed
    {
      if m.RequestVote? {
        sent := HandleRequestVote(m, closed);
      } else if m.AppendEntries? {
        sent := HandleAppendEntries(m, closed);
      } else {
        sent := [];
      }
    }

    method HandleRequestVote(m: Message, closed: bool) returns (sent: seq<Message>)
      requires Valid() && !destroyed && m.RequestVote? && WellFormed(m)
      modifies this, log, log.applier, log.disk, state
      ensures Valid() && View() == FollowerRequestVote(old(View()), id, m).server
      ensures sent == (if destroyed then [] else FollowerRequestVote(old(View()), id, m).sent)
      ensures destroyed ==> closed
      ensures ignoreNextElectionTimeout == (old(ignoreNextElectionTimeout) || (sent != [] && sent[0].GrantVote?))
    {
      if m.term < state.currentTerm {
        return [DenyVote(id, m.src, state.currentTerm)];
      }
      var allowVote := state.votedFor == None || state.votedFor == Some(m.src);
      var outdated := log.CheckOutdated(m.lastLogTerm, m.lastLogIndex);
      if allowVote && !outdated {
        sent := GrantVoteTo(m, closed);
      } else {
        FollowTerm(m.term);
        sent := [];
      }
    }

    /** The vote is persisted before it is sent, and gives the candidate a chance to win. */
    method GrantVoteTo(m: Message, closed: bool) returns (sent: seq<Message>)
      requires Valid() && !destroyed && m.term >= 1
      modifies this`destroyed, this`ignoreNextElectionTimeout, log.disk`currentTerm, log.disk`votedFor, state
      ensures Valid() && View() == old(View()).(term := m.term, vote := Some(m.src)) && destroyed == closed
      ensures sent == if destroyed then [] else [Protocol.GrantVote(id, m.src, m.term)]
      ensures ignoreNextElectionTimeout == (old(ignoreNextElectionTimeout) || !destroyed)
    {
      AdoptVote(log, state, m.term, m.src, Protocol.Follower(commitIndex));
      if closed {
        Destroy();
      }
      if destroyed {
        return [];
      }
      ignoreNextElectionTimeout := true;
      sent := [Protocol.GrantVote(id, m.src, state.currentTerm)];
    }

    /** The log is cut and the term set before committing; the entries land after it. */
    method HandleAppendEntries(m: Message, closed: bool) returns (sent: seq<Message>)
      requires Valid() && !destroyed && m.AppendEntries? && WellFormed(m)
      modifies this, log, log.applier, log.disk, state
      ensures Valid() && View() == FollowerAppendEntries(old(View()), id, m).server
      ensures sent == (if destroyed then [] else FollowerAppendEntries(old(View()), id, m).sent)
      ensures destroyed ==> closed
      ensures ignoreNextElectionTimeout == (old(ignoreNextElectionTimeout) || m.term >= old(state.currentTerm))
    {
      if m.term < state.currentTerm {
        return [RejectEntries(id, m.src, state.currentTerm, None)];
      }
      ignoreNextElectionTimeout := true;
      sent := HandleLeader(m, closed);
    }

    /** Entries of the current leader, or of a newer one. */
    method HandleLeader(m: Message, closed: bool) returns (sent: seq<Message>)
      requires Valid() && !destroyed && m.AppendEntries? && WellFormed(m) && m.term >= state.currentTerm
      modifies this`commitIndex, this`destroyed, log, log.applier, log.disk, state
      ensures Valid() && View() == FollowerAppendEntries(old(View()), id, m).server
      ensures sent == (if destroyed then [] else FollowerAppendEntries(old(View()), id, m).sent)
      ensures destroyed ==> closed
    {
      var matches := CheckPrevious(m);
      if !matches {
        return [RejectEntries(id, m.src, state.currentTerm, Some(Min(m.prevLogIndex, Max(log.lastIndex, 1))))];
      }
      AcceptMessage(m);
      if closed {
        Destroy();
      }
      sent := if destroyed then [] else [AcceptEntries(id, m.src, state.currentTerm, log.lastIndex)];
    }

    /** There must not be a gap before the first entry. */
    method CheckPrevious(m: Message) returns (matches: bool)
      requires Valid() && m.AppendEntries?
      ensures matches == Matches(View().log, m.prevLogIndex, m.prevLogTerm)
    {
      if m.prevLogIndex > 0 {
        var prevEntry := log.GetEntry(m.prevLogIndex);
        if prevEntry == None || prevEntry.value.term != m.prevLogTerm {
          return false;
        }
      }
      matches := true;
    }

    /** What is done with entries that passed the consistency check, until all of it has landed. */
    method AcceptMessage(m: Message)
      requires Valid() && m.AppendEntries? && WellFormed(m) && Matches(View().log, m.prevLogIndex, m.prevLogTerm)
      modifies this`commitIndex, log, log.applier, log.disk, state
      ensures Valid() && View() == Accept(old(View()), m)
    {
      AcceptIsMerge(View(), m);
      var pending := CommitFirst(m);
      Land(log, state, pending, Protocol.Follower(commitIndex));
    }

    /** Everything but the new entries. */
    method CommitFirst(m: Message) returns (pending: seq<Entry>)
      requires Valid() && m.AppendEntries? && WellFormed(m) && Matches(View().log, m.prevLogIndex, m.prevLogTerm)
      modifies this`commitIndex, log, log.applier, log.disk`currentTerm, log.disk`votedFor, state
      ensures Valid() && pending == m.entries && log.lastIndex == m.prevLogIndex
      ensures View() == Committed(CutAndTermed(old(View()), m), m)
    {
      ghost var before := View();
      pending := CutMessage(m);
      CommitMessage(m, CutAndTermed(before, m));
    }

    method CutMessage(m: Message) returns (pending: seq<Entry>)
      requires Valid() && m.AppendEntries? && WellFormed(m) && Matches(View().log, m.prevLogIndex, m.prevLogTerm)
      modifies log, log.disk`currentTerm, log.disk`votedFor, state
      ensures Valid() && pending == m.entries && log.lastIndex == m.prevLogIndex
      ensures View() == CutAndTermed(old(View()), m)
    {
      pending := Cut(log, state, m.entries, m.prevLogIndex, m.prevLogTerm, Protocol.Follower(commitIndex));
      FollowTerm(m.term);
    }

    method FollowTerm(term: nat)
      requires Valid()
      modifies state, log.disk`currentTerm, log.disk`votedFor
      ensures Valid() && View() == if term > old(View()).term then SetTerm(old(View()), term) else old(View())
    {
      if term > state.currentTerm {
        AdoptTerm(log, state, term, Protocol.Follower(commitIndex));
      }
    }

    /** At this moment the log ends at prevLogIndex. */
    method CommitMessage(m: Message, ghost s: Server)
      requires Valid() && m.AppendEntries? && View() == s && log.lastIndex == m.prevLogIndex
      modifies this`commitIndex, log.applier
      ensures Valid()
      ensures View() == Committed(s, m)
    {
      if m.leaderCommit > commitIndex {
        commitIndex := Min(m.leaderCommit, log.lastIndex);
        assert View() == s.(role := Protocol.Follower(commitIndex));
        Commit(log, state, commitIndex, None, Protocol.Follower(commitIndex));
      }
    }
  }

  // ---------------------------------------------------------------- the parts of accepting entries

  function CutAndTermed(s: Server, m: Message): (s': Server)
    requires s.role.Follower? && m.AppendEntries? && m.prevLogIndex <= |s.log|
    ensures s'.role == s.role
  {
    var cut := s.(log := s.log[..m.prevLogIndex]);
    if m.term > s.term then SetTerm(cut, m.term) else cut
  }

  function Committed(s: Server, m: Message): (s': Server)
    requires s.role.Follower? && m.AppendEntries?
    ensures s'.log == s.log && s'.stream == s.stream
  {
    if m.leaderCommit > s.role.commitIndex then
      var index := Min(m.leaderCommit, m.prevLogIndex);
      CommitTo(s, index).(role := Protocol.Follower(index))
    else s
  }

  lemma AcceptIsMerge(s: Server, m: Message)
    requires s.role.Follower? && m.AppendEntries? && Matches(s.log, m.prevLogIndex, m.prevLogTerm)
    ensures
      var committed := Committed(CutAndTermed(s, m), m);
      Accept(s, m) == committed.(log := committed.log + m.entries, stream := committed.stream + m.entries)
  {
  }
}
