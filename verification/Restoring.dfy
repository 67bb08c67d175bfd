/** A killed server comes back with what it had persisted. */
module Restoring {
  import opened Entries
  import opened Protocol
  import opened Applier
  import opened Stable
  import opened StateStore
  import opened LogStore
  import opened ServerView
  import opened RaftServer

  /** A new server for a member of the cluster restores what was persisted: its state first, then its log. Whatever
      server it was that persisted this last, what it has now become is what the cluster's step says. */
  method ComeBack(id: nat, peers: seq<nat>, disk: ServerState, ghost s: Server) returns (server: Raft)
    requires disk.Valid() && peers == Peers(|peers| + 1, id) && Persisted(s, disk)
    modifies disk`killed
    ensures fresh(server) && fresh(server.log) && fresh(server.log.applier) && fresh(server.state)
    ensures server.log.disk == disk && !disk.killed && server.id == id && server.peers == peers
    ensures server.Valid() && server.Live()
    ensures server.View() == Restart(s, if s.term == 0 then 0 else disk.lastApplied)
    ensures disk.lastApplied <= server.log.lastIndex ==> server.log.InStep()
  {
    var log, state := Restore(disk, s);
    ghost var restarted := ViewOf(log, state, Protocol.Follower(0));
    server := new Raft(id, peers, log, state);
    assert server.View().(role := Protocol.Follower(0)) == restarted;
    server.Join();
    assert server.View() == restarted;
  }

  method Restore(disk: ServerState, ghost s: Server) returns (log: Log, state: State)
    requires disk.Valid() && Persisted(s, disk)
    modifies disk`killed
    ensures fresh(log) && fresh(log.applier) && fresh(state) && log.disk == disk && !disk.killed
    ensures Settled(log, state)
    ensures ViewOf(log, state, Protocol.Follower(0)) == Restart(s, if s.term == 0 then 0 else disk.lastApplied)
    ensures disk.lastApplied <= log.lastIndex ==> log.InStep()
  {
    var restored, stream, lastApplied, term, vote := disk.Restart();
    var applier := new LogEntryApplier();
    log := new Log(applier, disk);
    state := new State(disk);
    if restored {
      var _ := state.Replace(term, vote);
      ReplaceLog(log, stream, lastApplied);
    }
  }

  /** A new log is not being applied, so replacing it is not refused. */
  method ReplaceLog(log: Log, stream: seq<Entry>, lastApplied: nat)
    requires log.Valid() && log.disk.Valid() && stream == log.disk.entries
    requires log.applier.Valid() && !log.applier.busy && log.applier.jobs == log.applier.queue == []
    modifies log, log.applier
    ensures log.Valid() && log.Durable() && log.applier.Valid() && log.Contents() == Replay(stream)
    ensures log.applier.lastQueued == lastApplied && log.applier.jobs == [] && log.applier.Phase() == Idle
    ensures lastApplied <= log.lastIndex ==> log.InStep()
  {
    var _ := log.Replace(stream, lastApplied);
  }

  /** What this server persisted is on this disk: nothing at all as long as it has been in term 0. */
  ghost predicate Persisted(s: Server, disk: ServerState)
    reads disk
  {
    && s.stream == disk.entries
    && if s.term == 0 then disk.currentTerm == None && s.vote == None
       else disk.currentTerm == Some(s.term) && disk.votedFor == s.vote
  }

  /** Between operations this holds of every server. */
  lemma SettledIsPersisted(log: Log, state: State, role: Role)
    requires Settled(log, state)
    ensures Persisted(ViewOf(log, state, role), log.disk)
  {
  }
}
