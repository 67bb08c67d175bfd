/** The term and vote of a server; every change is persisted before its operation goes on. */
module StateStore {
  import opened Entries
  import opened Stable

  class State {
    var currentTerm: nat
    var votedFor: Option<nat>
    const disk: ServerState

    /** What is in memory is what a restart would restore. Term 0 is never persisted, and has no vote. */
    ghost predicate Saved()
      reads this, disk
    {
      if disk.currentTerm.Some? then disk.currentTerm.value == currentTerm >= 1 && disk.votedFor == votedFor
      else currentTerm == 0 && votedFor == None
    }

    constructor (disk: ServerState)
      ensures currentTerm == 0 && votedFor == None && this.disk == disk
      ensures disk.currentTerm == None ==> Saved()
    {
      currentTerm, votedFor := 0, None;
      this.disk := disk;
    }

    /** Restores what was persisted; a negative term is refused. */
    method Replace(currentTerm: int, votedFor: Option<nat>) returns (ok: bool)
      modifies this
      ensures ok == (currentTerm >= 0)
      ensures if ok then this.currentTerm == currentTerm && this.votedFor == votedFor else unchanged(this)
    {
      if currentTerm < 0 {
        return false;
      }
      this.currentTerm, this.votedFor := currentTerm, votedFor;
      ok := true;
    }

    method NextTerm(votedFor: Option<nat>)
      modifies this, disk`currentTerm, disk`votedFor
      ensures Saved() && currentTerm == old(currentTerm) + 1 && this.votedFor == votedFor
    {
      currentTerm := currentTerm + 1;
      this.votedFor := votedFor;
      disk.PersistState(currentTerm, votedFor);
    }

    /** The vote of the previous term is forgotten. Term 0 is refused, as by SetTermAndVote. */
    method SetTerm(term: nat) returns (ok: bool)
      modifies this, disk`currentTerm, disk`votedFor
      ensures ok == (term >= 1)
      ensures ok ==> Saved() && currentTerm == term && votedFor == None
      ensures !ok ==> unchanged(this) && unchanged(disk)
    {
      if term < 1 {
        return false;
      }
      currentTerm, votedFor := term, None;
      disk.PersistState(currentTerm, votedFor);
      ok := true;
    }

    method SetTermAndVote(term: nat, votedFor: Option<nat>) returns (ok: bool)
      modifies this, disk`currentTerm, disk`votedFor
      ensures ok == (term >= 1)
      ensures ok ==> Saved() && currentTerm == term && this.votedFor == votedFor
      ensures !ok ==> unchanged(this) && unchanged(disk)
    {
      if term < 1 {
        return false;
      }
      currentTerm, this.votedFor := term, votedFor;
      disk.PersistState(currentTerm, votedFor);
      ok := true;
    }
  }
}
