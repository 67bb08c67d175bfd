/** The server that the cluster's steps talk about, read off the objects that hold its state. */
module ServerView {
  import opened Entries
  import opened Protocol
  import opened Applier
  import opened StateStore
  import opened LogStore

  /** Messages as servers send them: no candidate or leader has term 0, and entries follow their
      predecessor without a gap. */
  ghost predicate WellFormed(m: Message) {
    && (m.RequestVote? ==> m.term >= 1)
    && (m.AppendEntries? ==>
      && m.term >= 1 && (m.prevLogIndex == 0 ==> m.prevLogTerm == 0)
      && (forall j :: 0 <= j < |m.entries| ==> m.entries[j].index == m.prevLogIndex + 1 + j))
  }

  /** What a role asks of the server at the end of an operation. */
  datatype Conversion = Stay | ToFollower(replay: Message) | ToCandidate | ToLeader

  /** What was handed to the applier. */
  function Handed(jobs: seq<Job>): (queued: seq<Option<Entry>>)
    ensures |queued| == |jobs|
    ensures forall k :: 0 <= k < |jobs| ==> queued[k] == jobs[k].entry
  {
    seq(|jobs|, k requires 0 <= k < |jobs| => jobs[k].entry)
  }

  /** Between operations: the log can be replayed, and term and vote are persisted. */
  ghost predicate Settled(log: Log, state: State)
    reads log, log.applier, log.disk, state
  {
    log.Valid() && log.Durable() && log.applier.Valid() && state.disk == log.disk && state.Saved()
  }

  ghost function ViewOf(log: Log, state: State, role: Role): (s: Server)
    requires log.Valid()
    reads log, log.applier, log.disk, state
  {
    Server(state.currentTerm, state.votedFor, log.Contents(), log.disk.entries,
           log.applier.lastQueued, Handed(log.applier.jobs), log.applier.Phase(), role)
  }

  /** What Log.Commit does to the applier is what CommitTo says. */
  lemma CommitHands(s: Server, h: Handing, index: nat, promise: Option<nat>)
    requires 1 <= index <= |s.log| && s.queued == Handed(h.jobs) && s.applying == h.phase
    ensures
      var h' := HandUpTo(h, s.lastQueued, s.log, index, promise);
      CommitTo(s, index) == s.(queued := Handed(h'.jobs), applying := h'.phase,
                               lastQueued := LastHanded(s.applying, s.lastQueued, index))
  {
    var from, last := FirstHanded(s.lastQueued, index) - 1, LastHanded(s.applying, s.lastQueued, index);
    HandAllJobs(h, s.log, from, last - 1);
    assert s.log[from..last] == s.log[from..last - 1] + [s.log[last - 1]];
    HandedAppends(h.jobs, s.log[from..last - 1], Job(Some(s.log[last - 1]), if last == index then promise else None));
  }

  lemma HandedAppends(jobs: seq<Job>, front: seq<Entry>, last: Job)
    requires last.entry.Some?
    ensures Handed(jobs + Silent(front) + [last]) == Handed(jobs) + Queueable(front + [last.entry.value])
  {
  }

  lemma MissingHanded(jobs: seq<Job>, promise: Option<nat>)
    ensures Handed(jobs + [Job(None, promise)]) == Handed(jobs) + [None]
  {
  }

  // ---------------------------------------------------------------- the steps every role is made of

  method AdoptTerm(log: Log, state: State, term: nat, ghost role: Role)
    requires Settled(log, state) && term >= 1
    modifies state, log.disk`currentTerm, log.disk`votedFor
    ensures Settled(log, state)
    ensures ViewOf(log, state, role) == SetTerm(old(ViewOf(log, state, role)), term)
  {
    var _ := state.SetTerm(term);
  }

  method NextTerm(log: Log, state: State, id: nat, ghost role: Role)
    requires Settled(log, state)
    modifies state, log.disk`currentTerm, log.disk`votedFor
    ensures Settled(log, state)
    ensures
      var s := old(ViewOf(log, state, role));
      ViewOf(log, state, role) == s.(term := s.term + 1, vote := Some(id))
  {
    state.NextTerm(Some(id));
  }

  method AdoptVote(log: Log, state: State, term: nat, candidate: nat, ghost role: Role)
    requires Settled(log, state) && term >= 1
    modifies state, log.disk`currentTerm, log.disk`votedFor
    ensures Settled(log, state)
    ensures ViewOf(log, state, role) == old(ViewOf(log, state, role)).(term := term, vote := Some(candidate))
  {
    var _ := state.SetTermAndVote(term, Some(candidate));
  }

  /** The promise goes with the last entry, unless a stalled applier throws before it gets there. */
  method Commit(log: Log, state: State, index: nat, promise: Option<nat>, ghost role: Role)
    requires Settled(log, state) && index <= log.lastIndex
    modifies log.applier
    ensures Settled(log, state)
    ensures ViewOf(log, state, role) == CommitTo(old(ViewOf(log, state, role)), index)
    ensures log.applier.jobs != [] && (log.applier.lastQueued == index > 0 ==>
              log.applier.jobs[|log.applier.jobs| - 1].promise == promise)
  {
    ghost var before, handed := ViewOf(log, state, role), log.applier.Handed();
    var _ := log.Commit(index, promise);
    if index == 0 {
      MissingHanded(handed.jobs, promise);
    } else {
      CommitHands(before, handed, index, promise);
    }
  }

  /** The pending call of the applier succeeds; when nothing else is waiting, the applier is idle again. */
  method EntryApplied(log: Log, state: State, ghost role: Role)
    requires Settled(log, state) && log.applier.current.Some?
    modifies log.applier
    ensures Settled(log, state) && (old(log.InStep()) ==> log.InStep())
    ensures
      var s := old(ViewOf(log, state, role));
      if log.applier.busy then ViewOf(log, state, role) == s
      else s.applying == Busy && None !in s.queued && ViewOf(log, state, role) == s.(applying := Idle)
  {
    log.applier.Complete();
  }

  /** It fails: the applier is busy for ever. */
  method EntryFailed(log: Log, state: State, ghost role: Role)
    requires Settled(log, state) && log.applier.current.Some?
    modifies log.applier
    ensures Settled(log, state) && (old(log.InStep()) ==> log.InStep())
    ensures ViewOf(log, state, role) == old(ViewOf(log, state, role)) && log.applier.failed
  {
    log.applier.Fail();
  }

  /** The applier finishes: at once, or after everything that it was handed. */
  method FinishApplying(log: Log, state: State, promise: nat, ghost role: Role) returns (now: bool)
    requires Settled(log, state)
    modifies log.applier
    ensures Settled(log, state) && now == !old(log.applier.busy)
    ensures !now && old(log.InStep()) ==> log.applier.Closing(log.Contents(), promise)
    ensures now ==> ViewOf(log, state, role) == old(ViewOf(log, state, role))
    ensures
      var s, s' := old(ViewOf(log, state, role)), ViewOf(log, state, role);
      !now ==> s' == s.(queued := s.queued + [Some(Entry(s.lastQueued, 0, Noop))])
               && log.applier.jobs[|s.queued|].promise == Some(promise)
  {
    ghost var jobs := log.applier.jobs;
    now := log.applier.Finish(promise);
    assert !now ==> log.applier.jobs[..|log.applier.jobs| - 1] == jobs;
  }

  /** What the applier has not taken yet is dropped. */
  method DropQueue(log: Log, state: State, ghost role: Role)
    requires Settled(log, state)
    modifies log.applier
    ensures Settled(log, state) && log.applier.queue == []
    ensures
      var s := old(ViewOf(log, state, role));
      && old(log.applier.taken) <= |s.queued|
      && ViewOf(log, state, role) == s.(queued := s.queued[..old(log.applier.taken)],
                                        applying := if s.applying == Busy then Busy else Idle)
  {
    log.applier.Destroy();
  }

  /** The start of a merge: the log is cut, and of contiguous entries none is filtered out. */
  method Cut(log: Log, state: State, entries: seq<Entry>, prev: nat, prevTerm: nat, ghost role: Role)
      returns (pending: seq<Entry>)
    requires Settled(log, state) && prev <= log.lastIndex && prevTerm == TermAt(log.Contents(), prev)
    requires forall j :: 0 <= j < |entries| ==> entries[j].index == prev + 1 + j
    modifies log
    ensures Settled(log, state) && log.lastIndex == prev && pending == entries
    ensures ViewOf(log, state, role) ==
            old(ViewOf(log, state, role)).(log := old(ViewOf(log, state, role)).log[..prev])
  {
    ghost var before := log.Contents();
    pending := log.BeginMerge(entries, prev, prevTerm);
    assert log.Contents() == before[..prev] && log.Durable();
    AllMissing(log.Contents(), entries);
  }

  /** The end of a merge: what was pending becomes durable and then part of the log. */
  method Land(log: Log, state: State, pending: seq<Entry>, ghost role: Role)
    requires Settled(log, state) && forall j :: 0 <= j < |pending| ==> pending[j].index == log.lastIndex + 1 + j
    modifies log, log.disk`entries, log.disk`indexes, log.disk`overwritten
    ensures Settled(log, state)
    ensures
      var s := old(ViewOf(log, state, role));
      ViewOf(log, state, role) == s.(log := s.log + pending, stream := s.stream + pending)
  {
    log.FinishMerge(pending);
  }

  method Append(log: Log, state: State, value: Payload, ghost role: Role) returns (entry: Entry)
    requires Settled(log, state)
    modifies log, log.disk`entries, log.disk`indexes, log.disk`overwritten
    ensures Settled(log, state)
    ensures
      var s := old(ViewOf(log, state, role));
      && entry == Entry(|s.log| + 1, s.term, value)
      && ViewOf(log, state, role) == s.(log := s.log + [entry], stream := s.stream + [entry])
  {
    entry := log.AppendValue(state.currentTerm, value);
  }
}
