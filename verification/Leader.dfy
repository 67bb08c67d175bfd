/** The leader role. */
module LeaderRole {
  import opened Entries
  import opened Protocol
  import opened StateStore
  import opened LogStore
  import opened ServerView

  /** A pending entry together with the promise of the append call it came from. */
  datatype Waiting = Waiting(index: nat, acceptsRequired: int, promise: nat)

  function Counters(waiting: seq<Waiting>): (pending: seq<Pending>) {
    if waiting == [] then []
    else [Pending(waiting[0].index, waiting[0].acceptsRequired)] + Counters(waiting[1..])
  }

  function PromisesOf(waiting: seq<Waiting>): (promises: seq<nat>) {
    if waiting == [] then [] else [waiting[0].promise] + PromisesOf(waiting[1..])
  }

  lemma {:induction false} WaitingAppend(waiting: seq<Waiting>, last: Waiting)
    ensures Counters(waiting + [last]) == Counters(waiting) + [Pending(last.index, last.acceptsRequired)]
    ensures PromisesOf(waiting + [last]) == PromisesOf(waiting) + [last.promise]
  {
    if waiting != [] {
      WaitingAppend(waiting[1..], last);
      assert (waiting + [last])[1..] == waiting[1..] + [last];
    }
  }

  ghost predicate Within(waiting: seq<Waiting>, last: nat) {
    forall j :: 0 <= j < |waiting| ==> 1 <= waiting[j].index <= last
  }

  /** The progress of every peer when a leader with this log takes over. */
  method InitialProgress(peers: seq<nat>, next: nat) returns (progress: map<nat, Progress>)
    ensures progress == AllAt(peers, next)
  {
    progress := map[];
    for k := 0 to |peers|
      invariant progress == AllAt(peers[..k], next)
    {
      progress := progress[peers[k] := Progress(next, 0)];
      assert peers[..k + 1] == peers[..k] + [peers[k]];
    }
    assert peers[..|peers|] == peers;
  }

  function AllAt(peers: seq<nat>, next: nat): map<nat, Progress> {
    map p | p in peers :: Progress(next, 0)
  }

  class Leader {
    var commitIndex: nat
    var destroyed: bool
    var peerState: map<nat, Progress>
    var pendingApplication: seq<Waiting>
    var scheduledHeartbeatHandler: bool
    var skipNextHeartbeat: bool
    const id: nat
    const peers: seq<nat>
    const log: Log
    const state: State

    /** The promises of the appends whose entry was persisted, those handed to the log's commit, and those
        rejected. */
    ghost var pushed: seq<nat>
    ghost var handed: seq<nat>
    ghost var rejected: seq<nat>

    ghost predicate Valid()
      reads this, log, log.applier, log.disk, state
    {
      Settled(log, state) && Within(pendingApplication, log.lastIndex) && Booked()
    }

    /** Every append is waiting or was handed on, in order. */
    ghost predicate Booked()
      reads this
    {
      pushed == handed + PromisesOf(pendingApplication)
    }

    ghost function View(): (s: Server)
      requires log.Valid()
      reads this, log, log.applier, log.disk, state
    {
      ViewOf(log, state, Protocol.Leader(commitIndex, peerState, Counters(pendingApplication)))
    }

    /** The number of servers: the peers and this one. */
    function Size(): nat {
      |peers| + 1
    }

    constructor (id: nat, peers: seq<nat>, log: Log, state: State)
      requires Settled(log, state)
      ensures Valid() && !destroyed && !scheduledHeartbeatHandler && !skipNextHeartbeat
      ensures this.id == id && this.peers == peers && this.log == log && this.state == state
      ensures pushed == [] && handed == [] && rejected == []
      ensures View() == ViewOf(log, state, Protocol.Leader(0, AllAt(peers, log.lastIndex + 1), []))
    {
      commitIndex, destroyed, scheduledHeartbeatHandler, skipNextHeartbeat := 0, false, false, false;
      pendingApplication := [];
      pushed, handed, rejected := [], [], [];
      this.id, this.peers, this.log, this.state := id, peers, log, state;
      var progress := InitialProgress(peers, log.lastIndex + 1);
      peerState := progress;
    }

    /** Every append whose entry is not committed yet is rejected. */
    method Destroy()
      requires Booked()
      modifies this`destroyed, this`pendingApplication, this`rejected, this`pushed
      ensures Booked() && destroyed && pendingApplication == []
      ensures rejected == old(rejected) + PromisesOf(old(pendingApplication))
    {
      destroyed := true;
      ghost var before := pendingApplication;
      var k := 0;
      while k < |pendingApplication|
        invariant 0 <= k <= |pendingApplication| && pendingApplication == before && destroyed
        invariant rejected + PromisesOf(before[k..]) == old(rejected) + PromisesOf(before)
      {
        assert before[k..][1..] == before[k + 1..];
        rejected := rejected + [pendingApplication[k].promise];
        k := k + 1;
      }
      pendingApplication := [];
      pushed := handed;
      assert before[k..] == [] && rejected + [] == rejected && handed + [] == handed;
    }

    // -------------------------------------------------------------- updating followers

    /** Sends one follower what it may be missing, or a heartbeat while its log has not converged. Without an
        entry at prevLogIndex there is no term to send, and this throws. */
    method UpdateFollower(peer: nat, heartbeatOnly: bool, ghost s: Server) returns (sent: seq<Message>, threw: bool)
      requires Valid() && peer in peerState && View() == s
      ensures threw == !CanUpdate(s, peer)
      ensures sent == if threw then [] else [Protocol.UpdateFollower(s, id, peer, heartbeatOnly)]
    {
      var nextIndex, matchIndex := peerState[peer].next, peerState[peer].matched;
      var prevLogTerm := TermBefore(nextIndex, s.log);
      if prevLogTerm == None {
        return [], true;
      }
      var prevLogIndex := nextIndex - 1;
      var entries := EntriesFrom(nextIndex, heartbeatOnly || prevLogIndex != matchIndex, s.log);
      UpdateIs(s, id, peer, heartbeatOnly, prevLogTerm.value, entries);
      sent := [AppendEntries(id, peer, state.currentTerm, prevLogIndex, prevLogTerm.value, commitIndex, entries)];
      threw := false;
    }

    method TermBefore(nextIndex: nat, ghost entries: seq<Entry>) returns (term: Option<nat>)
      requires log.Valid() && log.Contents() == entries
      ensures term == if 1 <= nextIndex <= |entries| + 1 then Some(TermAt(entries, nextIndex - 1)) else None
    {
      if nextIndex == 0 {
        return None;
      }
      term := log.GetTerm(nextIndex - 1);
    }

    method EntriesFrom(nextIndex: nat, onlyHeartbeat: bool, ghost all: seq<Entry>) returns (entries: seq<Entry>)
      requires log.Valid() && log.Contents() == all && 1 <= nextIndex <= |all| + 1
      ensures entries == if onlyHeartbeat then [] else all[nextIndex - 1..]
    {
      entries := [];
      if !onlyHeartbeat {
        entries := log.GetEntriesSince(nextIndex);
      }
    }

    method UpdatePeers(heartbeatOnly: bool, ghost s: Server) returns (sent: seq<Message>, threw: bool)
      requires Valid() && View() == s && forall p :: p in peers ==> p in peerState
      ensures Outcome(s, sent, threw) == UpdateAll(s, id, peers, heartbeatOnly)
    {
      sent, threw := [], false;
      UpdateStart(s, id, peers, heartbeatOnly);
      for k := 0 to |peers|
        invariant Valid() && View() == s
        invariant UpdateAll(s, id, peers, heartbeatOnly) == After(s, sent, UpdateAll(s, id, peers[k..], heartbeatOnly))
      {
        UpdateStep(s, id, peers, k, heartbeatOnly, sent);
        var one, failed := UpdateFollower(peers[k], heartbeatOnly, s);
        sent := sent + one;
        if failed {
          return sent, true;
        }
      }
    }

    method SendHeartbeat() returns (schedule: bool)
      modifies this`scheduledHeartbeatHandler
      ensures scheduledHeartbeatHandler && schedule == !old(scheduledHeartbeatHandler)
    {
      schedule := !scheduledHeartbeatHandler;
      scheduledHeartbeatHandler := true;
    }

    /** The scheduled handler; one heartbeat is skipped after entries were sent to all. */
    method HandleHeartbeat() returns (sent: seq<Message>, threw: bool)
      requires Valid() && !destroyed && peers == Peers(Size(), id) && forall p :: p in peers ==> p in peerState
      modifies this`scheduledHeartbeatHandler, this`skipNextHeartbeat
      ensures Valid() && !scheduledHeartbeatHandler && !skipNextHeartbeat && View() == old(View())
      ensures Outcome(View(), sent, threw) ==
              if old(skipNextHeartbeat) then Sends(View(), []) else LeaderHeartbeat(old(View()), Size(), id)
    {
      scheduledHeartbeatHandler := false;
      if skipNextHeartbeat {
        skipNextHeartbeat := false;
        return [], false;
      }
      sent, threw := UpdatePeers(true, View());
    }

    // -------------------------------------------------------------- replication

    /** Counts one more accept for the pending entries in this range, then commits what needs no more. */
    method MarkReplication(start: nat, end: nat)
      requires Valid()
      modifies this`commitIndex, this`pendingApplication, this`handed, log.applier
      ensures Valid() && View() == Protocol.MarkReplication(old(View()), start, end)
      ensures pushed == old(pushed) && peerState == old(peerState)
    {
      CountAccepts(start, end);
      CommitCounted();
    }

    method CountAccepts(start: nat, end: nat)
      modifies this`pendingApplication
      ensures Counters(pendingApplication) == CountAccept(Counters(old(pendingApplication)), start, end)
      ensures |pendingApplication| == |old(pendingApplication)|
      ensures PromisesOf(pendingApplication) == PromisesOf(old(pendingApplication))
      ensures forall j :: 0 <= j < |pendingApplication| ==>
                pendingApplication[j].index == old(pendingApplication)[j].index
                && pendingApplication[j].promise == old(pendingApplication)[j].promise
    {
      ghost var before := pendingApplication;
      assert before[..0] == [] && before[0..] == before;
      var k := 0;
      while k < |pendingApplication|
        invariant 0 <= k <= |pendingApplication| == |before|
        invariant pendingApplication[k..] == before[k..]
        invariant CountAccept(Counters(before), start, end) ==
                  Counters(pendingApplication[..k]) + CountAccept(Counters(before[k..]), start, end)
        invariant forall j :: 0 <= j < |before| ==>
                    pendingApplication[j].index == before[j].index && pendingApplication[j].promise == before[j].promise
      {
        var waiting := pendingApplication[k];
        if waiting.index > end {
          break;
        }
        if waiting.index >= start {
          pendingApplication := pendingApplication[k := waiting.(acceptsRequired := waiting.acceptsRequired - 1)];
        }
        CountOne(before, pendingApplication, k, start, end);
        k := k + 1;
      }
      CountRest(before, pendingApplication, k, start, end);
      SamePromises(before, pendingApplication);
    }

    /** Applies each entry that is sufficiently replicated; its promise follows it to the applier. */
    method CommitCounted()
      requires Valid()
      modifies this`commitIndex, this`pendingApplication, this`handed, log.applier
      ensures Valid() && View() == CommitReplicated(old(View()))
    {
      while |pendingApplication| > 0 && pendingApplication[0].acceptsRequired == 0
        invariant Valid() && CommitReplicated(View()) == CommitReplicated(old(View()))
        decreases |pendingApplication|
      {
        CommitNext();
      }
    }

    method CommitNext()
      requires Valid() && pendingApplication != []
      modifies this`commitIndex, this`pendingApplication, this`handed, log.applier
      ensures Valid() && View() == CommitFirst(old(View())) && |pendingApplication| < old(|pendingApplication|)
    {
      FirstCommitted(View());
      var first := TakeFirst();
      CommitPromised(first);
    }

    method TakeFirst() returns (first: Waiting)
      requires Valid() && pendingApplication != []
      modifies this`commitIndex, this`pendingApplication, this`handed
      ensures Valid() && View() == FirstTaken(old(View())) && |pendingApplication| < old(|pendingApplication|)
      ensures 1 <= first.index <= log.lastIndex && first.index == commitIndex
    {
      first := Shift();
      commitIndex := first.index;
    }

    method CommitPromised(first: Waiting)
      requires Valid() && 1 <= first.index <= log.lastIndex
      modifies log.applier
      ensures Valid() && View() == CommitTo(old(View()), first.index)
    {
      Commit(log, state, first.index, Some(first.promise), View().role);
    }

    method Shift() returns (first: Waiting)
      requires Booked() && pendingApplication != []
      modifies this`pendingApplication, this`handed
      ensures Booked() && handed == old(handed) + [first.promise] && peerState == old(peerState)
      ensures first == old(pendingApplication)[0] && pendingApplication == old(pendingApplication)[1..]
      ensures Counters(old(pendingApplication))[0].index == first.index
      ensures Counters(pendingApplication) == Counters(old(pendingApplication))[1..]
    {
      first := pendingApplication[0];
      pendingApplication := pendingApplication[1..];
      handed := handed + [first.promise];
    }

    /** An accept that goes beyond what the peer was known to hold is counted, and the peer's progress set. */
    method RecordAccept(peer: nat, acked: nat)
      requires Valid() && peer in peerState
      modifies this`commitIndex, this`pendingApplication, this`handed, this`peerState, log.applier
      ensures Valid() && View() == Protocol.RecordAccept(old(View()), peer, acked)
      ensures peerState.Keys == old(peerState.Keys)
    {
      if acked >= peerState[peer].next {
        ghost var s := View();
        MarkReplication(peerState[peer].next, acked);
        ghost var marked := View();
        peerState := peerState[peer := Progress(acked + 1, acked)];
        assert View() == SetProgress(marked, peer, Progress(acked + 1, acked));
      }
    }

    method HandleAcceptEntries(m: Message) returns (sent: seq<Message>, threw: bool)
      requires Valid() && m.AcceptEntries?
      modifies this`commitIndex, this`pendingApplication, this`handed, this`peerState, log.applier
      ensures Valid() && Outcome(View(), sent, threw) == LeaderAcceptEntries(old(View()), id, m)
      ensures peerState.Keys == old(peerState.Keys)
    {
      sent, threw := [], false;
      if m.src !in peerState {
        return;
      }
      RecordAccept(m.src, m.ackedIndex);
      if peerState[m.src].next <= log.lastIndex {
        sent, threw := UpdateOnly(m.src, false);
      }
    }

    /** A lagging follower gets a heartbeat further back; stale replies are ignored. */
    method HandleRejectEntries(m: Message) returns (sent: seq<Message>, threw: bool)
      requires Valid() && m.RejectEntries?
      modifies this`peerState
      ensures Valid() && Outcome(View(), sent, threw) == LeaderRejectEntries(old(View()), id, m)
      ensures peerState.Keys == old(peerState.Keys)
    {
      sent, threw := [], false;
      if m.src !in peerState || m.conflictingIndex == None {
        return;
      }
      var progress, conflict := peerState[m.src], m.conflictingIndex.value;
      if conflict > progress.matched && conflict < progress.next {
        peerState := peerState[m.src := progress.(next := conflict)];
        sent, threw := UpdateOnly(m.src, true);
      }
    }

    method HandleRequestVote(m: Message) returns (sent: seq<Message>, threw: bool)
      requires Valid() && m.RequestVote? && m.term <= state.currentTerm
      ensures Outcome(View(), sent, threw) == LeaderReceive(View(), Size(), id, m)
    {
      sent, threw := [], false;
      if m.term < state.currentTerm {
        sent := [DenyVote(id, m.src, state.currentTerm)];
      } else if m.src in peerState {
        sent, threw := UpdateOnly(m.src, true);
      }
    }

    method UpdateOnly(peer: nat, heartbeatOnly: bool) returns (sent: seq<Message>, threw: bool)
      requires Valid() && peer in peerState
      ensures Outcome(View(), sent, threw) == UpdateAll(View(), id, [peer], heartbeatOnly)
    {
      sent, threw := UpdateFollower(peer, heartbeatOnly, View());
      UpdateOne(View(), id, peer, heartbeatOnly);
    }

    /** Handles any message as the cluster's step does, up to the conversion that the step ends with. */
    method HandleMessage(m: Message, closed: bool) returns (sent: seq<Message>, threw: bool, convert: Conversion)
      requires Valid() && !destroyed
      modifies this, log.applier, state, log.disk`currentTerm, log.disk`votedFor
      ensures Valid() && (destroyed ==> closed && sent == [] && convert == Stay)
      ensures Converts(old(View()), m, View(), sent, threw, convert, destroyed)
      ensures peerState.Keys == old(peerState.Keys)
    {
      sent, threw, convert := [], false, Stay;
      if m.term > state.currentTerm {
        convert := FollowNewer(m, closed);
      } else {
        sent, threw := Dispatch(m);
      }
    }

    /** A message that is not of a newer term. */
    method Dispatch(m: Message) returns (sent: seq<Message>, threw: bool)
      requires Valid() && m.term <= state.currentTerm
      modifies this`commitIndex, this`pendingApplication, this`handed, this`peerState, log.applier
      ensures Valid() && Outcome(View(), sent, threw) == LeaderReceive(old(View()), Size(), id, m)
      ensures peerState.Keys == old(peerState.Keys)
    {
      if m.RequestVote? {
        sent, threw := HandleRequestVote(m);
      } else if m.RejectEntries? {
        sent, threw := HandleRejectEntries(m);
      } else if m.AcceptEntries? {
        sent, threw := HandleAcceptEntries(m);
      } else {
        sent, threw := [], false;
      }
    }

    /** What handling m in state s comes to: the step of the cluster is the new state and what was sent,
        followed by the first operation of the role that was asked for. */
    ghost predicate Converts(s: Server, m: Message, s': Server, sent: seq<Message>, threw: bool, convert: Conversion,
                             cut: bool)
    {
      && s.role.Leader? && s'.role.Leader?
      && match convert
         case Stay =>
           if cut then m.term > s.term && s'.(role := s.role) == SetTerm(s, m.term)
           else LeaderReceive(s, Size(), id, m) == Outcome(s', sent, threw)
         case ToFollower(replay) =>
           && replay == m && sent == [] && !threw
           && LeaderReceive(s, Size(), id, m) == FollowerReceive(ConvertToFollower(s'), id, m)
         case _ => false
    }

    method FollowNewer(m: Message, closed: bool) returns (convert: Conversion)
      requires Valid() && !destroyed && m.term > state.currentTerm
      modifies this`destroyed, this`pendingApplication, this`rejected, this`pushed,
               state, log.disk`currentTerm, log.disk`votedFor
      ensures Valid() && destroyed == closed
      ensures View().(role := old(View()).role) == SetTerm(old(View()), m.term)
      ensures convert == if destroyed then Stay else ToFollower(m)
    {
      AdoptTerm(log, state, m.term, View().role);
      if closed {
        Destroy();
      }
      convert := if destroyed then Stay else ToFollower(m);
    }

    // -------------------------------------------------------------- appending

    /** The scheduled part of an append call: the entry is persisted, then waits for its accepts and is sent
        to all. A leader that was closed in the meantime rejects the call, but keeps the entry. */
    method Append(value: Payload, promise: nat, closed: bool) returns (sent: seq<Message>, threw: bool)
      requires Valid() && !destroyed && peers == Peers(Size(), id) && forall p :: p in peers ==> p in peerState
      modifies this, log, log.disk`entries, log.disk`indexes, log.disk`overwritten
      ensures Valid() && destroyed == closed && handed == old(handed) && peerState == old(peerState)
      ensures !destroyed ==> Outcome(View(), sent, threw) == LeaderAppend(old(View()), Size(), id, value)
      ensures !destroyed ==> pushed == old(pushed) + [promise] && rejected == old(rejected)
      ensures !destroyed ==> skipNextHeartbeat == (old(skipNextHeartbeat) || !threw)
      ensures destroyed ==> sent == [] && !threw && pendingApplication == []
      ensures destroyed ==> rejected == old(rejected) + PromisesOf(old(pendingApplication)) + [promise]
      ensures destroyed ==> View().(role := old(View()).role) ==
                            LeaderAppend(old(View()), Size(), id, value).server.(role := old(View()).role)
    {
      ghost var s := View();
      var entry := ServerView.Append(log, state, value, s.role);
      AppendUpdatesAll(s, Size(), id, value);
      sent, threw := Continue(entry, promise, closed, s);
    }

    /** The rest of an append, once its entry is persisted. */
    method Continue(entry: Entry, promise: nat, closed: bool, ghost s: Server) returns (sent: seq<Message>, threw: bool)
      requires Valid() && !destroyed && s.role == View().role && View() == Extended(s, entry)
      requires entry == Entry(|s.log| + 1, s.term, entry.value)
      requires 1 <= entry.index <= log.lastIndex && forall p :: p in peers ==> p in peerState
      modifies this`destroyed, this`pendingApplication, this`rejected, this`pushed, this`skipNextHeartbeat
      ensures Valid() && destroyed == closed
      ensures !destroyed ==>
                Outcome(View(), sent, threw) == UpdateAll(Appended(s, Size(), entry.value), id, peers, false)
      ensures !destroyed ==> pushed == old(pushed) + [promise] && rejected == old(rejected)
      ensures !destroyed ==> skipNextHeartbeat == (old(skipNextHeartbeat) || !threw)
      ensures destroyed ==> sent == [] && !threw && pendingApplication == []
      ensures destroyed ==> rejected == old(rejected) + PromisesOf(old(pendingApplication)) + [promise]
      ensures destroyed ==> View().(role := s.role) == Extended(s, entry)
    {
      sent, threw := [], false;
      CloseIf(closed);
      if destroyed {
        RejectCall(promise);
      } else {
        sent, threw := Replicate(entry, promise, s);
      }
    }

    method RejectCall(promise: nat)
      requires Valid()
      modifies this`rejected
      ensures Valid() && View() == old(View()) && rejected == old(rejected) + [promise]
      ensures destroyed == old(destroyed) && pendingApplication == old(pendingApplication)
    {
      rejected := rejected + [promise];
    }

    /** While the entry was being persisted the leader may have been closed. */
    method CloseIf(closed: bool)
      requires Valid() && !destroyed
      modifies this`destroyed, this`pendingApplication, this`rejected, this`pushed
      ensures Valid() && destroyed == closed
      ensures !closed ==> unchanged(this)
      ensures closed ==> pendingApplication == [] && rejected == old(rejected) + PromisesOf(old(pendingApplication))
      ensures skipNextHeartbeat == old(skipNextHeartbeat) && peerState == old(peerState)
      ensures View().(role := old(View()).role) == old(View())
    {
      if closed {
        Destroy();
      }
    }

    /** The entry waits for at least half of the peers, since the leader itself has it. */
    method Replicate(entry: Entry, promise: nat, ghost s: Server) returns (sent: seq<Message>, threw: bool)
      requires Valid() && s.role == View().role && View() == Extended(s, entry)
      requires entry == Entry(|s.log| + 1, s.term, entry.value)
      requires 1 <= entry.index <= log.lastIndex && forall p :: p in peers ==> p in peerState
      modifies this`pendingApplication, this`pushed, this`skipNextHeartbeat
      ensures Valid() && destroyed == old(destroyed) && pushed == old(pushed) + [promise]
      ensures rejected == old(rejected)
      ensures Outcome(View(), sent, threw) == UpdateAll(Appended(s, Size(), entry.value), id, peers, false)
      ensures skipNextHeartbeat == (old(skipNextHeartbeat) || !threw)
    {
      Wait(entry, promise, s);
      sent, threw := SendEntries(Appended(s, Size(), entry.value));
    }

    /** With entries sent to all, the next heartbeat can be skipped. */
    method SendEntries(ghost s: Server) returns (sent: seq<Message>, threw: bool)
      requires Valid() && View() == s && forall p :: p in peers ==> p in peerState
      modifies this`skipNextHeartbeat
      ensures Valid() && View() == s && Outcome(s, sent, threw) == UpdateAll(s, id, peers, false)
      ensures destroyed == old(destroyed) && pushed == old(pushed) && rejected == old(rejected)
      ensures skipNextHeartbeat == (old(skipNextHeartbeat) || !threw)
    {
      sent, threw := UpdatePeers(false, s);
      if !threw {
        skipNextHeartbeat := true;
      }
    }

    method Wait(entry: Entry, promise: nat, ghost s: Server)
      requires Valid() && s.role == View().role && View() == Extended(s, entry)
      requires entry == Entry(|s.log| + 1, s.term, entry.value) && entry.index <= log.lastIndex
      modifies this`pendingApplication, this`pushed
      ensures Valid() && pushed == old(pushed) + [promise] && View() == Appended(s, Size(), entry.value)
      ensures destroyed == old(destroyed) && skipNextHeartbeat == old(skipNextHeartbeat) && rejected == old(rejected)
    {
      Push(entry.index, promise);
      assert View().role == Appended(s, Size(), entry.value).role;
    }

    method Push(index: nat, promise: nat)
      requires Booked()
      modifies this`pendingApplication, this`pushed
      ensures Booked() && pushed == old(pushed) + [promise]
      ensures pendingApplication == old(pendingApplication) + [Waiting(index, (|peers| + 1) / 2, promise)]
      ensures Counters(pendingApplication) == Counters(old(pendingApplication)) + [Pending(index, (|peers| + 1) / 2)]
    {
      var waiting := Waiting(index, (|peers| + 1) / 2, promise);
      WaitingAppend(pendingApplication, waiting);
      pendingApplication := pendingApplication + [waiting];
      pushed := pushed + [promise];
      assert handed + (PromisesOf(old(pendingApplication)) + [promise]) ==
             handed + PromisesOf(old(pendingApplication)) + [promise];
    }
  }

  function FirstTaken(s: Server): (s': Server)
    requires s.role.Leader? && s.role.pending != []
    ensures s'.role.Leader?
  {
    s.(role := s.role.(commitIndex := s.role.pending[0].index, pending := s.role.pending[1..]))
  }

  lemma FirstCommitted(s: Server)
    requires s.role.Leader? && s.role.pending != []
    ensures CommitTo(FirstTaken(s), FirstTaken(s).role.commitIndex) == CommitFirst(s)
  {
  }

  function Extended(s: Server, entry: Entry): Server {
    s.(log := s.log + [entry], stream := s.stream + [entry])
  }

  /** Some messages, followed by those of the remaining updates. */
  function After(s: Server, sent: seq<Message>, rest: Outcome): Outcome {
    Outcome(s, sent + rest.sent, rest.thrown)
  }

  lemma AppendUpdatesAll(s: Server, n: nat, id: nat, value: Payload)
    requires s.role.Leader?
    ensures LeaderAppend(s, n, id, value).server == Appended(s, n, value)
  {
    UpdateKeepsServer(Appended(s, n, value), id, Peers(n, id), false);
  }

  lemma UpdateIs(s: Server, id: nat, peer: nat, heartbeatOnly: bool, prevTerm: nat, entries: seq<Entry>)
    requires s.role.Leader? && CanUpdate(s, peer)
    requires
      var p := s.role.progress[peer];
      && prevTerm == TermAt(s.log, p.next - 1)
      && entries == if heartbeatOnly || p.next - 1 != p.matched then [] else s.log[p.next - 1..]
    ensures
      var prev := s.role.progress[peer].next - 1;
      UpdateFollower(s, id, peer, heartbeatOnly) ==
        AppendEntries(id, peer, s.term, prev, prevTerm, s.role.commitIndex, entries)
  {
  }

  lemma UpdateOne(s: Server, id: nat, peer: nat, heartbeatOnly: bool)
    requires s.role.Leader?
    ensures UpdateAll(s, id, [peer], heartbeatOnly) ==
            if CanUpdate(s, peer) then Sends(s, [UpdateFollower(s, id, peer, heartbeatOnly)]) else Outcome(s, [], true)
  {
    assert [peer][1..] == [];
  }

  lemma {:induction false} SamePromises(a: seq<Waiting>, b: seq<Waiting>)
    requires |a| == |b| && forall j :: 0 <= j < |a| ==> a[j].promise == b[j].promise
    ensures PromisesOf(a) == PromisesOf(b)
  {
    if a != [] {
      SamePromises(a[1..], b[1..]);
    }
  }

  /** The loop of markReplication has counted the first k entries. */
  lemma CountOne(before: seq<Waiting>, after: seq<Waiting>, k: nat, start: nat, end: nat)
    requires k < |before| == |after| && before[k].index <= end
    requires after[k] == if before[k].index < start then before[k]
                         else before[k].(acceptsRequired := before[k].acceptsRequired - 1)
    ensures Counters(after[..k + 1]) + CountAccept(Counters(before[k + 1..]), start, end) ==
            Counters(after[..k]) + CountAccept(Counters(before[k..]), start, end)
  {
    assert after[..k + 1] == after[..k] + [after[k]];
    WaitingAppend(after[..k], after[k]);
    assert before[k..][1..] == before[k + 1..];
    assert Counters(before[k..])[1..] == Counters(before[k + 1..]);
  }

  /** Nothing is left to count. */
  lemma CountRest(before: seq<Waiting>, after: seq<Waiting>, k: nat, start: nat, end: nat)
    requires k <= |before| == |after| && after[k..] == before[k..]
    requires k < |before| ==> before[k].index > end
    ensures Counters(after) == Counters(after[..k]) + CountAccept(Counters(before[k..]), start, end)
  {
    CountersSplit(after, k);
  }

  lemma {:induction false} CountersSplit(waiting: seq<Waiting>, k: nat)
    requires k <= |waiting|
    ensures Counters(waiting) == Counters(waiting[..k]) + Counters(waiting[k..])
  {
    if k == 0 {
      assert waiting[..0] == [] && waiting[0..] == waiting;
    } else {
      var rest := waiting[1..];
      CountersSplit(rest, k - 1);
      assert waiting[..k] == [waiting[0]] + rest[..k - 1] && waiting[..k][1..] == rest[..k - 1];
      assert rest[k - 1..] == waiting[k..];
    }
  }

  lemma UpdateStep(s: Server, id: nat, peers: seq<nat>, k: nat, heartbeatOnly: bool, sent: seq<Message>)
    requires s.role.Leader? && k < |peers|
    ensures After(s, sent, UpdateAll(s, id, peers[k..], heartbeatOnly)) ==
            if !CanUpdate(s, peers[k]) then Outcome(s, sent, true)
            else After(s, sent + [UpdateFollower(s, id, peers[k], heartbeatOnly)],
                       UpdateAll(s, id, peers[k + 1..], heartbeatOnly))
  {
    assert peers[k..][1..] == peers[k + 1..];
    if CanUpdate(s, peers[k]) {
      var first := UpdateFollower(s, id, peers[k], heartbeatOnly);
      var rest := UpdateAll(s, id, peers[k + 1..], heartbeatOnly);
      assert sent + [first] + rest.sent == sent + ([first] + rest.sent);
    }
  }

  lemma UpdateStart(s: Server, id: nat, peers: seq<nat>, heartbeatOnly: bool)
    requires s.role.Leader?
    ensures After(s, [], UpdateAll(s, id, peers[0..], heartbeatOnly)) == UpdateAll(s, id, peers, heartbeatOnly)
    ensures UpdateAll(s, id, peers[|peers|..], heartbeatOnly) == Sends(s, [])
  {
    assert peers[0..] == peers && peers[|peers|..] == [];
    UpdateKeepsServer(s, id, peers, heartbeatOnly);
  }

  lemma {:induction false} UpdateKeepsServer(s: Server, id: nat, peers: seq<nat>, heartbeatOnly: bool)
    requires s.role.Leader?
    ensures UpdateAll(s, id, peers, heartbeatOnly).server == s
  {
  }
}
