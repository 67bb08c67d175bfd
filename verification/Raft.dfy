/** The server: one role at a time over the log and the state, replaced whenever a role asks for it. */
module RaftServer {
  import opened Entries
  import opened Protocol
  import opened StateStore
  import opened LogStore
  import opened ServerView
  import F = FollowerRole
  import C = CandidateRole
  import L = LeaderRole

  datatype CurrentRole = NoRole | AsFollower(f: F.Follower) | AsCandidate(c: C.Candidate) | AsLeader(l: L.Leader)

  /** How a server handles one message. */
  type Handler = (Server, Message) -> Outcome

  /** What the first operation and then these messages come to, each handled as a separate step; nothing is
      handled after an exception. */
  function After(handler: Handler, first: Outcome, messages: seq<Message>): Outcome {
    if messages == [] then first
    else Then(handler, After(handler, first, messages[..|messages| - 1]), messages[|messages| - 1])
  }

  function Then(handler: Handler, before: Outcome, m: Message): Outcome {
    if before.thrown then before else Prefixed(before.sent, handler(before.server, m))
  }

  function Prefixed(sent: seq<Message>, o: Outcome): Outcome {
    o.(sent := sent + o.sent)
  }

  /** Some of the inbox was consumed after the first operation, and this is what came of it all. */
  ghost predicate Consumed(handler: Handler, first: Outcome, inbox: seq<Message>, rest: seq<Message>, all: Outcome) {
    && |rest| <= |inbox| && rest == inbox[|inbox| - |rest|..]
    && all == After(handler, first, inbox[..|inbox| - |rest|])
  }

  lemma NothingConsumed(handler: Handler, first: Outcome, inbox: seq<Message>)
    ensures Consumed(handler, first, inbox, inbox, first)
  {
    assert inbox[..0] == [] && inbox[0..] == inbox;
  }

  lemma {:induction false} AfterAppend(handler: Handler, first: Outcome, a: seq<Message>, b: seq<Message>)
    ensures After(handler, first, a + b) == After(handler, After(handler, first, a), b)
  {
    if b == [] {
      assert a + b == a;
    } else {
      AfterAppend(handler, first, a, b[..|b| - 1]);
      assert (a + b)[..|a + b| - 1] == a + b[..|b| - 1];
    }
  }

  lemma {:induction false} AfterPrefixed(handler: Handler, sent: seq<Message>, o: Outcome, messages: seq<Message>)
    ensures After(handler, Prefixed(sent, o), messages) == Prefixed(sent, After(handler, o, messages))
  {
    if messages != [] {
      var before := After(handler, o, messages[..|messages| - 1]);
      AfterPrefixed(handler, sent, o, messages[..|messages| - 1]);
      var next := handler(before.server, messages[|messages| - 1]);
      assert sent + (before.sent + next.sent) == (sent + before.sent) + next.sent;
    }
  }

  /** One message is taken off the inbox and handled, which may consume more of the inbox. */
  lemma ConsumedMore(handler: Handler, first: Outcome, inbox: seq<Message>, rest: seq<Message>, all: Outcome,
                     rest': seq<Message>, o: Outcome)
    requires Consumed(handler, first, inbox, rest, all) && rest != [] && !all.thrown
    requires Consumed(handler, handler(all.server, rest[0]), rest[1..], rest', o)
    ensures Consumed(handler, first, inbox, rest', Prefixed(all.sent, o))
  {
    var k, k' := |inbox| - |rest|, |inbox| - |rest'|;
    var taken := rest[1..][..|rest| - 1 - |rest'|];
    assert inbox[..k'] == inbox[..k] + ([rest[0]] + taken);
    AfterAppend(handler, first, inbox[..k], [rest[0]] + taken);
    AfterAppend(handler, all, [rest[0]], taken);
    assert [rest[0]][..0] == [];
    assert After(handler, all, [rest[0]]) == Prefixed(all.sent, handler(all.server, rest[0]));
    AfterPrefixed(handler, all.sent, handler(all.server, rest[0]), taken);
  }

  /** The first operation of a role, and then what it consumed. */
  lemma ConsumedAfter(handler: Handler, first: Outcome, inbox: seq<Message>, rest: seq<Message>, o: Outcome)
    requires !first.thrown && Consumed(handler, Sends(first.server, []), inbox, rest, o)
    ensures Consumed(handler, first, inbox, rest, Prefixed(first.sent, o))
  {
    assert first.sent + [] == first.sent;
    AfterPrefixed(handler, first.sent, Sends(first.server, []), inbox[..|inbox| - |rest|]);
  }

  /** The object that a role is. */
  ghost function ObjectOf(r: CurrentRole): set<object> {
    match r
    case NoRole => {}
    case AsFollower(f) => {f}
    case AsCandidate(c) => {c}
    case AsLeader(l) => {l}
  }

  /** A destroyed leader has no append call left waiting. */
  ghost predicate Gone(r: CurrentRole)
    reads ObjectOf(r)
  {
    match r
    case NoRole => true
    case AsFollower(f) => f.destroyed
    case AsCandidate(c) => c.destroyed
    case AsLeader(l) => l.destroyed && l.pendingApplication == []
  }

  lemma StartsAtEnd(s: Server, n: nat, id: nat)
    ensures Protocol.BecomeLeader(s, n, id) ==
            LeaderHeartbeat(s.(role := Protocol.Leader(0, L.AllAt(Peers(n, id), |s.log| + 1), [])), n, id)
  {
    assert L.AllAt(Peers(n, id), |s.log| + 1) == map p | p in Peers(n, id) :: Progress(|s.log| + 1, 0);
  }

  lemma FollowerNeverThrows(s: Server, id: nat, m: Message)
    requires s.role.Follower?
    ensures !FollowerReceive(s, id, m).thrown
  {
  }

  lemma ElectionIgnoresRole(s: Server, role: Role, n: nat, id: nat)
    ensures StartElection(s.(role := role), n, id) == StartElection(s, n, id) && !StartElection(s, n, id).thrown
  {
  }

  class Raft {
    var currentRole: CurrentRole
    const id: nat
    const peers: seq<nat>
    const log: Log
    const state: State

    ghost function Current(): set<object>
      reads this
    {
      ObjectOf(currentRole)
    }

    ghost predicate Live()
      reads this, Current()
    {
      match currentRole
      case NoRole => false
      case AsFollower(f) => !f.destroyed
      case AsCandidate(c) => !c.destroyed
      case AsLeader(l) => !l.destroyed
    }

    /** The current role works on this server's log and state. */
    ghost predicate Wired()
      reads this, Current(), log
    {
      match currentRole
      case NoRole => true
      case AsFollower(f) => f.id == id && f.log == log && f.state == state
      case AsCandidate(c) => c.id == id && c.peers == peers && c.log == log && c.state == state
      case AsLeader(l) =>
        && l.id == id && l.peers == peers && l.log == log && l.state == state
        && l.Booked() && L.Within(l.pendingApplication, log.lastIndex) && forall p :: p in peers ==> p in l.peerState
    }

    ghost predicate Valid()
      reads this, Current(), log, log.applier, log.disk, state
    {
      Settled(log, state) && peers == Peers(Size(), id) && Wired()
    }

    ghost function RoleView(): Role
      reads this, Current()
    {
      match currentRole
      case NoRole => Halted
      case AsFollower(f) => Protocol.Follower(f.commitIndex)
      case AsCandidate(c) => Protocol.Candidate(c.votesRequired, c.votesAlreadyReceived)
      case AsLeader(l) => Protocol.Leader(l.commitIndex, l.peerState, L.Counters(l.pendingApplication))
    }

    ghost function View(): Server
      reads this, Current(), log, log.applier, log.disk, state
      requires log.Valid()
    {
      ViewOf(log, state, RoleView())
    }

    function Size(): nat {
      |peers| + 1
    }

    constructor (id: nat, peers: seq<nat>, log: Log, state: State)
      requires Settled(log, state) && peers == Peers(|peers| + 1, id)
      ensures Valid() && currentRole == NoRole
      ensures this.log == log && this.state == state && this.id == id && this.peers == peers
    {
      this.id, this.peers, this.log, this.state := id, peers, log, state;
      currentRole := NoRole;
    }

    /** The current role is destroyed, before another takes its place or when the server closes. */
    method DestroyRole()
      requires Wired()
      modifies this`currentRole, Current()
      ensures currentRole == NoRole && unchanged(log, log.applier, log.disk, state)
      ensures Gone(old(currentRole))
    {
      match currentRole {
        case NoRole =>
        case AsFollower(f) => f.Destroy();
        case AsCandidate(c) => c.Destroy();
        case AsLeader(l) => l.Destroy();
      }
      currentRole := NoRole;
    }

    // -------------------------------------------------------------- conversions

    /** A new follower first handles the message that made the server convert. */
    method ConvertToFollower(replay: Message) returns (sent: seq<Message>)
      requires Valid() && WellFormed(replay)
      modifies this`currentRole, Current(), log, log.applier, log.disk, state
      ensures Valid() && Live() && fresh(Current())
      ensures Sends(View(), sent) == FollowerReceive(Protocol.ConvertToFollower(old(View())), id, replay)
    {
      ghost var s := View();
      DestroyRole();
      sent := StartFollower(replay, s);
    }

    method StartFollower(replay: Message, ghost s: Server) returns (sent: seq<Message>)
      requires Settled(log, state) && peers == Peers(Size(), id) && WellFormed(replay)
      requires ViewOf(log, state, s.role) == s
      modifies this`currentRole, log, log.applier, log.disk, state
      ensures Valid() && Live() && fresh(Current())
      ensures Sends(View(), sent) == FollowerReceive(Protocol.ConvertToFollower(s), id, replay)
    {
      FollowerNeverThrows(Protocol.ConvertToFollower(s), id, replay);
      var f := new F.Follower(id, log, state);
      assert f.View() == Protocol.ConvertToFollower(s);
      sent := f.HandleMessage(replay, false);
      currentRole := AsFollower(f);
      assert View() == f.View();
    }

    /** A new candidate first requests votes. */
    method ConvertToCandidate() returns (sent: seq<Message>)
      requires Valid()
      modifies this`currentRole, Current(), state, log.disk`currentTerm, log.disk`votedFor
      ensures Valid() && Live() && fresh(Current())
      ensures Sends(View(), sent) == StartElection(old(View()), Size(), id)
    {
      ghost var s := View();
      DestroyRole();
      sent := StartCandidate(s);
    }

    method StartCandidate(ghost s: Server) returns (sent: seq<Message>)
      requires Settled(log, state) && peers == Peers(Size(), id) && ViewOf(log, state, s.role) == s
      modifies this`currentRole, state, log.disk`currentTerm, log.disk`votedFor
      ensures Valid() && Live() && fresh(Current())
      ensures Sends(View(), sent) == StartElection(s, Size(), id)
    {
      ElectionIgnoresRole(s, Protocol.Candidate(0, {}), Size(), id);
      var c := new C.Candidate(id, peers, log, state);
      assert c.View() == s.(role := Protocol.Candidate(0, {}));
      sent := c.RequestVote(false);
      currentRole := AsCandidate(c);
      assert View() == c.View();
    }

    /** A new leader first claims its leadership with a heartbeat. */
    method BecomeLeader() returns (sent: seq<Message>, threw: bool)
      requires Valid()
      modifies this`currentRole, Current()
      ensures Valid() && Live() && fresh(Current())
      ensures Outcome(View(), sent, threw) == Protocol.BecomeLeader(old(View()), Size(), id)
    {
      ghost var s := View();
      DestroyRole();
      sent, threw := StartLeader(s);
    }

    method StartLeader(ghost s: Server) returns (sent: seq<Message>, threw: bool)
      requires Settled(log, state) && peers == Peers(Size(), id) && ViewOf(log, state, s.role) == s
      modifies this`currentRole
      ensures Valid() && Live() && fresh(Current())
      ensures Outcome(View(), sent, threw) == Protocol.BecomeLeader(s, Size(), id)
    {
      var l := NewLeader(s);
      ghost var led := View();
      sent, threw := Heartbeat(l);
      assert View() == led && Outcome(led, sent, threw) == LeaderHeartbeat(led, Size(), id);
      StartsAtEnd(s, Size(), id);
    }

    method NewLeader(ghost s: Server) returns (l: L.Leader)
      requires Settled(log, state) && peers == Peers(Size(), id) && ViewOf(log, state, s.role) == s
      modifies this`currentRole
      ensures Valid() && Live() && fresh(l) && currentRole == AsLeader(l) && !l.skipNextHeartbeat
      ensures View() == s.(role := Protocol.Leader(0, L.AllAt(peers, |s.log| + 1), []))
    {
      l := new L.Leader(id, peers, log, state);
      currentRole := AsLeader(l);
      assert View() == l.View();
    }

    // -------------------------------------------------------------- the steps of a server

    /** Handles any message as the cluster's step does. The role changes only by being destroyed and replaced
        by a new one. */
    method Handle(m: Message) returns (sent: seq<Message>, threw: bool)
      requires Valid() && Live() && WellFormed(m)
      modifies this`currentRole, Current(), log, log.applier, log.disk, state
      ensures Valid() && Live() && (currentRole == old(currentRole) || fresh(Current()))
      ensures Outcome(View(), sent, threw) == Receive(old(View()), Size(), id, m)
    {
      match currentRole {
        case AsFollower(f) => sent, threw := HandleAsFollower(f, m);
        case AsCandidate(c) => sent, threw := HandleAsCandidate(c, m);
        case AsLeader(l) => sent, threw := HandleAsLeader(l, m);
      }
    }

    method HandleAsFollower(f: F.Follower, m: Message) returns (sent: seq<Message>, threw: bool)
      requires Valid() && Live() && WellFormed(m) && currentRole == AsFollower(f)
      modifies f, log, log.applier, log.disk, state
      ensures Valid() && Live() && Outcome(View(), sent, threw) == FollowerReceive(old(View()), id, m)
    {
      FollowerNeverThrows(View(), id, m);
      sent := f.HandleMessage(m, false);
      threw := false;
    }

    method HandleAsCandidate(c: C.Candidate, m: Message) returns (sent: seq<Message>, threw: bool)
      requires Valid() && Live() && WellFormed(m) && currentRole == AsCandidate(c)
      modifies this`currentRole, c, log, log.applier, log.disk, state
      ensures Valid() && Live() && (currentRole == old(currentRole) || fresh(Current()))
      ensures Outcome(View(), sent, threw) == CandidateReceive(old(View()), Size(), id, m)
    {
      threw := false;
      var convert;
      assert View() == c.View();
      ghost var expected := CandidateReceive(View(), Size(), id, m);
      sent, convert := c.HandleMessage(m, false);
      assert View() == c.View();
      match convert {
        case ToFollower(replay) =>
          assert expected == FollowerReceive(Protocol.ConvertToFollower(View()), id, replay);
          sent := ConvertToFollower(replay);
        case ToLeader =>
          assert expected == Protocol.BecomeLeader(View(), Size(), id);
          sent, threw := BecomeLeader();
        case _ =>
      }
      assert Outcome(View(), sent, threw) == expected;
    }

    method HandleAsLeader(l: L.Leader, m: Message) returns (sent: seq<Message>, threw: bool)
      requires Valid() && Live() && WellFormed(m) && currentRole == AsLeader(l)
      modifies this`currentRole, l, log, log.applier, log.disk, state
      ensures Valid() && Live() && (currentRole == old(currentRole) || fresh(Current()))
      ensures Outcome(View(), sent, threw) == LeaderReceive(old(View()), Size(), id, m)
    {
      var convert;
      assert View() == l.View();
      sent, threw, convert := l.HandleMessage(m, false);
      assert View() == l.View();
      if convert.ToFollower? {
        sent := ConvertToFollower(convert.replay);
      }
    }

    /** The leader's heartbeat timer fires; a heartbeat may be skipped, but is otherwise the cluster's step. */
    method Heartbeat(l: L.Leader) returns (sent: seq<Message>, threw: bool)
      requires Valid() && Live() && currentRole == AsLeader(l)
      modifies l`scheduledHeartbeatHandler, l`skipNextHeartbeat
      ensures Valid() && Live() && View() == old(View())
      ensures Outcome(View(), sent, threw) ==
              if old(l.skipNextHeartbeat) then Sends(View(), []) else LeaderHeartbeat(old(View()), Size(), id)
    {
      assert View() == l.View();
      sent, threw := l.HandleHeartbeat();
      assert View() == l.View();
    }

    /** The election timer fires: a follower converts unless it heard from a leader or a candidate, and a
        candidate starts over. */
    method ElectionTimeout() returns (sent: seq<Message>)
      requires Valid() && Live() && (currentRole.AsFollower? || currentRole.AsCandidate?)
      modifies this`currentRole, Current(), state, log.disk`currentTerm, log.disk`votedFor
      ensures Valid() && Live()
      ensures Sends(View(), sent) ==
              if currentRole.AsFollower? then Sends(old(View()), []) else StartElection(old(View()), Size(), id)
    {
      match currentRole {
        case AsFollower(f) => sent := FollowerTimeout(f);
        case AsCandidate(c) => sent := CandidateTimeout(c);
      }
    }

    method FollowerTimeout(f: F.Follower) returns (sent: seq<Message>)
      requires Valid() && Live() && currentRole == AsFollower(f)
      modifies this`currentRole, f, state, log.disk`currentTerm, log.disk`votedFor
      ensures Valid() && Live()
      ensures currentRole.AsCandidate? == !old(f.ignoreNextElectionTimeout) && !currentRole.AsLeader?
      ensures currentRole.AsFollower? ==> currentRole == AsFollower(f) && sent == [] && View() == old(View())
      ensures currentRole.AsCandidate? ==> Sends(View(), sent) == StartElection(old(View()), Size(), id)
    {
      var convert := f.HandleTimeout();
      sent := [];
      if convert {
        sent := ConvertToCandidate();
      }
    }

    method CandidateTimeout(c: C.Candidate) returns (sent: seq<Message>)
      requires Valid() && Live() && currentRole == AsCandidate(c)
      modifies c, state, log.disk`currentTerm, log.disk`votedFor
      ensures Valid() && Live() && Sends(View(), sent) == StartElection(old(View()), Size(), id)
    {
      ElectionIgnoresRole(View(), View().role, Size(), id);
      assert View() == c.View();
      sent := c.RequestVote(false);
      assert View() == c.View();
    }

    /** Only a leader appends; the promise of any other call is rejected at once. */
    method Append(value: Payload, promise: nat) returns (accepted: bool, sent: seq<Message>, threw: bool)
      requires Valid() && (currentRole != NoRole ==> Live())
      modifies Current(), log, log.disk`entries, log.disk`indexes, log.disk`overwritten
      ensures Valid() && (currentRole != NoRole ==> Live()) && accepted == currentRole.AsLeader?
      ensures accepted ==> Outcome(View(), sent, threw) == LeaderAppend(old(View()), Size(), id, value)
      ensures !accepted ==> Outcome(View(), sent, threw) == Sends(old(View()), [])
    {
      sent, threw := [], false;
      match currentRole {
        case AsLeader(l) =>
          accepted := true;
          sent, threw := LeaderAppends(l, value, promise);
        case _ =>
          accepted := false;
      }
    }

    method LeaderAppends(l: L.Leader, value: Payload, promise: nat) returns (sent: seq<Message>, threw: bool)
      requires Valid() && Live() && currentRole == AsLeader(l)
      modifies l, log, log.disk`entries, log.disk`indexes, log.disk`overwritten
      ensures Valid() && Live() && Outcome(View(), sent, threw) == LeaderAppend(old(View()), Size(), id, value)
    {
      assert View() == l.View();
      sent, threw := l.Append(value, promise, false);
      assert View() == l.View();
    }

    /** Closing ends the role at once, and is over when the applier has finished: now, if it is idle, and otherwise
        when it gets to the mark at the end of everything that it was handed. */
    method Close(promise: nat) returns (now: bool)
      requires Valid()
      modifies this`currentRole, Current(), log.applier
      ensures currentRole == NoRole && Gone(old(currentRole)) && Settled(log, state)
      ensures now == !old(log.applier.busy)
      ensures
        var s := old(View());
        if now then View() == s.(role := Halted)
        else View() == s.(role := Halted, queued := s.queued + [Some(Entry(s.lastQueued, 0, Noop))])
             && log.applier.jobs[|s.queued|].promise == Some(promise)
    {
      ghost var role := currentRole;
      DestroyRole();
      now := FinishApplying(log, state, promise, Halted);
      assert role.AsFollower? ==> role.f.destroyed;
      assert role.AsCandidate? ==> role.c.destroyed;
      assert role.AsLeader? ==> role.l.destroyed && role.l.pendingApplication == [];
    }

    /** The server is killed: what the applier has not taken yet is dropped too. */
    method Destroy()
      requires Valid()
      modifies this`currentRole, Current(), log.applier
      ensures currentRole == NoRole && Gone(old(currentRole)) && Settled(log, state)
      ensures
        var s := old(View());
        && old(log.applier.taken) <= |s.queued|
        && View() == s.(role := Halted, queued := s.queued[..old(log.applier.taken)],
                        applying := if s.applying == Busy then Busy else Idle)
    {
      ghost var role := currentRole;
      DestroyRole();
      DropQueue(log, state, Halted);
      assert role.AsFollower? ==> role.f.destroyed;
      assert role.AsCandidate? ==> role.c.destroyed;
      assert role.AsLeader? ==> role.l.destroyed && role.l.pendingApplication == [];
    }

    // -------------------------------------------------------------- joining and coming back

    /** The first role is a follower with nothing to replay. */
    method Join()
      requires Valid() && currentRole == NoRole
      modifies this`currentRole
      ensures Valid() && Live() && fresh(Current()) && View() == Protocol.ConvertToFollower(old(View()))
    {
      var f := new F.Follower(id, log, state);
      currentRole := AsFollower(f);
      assert View() == f.View();
    }

    // -------------------------------------------------------------- consuming messages

    /** The server handles a message as the cluster's step does. */
    function Steps(): Handler {
      (s: Server, m: Message) => if s.role.Halted? then Sends(s, []) else Receive(s, Size(), id, m)
    }

    /** The current role consumes messages until another takes its place, or it has to wait. A new role starts
        to consume before the one that it replaced gets control back, and that one consumes nothing more: what
        comes of it all is what the consumed messages do one after the other, as separate steps. */
    method Consume(inbox: seq<Message>) returns (rest: seq<Message>, sent: seq<Message>, threw: bool)
      requires Valid() && Live() && forall m :: m in inbox ==> WellFormed(m)
      modifies this`currentRole, Current(), log, log.applier, log.disk, state
      ensures Valid() && Live() && (currentRole == old(currentRole) || fresh(Current()))
      ensures Consumed(Steps(), Sends(old(View()), []), inbox, rest, Outcome(View(), sent, threw))
      decreases |inbox|
    {
      var mine := currentRole;
      ghost var handler, first := Steps(), Sends(View(), []);
      rest, sent, threw := inbox, [], false;
      NothingConsumed(handler, first, inbox);
      while rest != [] && !threw && currentRole == mine
        invariant Valid() && Live() && (currentRole == old(currentRole) || fresh(Current()))
        invariant |rest| <= |inbox| && forall m :: m in rest ==> WellFormed(m)
        invariant Consumed(handler, first, inbox, rest, Outcome(View(), sent, threw))
        decreases |rest|
      {
        var waits: bool := *;
        if waits {
          break;
        }
        ghost var all, before := Outcome(View(), sent, threw), rest;
        var one;
        rest, one, threw := HandleNext(rest, mine);
        ConsumedMore(handler, first, inbox, before, all, rest, Outcome(View(), one, threw));
        sent := sent + one;
      }
    }

    method HandleNext(inbox: seq<Message>, mine: CurrentRole)
        returns (rest: seq<Message>, sent: seq<Message>, threw: bool)
      requires Valid() && Live() && inbox != [] && currentRole == mine && forall m :: m in inbox ==> WellFormed(m)
      modifies this`currentRole, Current(), log, log.applier, log.disk, state
      ensures Valid() && Live() && (currentRole == old(currentRole) || fresh(Current()))
      ensures Consumed(Steps(), Steps()(old(View()), inbox[0]), inbox[1..], rest, Outcome(View(), sent, threw))
      ensures |rest| < |inbox| && forall m :: m in rest ==> WellFormed(m)
      decreases |inbox|, 0
    {
      sent, threw := Handle(inbox[0]);
      ghost var first := Outcome(View(), sent, threw);
      rest := inbox[1..];
      NothingConsumed(Steps(), first, rest);
      if currentRole != mine && !threw {
        var more;
        rest, more, threw := Consume(rest);
        ConsumedAfter(Steps(), first, inbox[1..], rest, Outcome(View(), more, threw));
        sent := sent + more;
      }
    }
  }
}
