/** One run of three servers in which a delayed heartbeat makes a follower discard entries that it has
    acknowledged and its leader has committed, and in which a leader then counts an acknowledgement of an
    earlier term. It shows that the conditions on runs in Safety cannot be dropped. */
module Counterexamples {
  import opened Entries
  import opened Protocol
  import opened Cluster
  import opened Terms
  import opened Commitment
  import opened Completeness
  import opened Safety
  import opened Probing
  import opened HandedOnce

  const A1 := Entry(1, 1, Command(7))
  const A2 := Entry(2, 1, Command(8))
  const B1 := Entry(1, 2, Command(9))
  const C2 := Entry(2, 3, Command(10))

  const STALE := AcceptEntries(1, 0, 1, 2)
  const LATE_HEARTBEAT := AppendEntries(0, 1, 1, 0, 0, 0, [])

  function Act(k: nat): Action {
    match k
    case 0 => ElectionTimeout(0)
    case 1 => Deliver(RequestVote(0, 1, 1, 0, 0), 0)
    case 2 => Deliver(GrantVote(1, 0, 1), 0)
    case 3 => Append(0, Command(7))
    case 4 => Append(0, Command(8))
    case 5 => Deliver(AppendEntries(0, 1, 1, 0, 0, 0, [A1, A2]), 2)
    case 6 => Deliver(STALE, 0)
    case 7 => Deliver(LATE_HEARTBEAT, 0)
    case 8 => ElectionTimeout(1)
    case 9 => Deliver(RequestVote(1, 2, 2, 0, 0), 0)
    case 10 => Deliver(GrantVote(2, 1, 2), 0)
    case 11 => Append(1, Command(9))
    case 12 => Deliver(AppendEntries(1, 0, 2, 0, 0, 0, [B1]), 1)
    case 13 => Deliver(AcceptEntries(0, 1, 2, 1), 0)
    case 14 => ElectionTimeout(0)
    case 15 => Deliver(RequestVote(0, 1, 3, 1, 2), 0)
    case 16 => Deliver(GrantVote(1, 0, 3), 0)
    case 17 => Append(0, Command(10))
    case _ => Deliver(STALE, 0)
  }

  /** The first k of these actions. */
  function Acts(k: nat): (run: seq<Action>)
    ensures |run| == k && forall j :: 0 <= j < k ==> run[j] == Act(j)
  {
    seq(k, j requires 0 <= j < k => Act(j))
  }

  lemma OneMoreAct(k: nat)
    ensures Acts(k + 1)[..k] == Acts(k) && Acts(k + 1)[k] == Act(k)
  {
  }

  const RUN: seq<Action> := Acts(19)

  function Lead(commit: nat, a: nat, pa: Progress, b: nat, pb: Progress, pending: seq<Pending>): Role {
    Leader(commit, map[a := pa, b := pb], pending)
  }

  lemma AskTwo(s: Server, id: nat, a: nat, b: nat)
    requires Peers(3, id) == [a, b]
    ensures
      var s' := s.(term := s.term + 1, vote := Some(id), role := Candidate(1, {}));
      StartElection(s, 3, id) ==
        Sends(s', [RequestVote(id, a, s'.term, |s.log|, LastTerm(s.log)),
                   RequestVote(id, b, s'.term, |s.log|, LastTerm(s.log))])
  {
  }

  lemma UpdateNext(s: Server, id: nat, peers: seq<nat>, heartbeatOnly: bool)
    requires s.role.Leader? && peers != [] && CanUpdate(s, peers[0])
    ensures
      var rest := UpdateAll(s, id, peers[1..], heartbeatOnly);
      UpdateAll(s, id, peers, heartbeatOnly) ==
        Outcome(s, [UpdateFollower(s, id, peers[0], heartbeatOnly)] + rest.sent, rest.thrown)
  {
  }

  lemma UpdateTwo(s: Server, id: nat, a: nat, b: nat, heartbeatOnly: bool)
    requires s.role.Leader? && CanUpdate(s, a) && CanUpdate(s, b)
    ensures UpdateAll(s, id, [a, b], heartbeatOnly) ==
            Sends(s, [UpdateFollower(s, id, a, heartbeatOnly), UpdateFollower(s, id, b, heartbeatOnly)])
  {
    var peers := [a, b];
    assert peers[0] == a && peers[1..] == [b];
    UpdateNext(s, id, peers, heartbeatOnly);
    UpdateOne(s, id, b, heartbeatOnly);
  }

  lemma UpdateOne(s: Server, id: nat, peer: nat, heartbeatOnly: bool)
    requires s.role.Leader? && CanUpdate(s, peer)
    ensures UpdateAll(s, id, [peer], heartbeatOnly) == Sends(s, [UpdateFollower(s, id, peer, heartbeatOnly)])
  {
    UpdateNext(s, id, [peer], heartbeatOnly);
    assert [peer][1..] == [];
  }

  /** The one vote that is missing makes a candidate leader, and it sends one heartbeat to each peer. */
  lemma TakeLead(s: Server, id: nat, a: nat, b: nat, src: nat)
    requires Peers(3, id) == [a, b] && s.role == Candidate(1, {})
    ensures
      var s' := s.(role := Lead(0, a, Progress(|s.log| + 1, 0), b, Progress(|s.log| + 1, 0), []));
      Receive(s, 3, id, GrantVote(src, id, s.term)) ==
        Sends(s', [AppendEntries(id, a, s.term, |s.log|, LastTerm(s.log), 0, []),
                   AppendEntries(id, b, s.term, |s.log|, LastTerm(s.log), 0, [])])
  {
    var progress := map p | p in Peers(3, id) :: Progress(|s.log| + 1, 0);
    assert progress == map[a := Progress(|s.log| + 1, 0), b := Progress(|s.log| + 1, 0)];
    UpdateTwo(s.(role := Leader(0, progress, [])), id, a, b, true);
  }

  lemma AppendTwo(s: Server, id: nat, a: nat, b: nat, entry: Entry)
    requires Peers(3, id) == [a, b] && s.role.Leader?
    requires CanUpdate(s, a) && CanUpdate(s, b) && entry.index == |s.log| + 1 && entry.term == s.term
    ensures
      var s' := s.(log := s.log + [entry], stream := s.stream + [entry],
                   role := s.role.(pending := s.role.pending + [Pending(entry.index, 1)]));
      LeaderAppend(s, 3, id, entry.value) ==
        Sends(s', [UpdateFollower(s', id, a, false), UpdateFollower(s', id, b, false)])
  {
    var s' := s.(log := s.log + [entry], stream := s.stream + [entry],
                 role := s.role.(pending := s.role.pending + [Pending(entry.index, 1)]));
    UpdateTwo(s', id, a, b, false);
  }

  /** Committing one entry that needs no further accepts, at the front of the queue. */
  lemma CommitOne(s: Server, e: Entry)
    requires s.role.Leader? && s.role.pending != [] && s.role.pending[0] == Pending(e.index, 0)
    requires 1 <= e.index <= |s.log| && s.log[e.index - 1] == e && s.lastQueued >= e.index - 1
    requires e.value != Noop && s.applying != Stalled
    ensures CommitReplicated(s) == CommitReplicated(
      s.(queued := s.queued + [Some(e)], lastQueued := e.index, applying := Busy,
         role := s.role.(commitIndex := e.index, pending := s.role.pending[1..])))
  {
    HandOne(s, e);
  }

  lemma HandOne(s: Server, e: Entry)
    requires 1 <= e.index <= |s.log| && s.log[e.index - 1] == e && s.lastQueued >= e.index - 1
    requires e.value != Noop && s.applying != Stalled
    ensures CommitTo(s, e.index) == s.(queued := s.queued + [Some(e)], lastQueued := e.index, applying := Busy)
  {
    var entries := s.log[FirstHanded(s.lastQueued, e.index) - 1..e.index];
    assert entries == [e] && entries[0] == e;
    assert Queueable(entries) == [Some(e)];
  }

  // ---------------------------------------------------------------- the states on the way

  const S0 := Server(0, None, [], [], 0, [], Idle, Follower(0))

  /** Server 0 leads term 1 and commits two entries; server 1 acknowledges them and then loses them. */
  const E1 := Server(1, Some(0), [], [], 0, [], Idle, Candidate(1, {}))
  const V1 := Server(1, Some(0), [], [], 0, [], Idle, Follower(0))
  const L1 := Server(1, Some(0), [], [], 0, [], Idle, Lead(0, 1, Progress(1, 0), 2, Progress(1, 0), []))

  const P1 := Lead(0, 1, Progress(1, 0), 2, Progress(1, 0), [Pending(1, 1)])
  const P2 := Lead(0, 1, Progress(1, 0), 2, Progress(1, 0), [Pending(1, 1), Pending(2, 1)])
  const L1A := Server(1, Some(0), [A1], [A1], 0, [], Idle, P1)
  const L1B := Server(1, Some(0), [A1, A2], [A1, A2], 0, [], Idle, P2)
  const V2 := Server(1, Some(0), [A1, A2], [A1, A2], 0, [], Idle, Follower(0))
  const L2 := Server(1, Some(0), [A1, A2], [A1, A2], 2, [Some(A1), Some(A2)], Busy,
                     Lead(2, 1, Progress(3, 2), 2, Progress(1, 0), []))
  const V3 := Server(1, Some(0), [], [A1, A2], 0, [], Idle, Follower(0))

  /** Server 1 leads term 2 without them. */
  const E2 := Server(2, Some(1), [], [A1, A2], 0, [], Idle, Candidate(1, {}))
  const W2 := Server(2, Some(1), [], [], 0, [], Idle, Follower(0))
  const L3 := Server(2, Some(1), [], [A1, A2], 0, [], Idle, Lead(0, 0, Progress(1, 0), 2, Progress(1, 0), []))
  const L3A := Server(2, Some(1), [B1], [A1, A2, B1], 0, [], Idle,
                      Lead(0, 0, Progress(1, 0), 2, Progress(1, 0), [Pending(1, 1)]))
  const F2 := Server(2, None, [B1], [A1, A2, B1], 2, [Some(A1), Some(A2)], Busy, Follower(0))
  const L3B := Server(2, Some(1), [B1], [A1, A2, B1], 1, [Some(B1)], Busy,
                      Lead(1, 0, Progress(2, 1), 2, Progress(1, 0), []))

  /** Server 0 leads term 3 and counts a stale accept. */
  const E3 := Server(3, Some(0), [B1], [A1, A2, B1], 2, [Some(A1), Some(A2)], Busy, Candidate(1, {}))
  const V4 := Server(3, Some(0), [B1], [A1, A2, B1], 1, [Some(B1)], Busy, Follower(0))
  const L5 := Server(3, Some(0), [B1], [A1, A2, B1], 2, [Some(A1), Some(A2)], Busy,
                     Lead(0, 1, Progress(2, 0), 2, Progress(2, 0), []))
  const L5A := Server(3, Some(0), [B1, C2], [A1, A2, B1, C2], 2, [Some(A1), Some(A2)], Busy,
                      Lead(0, 1, Progress(2, 0), 2, Progress(2, 0), [Pending(2, 1)]))
  const L5B := Server(3, Some(0), [B1, C2], [A1, A2, B1, C2], 2, [Some(A1), Some(A2), Some(C2)], Busy,
                      Lead(2, 1, Progress(3, 2), 2, Progress(2, 0), []))

  const ASK1 := RequestVote(0, 1, 1, 0, 0)
  const GRANT1 := GrantVote(1, 0, 1)
  const SEND_A1 := AppendEntries(0, 1, 1, 0, 0, 0, [A1])
  const ALSO_A1 := AppendEntries(0, 2, 1, 0, 0, 0, [A1])
  const SEND_A := AppendEntries(0, 1, 1, 0, 0, 0, [A1, A2])
  const ALSO_A := AppendEntries(0, 2, 1, 0, 0, 0, [A1, A2])
  const ASK2 := RequestVote(1, 2, 2, 0, 0)
  const GRANT2 := GrantVote(2, 1, 2)
  const SEND_B := AppendEntries(1, 0, 2, 0, 0, 0, [B1])
  const ALSO_B := AppendEntries(1, 2, 2, 0, 0, 0, [B1])
  const ACK_B := AcceptEntries(0, 1, 2, 1)
  const ASK3 := RequestVote(0, 1, 3, 1, 2)
  const BEAT3 := AppendEntries(0, 1, 3, 1, 2, 0, [])
  const ALSO_BEAT3 := AppendEntries(0, 2, 3, 1, 2, 0, [])
  const GRANT3 := GrantVote(1, 0, 3)

  /** The servers after k actions. */
  function StateAt(k: nat): (servers: seq<Server>)
    ensures |servers| == 3
  {
    match k
    case 0 => [S0, S0, S0]
    case 1 => [E1, S0, S0]
    case 2 => [E1, V1, S0]
    case 3 => [L1, V1, S0]
    case 4 => [L1A, V1, S0]
    case 5 => [L1B, V1, S0]
    case 6 => [L1B, V2, S0]
    case 7 => [L2, V2, S0]
    case 8 => [L2, V3, S0]
    case 9 => [L2, E2, S0]
    case 10 => [L2, E2, W2]
    case 11 => [L2, L3, W2]
    case 12 => [L2, L3A, W2]
    case 13 => [F2, L3A, W2]
    case 14 => [F2, L3B, W2]
    case 15 => [E3, L3B, W2]
    case 16 => [E3, V4, W2]
    case 17 => [L5, V4, W2]
    case 18 => [L5A, V4, W2]
    case _ => [L5B, V4, W2]
  }

  /** The messages sent by then that still matter. */
  function NetAt(k: nat): set<Message> {
    match k
    case 0 => {}
    case 1 => {ASK1}
    case 2 => {GRANT1}
    case 3 => {LATE_HEARTBEAT}
    case 4 => {LATE_HEARTBEAT}
    case 5 => {LATE_HEARTBEAT, SEND_A, ALSO_A}
    case 6 => {LATE_HEARTBEAT, STALE, ALSO_A}
    case 7 => {LATE_HEARTBEAT, STALE, ALSO_A}
    case 8 => {STALE}
    case 9 => {STALE, ASK2}
    case 10 => {STALE, GRANT2}
    case 11 => {STALE}
    case 12 => {STALE, SEND_B}
    case 13 => {STALE, ACK_B}
    case 14 => {STALE}
    case 15 => {STALE, ASK3}
    case 16 => {STALE, GRANT3}
    case 17 => {STALE}
    case 18 => {STALE, BEAT3}
    case _ => {}
  }

  /** These servers, and a network with at least these messages. */
  ghost predicate Is(c: Cluster, servers: seq<Server>, net: set<Message>) {
    c.servers == servers && net <= c.net
  }

  ghost predicate Stage(k: nat, c: Cluster) {
    Is(c, StateAt(k), NetAt(k))
  }

  lemma ThreeServers()
    ensures Peers(3, 0) == [1, 2] && Peers(3, 1) == [0, 2]
    ensures Init(3).servers == [S0, S0, S0]
  {
    assert Peers(1, 0) == [] && Peers(2, 0) == [1] && Peers(1, 1) == [0] && Peers(2, 1) == [0];
  }

  /** When server id comes to this outcome, these are the servers, and at least these messages are in the network. */
  ghost predicate Becomes(c: Cluster, id: nat, o: Outcome, servers: seq<Server>, net: set<Message>) {
    && |c.servers| == 3 && id < 3 && servers == c.servers[id := o.server]
    && forall m :: m in net ==> m in c.net || m in o.sent
  }

  lemma TimesOut(c: Cluster, id: nat, o: Outcome, servers: seq<Server>, net: set<Message>)
    requires Becomes(c, id, o, servers, net) && (c.servers[id].role.Follower? || c.servers[id].role.Candidate?)
    requires StartElection(c.servers[id], 3, id) == o
    ensures Is(Next(c, ElectionTimeout(id)), servers, net)
  {
  }

  lemma Beats(c: Cluster, id: nat, o: Outcome, servers: seq<Server>, net: set<Message>)
    requires Becomes(c, id, o, servers, net) && c.servers[id].role.Leader? && LeaderHeartbeat(c.servers[id], 3, id) == o
    ensures Is(Next(c, Heartbeat(id)), servers, net)
  {
  }

  lemma Appends(c: Cluster, id: nat, value: Payload, o: Outcome, servers: seq<Server>, net: set<Message>)
    requires Becomes(c, id, o, servers, net)
    requires c.servers[id].role.Leader? && LeaderAppend(c.servers[id], 3, id, value) == o
    ensures Is(Next(c, Append(id, value)), servers, net)
  {
  }

  lemma Delivers(c: Cluster, m: Message, take: nat, o: Outcome, servers: seq<Server>, net: set<Message>)
    requires Becomes(c, m.dst, o, servers, net) && m in c.net && (m.AppendEntries? ==> take >= |m.entries|)
    requires !c.servers[m.dst].role.Halted? && Receive(c.servers[m.dst], 3, m.dst, m) == o
    ensures Is(Next(c, Deliver(m, take)), servers, net)
  {
    assert Shorten(m, take) == m;
  }

  // ---------------------------------------------------------------- server 0 leads term 1

  lemma Step0(c: Cluster)
    requires Is(c, [S0, S0, S0], {})
    ensures Is(Next(c, ElectionTimeout(0)), [E1, S0, S0], {ASK1})
  {
    ThreeServers();
    AskTwo(S0, 0, 1, 2);
    TimesOut(c, 0, StartElection(S0, 3, 0), [E1, S0, S0], {ASK1});
  }

  lemma Step1(c: Cluster)
    requires Is(c, [E1, S0, S0], {ASK1})
    ensures Is(Next(c, Deliver(RequestVote(0, 1, 1, 0, 0), 0)), [E1, V1, S0], {GRANT1})
  {
    Delivers(c, RequestVote(0, 1, 1, 0, 0), 0, Sends(V1, [GRANT1]), [E1, V1, S0], {GRANT1});
  }

  lemma Step2(c: Cluster)
    requires Is(c, [E1, V1, S0], {GRANT1})
    ensures Is(Next(c, Deliver(GrantVote(1, 0, 1), 0)), [L1, V1, S0], {LATE_HEARTBEAT})
  {
    ThreeServers();
    TakeLead(E1, 0, 1, 2, 1);
    Delivers(c, GrantVote(1, 0, 1), 0, Receive(E1, 3, 0, GRANT1), [L1, V1, S0], {LATE_HEARTBEAT});
  }

  // ---------------------------------------------------------------- it commits two entries; server 1 loses them

  lemma FirstAppend()
    ensures LeaderAppend(L1, 3, 0, Command(7)) == Sends(L1A, [SEND_A1, ALSO_A1])
  {
    ThreeServers();
    AppendTwo(L1, 0, 1, 2, A1);
    assert L1.log + [A1] == [A1] && L1.role.pending + [Pending(1, 1)] == P1.pending;
    assert UpdateFollower(L1A, 0, 1, false) == SEND_A1 && UpdateFollower(L1A, 0, 2, false) == ALSO_A1;
  }

  lemma Outcome3(c: Cluster)
    requires Is(c, [L1, V1, S0], {LATE_HEARTBEAT})
    ensures Becomes(c, 0, Sends(L1A, [SEND_A1, ALSO_A1]), [L1A, V1, S0], {LATE_HEARTBEAT})
  {
  }

  lemma Step3(c: Cluster)
    requires Is(c, [L1, V1, S0], {LATE_HEARTBEAT})
    ensures Is(Next(c, Append(0, Command(7))), [L1A, V1, S0], {LATE_HEARTBEAT})
  {
    FirstAppend();
    Outcome3(c);
    Appends(c, 0, Command(7), Sends(L1A, [SEND_A1, ALSO_A1]), [L1A, V1, S0], {LATE_HEARTBEAT});
  }

  lemma SecondAppend()
    ensures LeaderAppend(L1A, 3, 0, Command(8)) == Sends(L1B, [SEND_A, ALSO_A])
  {
    ThreeServers();
    AppendTwo(L1A, 0, 1, 2, A2);
    assert L1A.log + [A2] == [A1, A2] && P1.pending + [Pending(2, 1)] == P2.pending;
    assert UpdateFollower(L1B, 0, 1, false) == SEND_A && UpdateFollower(L1B, 0, 2, false) == ALSO_A;
  }

  lemma Step4(c: Cluster)
    requires Is(c, [L1A, V1, S0], {LATE_HEARTBEAT})
    ensures Is(Next(c, Append(0, Command(8))), [L1B, V1, S0], {LATE_HEARTBEAT, SEND_A, ALSO_A})
  {
    SecondAppend();
    Appends(c, 0, Command(8), Sends(L1B, [SEND_A, ALSO_A]), [L1B, V1, S0], {LATE_HEARTBEAT, SEND_A, ALSO_A});
  }

  lemma TakesBoth()
    ensures Receive(V1, 3, 1, SEND_A) == Sends(V2, [STALE])
  {
    assert V1.stream + [A1, A2] == [A1, A2] && Merge([], 0, [A1, A2]) == [A1, A2];
    assert FollowerAppendEntries(V1, 1, SEND_A) == Sends(V2, [STALE]);
  }

  lemma Step5(c: Cluster)
    requires Is(c, [L1B, V1, S0], {LATE_HEARTBEAT, SEND_A, ALSO_A})
    ensures Is(Next(c, Deliver(AppendEntries(0, 1, 1, 0, 0, 0, [A1, A2]), 2)), [L1B, V2, S0],
               {LATE_HEARTBEAT, STALE, ALSO_A})
  {
    TakesBoth();
    Delivers(c, SEND_A, 2, Sends(V2, [STALE]), [L1B, V2, S0], {LATE_HEARTBEAT, STALE, ALSO_A});
  }

  lemma AcceptBoth()
    ensures Receive(L1B, 3, 0, STALE) == Sends(L2, [])
  {
    var counted := [Pending(1, 0), Pending(2, 0)];
    assert CountAccept([Pending(2, 1)], 1, 2) == [Pending(2, 0)];
    assert CountAccept(P2.pending, 1, 2) == counted;
    var s := L1B.(role := P2.(pending := counted));
    CommitOne(s, A1);
    var s' := s.(queued := [Some(A1)], lastQueued := 1, applying := Busy,
                 role := P2.(commitIndex := 1, pending := [Pending(2, 0)]));
    assert counted[1..] == [Pending(2, 0)];
    CommitOne(s', A2);
  }

  lemma Outcome6(c: Cluster)
    requires Is(c, [L1B, V2, S0], {LATE_HEARTBEAT, STALE, ALSO_A})
    ensures Becomes(c, 0, Sends(L2, []), [L2, V2, S0], {LATE_HEARTBEAT, STALE, ALSO_A})
  {
  }

  lemma Step6(c: Cluster)
    requires Is(c, [L1B, V2, S0], {LATE_HEARTBEAT, STALE, ALSO_A})
    ensures Is(Next(c, Deliver(STALE, 0)), [L2, V2, S0], {LATE_HEARTBEAT, STALE, ALSO_A})
  {
    AcceptBoth();
    Outcome6(c);
    Delivers(c, STALE, 0, Sends(L2, []), [L2, V2, S0], {LATE_HEARTBEAT, STALE, ALSO_A});
  }

  lemma LosesBoth()
    ensures Receive(V2, 3, 1, LATE_HEARTBEAT) == Sends(V3, [AcceptEntries(1, 0, 1, 0)])
  {
    assert V2.stream + [] == V2.stream && Merge(V2.log, 0, []) == [];
    assert FollowerAppendEntries(V2, 1, LATE_HEARTBEAT) == Sends(V3, [AcceptEntries(1, 0, 1, 0)]);
  }

  lemma Step7(c: Cluster)
    requires Is(c, [L2, V2, S0], {LATE_HEARTBEAT, STALE, ALSO_A})
    ensures Is(Next(c, Deliver(LATE_HEARTBEAT, 0)), [L2, V3, S0], {STALE})
  {
    LosesBoth();
    Delivers(c, LATE_HEARTBEAT, 0, Sends(V3, [AcceptEntries(1, 0, 1, 0)]), [L2, V3, S0], {STALE});
  }

  // ---------------------------------------------------------------- server 1 leads term 2 without them

  lemma Step8(c: Cluster)
    requires Is(c, [L2, V3, S0], {STALE})
    ensures Is(Next(c, ElectionTimeout(1)), [L2, E2, S0], {STALE, ASK2})
  {
    ThreeServers();
    AskTwo(V3, 1, 0, 2);
    TimesOut(c, 1, StartElection(V3, 3, 1), [L2, E2, S0], {STALE, ASK2});
  }

  lemma Step9(c: Cluster)
    requires Is(c, [L2, E2, S0], {STALE, ASK2})
    ensures Is(Next(c, Deliver(RequestVote(1, 2, 2, 0, 0), 0)), [L2, E2, W2], {STALE, GRANT2})
  {
    Delivers(c, RequestVote(1, 2, 2, 0, 0), 0, Sends(W2, [GRANT2]), [L2, E2, W2], {STALE, GRANT2});
  }

  lemma Step10(c: Cluster)
    requires Is(c, [L2, E2, W2], {STALE, GRANT2})
    ensures Is(Next(c, Deliver(GrantVote(2, 1, 2), 0)), [L2, L3, W2], {STALE})
  {
    ThreeServers();
    TakeLead(E2, 1, 0, 2, 2);
    Delivers(c, GrantVote(2, 1, 2), 0, Receive(E2, 3, 1, GRANT2), [L2, L3, W2], {STALE});
  }

  lemma ThirdAppend()
    ensures LeaderAppend(L3, 3, 1, Command(9)) == Sends(L3A, [SEND_B, ALSO_B])
  {
    ThreeServers();
    AppendTwo(L3, 1, 0, 2, B1);
    assert L3.log + [B1] == [B1] && L3.stream + [B1] == L3A.stream;
    assert L3.role.pending + [Pending(1, 1)] == L3A.role.pending;
    assert UpdateFollower(L3A, 1, 0, false) == SEND_B && UpdateFollower(L3A, 1, 2, false) == ALSO_B;
  }

  lemma Step11(c: Cluster)
    requires Is(c, [L2, L3, W2], {STALE})
    ensures Is(Next(c, Append(1, Command(9))), [L2, L3A, W2], {STALE, SEND_B})
  {
    ThirdAppend();
    Appends(c, 1, Command(9), Sends(L3A, [SEND_B, ALSO_B]), [L2, L3A, W2], {STALE, SEND_B});
  }

  lemma StepsDown()
    ensures Receive(L2, 3, 0, SEND_B) == Sends(F2, [ACK_B])
  {
    assert L2.stream + [B1] == [A1, A2, B1];
    assert FollowerAppendEntries(ConvertToFollower(SetTerm(L2, 2)), 0, SEND_B) == Sends(F2, [ACK_B]);
  }

  lemma Step12(c: Cluster)
    requires Is(c, [L2, L3A, W2], {STALE, SEND_B})
    ensures Is(Next(c, Deliver(AppendEntries(1, 0, 2, 0, 0, 0, [B1]), 1)), [F2, L3A, W2], {STALE, ACK_B})
  {
    StepsDown();
    Delivers(c, AppendEntries(1, 0, 2, 0, 0, 0, [B1]), 1, Sends(F2, [ACK_B]), [F2, L3A, W2], {STALE, ACK_B});
  }

  lemma AcceptB()
    ensures Receive(L3A, 3, 1, ACK_B) == Sends(L3B, [])
  {
    var counted := [Pending(1, 0)];
    assert CountAccept(L3A.role.pending, 1, 1) == counted && counted[1..] == [];
    CommitOne(L3A.(role := L3A.role.(pending := counted)), B1);
    assert RecordAccept(L3A, 0, 1) == L3B;
  }

  lemma Outcome13(c: Cluster)
    requires Is(c, [F2, L3A, W2], {STALE, ACK_B})
    ensures Becomes(c, 1, Sends(L3B, []), [F2, L3B, W2], {STALE})
  {
  }

  lemma Step13(c: Cluster)
    requires Is(c, [F2, L3A, W2], {STALE, ACK_B})
    ensures Is(Next(c, Deliver(AcceptEntries(0, 1, 2, 1), 0)), [F2, L3B, W2], {STALE})
  {
    AcceptB();
    Outcome13(c);
    Delivers(c, AcceptEntries(0, 1, 2, 1), 0, Sends(L3B, []), [F2, L3B, W2], {STALE});
  }

  // ---------------------------------------------------------------- server 0 leads term 3 and counts a stale accept

  lemma Step14(c: Cluster)
    requires Is(c, [F2, L3B, W2], {STALE})
    ensures Is(Next(c, ElectionTimeout(0)), [E3, L3B, W2], {STALE, ASK3})
  {
    ThreeServers();
    AskTwo(F2, 0, 1, 2);
    TimesOut(c, 0, StartElection(F2, 3, 0), [E3, L3B, W2], {STALE, ASK3});
  }

  lemma Step15(c: Cluster)
    requires Is(c, [E3, L3B, W2], {STALE, ASK3})
    ensures Is(Next(c, Deliver(RequestVote(0, 1, 3, 1, 2), 0)), [E3, V4, W2], {STALE, GRANT3})
  {
    Delivers(c, RequestVote(0, 1, 3, 1, 2), 0, Sends(V4, [GRANT3]), [E3, V4, W2], {STALE, GRANT3});
  }

  lemma Step16(c: Cluster)
    requires Is(c, [E3, V4, W2], {STALE, GRANT3})
    ensures Is(Next(c, Deliver(GrantVote(1, 0, 3), 0)), [L5, V4, W2], {STALE})
  {
    ThreeServers();
    TakeLead(E3, 0, 1, 2, 1);
    Delivers(c, GrantVote(1, 0, 3), 0, Receive(E3, 3, 0, GRANT3), [L5, V4, W2], {STALE});
  }

  lemma FourthAppend()
    ensures LeaderAppend(L5, 3, 0, Command(10)) == Sends(L5A, [BEAT3, ALSO_BEAT3])
  {
    ThreeServers();
    AppendTwo(L5, 0, 1, 2, C2);
    assert L5.log + [C2] == [B1, C2] && L5.stream + [C2] == L5A.stream;
    assert L5.role.pending + [Pending(2, 1)] == L5A.role.pending;
    assert UpdateFollower(L5A, 0, 1, false) == BEAT3 && UpdateFollower(L5A, 0, 2, false) == ALSO_BEAT3;
  }

  lemma Step17(c: Cluster)
    requires Is(c, [L5, V4, W2], {STALE})
    ensures Is(Next(c, Append(0, Command(10))), [L5A, V4, W2], {STALE, BEAT3})
  {
    FourthAppend();
    Appends(c, 0, Command(10), Sends(L5A, [BEAT3, ALSO_BEAT3]), [L5A, V4, W2], {STALE, BEAT3});
  }

  lemma AcceptStale()
    ensures Receive(L5A, 3, 0, STALE) == Sends(L5B, [])
  {
    assert CountAccept(L5A.role.pending, 2, 2) == [Pending(2, 0)];
    CommitOne(L5A.(role := L5A.role.(pending := [Pending(2, 0)])), C2);
  }

  lemma Outcome18(c: Cluster)
    requires Is(c, [L5A, V4, W2], {STALE, BEAT3})
    ensures Becomes(c, 0, Sends(L5B, []), [L5B, V4, W2], {})
  {
  }

  lemma Step18(c: Cluster)
    requires Is(c, [L5A, V4, W2], {STALE, BEAT3})
    ensures Is(Next(c, Deliver(STALE, 0)), [L5B, V4, W2], {})
  {
    AcceptStale();
    Outcome18(c);
    Delivers(c, STALE, 0, Sends(L5B, []), [L5B, V4, W2], {});
  }

  // ---------------------------------------------------------------- the whole run

  lemma StepFirst(k: nat, c: Cluster)
    requires k < 9 && Stage(k, c)
    ensures Stage(k + 1, Next(c, Act(k)))
  {
    match k {
      case 0 => Step0(c);
      case 1 => Step1(c);
      case 2 => Step2(c);
      case 3 => Step3(c);
      case 4 => Step4(c);
      case 5 => Step5(c);
      case 6 => Step6(c);
      case 7 => Step7(c);
      case _ => Step8(c);
    }
  }

  lemma StepLast(k: nat, c: Cluster)
    requires 9 <= k < 19 && Stage(k, c)
    ensures Stage(k + 1, Next(c, Act(k)))
  {
    match k {
      case 9 => Step9(c);
      case 10 => Step10(c);
      case 11 => Step11(c);
      case 12 => Step12(c);
      case 13 => Step13(c);
      case 14 => Step14(c);
      case 15 => Step15(c);
      case 16 => Step16(c);
      case 17 => Step17(c);
      case _ => Step18(c);
    }
  }

  lemma {:induction false} Trace(k: nat)
    requires k <= 19
    ensures Stage(k, Exec(3, Acts(k)))
  {
    if k == 0 {
      ThreeServers();
    } else {
      Trace(k - 1);
      OneMoreAct(k - 1);
      if k <= 9 {
        StepFirst(k - 1, Exec(3, Acts(k - 1)));
      } else {
        StepLast(k - 1, Exec(3, Acts(k - 1)));
      }
    }
  }

  lemma Reached(k: nat)
    requires k <= 19
    ensures RUN[..k] == Acts(k) && Stage(k, Exec(3, RUN[..k])) && (k < 19 ==> RUN[k] == Act(k))
  {
    Trace(k);
    assert RUN[..k] == Acts(k);
  }

  // ---------------------------------------------------------------- what fails

  lemma AckCurrentAt(k: nat, c: Cluster)
    requires k < 18 && Stage(k, c) && CountsAck(c, Act(k))
    ensures Act(k).m.term == c.servers[Actor(Act(k))].term
  {
    assert k == 6 || k == 13;
  }

  lemma CurrentUntilLast()
    ensures CurrentAcks(3, RUN[..18])
  {
    var run := RUN[..18];
    forall k | 0 <= k < 18 && CountsAck(Exec(3, run[..k]), run[k])
      ensures run[k].m.term == Exec(3, run[..k]).servers[Actor(run[k])].term
    {
      assert run[..k] == RUN[..k];
      Reached(k);
      AckCurrentAt(k, Exec(3, run[..k]));
    }
  }

  lemma WholeUntilLast()
    ensures WholeWrites(RUN[..18])
  {
    forall k | 0 <= k < 18
      ensures RUN[..18][k] == Act(k) && !Act(k).EntriesLandThenCrash?
    {
    }
  }

  lemma BadMerge()
    ensures !PaperMerges(3, RUN[..18])
  {
    Reached(7);
    assert RUN[..18][..7] == RUN[..7] && RUN[..18][7] == RUN[7];
    CutsWithoutConflict(Exec(3, RUN[..7]));
  }

  /** The late heartbeat cuts entries that it does not conflict with. */
  lemma CutsWithoutConflict(c: Cluster)
    requires Stage(7, c)
    ensures !MergesAsPaper(c, Act(7))
  {
    assert c.servers[1] == V2 && Shorten(LATE_HEARTBEAT, 0) == LATE_HEARTBEAT;
    assert Merge(V2.log, 0, []) == [] && PaperMerge(V2.log, 0, []) == V2.log;
  }

  /** Leader Completeness fails: server 0 committed two entries in term 1, and server 1 leads term 2 with none. */
  lemma LeaderCompletenessFails()
    ensures
      var s, later := At(3, RUN, 7, 0), At(3, RUN, 11, 1);
      && s.role.Leader? && later.role.Leader? && s.term < later.term
      && s.role.commitIndex <= |s.log| && !(s.log[..s.role.commitIndex] <= later.log)
  {
    Reached(7);
    Reached(11);
    assert At(3, RUN, 7, 0) == L2 && At(3, RUN, 11, 1) == L3;
  }

  /** Up to its last action the run breaks only the condition on merges. */
  lemma OnlyMergesDiffer()
    ensures CurrentAcks(3, RUN[..18]) && WholeWrites(RUN[..18])
    ensures !PaperMerges(3, RUN[..18]) && !CommitsSpared(3, RUN[..18])
  {
    CurrentUntilLast();
    WholeUntilLast();
    BadMerge();
    CurrentAcksAreBacked(3, RUN[..18]);
    LeaderCompletenessFails();
    SamePast(7, 0);
    SamePast(11, 1);
    NotClean(RUN[..18], 7, 11, 0, 1);
  }

  lemma SamePast(p: nat, id: nat)
    requires p <= 18 && id < 3
    ensures At(3, RUN[..18], p, id) == At(3, RUN, p, id)
  {
    assert RUN[..18][..p] == RUN[..p];
  }

  lemma NotClean(run: seq<Action>, p: nat, q: nat, i: nat, j: nat)
    requires BackedAcks(3, run) && p <= |run| && q <= |run| && i < 3 && j < 3
    requires
      var s, later := At(3, run, p, i), At(3, run, q, j);
      && s.role.Leader? && later.role.Leader? && s.term < later.term
      && s.role.commitIndex <= |s.log| && !(s.log[..s.role.commitIndex] <= later.log)
    ensures !CommitsSpared(3, run)
  {
    if CommitsSpared(3, run) {
      LeaderCompleteness(3, run, p, q, i, j);
    }
  }

  /** State Machine Safety fails: servers 0 and 1 hand different entries of index 1 to their state machines. */
  lemma StateMachineSafetyFails()
    ensures Some(A1) in At(3, RUN, 14, 0).queued && Some(B1) in At(3, RUN, 14, 1).queued
    ensures A1.index == B1.index && A1 != B1
  {
    Reached(14);
    assert At(3, RUN, 14, 0) == F2 && At(3, RUN, 14, 1) == L3B;
    assert F2.queued[0] == Some(A1) && L3B.queued[0] == Some(B1);
  }

  lemma NeverHadBoth(p: nat, u: nat)
    requires p <= 19 && 1 <= u < 3
    ensures !([B1, C2] <= StateAt(p)[u].log)
  {
    var log := StateAt(p)[u].log;
    assert log == [] || log == [A1, A2] || log == [B1];
    assert [B1, C2][0] != [A1, A2][0];
  }

  lemma NeverHadBothAt(p: nat, u: nat)
    requires p <= 19 && 1 <= u < 3
    ensures !([B1, C2] <= At(3, RUN, p, u).log)
  {
    Reached(p);
    NeverHadBoth(p, u);
  }

  /** With the stale accept, a leader commits an index that no other server ever had in its log. */
  lemma CommitCertificateFails()
    ensures !AckIsBacked(Exec(3, RUN[..18]), RUN[18])
    ensures
      var s := At(3, RUN, 19, 0);
      && s.role.Leader? && s.role.commitIndex == |s.log| == 2
      && forall u: nat :: u != 0 ==> !HadPrefix(3, RUN, u, s.log)
  {
    StaleAckCounted();
    Reached(19);
    assert At(3, RUN, 19, 0) == L5B;
    forall u: nat, p: nat | u != 0 && u < 3 && p <= 19
      ensures !([B1, C2] <= At(3, RUN, p, u).log)
    {
      NeverHadBothAt(p, u);
    }
  }

  /** The leader of term 3 counts it, and server 1 never sent one like it in term 3. */
  lemma StaleAckCounted()
    ensures !AckIsBacked(Exec(3, RUN[..18]), RUN[18])
  {
    Reached(18);
    StaleCounted(Exec(3, RUN[..18]));
    NeverSentAgain();
  }

  lemma NeverSentAgain()
    ensures AcceptEntries(1, 0, 3, 2) !in Exec(3, RUN[..18]).net
  {
    if AcceptEntries(1, 0, 3, 2) in Exec(3, RUN[..18]).net {
      Reached(18);
      SentWithBoth(RUN[..18]);
      var p: nat :| p <= 18 && At(3, RUN[..18], p, 1).log == [B1, C2];
      assert RUN[..18][..p] == RUN[..p];
      NeverHadBothAt(p, 1);
    }
  }

  lemma SentWithBoth(run: seq<Action>)
    requires AcceptEntries(1, 0, 3, 2) in Exec(3, run).net && Exec(3, run).servers[0] == L5A
    ensures HadLog(3, run, 1, [B1, C2])
  {
    AckHappened(3, run, AcceptEntries(1, 0, 3, 2));
    LeaderFacts(3, run, 0);
  }

  lemma StaleCounted(c: Cluster)
    requires Stage(18, c)
    ensures CountsAck(c, Act(18)) && Act(18).m == STALE && Actor(Act(18)) == 0
    ensures c.servers[0] == L5A && c.servers[0].term == 3
  {
  }

  // ---------------------------------------------------------------- other runs

  lemma OneMore(run: seq<Action>, a: Action)
    ensures Exec(3, run + [a]) == Next(Exec(3, run), a)
  {
    assert (run + [a])[..|run|] == run;
  }

  /** Server 0 has counted the stale accept, for an index past the end of its log. */
  const L5C := L5.(role := Lead(0, 1, Progress(3, 2), 2, Progress(2, 0), []))

  /** It throws when it next sends a heartbeat, and goes on leading. */
  lemma HeartbeatThrows()
    ensures
      var c := Exec(3, RUN[..17] + [Deliver(STALE, 0)]);
      && Enabled(c, Heartbeat(0)) && Perform(c, Heartbeat(0)).thrown
      && Next(c, Heartbeat(0)).servers[0] == c.servers[0] && c.servers[0].role.Leader?
  {
    Reached(17);
    OneMore(RUN[..17], Deliver(STALE, 0));
    CountsTooFar(Exec(3, RUN[..17]));
    ThrowsWhenLeading(Exec(3, RUN[..17] + [Deliver(STALE, 0)]));
  }

  lemma CountsTooFar(c: Cluster)
    requires Is(c, [L5, V4, W2], {STALE})
    ensures Next(c, Deliver(STALE, 0)).servers == [L5C, V4, W2]
  {
    CountedTooFar();
    Delivers(c, STALE, 0, Sends(L5C, []), [L5C, V4, W2], {});
  }

  lemma CountedTooFar()
    ensures Receive(L5, 3, 0, STALE) == Sends(L5C, [])
  {
  }

  lemma ThrowsWhenLeading(c: Cluster)
    requires c.servers == [L5C, V4, W2]
    ensures Enabled(c, Heartbeat(0)) && Perform(c, Heartbeat(0)) == Outcome(L5C, [], true)
    ensures Next(c, Heartbeat(0)).servers[0] == L5C
  {
    ThreeServers();
    assert !CanUpdate(L5C, 1) && UpdateAll(L5C, 0, [1, 2], true) == Outcome(L5C, [], true);
    Beats(c, 0, Outcome(L5C, [], true), [L5C, V4, W2], {});
  }

  const EARLY_COMMIT := AppendEntries(0, 2, 1, 0, 0, 2, [])

  /** A follower that hears of a commit before it has any entries queues one that is missing, and stalls. */
  lemma MissingIsQueued()
    ensures
      var s := Exec(3, RUN[..7] + [Heartbeat(0)] + [Deliver(EARLY_COMMIT, 0)]).servers[2];
      s.queued == [None] && s.applying == Stalled
  {
    var run, stalled := RUN[..7], Server(1, None, [], [], 0, [None], Stalled, Follower(0));
    Reached(7);
    EarlyHeartbeat();
    OneMore(run, Heartbeat(0));
    Beats(Exec(3, run), 0, LeaderHeartbeat(L2, 3, 0), [L2, V2, S0], {EARLY_COMMIT});
    OneMore(run + [Heartbeat(0)], Deliver(EARLY_COMMIT, 0));
    CommitsMissing();
    Delivers(Exec(3, run + [Heartbeat(0)]), EARLY_COMMIT, 0, Sends(stalled, [AcceptEntries(2, 0, 1, 0)]),
             [L2, V2, stalled], {});
  }

  lemma EarlyHeartbeat()
    ensures LeaderHeartbeat(L2, 3, 0).server == L2 && EARLY_COMMIT in LeaderHeartbeat(L2, 3, 0).sent
  {
    ThreeServers();
    UpdateTwo(L2, 0, 1, 2, true);
    assert UpdateFollower(L2, 0, 2, true) == EARLY_COMMIT;
  }

  lemma CommitsMissing()
    ensures Receive(S0, 3, 2, EARLY_COMMIT) ==
            Sends(Server(1, None, [], [], 0, [None], Stalled, Follower(0)), [AcceptEntries(2, 0, 1, 0)])
  {
    assert FollowerAppendEntries(S0, 2, EARLY_COMMIT).server.stream == [];
  }

  const TEAR := EntriesLandThenCrash(ALSO_A, 2)
  const TORN := Server(0, None, [A1, A2], [A1, A2], 0, [], Idle, Halted)

  /** When only the entries of a message land, a server in term 0 has entries of term 1, and restores none of them. */
  lemma TornWriteShows()
    ensures !HarmlessTears(3, RUN[..5] + [TEAR])
    ensures
      var s := Exec(3, RUN[..5] + [TEAR]).servers[2];
      s.term == 0 && s.log == [A1, A2] == Replay(s.stream)
    ensures Exec(3, RUN[..5] + [TEAR] + [Return(2, 0)]).servers[2].log == []
  {
    Reached(5);
    var run, c := RUN[..5], Exec(3, RUN[..5]);
    TearsApart(c);
    OneMore(run, TEAR);
    NotHarmless(run, TEAR);
    OneMore(run + [TEAR], Return(2, 0));
    ReplayTwo();
    ComesBackEmpty(Exec(3, run + [TEAR]));
  }

  lemma NotHarmless(run: seq<Action>, a: Action)
    requires !HarmlessTear(Exec(3, run), a)
    ensures !HarmlessTears(3, run + [a])
  {
    assert (run + [a])[..|run|] == run && (run + [a])[|run|] == a;
  }

  lemma ComesBackEmpty(c: Cluster)
    requires |c.servers| == 3 && c.servers[2].role.Halted? && c.servers[2].term == 0
    ensures Next(c, Return(2, 0)).servers[2].log == []
  {
  }

  lemma TearsApart(c: Cluster)
    requires Stage(5, c)
    ensures !HarmlessTear(c, TEAR) && Next(c, TEAR).servers == [L1B, V1, TORN]
  {
    assert c.servers[2] == S0 && ALSO_A in c.net && Enabled(c, TEAR);
    assert Shorten(ALSO_A, 2).entries[0].term > S0.term;
    assert Merge([], 0, [A1, A2]) == [A1, A2] && S0.stream + [A1, A2] == [A1, A2];
    assert Perform(c, TEAR).server == TORN && c.servers[2 := TORN] == [L1B, V1, TORN];
  }

  lemma ReplayTwo()
    ensures Replay([A1, A2]) == [A1, A2]
  {
    var empty: seq<Entry> := [];
    assert [A1, A2][..1] == [A1] && [A1][..0] == empty;
    assert Put(empty, A1) == [A1] && Replay([A1]) == Put(Replay([A1][..0]), A1);
    assert Put([A1], A2) == [A1, A2] && Replay([A1, A2]) == Put(Replay([A1, A2][..1]), A2);
  }

  // ---------------------------------------------------------------- entries that never reach a follower

  /** The leader of term 3 was elected with an entry that server 1 has too. What it appends after it never reaches
      server 1, however many heartbeats are exchanged. */
  lemma NeverReplicated(k: nat)
    ensures
      var l, f := At(3, RUN, 18, 0), At(3, RUN, 18, 1);
      && BEAT3 in Exec(3, RUN[..18]).net && Updating(0, 1, Pair(l, f, Some(BEAT3)))
      && f.log == l.log[..1] && |l.log| == 2
      && Exchanges(3, 0, 1, Pair(l, f, Some(BEAT3)), k).follower.log == f.log
  {
    Reached(18);
    assert At(3, RUN, 18, 0) == L5A && At(3, RUN, 18, 1) == V4;
    NeverSends(3, 0, 1, Pair(L5A, V4, Some(BEAT3)), k);
  }

  // ---------------------------------------------------------------- an entry that is handed over twice

  const T1 := Server(1, None, [A1], [A1], 0, [], Idle, Follower(0))
  const T2 := Server(1, None, [A1, A2], [A1, A2], 1, [Some(A1)], Busy, Follower(1))
  const T3 := Server(1, None, [A1], [A1, A2], 1, [Some(A1), Some(A1)], Busy, Follower(1))
  const L2T := L2.(role := Lead(2, 1, Progress(3, 2), 2, Progress(2, 1), []))

  const ACK_A1 := AcceptEntries(2, 0, 1, 1)
  const REST := AppendEntries(0, 2, 1, 1, 1, 2, [A2])
  const BEAT := AppendEntries(0, 2, 1, 1, 1, 2, [])

  const TWICE: seq<Action> :=
    RUN[..7] + [Deliver(ALSO_A, 1)] + [Deliver(ACK_A1, 0)] + [Deliver(REST, 1)] + [Heartbeat(0)]

  /** Server 2 is one entry behind what the leader has committed. It commits that entry with the message that brings
      the other one, and again with the next heartbeat: in one role, without a crash, it hands it over twice. */
  lemma AppliedTwice()
    ensures CommitsAgain(Exec(3, TWICE), Deliver(BEAT, 0))
    ensures Exec(3, TWICE + [Deliver(BEAT, 0)]).servers[2].queued == [Some(A1), Some(A1)]
  {
    LagsBehind();
    OneMore(TWICE, Deliver(BEAT, 0));
    HandsOverAgain(Exec(3, TWICE));
  }

  lemma HandsOverAgain(c: Cluster)
    requires Is(c, [L2T, V2, T2], {BEAT})
    ensures CommitsAgain(c, Deliver(BEAT, 0)) && Next(c, Deliver(BEAT, 0)).servers == [L2T, V2, T3]
  {
    CommitsOnceMore();
    Delivers(c, BEAT, 0, Sends(T3, [ACK_A1]), [L2T, V2, T3], {});
    assert c.servers[2] == T2 && FollowerAgain(T2, BEAT);
  }

  lemma LagsBehind()
    ensures Is(Exec(3, TWICE), [L2T, V2, T2], {BEAT})
  {
    var run := RUN[..7] + [Deliver(ALSO_A, 1)] + [Deliver(ACK_A1, 0)];
    LearnsOfFirst();
    OneMore(run, Deliver(REST, 1));
    TakesRest(Exec(3, run));
    OneMore(run + [Deliver(REST, 1)], Heartbeat(0));
    BeatsOn(Exec(3, run + [Deliver(REST, 1)]));
  }

  lemma LearnsOfFirst()
    ensures Is(Exec(3, RUN[..7] + [Deliver(ALSO_A, 1)] + [Deliver(ACK_A1, 0)]), [L2T, V2, T1], {REST})
  {
    var run := RUN[..7];
    Reached(7);
    OneMore(run, Deliver(ALSO_A, 1));
    TakesFirst(Exec(3, run));
    OneMore(run + [Deliver(ALSO_A, 1)], Deliver(ACK_A1, 0));
    SendsRest(Exec(3, run + [Deliver(ALSO_A, 1)]));
  }

  lemma TakesFirst(c: Cluster)
    requires Is(c, [L2, V2, S0], {LATE_HEARTBEAT, STALE, ALSO_A})
    ensures Is(Next(c, Deliver(ALSO_A, 1)), [L2, V2, T1], {ACK_A1})
  {
    assert ALSO_A in c.net && [A1, A2][..1] == [A1] && Merge([], 0, [A1]) == [A1] && S0.stream + [A1] == [A1];
    assert Shorten(ALSO_A, 1) == ALSO_A1 && Receive(S0, 3, 2, ALSO_A1) == Sends(T1, [ACK_A1]);
    assert ACK_A1 in Next(c, Deliver(ALSO_A, 1)).net;
  }

  lemma SendsRest(c: Cluster)
    requires Is(c, [L2, V2, T1], {ACK_A1})
    ensures Is(Next(c, Deliver(ACK_A1, 0)), [L2T, V2, T1], {REST})
  {
    RestFollows();
    Delivers(c, ACK_A1, 0, Sends(L2T, [REST]), [L2T, V2, T1], {REST});
  }

  lemma RestFollows()
    ensures Receive(L2, 3, 0, ACK_A1) == Sends(L2T, [REST])
  {
    assert CountAccept([], 1, 1) == [] && RecordAccept(L2, 2, 1) == L2T;
    UpdateOne(L2T, 0, 2, false);
    assert L2T.log[1..] == [A2] && UpdateFollower(L2T, 0, 2, false) == REST;
  }

  lemma TakesRest(c: Cluster)
    requires Is(c, [L2T, V2, T1], {REST})
    ensures Is(Next(c, Deliver(REST, 1)), [L2T, V2, T2], {})
  {
    CommitsOnce();
    Delivers(c, REST, 1, Sends(T2, [AcceptEntries(2, 0, 1, 2)]), [L2T, V2, T2], {});
  }

  lemma CommitsOnce()
    ensures Receive(T1, 3, 2, REST) == Sends(T2, [AcceptEntries(2, 0, 1, 2)])
  {
    HandOne(T1, A1);
    assert T1.log[..1] == [A1] && Merge(T1.log, 1, [A2]) == [A1, A2] && T1.stream + [A2] == [A1, A2];
    assert T1.queued + [Some(A1)] == [Some(A1)];
  }

  lemma BeatsOn(c: Cluster)
    requires Is(c, [L2T, V2, T2], {})
    ensures Is(Next(c, Heartbeat(0)), [L2T, V2, T2], {BEAT})
  {
    ThreeServers();
    UpdateTwo(L2T, 0, 1, 2, true);
    assert UpdateFollower(L2T, 0, 2, true) == BEAT;
    Beats(c, 0, LeaderHeartbeat(L2T, 3, 0), [L2T, V2, T2], {BEAT});
  }

  lemma CommitsOnceMore()
    ensures Receive(T2, 3, 2, BEAT) == Sends(T3, [ACK_A1])
  {
    var cut := T2.(log := [A1]);
    HandOne(cut, A1);
    assert T2.log[..1] == [A1] && Merge(T2.log, 1, []) == [A1] && T2.stream + [] == T2.stream;
    assert T2.queued + [Some(A1)] == [Some(A1), Some(A1)];
  }
}
