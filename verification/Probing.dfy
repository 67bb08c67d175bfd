/** How a leader brings a follower's log up to date, and when it never does. */
module Probing {
  import opened Entries
  import opened Protocol
  import opened Operations
  import opened Effects

  // ---------------------------------------------------------------- rejections come to an end

  ghost predicate Rejections(s: Server, ms: seq<Message>) {
    forall j :: 0 <= j < |ms| ==> ms[j].RejectEntries? && ms[j].term <= s.term
  }

  /** The leader after these messages, one after the other. */
  function AfterRejections(s: Server, n: nat, id: nat, ms: seq<Message>): (s': Server)
    requires s.role.Leader? && Rejections(s, ms)
    ensures s'.role.Leader? && s'.term == s.term
    decreases |ms|
  {
    if ms == [] then s
    else
      var before := AfterRejections(s, n, id, ms[..|ms| - 1]);
      RejectionHandled(before, n, id, ms[|ms| - 1]);
      Receive(before, n, id, ms[|ms| - 1]).server
  }

  /** How many of them changed what the leader knows of the peer. */
  function Moves(s: Server, n: nat, id: nat, peer: nat, ms: seq<Message>): nat
    requires s.role.Leader? && Rejections(s, ms) && peer in s.role.progress
    decreases |ms|
  {
    if ms == [] then 0
    else
      var before, after := AfterRejections(s, n, id, ms[..|ms| - 1]), AfterRejections(s, n, id, ms);
      Moves(s, n, id, peer, ms[..|ms| - 1])
      + (if peer in before.role.progress && peer in after.role.progress
            && before.role.progress[peer] == after.role.progress[peer] then 0 else 1)
  }

  /** Every rejection that changes anything moves nextIndex down, and never to matchIndex, whatever other
      rejections come between: there are fewer of them than indexes from matchIndex to nextIndex. */
  lemma {:induction false} RejectionsEnd(s: Server, n: nat, id: nat, peer: nat, ms: seq<Message>)
    requires s.role.Leader? && Rejections(s, ms) && peer in s.role.progress
    requires s.role.progress[peer].matched < s.role.progress[peer].next
    ensures
      var s', g := AfterRejections(s, n, id, ms), s.role.progress[peer];
      && peer in s'.role.progress && s'.role.progress[peer].matched == g.matched < s'.role.progress[peer].next
      && s'.role.progress[peer].next + Moves(s, n, id, peer, ms) <= g.next
    ensures Moves(s, n, id, peer, ms) < s.role.progress[peer].next - s.role.progress[peer].matched
    decreases |ms|
  {
    if ms != [] {
      RejectionsEnd(s, n, id, peer, ms[..|ms| - 1]);
      RejectionHandled(AfterRejections(s, n, id, ms[..|ms| - 1]), n, id, ms[|ms| - 1]);
    }
  }

  // ---------------------------------------------------------------- a leader and a follower alone

  /** The update that is on its way to the follower, if any. */
  datatype Pair = Pair(leader: Server, follower: Server, update: Option<Message>)

  /** The follower handles the update and answers, and the leader handles the answer. */
  function Exchange(n: nat, id: nat, peer: nat, x: Pair): Pair {
    if x.update == None || x.leader.role.Halted? || x.follower.role.Halted? then x
    else
      var f := Receive(x.follower, n, peer, x.update.value);
      if f.sent == [] then Pair(x.leader, f.server, None)
      else
        var l := Receive(x.leader, n, id, f.sent[0]);
        Pair(l.server, f.server, if l.sent == [] then None else Some(l.sent[0]))
  }

  function Exchanges(n: nat, id: nat, peer: nat, x: Pair, k: nat): Pair
    decreases k
  {
    if k == 0 then x else Exchanges(n, id, peer, Exchange(n, id, peer, x), k - 1)
  }

  /** The two logs are the same up to there and have no term in common after it, as Log Matching says. */
  ghost predicate CommonUpTo(a: seq<Entry>, b: seq<Entry>, common: nat) {
    && common <= |a| && common <= |b| && a[..common] == b[..common]
    && forall k :: common <= k < |a| && k < |b| ==> a[k].term != b[k].term
  }

  /** Either the leader knows nothing of what the peer has, or it sends what follows that. */
  predicate Known(g: Progress) {
    g.matched < g.next && (g.matched == 0 || g.next == g.matched + 1)
  }

  /** An update of the leader is on its way to a follower of its term. */
  ghost predicate Updating(id: nat, peer: nat, x: Pair) {
    && x.leader.role.Leader? && x.follower.role.Follower? && x.leader.term == x.follower.term
    && peer in x.leader.role.progress
    && Known(x.leader.role.progress[peer]) && x.leader.role.progress[peer].next <= |x.leader.log| + 1
    && x.update.Some?
    && (Updates(x.update.value, x.leader, id, peer, true) || Updates(x.update.value, x.leader, id, peer, false))
  }

  /** Where nextIndex must be for the follower's log to become the leader's: the leader must know what the follower
      has, or nothing of it, or get back to the beginning of the log without meeting the follower's log on the way.
      It does if they have nothing in common, or if the follower has the leader's first entry only. */
  predicate Reaches(l: seq<Entry>, f: seq<Entry>, g: Progress, common: nat) {
    if g.next - 1 <= common then g.next - 1 == g.matched || g.next - 1 == |l|
    else g.matched == 0 && (common == 0 || (common == 1 && |f| == 1))
  }

  lemma NothingSent(n: nat, id: nat, peer: nat, x: Pair, k: nat)
    requires x.update == None
    ensures Exchanges(n, id, peer, x, k) == x
  {
    if k > 0 {
      NothingSent(n, id, peer, x, k - 1);
    }
  }

  /** Where the follower says that the logs conflict: at prevLogIndex, or where its log ends. */
  function Conflict(f: seq<Entry>, prev: nat): nat {
    if prev <= |f| then prev else if f == [] then 1 else |f|
  }

  lemma FollowerRefuses(n: nat, id: nat, peer: nat, x: Pair, common: nat)
    requires Updating(id, peer, x) && CommonUpTo(x.leader.log, x.follower.log, common)
    requires x.leader.role.progress[peer].next - 1 > common
    ensures
      var prev := x.leader.role.progress[peer].next - 1;
      Receive(x.follower, n, peer, x.update.value) ==
      Outcome(x.follower, [RejectEntries(peer, id, x.leader.term, Some(Conflict(x.follower.log, prev)))], false)
  {
    EntriesRejected(x.follower, n, peer, x.update.value);
  }

  /** The logs differ at prevLogIndex: without a matchIndex the leader tries further down, and with one it ignores
      the rejection. */
  lemma LooksFurther(n: nat, id: nat, peer: nat, x: Pair, common: nat)
    requires Updating(id, peer, x) && CommonUpTo(x.leader.log, x.follower.log, common)
    requires x.leader.role.progress[peer].next - 1 > common
    ensures
      var y, g := Exchange(n, id, peer, x), x.leader.role.progress[peer];
      if g.matched > 0 then y == Pair(x.leader, x.follower, None)
      else
        && y.follower == x.follower && y.leader.log == x.leader.log && Updating(id, peer, y)
        && y.leader.role.progress[peer] == Progress(Conflict(x.follower.log, g.next - 1), 0)
  {
    FollowerRefuses(n, id, peer, x, common);
    MovesBack(x.leader, n, id, peer, Conflict(x.follower.log, x.leader.role.progress[peer].next - 1));
  }

  lemma MovesBack(s: Server, n: nat, id: nat, peer: nat, conflict: nat)
    requires s.role.Leader? && peer in s.role.progress && Known(s.role.progress[peer])
    requires 1 <= conflict < s.role.progress[peer].next <= |s.log| + 1
    ensures
      var o := Receive(s, n, id, RejectEntries(peer, id, s.term, Some(conflict)));
      if s.role.progress[peer].matched > 0 then o == Outcome(s, [], false)
      else
        && o.server.role.Leader? && o.server.log == s.log && o.server.term == s.term
        && peer in o.server.role.progress && o.server.role.progress[peer] == Progress(conflict, 0)
        && |o.sent| == 1 && Updates(o.sent[0], o.server, id, peer, true)
  {
    RejectionHandled(s, n, id, RejectEntries(peer, id, s.term, Some(conflict)));
  }

  /** The logs agree up to prevLogIndex, and the follower acknowledges what it then has. */
  lemma FollowerMeets(n: nat, id: nat, peer: nat, x: Pair, common: nat)
    requires Updating(id, peer, x) && CommonUpTo(x.leader.log, x.follower.log, common)
    requires x.leader.role.progress[peer].next - 1 <= common
    ensures
      var o, prev, entries := Receive(x.follower, n, peer, x.update.value),
                              x.leader.role.progress[peer].next - 1, x.update.value.entries;
      && o.server.log == x.follower.log[..prev] + entries
      && o.server.role.Follower? && o.server.term == x.follower.term
      && o.sent == [AcceptEntries(peer, id, x.leader.term, prev + |entries|)]
  {
    var prev := x.leader.role.progress[peer].next - 1;
    assert prev > 0 ==> x.leader.log[..common][prev - 1] == x.follower.log[..common][prev - 1];
    EntriesAccepted(x.follower, n, peer, x.update.value);
  }

  /** A heartbeat meets the follower's log: that is cut there, and the leader learns nothing, but goes on if its log
      does. */
  lemma Meets(n: nat, id: nat, peer: nat, x: Pair, common: nat)
    requires Updating(id, peer, x) && CommonUpTo(x.leader.log, x.follower.log, common)
    requires x.leader.role.progress[peer].next - 1 <= common && x.update.value.entries == []
    ensures
      var y, prev := Exchange(n, id, peer, x), x.leader.role.progress[peer].next - 1;
      && y.leader == x.leader && y.follower.log == x.follower.log[..prev]
      && y.follower.role.Follower? && y.follower.term == x.follower.term
      && (if prev == |x.leader.log| then y.update == None
          else y.update.Some? && Updates(y.update.value, y.leader, id, peer, false))
  {
    FollowerMeets(n, id, peer, x, common);
    AcceptNotCounted(x.leader, n, id, AcceptEntries(peer, id, x.leader.term, x.leader.role.progress[peer].next - 1));
  }

  /** Entries meet it: the follower has the leader's log, and nothing is left to send. */
  lemma Fills(n: nat, id: nat, peer: nat, x: Pair, common: nat)
    requires Updating(id, peer, x) && CommonUpTo(x.leader.log, x.follower.log, common)
    requires x.leader.role.progress[peer].next - 1 <= common && x.update.value.entries != []
    ensures
      var y := Exchange(n, id, peer, x);
      y.follower.log == x.leader.log && y.update == None
  {
    var prev, l := x.leader.role.progress[peer].next - 1, x.leader.log;
    FollowerMeets(n, id, peer, x, common);
    Joined(l, x.follower.log, common, prev);
    NothingMore(x.leader, n, id, AcceptEntries(peer, id, x.leader.term, |l|));
  }

  lemma Joined(l: seq<Entry>, f: seq<Entry>, common: nat, prev: nat)
    requires CommonUpTo(l, f, common) && prev <= common
    ensures f[..prev] + l[prev..] == l && prev + |l[prev..]| == |l|
  {
    assert l[..prev] == l[..common][..prev] && f[..prev] == f[..common][..prev];
  }

  lemma NothingMore(s: Server, n: nat, id: nat, m: Message)
    requires s.role.Leader? && m.AcceptEntries? && m.term == s.term && m.src in s.role.progress
    requires s.role.progress[m.src].next <= m.ackedIndex == |s.log|
    ensures Receive(s, n, id, m).sent == []
  {
    var g := s.role.progress[m.src];
    CommitReplicatedKeeps(s.(role := s.role.(pending := CountAccept(s.role.pending, g.next, m.ackedIndex))));
  }

  /** Once the leader has met the follower's log where it knows nothing of it, the same heartbeat goes back and
      forth, and what the leader has beyond it is never sent. */
  lemma {:induction false} NeverSends(n: nat, id: nat, peer: nat, x: Pair, k: nat)
    requires Updating(id, peer, x) && x.update.value.entries == []
    requires
      var g := x.leader.role.progress[peer];
      && g.matched == 0 && 0 < |x.follower.log| == g.next - 1 < |x.leader.log|
      && CommonUpTo(x.leader.log, x.follower.log, g.next - 1)
    ensures
      var y := Exchanges(n, id, peer, x, k);
      y.leader == x.leader && y.follower.log == x.follower.log && y.update == x.update
    decreases k
  {
    if k > 0 {
      BackAndForth(n, id, peer, x);
      NeverSends(n, id, peer, Exchange(n, id, peer, x), k - 1);
    }
  }

  lemma BackAndForth(n: nat, id: nat, peer: nat, x: Pair)
    requires Updating(id, peer, x) && x.update.value.entries == []
    requires
      var g := x.leader.role.progress[peer];
      && g.matched == 0 && 0 < |x.follower.log| == g.next - 1 < |x.leader.log|
      && CommonUpTo(x.leader.log, x.follower.log, g.next - 1)
    ensures
      var y := Exchange(n, id, peer, x);
      && y.leader == x.leader && y.follower.log == x.follower.log && y.update == x.update
      && y.follower.role.Follower? && y.follower.term == x.follower.term
  {
    var prev := x.leader.role.progress[peer].next - 1;
    Meets(n, id, peer, x, prev);
    assert x.follower.log[..prev] == x.follower.log;
  }

  lemma CutInCommon(l: seq<Entry>, f: seq<Entry>, common: nat, prev: nat)
    requires CommonUpTo(l, f, common) && prev <= common
    ensures CommonUpTo(l, f[..prev], prev)
  {
    assert l[..prev] == l[..common][..prev] && f[..prev] == f[..common][..prev];
  }

  lemma DifferBeyond(l: seq<Entry>, f: seq<Entry>, common: nat)
    requires CommonUpTo(l, f, common) && common < |l|
    ensures f != l
  {
    if common < |f| {
      assert l[common].term != f[common].term;
    }
  }

  lemma FurtherDown(l: seq<Entry>, f: seq<Entry>, g: Progress, common: nat)
    requires CommonUpTo(l, f, common) && common < g.next - 1 <= |l| && g.matched == 0
    ensures
      var conflict := Conflict(f, g.next - 1);
      conflict < g.next && (Reaches(l, f, g, common) <==> Reaches(l, f, Progress(conflict, 0), common))
  {
  }

  predicate UpToDate(x: Pair, l: seq<Entry>) {
    x.follower.log == l
  }

  /** The last exchange has brought the follower's log to the leader's if and only if the leader reaches it. */
  ghost predicate UpToDateIfReached(peer: nat, x: Pair, last: Pair, common: nat)
    requires x.leader.role.Leader? && peer in x.leader.role.progress
  {
    UpToDate(last, x.leader.log) <==>
    Reaches(x.leader.log, x.follower.log, x.leader.role.progress[peer], common)
  }

  /** Whether the follower is brought up to date: after as many exchanges as nextIndex, and one more, its log is
      the leader's, and stays so, if and only if the leader reaches it. */
  lemma {:induction false} ReachedExactly(n: nat, id: nat, peer: nat, x: Pair, common: nat, k: nat)
    requires Updating(id, peer, x) && CommonUpTo(x.leader.log, x.follower.log, common)
    requires k > x.leader.role.progress[peer].next
    ensures UpToDateIfReached(peer, x, Exchanges(n, id, peer, x, k), common)
    decreases k, 2
  {
    if x.leader.role.progress[peer].next - 1 <= common {
      ReachedWithin(n, id, peer, x, common, k);
    } else if x.leader.role.progress[peer].matched > 0 {
      NeverBack(n, id, peer, x, common, k);
    } else {
      ReachedFurther(n, id, peer, x, common, k);
    }
  }

  /** nextIndex has to move back first. */
  lemma {:induction false} ReachedFurther(n: nat, id: nat, peer: nat, x: Pair, common: nat, k: nat)
    requires Updating(id, peer, x) && CommonUpTo(x.leader.log, x.follower.log, common)
    requires k > x.leader.role.progress[peer].next
    requires x.leader.role.progress[peer].next - 1 > common && x.leader.role.progress[peer].matched == 0
    ensures UpToDateIfReached(peer, x, Exchanges(n, id, peer, x, k), common)
    decreases k, 1
  {
    LooksFurther(n, id, peer, x, common);
    OneExchange(n, id, peer, x, k);
    ReachedAfter(n, id, peer, x, Exchange(n, id, peer, x), Exchanges(n, id, peer, x, k), common, k);
  }

  lemma {:induction false} ReachedAfter(n: nat, id: nat, peer: nat, x: Pair, y: Pair, last: Pair, common: nat, k: nat)
    requires Updating(id, peer, x) && CommonUpTo(x.leader.log, x.follower.log, common)
    requires
      var g := x.leader.role.progress[peer];
      && common < g.next - 1 && g.matched == 0 && k > g.next
      && Updating(id, peer, y) && y.follower == x.follower && y.leader.log == x.leader.log
      && y.leader.role.progress[peer] == Progress(Conflict(x.follower.log, g.next - 1), 0)
    requires last == Exchanges(n, id, peer, y, k - 1)
    ensures UpToDateIfReached(peer, x, last, common)
    decreases k, 0
  {
    FurtherDown(x.leader.log, x.follower.log, x.leader.role.progress[peer], common);
    ReachedExactly(n, id, peer, y, common, k - 1);
    assert UpToDate(last, x.leader.log) <==> UpToDate(Exchanges(n, id, peer, y, k - 1), y.leader.log);
  }

  lemma OneExchange(n: nat, id: nat, peer: nat, x: Pair, k: nat)
    requires k > 0
    ensures Exchanges(n, id, peer, x, k) == Exchanges(n, id, peer, Exchange(n, id, peer, x), k - 1)
  {
  }

  /** The follower has lost what it acknowledged: its rejections are ignored. */
  lemma NeverBack(n: nat, id: nat, peer: nat, x: Pair, common: nat, k: nat)
    requires Updating(id, peer, x) && CommonUpTo(x.leader.log, x.follower.log, common)
    requires x.leader.role.progress[peer].next - 1 > common && x.leader.role.progress[peer].matched > 0 && k > 0
    ensures UpToDateIfReached(peer, x, Exchanges(n, id, peer, x, k), common)
  {
    LooksFurther(n, id, peer, x, common);
    OneExchange(n, id, peer, x, k);
    NothingSent(n, id, peer, Exchange(n, id, peer, x), k - 1);
    DifferBeyond(x.leader.log, x.follower.log, common);
  }

  /** nextIndex lies within what the logs have in common, or right after it. */
  lemma ReachedWithin(n: nat, id: nat, peer: nat, x: Pair, common: nat, k: nat)
    requires Updating(id, peer, x) && CommonUpTo(x.leader.log, x.follower.log, common)
    requires x.leader.role.progress[peer].next - 1 <= common && k > 1
    ensures UpToDateIfReached(peer, x, Exchanges(n, id, peer, x, k), common)
  {
    if x.update.value.entries != [] {
      ReachedByFilling(n, id, peer, x, common, k);
    } else {
      ReachedAfterMeeting(n, id, peer, x, common, k);
    }
  }

  lemma ReachedByFilling(n: nat, id: nat, peer: nat, x: Pair, common: nat, k: nat)
    requires Updating(id, peer, x) && CommonUpTo(x.leader.log, x.follower.log, common)
    requires x.leader.role.progress[peer].next - 1 <= common && k > 1 && x.update.value.entries != []
    ensures UpToDateIfReached(peer, x, Exchanges(n, id, peer, x, k), common)
  {
    Fills(n, id, peer, x, common);
    OneExchange(n, id, peer, x, k);
    NothingSent(n, id, peer, Exchange(n, id, peer, x), k - 1);
    Filled(id, peer, x, Exchanges(n, id, peer, x, k), common);
  }

  lemma ReachedAfterMeeting(n: nat, id: nat, peer: nat, x: Pair, common: nat, k: nat)
    requires Updating(id, peer, x) && CommonUpTo(x.leader.log, x.follower.log, common)
    requires x.leader.role.progress[peer].next - 1 <= common && k > 1 && x.update.value.entries == []
    ensures UpToDateIfReached(peer, x, Exchanges(n, id, peer, x, k), common)
  {
    MeetsAtEnd(n, id, peer, x, common);
    OneExchange(n, id, peer, x, k);
    AfterMeeting(n, id, peer, Exchange(n, id, peer, x), k - 1);
    Judged(id, peer, x, Exchanges(n, id, peer, x, k), common);
  }

  lemma Filled(id: nat, peer: nat, x: Pair, last: Pair, common: nat)
    requires Updating(id, peer, x) && x.update.value.entries != []
    requires x.leader.role.progress[peer].next - 1 <= common && last.follower.log == x.leader.log
    ensures UpToDateIfReached(peer, x, last, common)
  {
  }

  lemma Judged(id: nat, peer: nat, x: Pair, last: Pair, common: nat)
    requires Updating(id, peer, x) && x.leader.role.progress[peer].next - 1 <= common
    requires
      var g := x.leader.role.progress[peer];
      last.follower.log == x.leader.log <==> g.next - 1 == g.matched || g.next - 1 == |x.leader.log|
    ensures UpToDateIfReached(peer, x, last, common)
  {
  }

  /** A heartbeat has met the follower's log, at its end. */
  ghost predicate Met(id: nat, peer: nat, x: Pair) {
    && x.leader.role.Leader? && x.follower.role.Follower? && x.leader.term == x.follower.term
    && peer in x.leader.role.progress && Known(x.leader.role.progress[peer])
    && var g := x.leader.role.progress[peer];
    && |x.follower.log| == g.next - 1 <= |x.leader.log|
    && CommonUpTo(x.leader.log, x.follower.log, g.next - 1)
    && (if g.next - 1 == |x.leader.log| then x.update == None
        else x.update.Some? && Updates(x.update.value, x.leader, id, peer, false))
  }

  lemma MeetsAtEnd(n: nat, id: nat, peer: nat, x: Pair, common: nat)
    requires Updating(id, peer, x) && CommonUpTo(x.leader.log, x.follower.log, common)
    requires x.leader.role.progress[peer].next - 1 <= common && x.update.value.entries == []
    ensures Met(id, peer, Exchange(n, id, peer, x)) && Exchange(n, id, peer, x).leader == x.leader
  {
    Meets(n, id, peer, x, common);
    IsMet(id, peer, x, Exchange(n, id, peer, x), common);
  }

  lemma IsMet(id: nat, peer: nat, x: Pair, y: Pair, common: nat)
    requires x.leader.role.Leader? && x.leader.term == x.follower.term && y.leader == x.leader
    requires peer in x.leader.role.progress && Known(x.leader.role.progress[peer])
    requires CommonUpTo(x.leader.log, x.follower.log, common) && x.leader.role.progress[peer].next - 1 <= common
    requires
      var prev := x.leader.role.progress[peer].next - 1;
      && y.follower.role.Follower? && y.follower.term == x.follower.term && y.follower.log == x.follower.log[..prev]
      && (if prev == |x.leader.log| then y.update == None
          else y.update.Some? && Updates(y.update.value, y.leader, id, peer, false))
    ensures Met(id, peer, y)
  {
    CutInCommon(x.leader.log, x.follower.log, common, x.leader.role.progress[peer].next - 1);
  }

  lemma AfterMeeting(n: nat, id: nat, peer: nat, x: Pair, k: nat)
    requires Met(id, peer, x) && k > 0
    ensures
      var g := x.leader.role.progress[peer];
      Exchanges(n, id, peer, x, k).follower.log == x.leader.log <==>
      g.next - 1 == g.matched || g.next - 1 == |x.leader.log|
  {
    var g := x.leader.role.progress[peer];
    if g.next - 1 == |x.leader.log| {
      NothingSent(n, id, peer, x, k);
      assert x.follower.log[..g.next - 1] == x.follower.log && x.leader.log[..g.next - 1] == x.leader.log;
    } else if g.next - 1 == g.matched {
      Fills(n, id, peer, x, g.next - 1);
      NothingSent(n, id, peer, Exchange(n, id, peer, x), k - 1);
    } else {
      NeverSends(n, id, peer, x, k);
    }
  }

  /** A new leader reaches a follower that has the leader's whole log, or nothing in common with it, or only
      its first entry. */
  lemma NewLeaderReaches(l: seq<Entry>, f: seq<Entry>, common: nat)
    requires CommonUpTo(l, f, common)
    ensures Reaches(l, f, Progress(|l| + 1, 0), common) <==> l <= f || common == 0 || (common == 1 && |f| == 1)
  {
    if common < |l| && common < |f| {
      assert l[common].term != f[common].term;
    } else if common == |l| {
      assert f[..common] == l;
    }
  }

  /** But one that was elected with a log never brings what it appends to a follower that had all of that log. */
  lemma LaterEntriesNeverReach(initial: seq<Entry>, l: seq<Entry>, f: seq<Entry>, common: nat)
    requires CommonUpTo(l, f, common) && initial != [] && initial <= f && initial < l
    ensures !Reaches(l, f, Progress(|initial| + 1, 0), common)
  {
    if common < |l| && common < |f| {
      assert l[common].term != f[common].term;
    }
  }
}
