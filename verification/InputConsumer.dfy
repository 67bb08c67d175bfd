/** Round-robin consumption of the peers' messages. */
module Consuming {
  import opened Protocol
  import opened Buffering

  /** What comes of passing a message to the scheduler: it is handled at once, the handler returns a promise
      or throws, the operation is queued and the message stays where it is, or the scheduler was aborted.
      Handling may stop the consumer; after an exception the scheduler's promise never fulfils. */
  datatype Reply = Done(stops: bool) | Promises(stops: bool) | Throws(stops: bool) | Queues | Refuses

  /** What the consumer waits for: nothing, an operation that has its message, one that has yet to take it
      (from a peer, or from a server that is not a peer), a message to arrive, or nothing that will ever come. */
  datatype Status = Ready | Handling | Queued(peer: nat) | QueuedNonPeer | Awaiting | Stuck

  /** A message was passed to the scheduler: one of a peer, with the reply, or one of a server that is not a peer,
      for which the operation was queued or called, and is then waited for. */
  datatype Answer = FromPeer(peer: nat, reply: Reply) | FromNonPeer(queued: bool)

  predicate Takes(answer: Answer) {
    answer.FromPeer? && !answer.reply.Queues? && !answer.reply.Refuses?
  }

  predicate Stops(answer: Answer) {
    Takes(answer) && answer.reply.stops
  }

  /** What to wait for after this answer. */
  predicate Explains(answer: Answer, status: Status) {
    match status
    case Stuck => answer.FromPeer? && (answer.reply.Throws? || answer.reply.Refuses?)
    case Queued(peer) => answer == FromPeer(peer, Queues)
    case QueuedNonPeer => answer == FromNonPeer(true)
    case Handling => Promised(answer)
    case Ready => Promised(answer) || (answer.FromPeer? && answer.reply.Done?)
    case Awaiting => Promised(answer) || (answer.FromPeer? && answer.reply.Done?)
  }

  predicate Promised(answer: Answer) {
    answer == FromNonPeer(false) || (answer.FromPeer? && answer.reply.Promises?)
  }

  ghost predicate AnyStops(answers: seq<Answer>) {
    exists k :: 0 <= k < |answers| && Stops(answers[k])
  }

  /** The peers whose messages were taken, in order. */
  function Served(answers: seq<Answer>): seq<nat> {
    if answers == [] then []
    else
      var last := answers[|answers| - 1];
      Served(answers[..|answers| - 1]) + (if Takes(last) then [last.peer] else [])
  }

  /** The consumer is where these answers have led it, unless it was told to stop or a promise was rejected. */
  ghost predicate Explained(answers: seq<Answer>, served: seq<nat>, status: Status, stopped: bool, told: bool,
                            rejected: bool)
  {
    && served == Served(answers)
    && (stopped <==> told || AnyStops(answers))
    && (if answers == [] then status == Ready || status == Awaiting
        else if status == Stuck && rejected then Promised(answers[|answers| - 1])
        else !rejected && Explains(answers[|answers| - 1], status))
    && (rejected ==> status == Stuck)
  }

  lemma AnswerExplains(answers: seq<Answer>, served: seq<nat>, status: Status, stopped: bool, told: bool,
                       answer: Answer, next: Status)
    requires Explained(answers, served, status, stopped, told, false) && Explains(answer, next)
    ensures Explained(answers + [answer], served + (if Takes(answer) then [answer.peer] else []), next,
                      stopped || Stops(answer), told, false)
  {
    OneMoreAnswer(answers, answer);
  }

  lemma OneMoreAnswer(answers: seq<Answer>, answer: Answer)
    ensures AnyStops(answers + [answer]) <==> AnyStops(answers) || Stops(answer)
    ensures Served(answers + [answer]) == Served(answers) + (if Takes(answer) then [answer.peer] else [])
  {
    assert (answers + [answer])[..|answers|] == answers;
    assert (answers + [answer])[|answers|] == answer;
    if AnyStops(answers) {
      var k :| 0 <= k < |answers| && Stops(answers[k]);
      assert Stops((answers + [answer])[k]);
    }
  }

  /** Since then these were the replies. */
  ghost predicate Given(before: seq<Answer>, answers: seq<Answer>, replies: nat -> Reply) {
    && before <= answers
    && forall k :: |before| <= k < |answers| ==> answers[k].FromPeer? && answers[k].reply == replies(k)
  }

  lemma GivenTwice(before: seq<Answer>, between: seq<Answer>, answers: seq<Answer>, replies: nat -> Reply)
    requires Given(before, between, replies) && Given(between, answers, replies)
    ensures Given(before, answers, replies)
  {
    forall k | |before| <= k < |answers|
      ensures answers[k].FromPeer? && answers[k].reply == replies(k)
    {
      assert k < |between| ==> answers[k] == between[k];
    }
  }

  /** From here on every message was handled at once, and went on with the next. */
  ghost predicate AllDone(answers: seq<Answer>, from: nat) {
    forall k :: from <= k < |answers| ==> answers[k].FromPeer? && answers[k].reply == Done(false)
  }

  lemma DoneStopsNothing(before: seq<Answer>, answers: seq<Answer>)
    requires before <= answers && AllDone(answers, |before|) && !AnyStops(before)
    ensures !AnyStops(answers)
  {
    forall k | 0 <= k < |answers| ensures !Stops(answers[k]) {
      assert k < |before| ==> answers[k] == before[k];
    }
  }

  /** How many peers the round visits before it gets to q. */
  function Distance(cursor: nat, q: nat, count: nat): (d: nat)
    requires cursor < count && q < count
    ensures d < count
  {
    if q >= cursor then q - cursor else q + count - cursor
  }

  function NextIndex(index: nat, count: nat): (next: nat)
    requires index < count
    ensures next == if index == count - 1 then 0 else index + 1
  {
    (index + 1) % count
  }

  lemma DistanceStep(cursor: nat, q: nat, count: nat)
    requires cursor < count && q < count
    ensures Distance(NextIndex(cursor, count), q, count) ==
            if q == cursor then count - 1 else Distance(cursor, q, count) - 1
  {
  }

  lemma StepAlong(start: nat, index: nat, count: nat)
    requires start < count && index < count
    ensures NextIndex(index, count) == start <==> Distance(start, index, count) == count - 1
    ensures NextIndex(index, count) != start ==>
              Distance(start, NextIndex(index, count), count) == Distance(start, index, count) + 1
    ensures forall q: nat :: q < count && Distance(start, q, count) == Distance(start, index, count) ==> q == index
  {
  }

  function Sum(s: seq<nat>): nat {
    if s == [] then 0 else s[0] + Sum(s[1..])
  }

  lemma {:induction false} SumUpdate(s: seq<nat>, k: nat)
    requires k < |s| && s[k] > 0
    ensures Sum(s[k := s[k] - 1]) == Sum(s) - 1
  {
    if k > 0 {
      SumUpdate(s[1..], k - 1);
      assert s[k := s[k] - 1][1..] == s[1..][k - 1 := s[k] - 1];
    } else {
      assert s[0 := s[0] - 1][1..] == s[1..];
    }
  }

  class InputConsumer {
    const buffers: seq<MessageBuffer>
    const nonPeer: MessageBuffer
    var stopped: bool
    var status: Status

    /** Where the next pass starts. */
    var resumeIndex: nat

    /** The peers whose messages were taken, in order, and by peer how many had been when the message that it
        has waiting now became its first. */
    ghost var served: seq<nat>
    ghost var since: seq<nat>

    /** The answers of the scheduler, of which the next one may depend on how many there were. */
    var answers: seq<Answer>

    /** Whether stop was called, and whether a handler's promise was rejected. */
    ghost var told: bool
    ghost var rejected: bool

    /** Nothing else decides what the consumer waits for, and whether it is stopped. */
    ghost predicate Explicable()
      reads this
    {
      Explained(answers, served, status, stopped, told, rejected)
    }

    /** Since then the consumer has only stopped going on because of an answer, and these were the replies. */
    ghost predicate AnsweredSince(before: seq<Answer>, replies: nat -> Reply)
      reads this
    {
      Given(before, answers, replies) && (status == Ready || |before| < |answers|)
    }

    /** The buffers are separate, and each accounts for its messages. */
    ghost predicate Buffers()
      reads this, buffers, nonPeer
    {
      && |buffers| >= 1
      && (forall j, k :: 0 <= j < k < |buffers| ==> buffers[j] != buffers[k])
      && (forall k :: 0 <= k < |buffers| ==> buffers[k] != nonPeer && buffers[k].Valid())
      && nonPeer.Valid()
    }

    /** A peer with a waiting message will be reached before too many others are served again. */
    ghost predicate Fair(cursor: nat)
      reads this, buffers
    {
      && |since| == |buffers| && cursor < |buffers|
      && forall q :: 0 <= q < |buffers| && buffers[q].Contents() != [] ==>
           && since[q] <= |served|
           && (|served| - since[q]) + Distance(cursor, q, |buffers|) < |buffers|
    }

    /** The same while a peer is already chosen: it is next. */
    ghost predicate FairAfter(peer: nat, cursor: nat)
      reads this, buffers
    {
      && |since| == |buffers| && peer < |buffers| && cursor == NextIndex(peer, |buffers|)
      && buffers[peer].Contents() != []
      && forall q :: 0 <= q < |buffers| && buffers[q].Contents() != [] ==>
           && since[q] <= |served|
           && (|served| - since[q]) + (if q == peer then 0 else 1 + Distance(cursor, q, |buffers|)) < |buffers|
    }

    /** A consumer that is stopped or stuck never consumes again. */
    ghost predicate FairNow(cursor: nat)
      reads this, buffers
    {
      && |since| == |buffers| && cursor < |buffers|
      && (if status.Queued? then FairAfter(status.peer, cursor) else stopped || status == Stuck || Fair(cursor))
    }

    ghost predicate Valid()
      reads this, buffers, nonPeer
    {
      && Buffers()
      && FairNow(resumeIndex)
      && Explicable()
      && (status == QueuedNonPeer ==> nonPeer.Contents() != [])
      && (status == Awaiting ==> (forall k :: 0 <= k < |buffers| ==> buffers[k].Contents() == [] && buffers[k].awaiting)
                                 && nonPeer.Contents() == [] && nonPeer.awaiting)
    }

    /** A new role takes over the buffers as the previous one left them. */
    constructor (buffers: seq<MessageBuffer>, nonPeer: MessageBuffer)
      requires |buffers| >= 1 && nonPeer.Valid()
      requires forall j, k :: 0 <= j < k < |buffers| ==> buffers[j] != buffers[k]
      requires forall k :: 0 <= k < |buffers| ==> buffers[k] != nonPeer && buffers[k].Valid()
      ensures Valid() && this.buffers == buffers && this.nonPeer == nonPeer && status == Ready && !stopped
      ensures answers == [] && !told && !rejected
    {
      this.buffers, this.nonPeer := buffers, nonPeer;
      stopped, status, resumeIndex := false, Ready, 0;
      served, since := [], seq(|buffers|, _ => 0);
      answers, told, rejected := [], false, false;
    }

    method Stop()
      requires Valid()
      modifies this`stopped, this`told
      ensures Valid() && stopped && told && status == old(status)
    {
      stopped, told := true, true;
    }

    /** The message of this peer is taken and passed to the handler. Other peers with a waiting message have
        been passed over fewer times than there are peers, and so had this one. */
    method TakeFrom(peer: nat, ghost cursor: nat)
      requires Buffers() && FairAfter(peer, cursor)
      modifies this`served, this`since
      modifies (buffers[peer] as MessageBuffer)`stream, (buffers[peer] as MessageBuffer)`next
      modifies (buffers[peer] as MessageBuffer)`taken
      ensures Buffers() && Fair(cursor) && old(|served| - since[peer]) < |buffers|
      ensures served == old(served) + [peer] && stopped == old(stopped) && status == old(status)
      ensures answers == old(answers) && told == old(told) && rejected == old(rejected)
      ensures buffers[peer].taken == old(buffers[peer].taken) + [old(buffers[peer].Contents())[0]]
      ensures buffers[peer].Contents() == old(buffers[peer].Contents())[1..]
    {
      var message := buffers[peer].Take();
      served := served + [peer];
      since := since[peer := |served|];
      DistanceStep(peer, peer, |buffers|);
    }

    /** The round reaches this peer: with a message it is chosen, without one it is passed. */
    lemma Reached(peer: nat)
      requires Fair(peer)
      ensures
        var cursor := NextIndex(peer, |buffers|);
        if buffers[peer].Contents() != [] then FairAfter(peer, cursor) else Fair(cursor)
    {
      forall q | 0 <= q < |buffers|
        ensures Distance(NextIndex(peer, |buffers|), q, |buffers|) ==
                if q == peer then |buffers| - 1 else Distance(peer, q, |buffers|) - 1
      {
        DistanceStep(peer, q, |buffers|);
      }
    }

    lemma Explain(peer: nat, reply: Reply, next: Status)
      requires Explicable() && status != Stuck && Explains(FromPeer(peer, reply), next)
      ensures
        var answer := FromPeer(peer, reply);
        Explained(answers + [answer], served + (if Takes(answer) then [peer] else []), next,
                  stopped || Stops(answer), told, rejected)
    {
      AnswerExplains(answers, served, status, stopped, told, FromPeer(peer, reply), next);
    }

    /** Passes the peer's next message to the scheduler; the message is only taken when the operation runs. */
    method Offer(peer: nat, reply: Reply, ghost cursor: nat)
      requires Buffers() && FairAfter(peer, cursor) && status == Ready && Explicable()
      modifies this`stopped, this`status, this`served, this`since, this`answers
      modifies (buffers[peer] as MessageBuffer)`stream, (buffers[peer] as MessageBuffer)`next
      modifies (buffers[peer] as MessageBuffer)`taken
      ensures Buffers() && status != Awaiting && status != QueuedNonPeer
      ensures FairNow(cursor) && Explicable() && answers == old(answers) + [FromPeer(peer, reply)]
      ensures status == Ready <==> reply.Done?
      ensures if reply.Queues? || reply.Refuses? then buffers[peer].Contents() == old(buffers[peer].Contents())
              else buffers[peer].Contents() == old(buffers[peer].Contents())[1..]
    {
      match reply {
        case Queues =>
          Explain(peer, reply, Queued(peer));
          answers, status := answers + [FromPeer(peer, reply)], Queued(peer);
        case Refuses =>
          Explain(peer, reply, Stuck);
          answers, status := answers + [FromPeer(peer, reply)], Stuck;
        case _ =>
          Handle(peer, reply, cursor);
      }
    }

    /** The operation runs: it takes the message and passes it to the handler. */
    method Handle(peer: nat, reply: Reply, ghost cursor: nat)
      requires Buffers() && FairAfter(peer, cursor) && Explicable() && !reply.Queues? && !reply.Refuses?
      requires status == Ready || status == Queued(peer)
      modifies this`stopped, this`status, this`served, this`since, this`answers
      modifies (buffers[peer] as MessageBuffer)`stream, (buffers[peer] as MessageBuffer)`next
      modifies (buffers[peer] as MessageBuffer)`taken
      ensures Buffers() && Fair(cursor) && Explicable() && old(|served| - since[peer]) < |buffers|
      ensures served == old(served) + [peer] && answers == old(answers) + [FromPeer(peer, reply)]
      ensures stopped == (old(stopped) || reply.stops)
      ensures status == if reply.Done? then Ready else if reply.Promises? then Handling else Stuck
      ensures buffers[peer].taken == old(buffers[peer].taken) + [old(buffers[peer].Contents())[0]]
      ensures buffers[peer].Contents() == old(buffers[peer].Contents())[1..]
    {
      var next := if reply.Done? then Ready else if reply.Promises? then Handling else Stuck;
      Explain(peer, reply, next);
      TakeFrom(peer, cursor);
      answers, stopped, status := answers + [FromPeer(peer, reply)], stopped || reply.stops, next;
    }

    // -------------------------------------------------------------- one round after the other

    /** How many messages each peer has waiting. */
    ghost function Lengths(): (lengths: seq<nat>)
      reads this, buffers
      ensures |lengths| == |buffers| && forall k :: 0 <= k < |buffers| ==> lengths[k] == |buffers[k].Contents()|
    {
      seq(|buffers|, k requires 0 <= k < |buffers| reads buffers => |buffers[k].Contents()|)
    }

    /** One visit of the round. */
    method Visit(peer: nat, replies: nat -> Reply) returns (took: bool)
      requires Buffers() && Fair(peer) && status == Ready && !stopped && Explicable()
      modifies this`stopped, this`status, this`served, this`since, this`answers
      modifies (buffers[peer] as MessageBuffer)`stream, (buffers[peer] as MessageBuffer)`next
      modifies (buffers[peer] as MessageBuffer)`taken
      ensures Buffers() && FairNow(NextIndex(peer, |buffers|)) && status != Awaiting && status != QueuedNonPeer
      ensures Explicable() && AnsweredSince(old(answers), replies)
      ensures took == (old(buffers[peer].Contents()) != [])
      ensures !took ==> status == Ready && !stopped && buffers[peer].Contents() == []
      ensures took && status == Ready ==> buffers[peer].Contents() == old(buffers[peer].Contents())[1..]
    {
      Reached(peer);
      took := buffers[peer].CanTake();
      if took {
        Offer(peer, replies(|answers|), NextIndex(peer, |buffers|));
      }
    }

    /** The same, as the loop counts messages. */
    method VisitCounted(peer: nat, replies: nat -> Reply) returns (took: bool)
      requires Buffers() && Fair(peer) && status == Ready && !stopped && Explicable()
      modifies this`stopped, this`status, this`served, this`since, this`answers
      modifies (buffers[peer] as MessageBuffer)`stream, (buffers[peer] as MessageBuffer)`next
      modifies (buffers[peer] as MessageBuffer)`taken
      ensures Buffers() && FairNow(NextIndex(peer, |buffers|)) && status != Awaiting && status != QueuedNonPeer
      ensures Explicable() && AnsweredSince(old(answers), replies)
      ensures !took ==> status == Ready && !stopped && buffers[peer].Contents() == [] && Lengths() == old(Lengths())
      ensures took && status == Ready ==> Sum(Lengths()) < Sum(old(Lengths()))
    {
      ghost var before := Lengths();
      took := Visit(peer, replies);
      if took && status == Ready {
        SumUpdate(before, peer);
        assert Lengths() == before[peer := before[peer] - 1];
      }
      assert !took ==> Lengths() == before;
    }

    /** The peers that the pass has visited have nothing. */
    ghost predicate EmptyUntil(startIndex: nat, steps: nat)
      requires startIndex < |buffers|
      reads this, buffers
    {
      forall q :: 0 <= q < |buffers| && Distance(startIndex, q, |buffers|) < steps ==> buffers[q].Contents() == []
    }

    /** One more peer of the pass has nothing; after the last of them, none has. */
    lemma OneMoreEmpty(startIndex: nat, index: nat)
      requires startIndex < |buffers| && index < |buffers| && buffers[index].Contents() == []
      requires EmptyUntil(startIndex, Distance(startIndex, index, |buffers|))
      ensures
        var next := NextIndex(index, |buffers|);
        && EmptyUntil(startIndex, Distance(startIndex, index, |buffers|) + 1)
        && (next != startIndex ==> EmptyUntil(startIndex, Distance(startIndex, next, |buffers|)))
        && (next == startIndex ==> AllEmpty())
    {
      StepAlong(startIndex, index, |buffers|);
    }

    /** One pass over all peers, unless the consumer has to wait or is stopped. */
    method Pass(startIndex: nat, replies: nat -> Reply) returns (took: bool, index: nat)
      requires Buffers() && Fair(startIndex) && status == Ready && !stopped && Explicable()
      modifies this`stopped, this`status, this`served, this`since, this`answers
      modifies buffers`stream, buffers`next, buffers`taken
      ensures Buffers() && FairNow(index) && index < |buffers| && status != Awaiting && status != QueuedNonPeer
      ensures Explicable() && AnsweredSince(old(answers), replies)
      ensures status == Ready && !stopped ==> index == startIndex
      ensures !took ==> status == Ready && !stopped && AllEmpty()
      ensures if took then status == Ready ==> Sum(Lengths()) < Sum(old(Lengths())) else Lengths() == old(Lengths())
    {
      took, index := false, startIndex;
      while true
        invariant Buffers() && Fair(index) && status == Ready && !stopped
        invariant Explicable() && AnsweredSince(old(answers), replies)
        invariant index < |buffers|
        invariant if took then Sum(Lengths()) < Sum(old(Lengths())) else Lengths() == old(Lengths())
        invariant !took ==> EmptyUntil(startIndex, Distance(startIndex, index, |buffers|))
        decreases |buffers| - Distance(startIndex, index, |buffers|)
      {
        StepAlong(startIndex, index, |buffers|);
        ghost var between := answers;
        var one := VisitCounted(index, replies);
        GivenTwice(old(answers), between, answers, replies);
        took := took || one;
        if !took {
          OneMoreEmpty(startIndex, index);
        }
        index := NextIndex(index, |buffers|);
        if stopped || status != Ready || index == startIndex {
          break;
        }
      }
    }

    ghost predicate AllEmpty()
      reads this, buffers
    {
      forall k :: 0 <= k < |buffers| ==> buffers[k].Contents() == []
    }

    /** Consumes as many messages as possible without waiting, then decides what to wait for. It only waits for
        messages when there are none, and takes nothing once stopped. The k-th of all answers of the scheduler is
        replies(k) if it is for a peer's message; queues says whether an operation for another server's is queued. */
    method ConsumeNext(replies: nat -> Reply, queues: bool)
      requires Valid() && status == Ready
      modifies this`stopped, this`status, this`resumeIndex, this`served, this`since, this`answers
      modifies buffers`stream, buffers`next, buffers`taken, buffers`awaiting
      modifies nonPeer`stream, nonPeer`next, nonPeer`taken, nonPeer`awaiting
      ensures Valid() && (stopped || status != Ready)
      ensures old(stopped) ==>
                unchanged(this) && unchanged(nonPeer) && forall k :: 0 <= k < |buffers| ==> unchanged(buffers[k])
      ensures status == Awaiting ==> resumeIndex == 0 && AllEmpty() && nonPeer.Contents() == []
      ensures old(answers) <= answers && (status == Awaiting || stopped || |old(answers)| < |answers|)
      ensures forall k :: |old(answers)| <= k < |answers| ==>
                answers[k] == FromNonPeer(queues) || (answers[k].FromPeer? && answers[k].reply == replies(k))
      ensures !old(stopped) && old(nonPeer.Contents()) == [] && (forall k :: replies(k) == Done(false)) ==>
                !stopped && status == Awaiting && AllTaken()
    {
      if stopped {
        return;
      }
      ghost var before := answers;
      ConsumePeers(replies);
      if !stopped && status == Ready {
        ConsumeNonPeer(queues);
      }
      if !stopped && status == Ready {
        AwaitAll();
      }
      if (forall k :: replies(k) == Done(false)) && AllDone(answers, |before|) {
        DoneStopsNothing(before, answers);
      }
    }

    /** Every message of a peer that has ever arrived was taken. */
    ghost predicate AllTaken()
      reads this, buffers
    {
      forall k :: 0 <= k < |buffers| ==> buffers[k].Contents() == [] && buffers[k].taken == buffers[k].arrived
    }

    /** The passes, as long as they take messages and nothing has to be waited for. */
    method ConsumePeers(replies: nat -> Reply)
      requires Valid() && status == Ready && !stopped
      modifies this`stopped, this`status, this`resumeIndex, this`served, this`since, this`answers
      modifies buffers`stream, buffers`next, buffers`taken
      ensures Valid() && status != Awaiting && status != QueuedNonPeer && AnsweredSince(old(answers), replies)
      ensures !stopped && status == Ready ==> AllEmpty() && resumeIndex == 0
    {
      var index := Passes(resumeIndex, replies);
      resumeIndex := if status == Ready then 0 else index;
      assert FairNow(resumeIndex);
    }

    method Passes(startIndex: nat, replies: nat -> Reply) returns (index: nat)
      requires Buffers() && Fair(startIndex) && status == Ready && !stopped && Explicable()
      modifies this`stopped, this`status, this`served, this`since, this`answers
      modifies buffers`stream, buffers`next, buffers`taken
      ensures Buffers() && FairNow(index) && status != Awaiting && status != QueuedNonPeer
      ensures Explicable() && AnsweredSince(old(answers), replies)
      ensures !stopped && status == Ready ==> AllEmpty()
    {
      var repeat := true;
      index := startIndex;
      while !stopped && repeat && status == Ready
        invariant Buffers() && FairNow(index) && status != Awaiting && status != QueuedNonPeer
        invariant Explicable() && AnsweredSince(old(answers), replies)
        invariant status == Ready && !stopped ==> index == startIndex
        invariant !repeat ==> status == Ready && !stopped && AllEmpty()
        decreases !stopped && status == Ready, Sum(Lengths()), repeat
      {
        ghost var between := answers;
        repeat, index := Pass(startIndex, replies);
        GivenTwice(old(answers), between, answers, replies);
      }
    }

    /** A message from a server that is not a peer comes last; handling it always has to be waited for. */
    method ConsumeNonPeer(queues: bool)
      requires Valid() && status == Ready && !stopped && AllEmpty() && resumeIndex == 0
      modifies this`status, this`answers, nonPeer`stream, nonPeer`next, nonPeer`taken
      ensures Valid() && status != Awaiting && !status.Queued? && resumeIndex == 0 && AllEmpty()
      ensures status == Ready <==> old(nonPeer.Contents()) == []
      ensures status == Ready ==> nonPeer.Contents() == [] && answers == old(answers)
      ensures status != Ready ==> answers == old(answers) + [FromNonPeer(queues)]
      ensures status == Ready || status == QueuedNonPeer ==> nonPeer.taken == old(nonPeer.taken)
    {
      var can := nonPeer.CanTake();
      if can {
        var next := if queues then QueuedNonPeer else Handling;
        AnswerExplains(answers, served, status, stopped, told, FromNonPeer(queues), next);
        answers, status := answers + [FromNonPeer(queues)], next;
        if !queues {
          var message := nonPeer.Take();
        }
      }
    }

    /** The race between all buffers for the next message. */
    method AwaitAll()
      requires Valid() && status == Ready && !stopped && AllEmpty() && resumeIndex == 0 && nonPeer.Contents() == []
      modifies this`status, buffers`stream, buffers`next, buffers`awaiting
      modifies nonPeer`stream, nonPeer`next, nonPeer`awaiting
      ensures Valid() && status == Awaiting
    {
      var ready := nonPeer.Await();
      AwaitPeers();
      status := Awaiting;
    }

    method AwaitPeers()
      requires Buffers() && AllEmpty()
      modifies buffers`stream, buffers`next, buffers`awaiting
      ensures Buffers() && AllEmpty() && forall k :: 0 <= k < |buffers| ==> buffers[k].awaiting
    {
      for k := 0 to |buffers|
        invariant Buffers() && AllEmpty() && forall j :: 0 <= j < k ==> buffers[j].awaiting
      {
        var ready := buffers[k].Await();
      }
    }

    // -------------------------------------------------------------- what happens in between

    /** A message arrives, and ends the wait for one. */
    method Arrive(peer: nat, m: Message)
      requires Valid() && peer < |buffers|
      modifies this`status, this`since, buffers[peer]
      ensures Valid() && status == if old(status) == Awaiting then Ready else old(status)
      ensures buffers[peer].arrived == old(buffers[peer].arrived) + [m] && served == old(served)
    {
      Receive(peer, m);
      if status == Awaiting {
        status := Ready;
      }
    }

    /** A peer that had nothing waiting is passed over from now on. */
    method Receive(peer: nat, m: Message)
      requires Buffers() && FairNow(resumeIndex) && peer < |buffers|
      modifies this`since, buffers[peer]
      ensures Buffers() && FairNow(resumeIndex)
      ensures buffers[peer].Contents() == old(buffers[peer].Contents()) + [m]
      ensures buffers[peer].arrived == old(buffers[peer].arrived) + [m]
    {
      if status.Queued? {
        DistanceStep(status.peer, peer, |buffers|);
      }
      if buffers[peer].Contents() == [] {
        since := since[peer := |served|];
      }
      buffers[peer].Arrive(m);
    }

    /** So does a message from a server that is not a peer; it is looked at when no peer has one. */
    method ArriveNonPeer(m: Message)
      requires Valid()
      modifies this`status, nonPeer
      ensures Valid() && status == if old(status) == Awaiting then Ready else old(status)
      ensures nonPeer.arrived == old(nonPeer.arrived) + [m] && nonPeer.taken == old(nonPeer.taken)
    {
      nonPeer.Arrive(m);
      if status == Awaiting {
        status := Ready;
      }
    }

    /** The handler's promise fulfils. */
    method Fulfil()
      requires Valid() && status == Handling
      modifies this`status
      ensures Valid() && status == Ready
    {
      status := Ready;
    }

    /** It rejects: the scheduler tells the crash handler and never fulfils its own promise, so the consumer waits for
        ever, without being stopped. */
    method Reject()
      requires Valid() && status == Handling
      modifies this`status, this`rejected
      ensures Valid() && status == Stuck && rejected && stopped == old(stopped)
    {
      status, rejected := Stuck, true;
    }

    /** The scheduler runs the queued operation for a message that is not from a peer: only now is the message
        taken, and then a peer is created, which has to be waited for. */
    method RunQueuedNonPeer()
      requires Valid() && status == QueuedNonPeer && !stopped
      modifies this`status, this`answers, nonPeer`stream, nonPeer`next, nonPeer`taken
      ensures answers == old(answers) + [FromNonPeer(false)]
      ensures Valid() && status == Handling && nonPeer.Contents() == old(nonPeer.Contents())[1..]
      ensures nonPeer.taken == old(nonPeer.taken) + [old(nonPeer.Contents())[0]]
    {
      AnswerExplains(answers, served, status, stopped, told, FromNonPeer(false), Handling);
      answers, status := answers + [FromNonPeer(false)], Handling;
      var message := nonPeer.Take();
    }

    /** The scheduler runs the queued operation, which only now takes its message. */
    method RunQueued(reply: Reply)
      requires Valid() && status.Queued? && !stopped && !reply.Queues? && !reply.Refuses?
      modifies this`stopped, this`status, this`served, this`since, this`answers
      modifies (buffers[status.peer] as MessageBuffer)`stream, (buffers[status.peer] as MessageBuffer)`next
      modifies (buffers[status.peer] as MessageBuffer)`taken
      ensures Valid() && !status.Queued? && served == old(served) + [old(status.peer)]
      ensures answers == old(answers) + [FromPeer(old(status.peer), reply)]
      ensures old(|served| - since[status.peer]) < |buffers|
    {
      Handle(status.peer, reply, resumeIndex);
    }
  }
}
