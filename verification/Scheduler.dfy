/** The gatekeeper for operations: one at a time, in order, until it is aborted. */
module Scheduling {

  /** What an operation does when it is called: it completes at once, or returns a promise, or throws. */
  datatype Kind = Sync | Async | Throws

  /** An operation, and whether an abort handler came with it. An operation may make the server change
      its role in its synchronous part, which aborts the scheduler. */
  datatype Op = Op(id: nat, kind: Kind, hasAbort: bool, aborts: bool)

  datatype Event = Starts(op: Op) | Finishes(op: Op) | Aborts

  /** What these events amount to: what was started and what asynchronous operations have finished, in order,
      what is pending, and whether there was an abort. It is lawful if nothing started while an asynchronous
      operation was pending or after an abort, and only what was pending finished. */
  datatype Summary = Summary(started: seq<Op>, finished: seq<Op>, pending: seq<Op>, aborted: bool, lawful: bool)

  function Sum(trace: seq<Event>): Summary {
    if trace == [] then Summary([], [], [], false, true) else Step(Sum(trace[..|trace| - 1]), trace[|trace| - 1])
  }

  function Step(s: Summary, e: Event): Summary {
    match e
    case Starts(op) =>
      Summary(s.started + [op], s.finished, if op.kind == Async then [op] else s.pending, s.aborted,
              s.lawful && s.pending == [] && !s.aborted)
    case Finishes(op) =>
      Summary(s.started, s.finished + [op], [], s.aborted, s.lawful && s.pending == [op])
    case Aborts =>
      s.(aborted := true)
  }

  lemma SumStep(trace: seq<Event>, e: Event)
    ensures Sum(trace + [e]) == Step(Sum(trace), e)
  {
    assert (trace + [e])[..|trace|] == trace;
  }

  lemma {:induction false} LawfulBefore(trace: seq<Event>, j: nat)
    requires Sum(trace).lawful && j <= |trace|
    ensures Sum(trace[..j]).lawful
  {
    if j < |trace| {
      LawfulBefore(trace[..|trace| - 1], j);
      assert trace[..|trace| - 1][..j] == trace[..j];
    } else {
      assert trace[..j] == trace;
    }
  }

  /** Between the start of an asynchronous operation and any later start, it has finished. */
  lemma {:induction false} FinishedBetween(trace: seq<Event>, i: nat, j: nat)
    requires Sum(trace).lawful && i < j < |trace|
    requires trace[i].Starts? && trace[i].op.kind == Async && trace[j].Starts?
    ensures exists k :: i < k < j && trace[k] == Finishes(trace[i].op)
  {
    LawfulBefore(trace, j + 1);
    assert trace[..j + 1][..j] == trace[..j];
    if forall k :: i < k < j ==> trace[k] != Finishes(trace[i].op) {
      StillPending(trace, i, j);
    }
  }

  lemma {:induction false} StillPending(trace: seq<Event>, i: nat, j: nat)
    requires Sum(trace).lawful && i < j <= |trace| && trace[i].Starts? && trace[i].op.kind == Async
    requires forall k :: i < k < j ==> trace[k] != Finishes(trace[i].op)
    ensures Sum(trace[..j]).pending == [trace[i].op]
  {
    assert trace[..j][..j - 1] == trace[..j - 1] && trace[..j][j - 1] == trace[j - 1];
    LawfulBefore(trace, j);
    if i < j - 1 {
      StillPending(trace, i, j - 1);
    }
  }

  /** Nothing starts after an abort. */
  lemma {:induction false} NothingAfterAbort(trace: seq<Event>, i: nat, j: nat)
    requires Sum(trace).lawful && i < j < |trace| && trace[i] == Aborts
    ensures !trace[j].Starts?
  {
    LawfulBefore(trace, j + 1);
    assert trace[..j + 1][..j] == trace[..j];
    StaysAborted(trace, i, j);
  }

  lemma {:induction false} StaysAborted(trace: seq<Event>, i: nat, j: nat)
    requires i < j <= |trace| && trace[i] == Aborts
    ensures Sum(trace[..j]).aborted
  {
    assert trace[..j][..j - 1] == trace[..j - 1] && trace[..j][j - 1] == trace[j - 1];
    if i < j - 1 {
      StaysAborted(trace, i, j - 1);
    }
  }

  function Asyncs(ops: seq<Op>): seq<Op> {
    if ops == [] then []
    else
      var last := ops[|ops| - 1];
      Asyncs(ops[..|ops| - 1]) + (if last.kind == Async then [last] else [])
  }

  /** Every asynchronous operation that was started has finished, in order, except the pending one. */
  lemma {:induction false} AsyncsFinish(trace: seq<Event>)
    requires Sum(trace).lawful
    ensures Asyncs(Sum(trace).started) == Sum(trace).finished + Sum(trace).pending && |Sum(trace).pending| <= 1
  {
    if trace != [] {
      var before, last := Sum(trace[..|trace| - 1]), trace[|trace| - 1];
      AsyncsFinish(trace[..|trace| - 1]);
      if last.Starts? {
        assert (before.started + [last.op])[..|before.started|] == before.started;
      }
    }
  }

  /** The ids of the operations whose abort handler is to be called, in order. */
  function AbortCalls(ops: seq<Op>): seq<nat> {
    if ops == [] then []
    else
      var last := ops[|ops| - 1];
      AbortCalls(ops[..|ops| - 1]) + (if last.hasAbort then [last.id] else [])
  }

  lemma AbortCallsGrow(ops: seq<Op>, op: Op)
    ensures AbortCalls(ops + [op]) == AbortCalls(ops) + (if op.hasAbort then [op.id] else [])
  {
    assert (ops + [op])[..|ops|] == ops;
  }

  /** A handler is called as often as the operations that it came with were dropped. */
  lemma {:induction false} CalledOncePerDrop(dropped: seq<Op>, op: Op)
    requires op.hasAbort && forall k :: 0 <= k < |dropped| && dropped[k].id == op.id ==> dropped[k] == op
    ensures multiset(AbortCalls(dropped))[op.id] == multiset(dropped)[op]
  {
    if dropped != [] {
      var front, last := dropped[..|dropped| - 1], dropped[|dropped| - 1];
      CalledOncePerDrop(front, op);
      assert dropped == front + [last];
      OneMoreDrop(front, last, op);
    }
  }

  lemma OneMoreDrop(front: seq<Op>, last: Op, op: Op)
    requires op.hasAbort && (last.id == op.id ==> last == op)
    requires multiset(AbortCalls(front))[op.id] == multiset(front)[op]
    ensures multiset(AbortCalls(front + [last]))[op.id] == multiset(front + [last])[op]
  {
    AbortCallsGrow(front, last);
  }

  ghost predicate NoneAborts(ops: seq<Op>) {
    forall k :: 0 <= k < |ops| ==> !ops[k].aborts
  }

  // ---------------------------------------------------------------- how far the queue runs

  /** After such an operation no other is started for now. */
  predicate Halts(op: Op) {
    op.aborts || op.kind != Sync
  }

  /** What is started when these operations are next: all of them up to and including the first that halts. */
  function Burst(ops: seq<Op>): (burst: seq<Op>)
    ensures burst <= ops && (ops != [] ==> burst != [])
  {
    if ops == [] then []
    else if Halts(ops[0]) then [ops[0]]
    else
      assert ops == [ops[0]] + ops[1..];
      [ops[0]] + Burst(ops[1..])
  }

  /** No operation before the last one that is started halts, and the last one does unless there are no more. */
  lemma {:induction false} BurstExactly(ops: seq<Op>, k: nat)
    requires k <= |ops|
    ensures k < |Burst(ops)| <==> k < |ops| && forall j :: 0 <= j < k ==> !Halts(ops[j])
  {
    if k > 0 && !Halts(ops[0]) {
      BurstExactly(ops[1..], k - 1);
      assert forall j :: 0 < j < k ==> ops[j] == ops[1..][j - 1];
      assert forall j :: 0 <= j < k - 1 ==> ops[1..][j] == ops[j + 1];
    }
  }

  lemma BurstAfter(op: Op, queue: seq<Op>)
    ensures Burst([op] + queue) == if Halts(op) then [op] else [op] + Burst(queue)
    ensures ([op] + queue)[1..] == queue
  {
    assert ([op] + queue)[1..] == queue;
  }

  ghost predicate AnyThrows(ops: seq<Op>) {
    exists k :: 0 <= k < |ops| && ops[k].kind == Throws
  }

  lemma ThrowsAfter(started: seq<Op>, op: Op)
    ensures AnyThrows(started + [op]) <==> AnyThrows(started) || op.kind == Throws
  {
    if AnyThrows(started) {
      var k :| 0 <= k < |started| && started[k].kind == Throws;
      assert (started + [op])[k].kind == Throws;
    }
    assert (started + [op])[|started|] == op;
  }

  lemma AllDropped(started: seq<Op>, queue: seq<Op>)
    ensures started + [] + queue + [] == started + [] + [] + queue
  {
  }

  lemma DropsLast(started: seq<Op>, dropped: seq<Op>, op: Op)
    ensures started + [] + [] + dropped + [op] == started + [] + [] + (dropped + [op])
  {
  }

  /** What a caller sees of the scheduler. */
  datatype Look =
    Look(aborted: bool, busy: bool, crashed: bool, pending: seq<Op>, started: seq<Op>, queue: seq<Op>,
         dropped: seq<Op>)

  /** These operations were next: how far they ran, and what that led to. */
  ghost predicate Ran(ops: seq<Op>, before: seq<Op>, crashedBefore: bool, now: Look)
    requires ops != []
  {
    var burst := Burst(ops);
    var last, rest := burst[|burst| - 1], ops[|burst|..];
    && now.started == before + burst
    && now.aborted == last.aborts
    && (if now.aborted then now.queue == [] && now.dropped == rest else now.queue == rest && now.dropped == [])
    && now.pending == (if last.kind == Async then [last] else [])
    && now.crashed == (crashedBefore || last.kind == Throws)
    && (!Halts(last) ==> now.queue == [] && !now.busy)
  }

  /** The first of them ran, and then the others unless it halts. */
  lemma RanFirst(op: Op, queue: seq<Op>, before: seq<Op>, crashedBefore: bool, now: Look)
    requires if Halts(op) || queue == [] then Stopped(op, before + [op], queue, crashedBefore, now)
             else Ran(queue, before + [op], crashedBefore, now)
    ensures Ran([op] + queue, before, crashedBefore, now)
  {
    BurstAfter(op, queue);
    if Halts(op) || queue == [] {
      assert Burst([op] + queue) == [op] && ([op] + queue)[1..] == queue;
    } else {
      OneMoreBefore(op, queue, Burst(queue), before);
    }
  }

  lemma OneMoreBefore(op: Op, queue: seq<Op>, burst: seq<Op>, before: seq<Op>)
    requires 0 < |burst| <= |queue|
    ensures ([op] + queue)[|[op] + burst|..] == queue[|burst|..]
    ensures ([op] + burst)[|[op] + burst| - 1] == burst[|burst| - 1]
    ensures before + ([op] + burst) == before + [op] + burst
  {
  }

  /** After this operation nothing else was started. */
  ghost predicate Stopped(op: Op, ops: seq<Op>, waiting: seq<Op>, crashedBefore: bool, now: Look) {
    && now.started == ops && now.aborted == op.aborts
    && (if now.aborted then now.queue == [] && now.dropped == waiting else now.queue == waiting && now.dropped == [])
    && now.pending == (if op.kind == Async then [op] else [])
    && now.crashed == (crashedBefore || op.kind == Throws)
    && (!Halts(op) ==> now.queue == [] && !now.busy)
  }

  class Scheduler {
    var aborted: bool
    var busy: bool

    /** null once aborted. */
    var queue: seq<Op>

    /** The asynchronous operation whose promise is pending. */
    var pending: seq<Op>

    /** Everything that was passed to asap; of that, what was started, what has finished, and what was dropped
        because of an abort; the abort handlers called; whether a promise was rejected, and whether that or an
        exception has happened. */
    ghost var submitted: seq<Op>
    ghost var started: seq<Op>
    ghost var finished: seq<Op>
    ghost var dropped: seq<Op>
    ghost var abortCalls: seq<nat>
    ghost var rejected: bool
    ghost var crashed: bool

    /** What happened. */
    ghost var trace: seq<Event>

    /** Every submitted operation was started, is queued, or was dropped, in order. */
    ghost predicate Conserved(next: seq<Op>)
      reads this
    {
      && submitted == started + next + queue + dropped
      && abortCalls == AbortCalls(dropped)
      && (aborted ==> queue == []) && (!aborted ==> dropped == [])
      && Sum(trace) == Summary(started, finished, pending, aborted, true)
    }

    ghost predicate Valid()
      reads this
    {
      && Conserved([]) && |pending| <= 1
      && (!aborted && !busy ==> queue == [] && pending == [])
      && (!aborted && busy && pending == [] ==> crashed)
      && Blamed(started)
    }

    /** Nothing crashes but an operation that throws, of these, or a rejected promise. */
    ghost predicate Blamed(ops: seq<Op>)
      reads this
    {
      crashed <==> rejected || AnyThrows(ops)
    }

    /** While nothing has crashed, whatever is queued waits for a pending operation. */
    lemma WaitsForPending()
      requires Valid() && !aborted && !crashed
      ensures queue == [] || pending != []
      ensures pending == [] ==> !busy
    {
    }

    ghost function Now(): Look
      reads this
    {
      Look(aborted, busy, crashed, pending, started, queue, dropped)
    }

    /** Where the operations are. */
    lemma Split()
      requires Valid()
      ensures submitted == started + queue + dropped && abortCalls == AbortCalls(dropped)
      ensures Asyncs(started) == finished + pending && |pending| <= 1
    {
      AsyncsFinish(trace);
      assert started + [] == started;
    }

    constructor ()
      ensures Valid() && submitted == [] && trace == [] && !aborted && !busy && !crashed
    {
      aborted, busy, queue, pending := false, false, [], [];
      submitted, started, finished, dropped, abortCalls, trace := [], [], [], [], [], [];
      rejected, crashed := false, false;
    }

    method Asap(op: Op)
      requires Valid()
      modifies this
      ensures Valid() && submitted == old(submitted) + [op] && finished == old(finished)
      ensures old(NoneAborts(queue)) && !op.aborts ==> aborted == old(aborted)
      ensures old(aborted) ==> dropped == old(dropped) + [op] && started == old(started)
      ensures old(aborted) ==> abortCalls == old(abortCalls) + if op.hasAbort then [op.id] else []
      ensures !old(aborted) && old(busy) ==> queue == old(queue) + [op] && started == old(started)
      ensures !old(aborted) && old(busy) ==> pending == old(pending) && crashed == old(crashed) && !aborted
      ensures !old(aborted) && !old(busy) ==> Ran([op], old(started), old(crashed), Now())
    {
      if aborted {
        Drop(op);
      } else if busy {
        submitted := submitted + [op];
        queue := queue + [op];
      } else {
        submitted := submitted + [op];
        assert submitted == started + [op] + queue + dropped;
        Run(op);
      }
    }

    /** After an abort an operation is never executed; only its abort handler is called. */
    method Drop(op: Op)
      requires Valid() && aborted
      modifies this`submitted, this`dropped, this`abortCalls
      ensures Valid() && submitted == old(submitted) + [op] && dropped == old(dropped) + [op]
      ensures started == old(started) && finished == old(finished) && pending == old(pending) && aborted
      ensures abortCalls == old(abortCalls) + if op.hasAbort then [op.id] else []
    {
      AbortCallsGrow(dropped, op);
      DropsLast(started, dropped, op);
      submitted := submitted + [op];
      if op.hasAbort {
        abortCalls := abortCalls + [op.id];
      }
      dropped := dropped + [op];
    }

    /** Called once, when the role is destroyed. */
    method Abort()
      requires Conserved([]) && !aborted
      modifies this`aborted, this`busy, this`queue, this`dropped, this`abortCalls, this`trace
      ensures Conserved([]) && aborted && !busy && queue == [] && dropped == old(queue)
      ensures submitted == old(submitted) && started == old(started) && finished == old(finished)
      ensures pending == old(pending) && rejected == old(rejected) && crashed == old(crashed)
    {
      SumStep(trace, Aborts);
      AllDropped(started, queue);
      CallHandlers();
      aborted, busy, queue, dropped, trace := true, false, [], queue, trace + [Aborts];
    }

    /** The loop over the queue. */
    method CallHandlers()
      requires abortCalls == []
      modifies this`abortCalls
      ensures abortCalls == AbortCalls(queue)
    {
      for k := 0 to |queue|
        invariant abortCalls == AbortCalls(queue[..k])
      {
        if queue[k].hasAbort {
          abortCalls := abortCalls + [queue[k].id];
        }
        assert queue[..k + 1] == queue[..k] + [queue[k]];
        AbortCallsGrow(queue[..k], queue[k]);
      }
      assert queue[..|queue|] == queue;
    }

    /** Calls one operation, and after a synchronous one goes on with the queue. */
    method Run(op: Op)
      requires Conserved([op]) && !aborted && pending == [] && (!busy ==> queue == []) && Blamed(started)
      modifies this
      ensures Valid() && submitted == old(submitted) && finished == old(finished)
      ensures old(NoneAborts(queue)) && !op.aborts ==> !aborted
      ensures Ran([op] + old(queue), old(started), old(crashed), Now())
      decreases |queue|, 2
    {
      ghost var before, ops, crashedBefore := started, queue, crashed;
      Begin(op);
      AbortIf(op.aborts);
      Return(op, before, ops);
      RanFirst(op, ops, before, crashedBefore, Now());
    }

    /** The operation is called. */
    method Begin(op: Op)
      requires Conserved([op]) && !aborted && pending == []
      modifies this`pending, this`started, this`trace
      ensures Conserved([]) && started == old(started) + [op]
      ensures pending == if op.kind == Async then [op] else []
      ensures submitted == old(submitted) && finished == old(finished) && queue == old(queue)
      ensures aborted == old(aborted) && busy == old(busy) && dropped == old(dropped)
      ensures rejected == old(rejected) && crashed == old(crashed)
    {
      SumStep(trace, Starts(op));
      trace := trace + [Starts(op)];
      started := started + [op];
      assert submitted == started + [] + queue + dropped;
      if op.kind == Async {
        pending := [op];
      }
    }

    /** Its synchronous part may abort the scheduler. */
    method AbortIf(aborts: bool)
      requires Conserved([]) && !aborted
      modifies this`aborted, this`busy, this`queue, this`dropped, this`abortCalls, this`trace
      ensures Conserved([]) && aborted == aborts
      ensures submitted == old(submitted) && started == old(started) && finished == old(finished)
      ensures pending == old(pending) && rejected == old(rejected) && crashed == old(crashed)
      ensures if aborts then queue == [] && dropped == old(queue)
              else queue == old(queue) && busy == old(busy) && dropped == old(dropped)
    {
      if aborts {
        Abort();
      }
    }

    /** Its synchronous part is over. */
    method Return(op: Op, ghost before: seq<Op>, ghost ops: seq<Op>)
      requires Conserved([]) && |pending| <= 1 && pending == (if op.kind == Async then [op] else [])
      requires aborted == op.aborts && started == before + [op] && Blamed(before)
      requires if aborted then queue == [] && dropped == ops else queue == ops && (!busy ==> queue == [])
      modifies this
      ensures Valid() && submitted == old(submitted) && finished == old(finished)
      ensures old(NoneAborts(queue)) ==> aborted == old(aborted)
      ensures if Halts(op) || ops == [] then Stopped(op, old(started), ops, old(crashed), Now())
              else Ran(ops, old(started), old(crashed), Now())
      decreases |queue|, 1
    {
      ThrowsAfter(before, op);
      match op.kind {
        case Throws => crashed := true;
        case Sync => Next();
        case Async => busy := true;
      }
    }

    /** Goes on with the next operation of the queue. */
    method Next()
      requires Conserved([]) && pending == [] && (!aborted && !busy ==> queue == []) && Blamed(started)
      modifies this
      ensures Valid() && submitted == old(submitted) && finished == old(finished)
      ensures old(NoneAborts(queue)) ==> aborted == old(aborted)
      ensures if old(aborted) || old(queue) == [] then
                && !busy && started == old(started) && queue == old(queue) && dropped == old(dropped)
                && aborted == old(aborted) && pending == [] && crashed == old(crashed)
              else Ran(old(queue), old(started), old(crashed), Now())
      decreases |queue|, 0
    {
      if aborted || |queue| == 0 {
        busy := false;
        return;
      }
      var op := queue[0];
      ghost var ops := queue;
      queue := queue[1..];
      assert submitted == started + [op] + queue + dropped && ops == [op] + queue;
      Run(op);
    }

    /** The pending promise fulfils. */
    method Complete()
      requires Valid() && pending != []
      modifies this
      ensures Valid() && submitted == old(submitted) && finished == old(finished + pending)
      ensures old(NoneAborts(queue)) ==> aborted == old(aborted)
      ensures if old(aborted) || old(queue) == [] then
                && !busy && started == old(started) && queue == old(queue) && dropped == old(dropped)
                && aborted == old(aborted) && pending == [] && crashed == old(crashed)
              else Ran(old(queue), old(started), old(crashed), Now())
    {
      Finish();
      Next();
    }

    method Finish()
      requires Valid() && pending != []
      modifies this`pending, this`finished, this`trace
      ensures Conserved([]) && pending == [] && finished == old(finished + pending)
      ensures started == old(started) && queue == old(queue) && dropped == old(dropped) && aborted == old(aborted)
      ensures busy == old(busy) && crashed == old(crashed) && rejected == old(rejected) && submitted == old(submitted)
    {
      SumStep(trace, Finishes(pending[0]));
      trace := trace + [Finishes(pending[0])];
      finished := finished + pending;
      pending := [];
    }

    /** The pending promise is rejected: the crash handler is told, and nothing is started any more. */
    method Fail()
      requires Valid() && pending != []
      modifies this`pending, this`finished, this`trace, this`rejected, this`crashed
      ensures Valid() && pending == [] && finished == old(finished + pending) && crashed
      ensures started == old(started) && queue == old(queue) && aborted == old(aborted)
    {
      Finish();
      rejected, crashed := true, true;
    }
  }
}
