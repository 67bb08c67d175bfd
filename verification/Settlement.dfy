/** What becomes of the append calls of one leader, from the scheduler's queue to the log's commit. */
module Settlement {
  import opened Scheduling

  lemma {:induction false} CallsSplit(a: seq<Op>, b: seq<Op>)
    ensures AbortCalls(a + b) == AbortCalls(a) + AbortCalls(b)
  {
    if b == [] {
      assert a + b == a;
    } else {
      CallsSplit(a, b[..|b| - 1]);
      assert (a + b)[..|a + b| - 1] == a + b[..|b| - 1];
    }
  }

  /** Only append calls come with an abort handler, and every append waits for its entry to be persisted. The
      leader's operations do not change its role in their synchronous part. */
  ghost predicate AppendsWait(ops: seq<Op>) {
    forall k :: 0 <= k < |ops| ==> !ops[k].aborts && (ops[k].hasAbort ==> ops[k].kind == Async)
  }

  lemma {:induction false} OnlyAsyncsCall(ops: seq<Op>)
    requires AppendsWait(ops)
    ensures AbortCalls(Asyncs(ops)) == AbortCalls(ops)
  {
    if ops != [] {
      var front, last := ops[..|ops| - 1], ops[|ops| - 1];
      OnlyAsyncsCall(front);
      CallsSplit(Asyncs(front), if last.kind == Async then [last] else []);
      assert AbortCalls([last]) == if last.hasAbort then [last.id] else [] by {
        assert [last][..0] == [];
      }
    }
  }

  lemma StartedWait(submitted: seq<Op>, started: seq<Op>, queue: seq<Op>, dropped: seq<Op>)
    requires submitted == started + queue + dropped && AppendsWait(submitted)
    ensures AppendsWait(started)
  {
    forall k | 0 <= k < |started|
      ensures !started[k].aborts && (started[k].hasAbort ==> started[k].kind == Async)
    {
      assert started[k] == submitted[k];
    }
  }

  /** Where the append calls among the operations submitted are. */
  lemma Places(submitted: seq<Op>, started: seq<Op>, queue: seq<Op>, dropped: seq<Op>, finished: seq<Op>,
               pending: seq<Op>)
    requires submitted == started + queue + dropped && AppendsWait(submitted) && Asyncs(started) == finished + pending
    ensures AbortCalls(submitted) ==
            AbortCalls(finished) + AbortCalls(pending) + AbortCalls(queue) + AbortCalls(dropped)
  {
    CallsSplit(started + queue, dropped);
    CallsSplit(started, queue);
    StartedWait(submitted, started, queue, dropped);
    OnlyAsyncsCall(started);
    CallsSplit(finished, pending);
  }

  lemma Sums(all: seq<nat>, through: seq<nat>, inFlight: seq<nat>, queued: seq<nat>, dropped: seq<nat>,
             handed: seq<nat>, waiting: seq<nat>, rejected: seq<nat>, lost: seq<nat>)
    requires all == through + inFlight + queued + dropped
    requires multiset(through) == multiset(handed) + multiset(waiting) + multiset(rejected) + multiset(lost)
    ensures multiset(all) ==
            multiset(queued) + multiset(inFlight) + multiset(waiting) + multiset(handed)
            + multiset(dropped) + multiset(rejected) + multiset(lost)
  {
    assert multiset(all) == multiset(through) + multiset(inFlight) + multiset(queued) + multiset(dropped);
  }

  /** The same when those that are through the scheduler have gone these ways. */
  lemma AllPlaces(submitted: seq<Op>, started: seq<Op>, queue: seq<Op>, dropped: seq<Op>, finished: seq<Op>,
                  pending: seq<Op>, handed: seq<nat>, waiting: seq<nat>, rejected: seq<nat>, lost: seq<nat>)
    requires submitted == started + queue + dropped && AppendsWait(submitted) && Asyncs(started) == finished + pending
    requires multiset(AbortCalls(finished)) ==
             multiset(handed) + multiset(waiting) + multiset(rejected) + multiset(lost)
    ensures multiset(AbortCalls(submitted)) ==
            multiset(AbortCalls(queue)) + multiset(AbortCalls(pending)) + multiset(waiting) + multiset(handed)
            + multiset(AbortCalls(dropped)) + multiset(rejected) + multiset(lost)
  {
    Places(submitted, started, queue, dropped, finished, pending);
    Sums(AbortCalls(submitted), AbortCalls(finished), AbortCalls(pending), AbortCalls(queue), AbortCalls(dropped),
         handed, waiting, rejected, lost);
  }

  /** The append call that an operation is, if it is one. */
  function CallOf(op: Op): seq<nat> {
    if op.hasAbort then [op.id] else []
  }

  class AppendCalls {
    const scheduler: Scheduler
    var pendingApplication: seq<nat>

    /** Calls whose entry was handed to the log's commit, calls that the leader itself rejected, and calls
        whose entry could not be persisted, after which the server crashes. */
    ghost var handed: seq<nat>
    ghost var rejected: seq<nat>
    ghost var lost: seq<nat>

    ghost predicate Valid()
      reads this, scheduler
    {
      && scheduler.Valid() && AppendsWait(scheduler.submitted)
      && (scheduler.aborted ==> pendingApplication == [])
      && Balanced(AbortCalls(scheduler.finished))
    }

    /** These calls are through the scheduler, and each went one way. */
    ghost predicate Balanced(through: seq<nat>)
      reads this
    {
      multiset(through) == multiset(handed) + multiset(pendingApplication) + multiset(rejected) + multiset(lost)
    }

    /** Every append call is in exactly one place: waiting in the scheduler, in flight, pending application,
        handed on, rejected (by its abort handler or by the leader), or lost to a crash. */
    lemma Accounted()
      requires Valid()
      ensures multiset(AbortCalls(scheduler.submitted)) ==
              multiset(AbortCalls(scheduler.queue)) + multiset(AbortCalls(scheduler.pending))
              + multiset(pendingApplication) + multiset(handed)
              + multiset(scheduler.abortCalls) + multiset(rejected) + multiset(lost)
    {
      var sch := scheduler;
      sch.Split();
      AllPlaces(sch.submitted, sch.started, sch.queue, sch.dropped, sch.finished, sch.pending,
                handed, pendingApplication, rejected, lost);
    }

    /** Once the leader is destroyed, only a call in flight is neither handed on, rejected nor lost. */
    lemma SettledAfterDestroy()
      requires Valid() && scheduler.aborted
      ensures multiset(AbortCalls(scheduler.submitted)) ==
              multiset(AbortCalls(scheduler.pending)) + multiset(handed)
              + multiset(scheduler.abortCalls) + multiset(rejected) + multiset(lost)
      ensures |scheduler.pending| <= 1
    {
      Accounted();
    }

    constructor (scheduler: Scheduler)
      requires scheduler.Valid() && scheduler.submitted == [] && !scheduler.aborted
      ensures Valid() && this.scheduler == scheduler && pendingApplication == [] && handed == [] && rejected == []
    {
      this.scheduler := scheduler;
      pendingApplication, handed, rejected, lost := [], [], [], [];
      new;
      AsyncsFinish(scheduler.trace);
    }

    method Append(id: nat)
      requires Valid()
      modifies scheduler
      ensures Valid() && scheduler.submitted == old(scheduler.submitted) + [Op(id, Async, true, false)]
      ensures old(scheduler.aborted) ==> scheduler.abortCalls == old(scheduler.abortCalls) + [id]
    {
      QueueKeeps();
      scheduler.Asap(Op(id, Async, true, false));
    }

    /** Any other operation of the leader: a message, or a heartbeat. */
    method Schedule(op: Op)
      requires Valid() && !op.hasAbort && !op.aborts
      modifies scheduler
      ensures Valid() && scheduler.submitted == old(scheduler.submitted) + [op]
    {
      QueueKeeps();
      scheduler.Asap(op);
    }

    lemma QueueKeeps()
      requires Valid()
      ensures NoneAborts(scheduler.queue)
    {
      forall k | 0 <= k < |scheduler.queue|
        ensures !scheduler.queue[k].aborts
      {
        assert scheduler.submitted[|scheduler.started| + k] == scheduler.queue[k];
      }
    }

    /** The pending operation completes. An append whose entry was persisted is pushed, unless the leader was
        destroyed in the meantime. */
    method Complete()
      requires Valid() && scheduler.pending != []
      modifies this`pendingApplication, this`rejected, scheduler
      ensures Valid()
      ensures
        var call := CallOf(old(scheduler.pending)[0]);
        if old(scheduler.aborted) then rejected == old(rejected) + call && pendingApplication == []
        else rejected == old(rejected) && pendingApplication == old(pendingApplication) + call
    {
      QueueKeeps();
      FinishedCalls();
      Return(scheduler.pending[0], AbortCalls(scheduler.finished));
      scheduler.Complete();
    }

    /** The rest of an append, once its entry is persisted. */
    method Return(op: Op, ghost through: seq<nat>)
      requires Balanced(through)
      modifies this`pendingApplication, this`rejected
      ensures Balanced(through + CallOf(op)) && handed == old(handed) && lost == old(lost)
      ensures if scheduler.aborted
              then rejected == old(rejected) + CallOf(op) && pendingApplication == old(pendingApplication)
              else rejected == old(rejected) && pendingApplication == old(pendingApplication) + CallOf(op)
    {
      if op.hasAbort {
        if scheduler.aborted {
          rejected := rejected + [op.id];
        } else {
          pendingApplication := pendingApplication + [op.id];
        }
      }
    }

    lemma FinishedCalls()
      requires Valid() && scheduler.pending != []
      ensures AbortCalls(scheduler.finished + scheduler.pending) ==
              AbortCalls(scheduler.finished) + CallOf(scheduler.pending[0])
    {
      assert scheduler.pending == [scheduler.pending[0]];
      AbortCallsGrow(scheduler.finished, scheduler.pending[0]);
    }

    /** Its entry could not be persisted: the server crashes, and nothing else is started. */
    method Fail()
      requires Valid() && scheduler.pending != []
      modifies this`lost, scheduler
      ensures Valid() && scheduler.crashed && scheduler.pending == []
      ensures lost == old(lost) + CallOf(old(scheduler.pending)[0])
    {
      FinishedCalls();
      Lose(scheduler.pending[0], AbortCalls(scheduler.finished));
      scheduler.Fail();
    }

    /** Its entry was persisted and the call pushed, but an update of a peer throws: the operation fails, and the call
        still waits for its accepts. */
    method FailAfterPush()
      requires Valid() && scheduler.pending != [] && !scheduler.aborted
      modifies this`pendingApplication, this`rejected, scheduler
      ensures Valid() && scheduler.crashed && scheduler.pending == []
      ensures pendingApplication == old(pendingApplication) + CallOf(old(scheduler.pending)[0])
      ensures rejected == old(rejected) && lost == old(lost) && handed == old(handed)
    {
      FinishedCalls();
      Return(scheduler.pending[0], AbortCalls(scheduler.finished));
      scheduler.Fail();
    }

    method Lose(op: Op, ghost through: seq<nat>)
      requires Balanced(through)
      modifies this`lost
      ensures Balanced(through + CallOf(op)) && lost == old(lost) + CallOf(op)
      ensures pendingApplication == old(pendingApplication)
    {
      lost := lost + CallOf(op);
    }

    /** The first pending calls have reached their quorum. */
    method Commit(count: nat)
      requires Valid() && count <= |pendingApplication|
      modifies this`pendingApplication, this`handed
      ensures Valid() && handed == old(handed) + old(pendingApplication)[..count]
      ensures pendingApplication == old(pendingApplication)[count..]
    {
      assert pendingApplication == pendingApplication[..count] + pendingApplication[count..];
      handed := handed + pendingApplication[..count];
      pendingApplication := pendingApplication[count..];
    }

    /** The leader is destroyed: the scheduler calls the handlers of what it has queued, and everything that is
        pending application is rejected. */
    method Destroy()
      requires Valid() && !scheduler.aborted
      modifies this`pendingApplication, this`rejected, scheduler
      ensures Valid() && scheduler.aborted && pendingApplication == [] && scheduler.pending == old(scheduler.pending)
      ensures rejected == old(rejected) + old(pendingApplication) && scheduler.queue == []
    {
      scheduler.Abort();
      rejected := rejected + pendingApplication;
      pendingApplication := [];
    }
  }
}
