/** The queue in front of the state machine: entries are applied in order and one at a time. */
module Applier {
  import opened Entries

  /** An enqueued entry and the promise to resolve with its result; the entry is missing when the log had none. */
  datatype Job = Job(entry: Option<Entry>, promise: Option<nat>)

  /** The entries among the first k jobs that reach the applyEntry callback: all but no-ops. */
  function Calls(jobs: seq<Job>, k: nat): seq<Entry>
    requires k <= |jobs|
  {
    if k == 0 then []
    else
      var job := jobs[k - 1];
      Calls(jobs, k - 1) + (if IsCommand(job) then [job.entry.value] else [])
  }

  predicate IsCommand(job: Job) {
    job.entry.Some? && job.entry.value.value != Noop
  }

  predicate IsNoop(job: Job) {
    job.entry.Some? && job.entry.value.value == Noop
  }

  /** The promises that belong to the first k jobs, in order. */
  function Promises(jobs: seq<Job>, k: nat): seq<nat>
    requires k <= |jobs|
  {
    if k == 0 then []
    else Promises(jobs, k - 1) + (if jobs[k - 1].promise.Some? then [jobs[k - 1].promise.value] else [])
  }

  function LastIndex(jobs: seq<Job>, k: nat, start: nat): nat
    requires k <= |jobs|
  {
    if k == 0 then start
    else if jobs[k - 1].entry.Some? then jobs[k - 1].entry.value.index
    else LastIndex(jobs, k - 1, start)
  }

  /** What the first k jobs come to does not depend on those that follow. */
  lemma {:induction false} SameSoFar(jobs: seq<Job>, jobs': seq<Job>, k: nat, start: nat)
    requires k <= |jobs| && k <= |jobs'| && forall j :: 0 <= j < k ==> jobs[j] == jobs'[j]
    ensures Calls(jobs, k) == Calls(jobs', k) && Promises(jobs, k) == Promises(jobs', k)
    ensures LastIndex(jobs, k, start) == LastIndex(jobs', k, start)
  {
    if k > 0 {
      SameSoFar(jobs, jobs', k - 1, start);
    }
  }

  /** The fake entry at the end of the queue that resolves the promise of finishing. */
  function EndMark(lastQueued: nat, promise: nat): Job {
    Job(Some(Entry(lastQueued, 0, Noop)), Some(promise))
  }

  /** What was handed to an applier, and the phase that it is in. */
  datatype Handing = Handing(jobs: seq<Job>, phase: Applying)

  function HandEntry(h: Handing, entry: Entry, promise: Option<nat>): Handing {
    Handing(h.jobs + [Job(Some(entry), promise)], AfterEntry(h.phase, entry))
  }

  function HandMissing(h: Handing, promise: Option<nat>): Handing {
    Handing(h.jobs + [Job(None, promise)], AfterMissing(h.phase))
  }

  /** The entries of the log past index from, up to index to, one after the other and without a promise. */
  function HandAll(h: Handing, log: seq<Entry>, from: nat, to: nat): Handing
    requires to <= |log|
  {
    if to <= from then h else HandEntry(HandAll(h, log, from, to - 1), log[to - 1], None)
  }

  /** Jobs that hand over these entries without a promise. */
  function Silent(entries: seq<Entry>): (jobs: seq<Job>)
    ensures |jobs| == |entries| && forall k :: 0 <= k < |jobs| ==> jobs[k] == Job(Some(entries[k]), None)
  {
    seq(|entries|, k requires 0 <= k < |entries| => Job(Some(entries[k]), None))
  }

  lemma {:induction false} HandAllJobs(h: Handing, log: seq<Entry>, from: nat, to: nat)
    requires from <= to <= |log|
    ensures HandAll(h, log, from, to) == Handing(h.jobs + Silent(log[from..to]), AfterAll(h.phase, log, from, to))
  {
    if from == to {
      assert h.jobs + Silent(log[from..to]) == h.jobs;
    } else {
      HandAllJobs(h, log, from, to - 1);
      assert h.jobs + Silent(log[from..to]) == h.jobs + Silent(log[from..to - 1]) + [Job(Some(log[to - 1]), None)];
    }
  }

  class LogEntryApplier {
    var lastApplied: nat
    var lastQueued: nat
    var busy: bool
    var queue: seq<Job>

    /** The job whose applyEntry promise is pending. */
    var current: Option<Job>

    /** Everything enqueued since the last reset and not discarded by destroy, how many of those jobs were
        taken off the queue, the calls made, the promises resolved, and whether processing stopped on an
        error: a call was rejected, or a missing entry was taken off the queue. */
    ghost var base: nat
    ghost var jobs: seq<Job>
    ghost var taken: nat
    ghost var calls: seq<Entry>
    ghost var resolved: seq<nat>
    ghost var failed: bool
    ghost var rejected: bool

    /** The jobs that are done: those taken, except one that is pending or that failed. */
    ghost function Done(): nat
      reads this
      requires busy ==> taken > 0
    {
      if busy then taken - 1 else taken
    }

    /** Bookkeeping that holds between any two statements that matter. */
    ghost predicate Consistent()
      reads this
    {
      && taken <= |jobs| && queue == jobs[taken..]
      && (busy ==> taken > 0) && (!busy ==> current == None && !failed)
      && (current.Some? ==> busy && !failed && jobs[taken - 1] == current.value && IsCommand(current.value))
      && (busy && !failed ==> current.Some?)
      && (failed ==> rejected || jobs[taken - 1].entry == None) && (rejected ==> failed)
      && (!failed ==> forall j :: 0 <= j < taken ==> jobs[j].entry.Some?)
      && calls == Calls(jobs, taken)
      && resolved == Promises(jobs, Done())
      && lastApplied == LastIndex(jobs, Done(), base)
    }

    /** While nothing is pending the queue holds nothing but missing entries. */
    ghost predicate Valid()
      reads this
    {
      && Consistent()
      && (!busy ==> forall j :: taken <= j < |jobs| ==> jobs[j].entry == None)
    }

    constructor ()
      ensures Valid() && fresh(this)
      ensures jobs == [] && calls == [] && lastApplied == lastQueued == base == 0 && !busy && !failed
    {
      lastApplied, lastQueued, busy, queue, current := 0, 0, false, [], None;
      base, jobs, taken, calls, resolved, failed, rejected := 0, [], 0, [], [], false, false;
    }

    /** Since then only no-ops were done at once, and at most the last job taken is not one of them. */
    ghost predicate NoopsSince(before: nat)
      reads this
    {
      && before <= taken <= |jobs| && (forall j :: before <= j < taken - 1 ==> IsNoop(jobs[j]))
      && (!busy && before < taken ==> IsNoop(jobs[taken - 1]))
    }

    ghost function Handed(): Handing
      reads this
    {
      Handing(jobs, Phase())
    }

    /** While nothing is pending, only a missing entry can be waiting. */
    function Phase(): Applying
      reads this
    {
      if busy then Busy else if queue == [] then Idle else Stalled
    }

    /** When the jobs are the entries of a log from the reset point on, an idle applier has nothing left to do, and
        the calls made are the commands among the entries taken. */
    lemma AppliedInOrder(log: seq<Entry>)
      requires Valid() && HandedInOrder(Handed(), base, lastQueued, log)
      ensures Phase() != Stalled && base + taken + |queue| == lastQueued <= |log|
      ensures calls == Commands(log, base, base + taken)
      ensures forall k :: 0 <= k < |queue| ==> queue[k].entry == Some(log[base + taken + k])
    {
      NothingMissing(jobs, base, log, taken);
      CallsAreCommands(jobs, base, log, taken);
    }

    /** The mark of finishing is behind jobs that are the entries of a log from the reset point on. */
    ghost predicate Closing(log: seq<Entry>, promise: nat)
      reads this
    {
      && jobs != [] && jobs[|jobs| - 1] == EndMark(lastQueued, promise)
      && InOrder(jobs[..|jobs| - 1], base, log) && lastQueued == base + |jobs| - 1
    }

    /** The same once the mark is behind those jobs: it is last, makes no call, and resolves the promise when all
        entries are done. */
    lemma ClosedInOrder(log: seq<Entry>, promise: nat)
      requires Valid() && Closing(log, promise)
      ensures base + |jobs| - 1 == lastQueued <= |log|
      ensures calls == Commands(log, base, if taken < |jobs| then base + taken else lastQueued)
      ensures !busy ==> taken == |jobs|
      ensures Done() == |jobs| ==> promise in resolved && lastApplied == lastQueued
    {
      Closed(jobs, base, lastQueued, log, taken, promise);
    }

    /** Refused while entries are being applied. */
    method Reset(lastApplied: nat) returns (ok: bool)
      requires Valid()
      modifies this
      ensures ok == !old(busy)
      ensures ok ==> Valid() && jobs == queue == old(queue) && calls == [] && resolved == [] && !busy
      ensures ok ==> this.lastApplied == lastQueued == base == lastApplied
      ensures !ok ==> unchanged(this)
    {
      if busy {
        return false;
      }
      this.lastApplied := lastApplied;
      this.lastQueued := lastApplied;
      base, jobs, taken, calls, resolved := lastApplied, queue, 0, [], [];
      ok := true;
    }

    /** Takes one job at a time off the queue, synchronously past no-ops, until a call is pending. Taking a missing
        entry throws, and leaves the applier busy for ever. */
    method ApplyNext() returns (threw: bool)
      requires Consistent() && (busy || queue != [])
      modifies this
      ensures Valid() && busy == (old(busy) || current.Some? || failed) && (busy || taken == |jobs|)
      ensures old(busy) ==> unchanged(this) && !threw
      ensures jobs == old(jobs) && base == old(base) && lastQueued == old(lastQueued)
      ensures rejected == old(rejected) && NoopsSince(old(taken))
      ensures old(taken) <= taken && old(calls) <= calls && old(resolved) <= resolved
      ensures !old(failed) && (forall j :: old(taken) <= j < |jobs| ==> jobs[j].entry.Some?) ==> !failed && !threw
      ensures !old(busy) && old(queue)[0].entry == None ==> threw && busy && failed
      ensures !old(busy) && |old(queue)| == 1 && old(queue)[0].entry.Some? ==>
                !threw && !failed && busy == (old(queue)[0].entry.value.value != Noop)
      decreases |queue|, 0
    {
      if busy {
        return false;
      }
      busy := true;
      var job := queue[0];
      queue := queue[1..];
      taken := taken + 1;
      threw := false;
      if job.entry == None {
        failed := true;
        threw := true;
      } else if job.entry.value.value == Noop {
        threw := Next(job);
      } else {
        current := Some(job);
        calls := calls + [job.entry.value];
      }
    }

    /** The job is done: its promise is resolved and the next one is taken. */
    method Next(job: Job) returns (threw: bool)
      requires busy && !failed && !rejected && current == None && 0 < taken <= |jobs| && queue == jobs[taken..]
      requires jobs[taken - 1] == job && forall j :: 0 <= j < taken ==> jobs[j].entry.Some?
      requires calls == Calls(jobs, taken)
      requires resolved == Promises(jobs, taken - 1) && lastApplied == LastIndex(jobs, taken - 1, base)
      modifies this
      ensures Valid() && busy == (current.Some? || failed) && (busy || taken == |jobs|)
      ensures jobs == old(jobs) && base == old(base) && lastQueued == old(lastQueued)
      ensures rejected == old(rejected) && NoopsSince(old(taken))
      ensures old(taken) <= taken && old(calls) <= calls && old(resolved) <= resolved
      ensures (forall j :: old(taken) <= j < |jobs| ==> jobs[j].entry.Some?) ==> !failed && !threw
      ensures old(queue) == [] ==> !busy && !threw && !failed
      decreases |queue|, 1
    {
      lastApplied := job.entry.value.index;
      if job.promise.Some? {
        resolved := resolved + [job.promise.value];
      }
      busy := false;
      threw := false;
      if |queue| > 0 {
        threw := ApplyNext();
      }
    }

    /** One job more at the end of the queue. */
    method Push(job: Job)
      requires Consistent()
      modifies this`queue, this`jobs
      ensures Consistent() && jobs == old(jobs) + [job] && queue == old(queue) + [job]
      ensures busy == old(busy) && failed == old(failed) && taken == old(taken) && base == old(base)
      ensures rejected == old(rejected)
      ensures calls == old(calls) && resolved == old(resolved) && lastQueued == old(lastQueued)
    {
      queue := queue + [job];
      jobs := jobs + [job];
      SameSoFar(old(jobs), jobs, taken, base);
      SameSoFar(old(jobs), jobs, Done(), base);
    }

    /** A missing entry is put on the queue too, but throws. When it waits there while nothing is pending, the next
        entry throws instead, on taking it. */
    method Enqueue(entry: Option<Entry>, promise: Option<nat>) returns (threw: bool)
      requires Valid()
      modifies this
      ensures Valid() && threw == (entry == None || old(Phase()) == Stalled)
      ensures Handed() == (if entry == None then HandMissing(old(Handed()), promise)
                           else HandEntry(old(Handed()), entry.value, promise))
      ensures base == old(base)
      ensures lastQueued == if entry == None then old(lastQueued) else entry.value.index
      ensures old(calls) <= calls && old(resolved) <= resolved && old(taken) <= taken
      ensures rejected == old(rejected) && NoopsSince(old(taken))
      ensures entry == None || old(busy) ==> taken == old(taken)
      ensures !old(failed) && (forall j :: 0 <= j < |jobs| ==> jobs[j].entry.Some?) ==> !failed
    {
      Push(Job(entry, promise));
      if entry == None {
        return true;
      }
      lastQueued := entry.value.index;
      threw := ApplyNext();
    }

    /** The pending call succeeded. */
    method Complete()
      requires Valid() && current.Some?
      modifies this
      ensures Valid() && jobs == old(jobs) && base == old(base) && lastQueued == old(lastQueued)
      ensures !rejected && NoopsSince(old(taken))
      ensures old(calls) <= calls && old(resolved) <= resolved && old(taken) <= taken
      ensures busy || (taken == |jobs| && forall j :: 0 <= j < |jobs| ==> jobs[j].entry.Some?)
      ensures (forall j :: 0 <= j < |jobs| ==> jobs[j].entry.Some?) ==> !failed
    {
      var job := current.value;
      current := None;
      var _ := Next(job);
    }

    /** The pending call failed: the crash handler is told, and nothing is ever taken off the queue again. */
    method Fail()
      requires Valid() && current.Some?
      modifies this`current, this`failed, this`rejected
      ensures Valid() && busy && failed && rejected && calls == old(calls) && resolved == old(resolved)
    {
      current, failed, rejected := None, true, true;
    }

    /** Resolves at once when idle, and otherwise after everything on the queue. */
    method Finish(promise: nat) returns (now: bool)
      requires Valid()
      modifies this
      ensures Valid() && now == !old(busy) && busy == old(busy) && failed == old(failed) && taken == old(taken)
      ensures now ==> unchanged(this)
      ensures !now ==> jobs == old(jobs) + [EndMark(lastQueued, promise)]
      ensures calls == old(calls) && resolved == old(resolved) && lastQueued == old(lastQueued) && base == old(base)
    {
      if !busy {
        return true;
      }
      Push(EndMark(lastQueued, promise));
      now := false;
    }

    /** Discards what was not taken yet; only the pending call can still complete. */
    method Destroy()
      requires Valid()
      modifies this
      ensures Valid() && queue == [] && jobs == old(jobs)[..old(taken)]
      ensures base == old(base) && lastQueued == old(lastQueued)
      ensures calls == old(calls) && resolved == old(resolved) && busy == old(busy) && current == old(current)
    {
      queue := [];
      jobs := jobs[..taken];
      SameSoFar(old(jobs), jobs, taken, base);
      SameSoFar(old(jobs), jobs, Done(), base);
    }
  }

  // ---------------------------------------------------------------- what the invariant means

  /** The jobs are exactly the entries of the log after the reset point, in order. */
  ghost predicate InOrder(jobs: seq<Job>, base: nat, log: seq<Entry>) {
    && base + |jobs| <= |log|
    && forall k :: 0 <= k < |jobs| ==> jobs[k].entry == Some(log[base + k])
  }

  lemma NothingMissing(jobs: seq<Job>, base: nat, log: seq<Entry>, taken: nat)
    requires InOrder(jobs, base, log) && taken <= |jobs|
    ensures taken < |jobs| ==> jobs[taken].entry.Some?
    ensures forall k :: 0 <= k < |jobs[taken..]| ==> jobs[taken..][k].entry == Some(log[base + taken + k])
  {
  }

  /** And they reach up to the last entry queued. */
  ghost predicate HandedInOrder(h: Handing, base: nat, lastQueued: nat, log: seq<Entry>) {
    InOrder(h.jobs, base, log) && lastQueued == base + |h.jobs|
  }

  /** The commands of the log past index from, up to index to, in order. */
  function Commands(log: seq<Entry>, from: nat, to: nat): seq<Entry>
    requires to <= |log|
  {
    if to <= from then []
    else Commands(log, from, to - 1) + (if log[to - 1].value != Noop then [log[to - 1]] else [])
  }

  /** Then the calls made for the first k of them are exactly the commands of that part of the log, in order. */
  lemma {:induction false} CallsAreCommands(jobs: seq<Job>, base: nat, log: seq<Entry>, k: nat)
    requires InOrder(jobs, base, log) && k <= |jobs|
    ensures Calls(jobs, k) == Commands(log, base, base + k)
  {
    if k > 0 {
      CallsAreCommands(jobs, base, log, k - 1);
    }
  }

  /** The same with the mark of finishing behind them. */
  lemma Closed(jobs: seq<Job>, base: nat, lastQueued: nat, log: seq<Entry>, taken: nat, promise: nat)
    requires jobs != [] && jobs[|jobs| - 1] == EndMark(lastQueued, promise) && taken <= |jobs|
    requires InOrder(jobs[..|jobs| - 1], base, log) && lastQueued == base + |jobs| - 1
    ensures Calls(jobs, taken) == Commands(log, base, if taken < |jobs| then base + taken else lastQueued)
    ensures taken < |jobs| ==> jobs[taken].entry.Some?
    ensures promise in Promises(jobs, |jobs|) && LastIndex(jobs, |jobs|, base) == lastQueued
  {
    var entries := jobs[..|jobs| - 1];
    var k := if taken < |jobs| then taken else |entries|;
    CallsAreCommands(entries, base, log, k);
    SameSoFar(entries, jobs, k, base);
    assert taken < |entries| ==> entries[taken] == jobs[taken];
  }

  /** A promise is resolved only once its own job and every earlier one are done. */
  lemma {:induction false} ResolvedInTurn(jobs: seq<Job>, done: nat, promise: nat)
    requires done <= |jobs| && promise in Promises(jobs, done)
    ensures exists k :: 0 <= k < done && jobs[k].promise == Some(promise)
  {
    if jobs[done - 1].promise != Some(promise) {
      ResolvedInTurn(jobs, done - 1, promise);
    }
  }

  /** Every promise of a finished job is resolved. */
  lemma {:induction false} AllResolved(jobs: seq<Job>, done: nat, k: nat)
    requires k < done <= |jobs| && jobs[k].promise.Some?
    ensures jobs[k].promise.value in Promises(jobs, done)
  {
    if k < done - 1 {
      AllResolved(jobs, done - 1, k);
    }
  }
}
