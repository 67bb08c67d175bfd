/** The log of a server: a map of entries with the index and term of the last one, kept as a sequence. */
module LogStore {
  import opened Entries
  import opened Stable
  import opened Applier

  /** The map holds exactly the indexes 1 to n, each entry at its own index. */
  ghost predicate Dense(m: map<nat, Entry>, n: nat) {
    && (forall i :: i in m <==> 1 <= i <= n)
    && (forall i :: i in m ==> m[i].index == i)
  }

  function ToSeq(m: map<nat, Entry>, n: nat): (log: seq<Entry>)
    requires Dense(m, n)
    ensures |log| == n && Indexed(log)
    ensures forall i :: 1 <= i <= n ==> log[i - 1] == m[i]
  {
    seq(n, i requires 0 <= i < n => m[i + 1])
  }

  lemma Extend(m: map<nat, Entry>, n: nat, entry: Entry)
    requires Dense(m, n) && entry.index == n + 1
    ensures Dense(m[entry.index := entry], n + 1)
    ensures ToSeq(m[entry.index := entry], n + 1) == ToSeq(m, n) + [entry]
  {
  }

  lemma CutShort(m: map<nat, Entry>, n: nat, m': map<nat, Entry>, k: nat)
    requires Dense(m, n) && Dense(m', k) && k <= n
    requires forall i :: 1 <= i <= k ==> m'[i] == m[i]
    ensures ToSeq(m', k) == ToSeq(m, n)[..k]
  {
  }

  /** The entry is in the log: there is one of the same term at its index. */
  predicate Has(log: seq<Entry>, entry: Entry) {
    1 <= entry.index <= |log| && log[entry.index - 1].term == entry.term
  }

  /** The entries that are not in the log yet, in order. */
  function Missing(log: seq<Entry>, entries: seq<Entry>): seq<Entry> {
    if entries == [] then []
    else
      var last := entries[|entries| - 1];
      Missing(log, entries[..|entries| - 1]) + (if Has(log, last) then [] else [last])
  }

  /** Entries past the end of the log are all missing: after the cut, nothing of a message is filtered out. */
  lemma {:induction false} AllMissing(log: seq<Entry>, entries: seq<Entry>)
    requires forall j :: 0 <= j < |entries| ==> entries[j].index > |log|
    ensures Missing(log, entries) == entries
  {
    if entries != [] {
      AllMissing(log, entries[..|entries| - 1]);
    }
  }

  /** What one commit comes to; its promise is lost when a stalled applier ends it early. */
  function HandUpTo(h: Handing, lastQueued: nat, log: seq<Entry>, index: nat, promise: Option<nat>): Handing
    requires 1 <= index <= |log|
  {
    var from, last := FirstHanded(lastQueued, index) - 1, LastHanded(h.phase, lastQueued, index);
    HandEntry(HandAll(h, log, from, last - 1), log[last - 1], if last == index then promise else None)
  }

  /** The entries from the first to the last but one without a promise, and the last one with it, unless that is not
      the one the commit asked for. */
  lemma LastHasPromise(h: Handing, lastQueued: nat, log: seq<Entry>, index: nat, promise: Option<nat>)
    requires 1 <= index <= |log|
    ensures
      var first := if lastQueued < index then lastQueued + 1 else index;
      var last := if h.phase == Stalled then first else index;
      HandUpTo(h, lastQueued, log, index, promise).jobs ==
        h.jobs + Silent(log[first - 1..last - 1])
        + [Job(Some(log[last - 1]), if last == index then promise else None)]
  {
    var first := if lastQueued < index then lastQueued + 1 else index;
    HandAllJobs(h, log, first - 1, (if h.phase == Stalled then first else index) - 1);
  }

  /** Committing past everything queued hands over exactly the next entries. */
  lemma StaysInOrder(h: Handing, base: nat, lastQueued: nat, log: seq<Entry>, index: nat, promise: Option<nat>)
    requires HandedInOrder(h, base, lastQueued, log) && lastQueued < index <= |log| && h.phase != Stalled
    ensures HandedInOrder(HandUpTo(h, lastQueued, log, index, promise), base, index, log)
  {
    HandAllJobs(h, log, lastQueued, index - 1);
  }

  /** So does whatever happens to the log past lastQueued; the applier may go on, or fail, meanwhile. */
  lemma KeepsOrder(h: Handing, base: nat, lastQueued: nat, log: seq<Entry>, log': seq<Entry>)
    requires HandedInOrder(h, base, lastQueued, log) && lastQueued <= |log'| && log'[..lastQueued] == log[..lastQueued]
    ensures HandedInOrder(h, base, lastQueued, log')
  {
    forall k | 0 <= k < |h.jobs|
      ensures h.jobs[k].entry == Some(log'[base + k])
    {
      assert log'[..lastQueued][base + k] == log[..lastQueued][base + k];
    }
  }

  /** The loop of commit has thrown on its first entry. */
  lemma HandedOne(h: Handing, lastQueued: nat, log: seq<Entry>, index: nat, promise: Option<nat>)
    requires h.phase == Stalled && lastQueued + 1 < index <= |log|
    ensures HandAll(h, log, lastQueued, lastQueued + 1) == HandUpTo(h, lastQueued, log, index, promise)
  {
  }

  /** The loop, if it had anything to do, has run to its end, and the last entry remains. */
  lemma HandedRest(h: Handing, lastQueued: nat, log: seq<Entry>, index: nat, promise: Option<nat>)
    requires 1 <= index <= |log| && (h.phase == Stalled ==> lastQueued + 1 >= index)
    ensures
      var before := if lastQueued < index then HandAll(h, log, lastQueued, index - 1) else h;
      HandUpTo(h, lastQueued, log, index, promise) == HandEntry(before, log[index - 1], promise)
    ensures lastQueued < index && h.phase != Stalled ==> HandAll(h, log, lastQueued, index - 1).phase != Stalled
  {
  }

  lemma TakeOneMore(log: seq<Entry>, entries: seq<Entry>, j: nat)
    requires j < |entries|
    ensures log + entries[..j + 1] == log + entries[..j] + [entries[j]]
  {
  }

  class Log {
    var entries: map<nat, Entry>
    var lastIndex: nat
    var lastTerm: nat
    const applier: LogEntryApplier
    const disk: ServerState

    ghost predicate Valid()
      reads this
    {
      Dense(entries, lastIndex) && lastTerm == LastTerm(ToSeq(entries, lastIndex))
    }

    ghost function Contents(): (log: seq<Entry>)
      requires Valid()
      reads this
      ensures |log| == lastIndex && Indexed(log) && lastTerm == LastTerm(log)
    {
      ToSeq(entries, lastIndex)
    }

    /** A restart would reload at least this log. */
    ghost predicate Durable()
      requires Valid()
      reads this, disk
    {
      disk.Valid() && Contents() <= Replay(disk.entries)
    }

    /** The applier was handed exactly the entries from the last reset up to lastQueued, each once and in order. */
    ghost predicate InStep()
      requires Valid()
      reads this, applier
    {
      HandedInOrder(applier.Handed(), applier.base, applier.lastQueued, Contents())
    }

    /** Then what was applied or is being applied, and what is queued, are together the entries from the reset to
        lastQueued, and the callback was called for exactly the commands among the first of them. */
    lemma AppliedInOrder()
      requires Valid() && applier.Valid() && InStep()
      ensures
        var log, next := Contents(), applier.base + applier.taken;
        && applier.Phase() != Stalled && next + |applier.queue| == applier.lastQueued <= |log|
        && applier.calls == Commands(log, applier.base, next)
        && forall k :: 0 <= k < |applier.queue| ==> applier.queue[k].entry == Some(log[next + k])
    {
      applier.AppliedInOrder(Contents());
    }

    constructor (applier: LogEntryApplier, disk: ServerState)
      ensures Valid() && Contents() == [] && this.applier == applier && this.disk == disk
    {
      entries, lastIndex, lastTerm := map[], 0, 0;
      this.applier, this.disk := applier, disk;
    }

    /** Rebuilds the log from the persisted stream; refused while entries are being applied. */
    method Replace(stream: seq<Entry>, lastApplied: nat) returns (ok: bool)
      requires GapFree(stream) && applier.Valid()
      modifies this, applier
      ensures ok == !old(applier.busy) && applier.Valid()
      ensures ok ==> Valid() && Contents() == Replay(stream)
      ensures ok ==> applier.lastQueued == applier.base == lastApplied && applier.jobs == old(applier.queue)
      ensures ok && old(applier.queue) == [] && lastApplied <= |Replay(stream)| ==> InStep()
      ensures !ok ==> unchanged(this) && unchanged(applier)
    {
      ok := applier.Reset(lastApplied);
      if ok {
        Rebuild(stream);
      }
    }

    /** The loop over the stream. */
    method Rebuild(stream: seq<Entry>)
      requires GapFree(stream)
      modifies this
      ensures Valid() && Contents() == Replay(stream)
    {
      entries := map[];
      var lastIndex', lastTerm' := 0, 0;
      for k := 0 to |stream|
        invariant Dense(entries, lastIndex') && ToSeq(entries, lastIndex') == Replay(stream[..k])
        invariant lastTerm' == LastTerm(Replay(stream[..k]))
      {
        var entry := stream[k];
        ReplayStep(stream, k);
        PutEntry(entry, lastIndex');
        lastIndex', lastTerm' := entry.index, entry.term;
      }
      assert stream[..|stream|] == stream;
      this.lastIndex := lastIndex';
      this.lastTerm := lastTerm';
    }

    /** The body of both loops over entries: what conflicts is deleted before the entry is set. */
    method PutEntry(entry: Entry, ghost length: nat)
      requires Dense(entries, length) && 1 <= entry.index <= length + 1
      modifies this`entries
      ensures Dense(entries, entry.index)
      ensures ToSeq(entries, entry.index) == old(ToSeq(entries, length))[..entry.index - 1] + [entry]
    {
      ghost var before := entries;
      if entry.index in entries {
        DeleteConflictingEntries(entry.index, length);
      }
      CutShort(before, length, entries, entry.index - 1);
      Extend(entries, entry.index - 1, entry);
      entries := entries[entry.index := entry];
    }

    /** Deletes from here up to the first gap, which for a log without gaps is all the rest. */
    method DeleteConflictingEntries(fromIndex: nat, ghost length: nat)
      requires Dense(entries, length) && 1 <= fromIndex <= length + 1
      modifies this`entries
      ensures Dense(entries, fromIndex - 1)
      ensures forall i :: 1 <= i < fromIndex ==> entries[i] == old(entries)[i]
    {
      var ix := fromIndex;
      while ix in entries
        invariant fromIndex <= ix <= length + 1
        invariant forall i :: i in entries <==> 1 <= i < fromIndex || ix <= i <= length
        invariant forall i :: i in entries ==> entries[i] == old(entries)[i]
        decreases length + 1 - ix
      {
        entries := entries - {ix};
        ix := ix + 1;
      }
    }

    /** The term at this index; there is none, and the caller crashes, past the end of the log. */
    method GetTerm(index: nat) returns (term: Option<nat>)
      requires Valid()
      ensures term == if index <= lastIndex then Some(TermAt(Contents(), index)) else None
    {
      if index == 0 {
        return Some(0);
      }
      if index !in entries {
        return None;
      }
      return Some(entries[index].term);
    }

    method GetEntry(index: nat) returns (entry: Option<Entry>)
      requires Valid()
      ensures entry == if 1 <= index <= lastIndex then Some(Contents()[index - 1]) else None
    {
      return if index in entries then Some(entries[index]) else None;
    }

    method GetEntriesSince(index: nat) returns (since: seq<Entry>)
      requires Valid() && 1 <= index
      ensures since == if index <= lastIndex then Contents()[index - 1..] else []
    {
      since := [];
      var ix := index;
      while ix <= lastIndex
        invariant index <= ix && (index <= lastIndex + 1 ==> ix <= lastIndex + 1)
        invariant since == if index <= lastIndex then Contents()[index - 1..ix - 1] else []
      {
        since := since + [entries[ix]];
        ix := ix + 1;
      }
    }

    /** The entry is persisted before it becomes part of the log in memory. */
    method AppendValue(currentTerm: nat, value: Payload) returns (entry: Entry)
      requires Valid() && Durable()
      modifies this, disk`entries, disk`indexes, disk`overwritten
      ensures Valid() && Contents() == old(Contents()) + [entry]
      ensures entry == Entry(old(lastIndex) + 1, currentTerm, value)
      ensures disk.Valid() && disk.entries == old(disk.entries) + [entry] && Replay(disk.entries) == Contents()
      ensures old(InStep()) ==> InStep()
    {
      entry := Entry(lastIndex + 1, currentTerm, value);
      PersistLast(entry);
      assert Contents() == old(Contents()) && (old(InStep()) ==> InStep());
      SetLast(entry);
    }

    method PersistLast(entry: Entry)
      requires Valid() && Durable() && entry.index == lastIndex + 1
      modifies disk`entries, disk`indexes, disk`overwritten
      ensures disk.Valid() && disk.entries == old(disk.entries) + [entry]
      ensures Replay(disk.entries) == Contents() + [entry]
    {
      GapFreeExtend(disk.entries, [entry], lastIndex);
      AppendReplays(Contents(), disk.entries, entry);
      var _ := disk.PersistEntries([entry]);
    }

    /** The entry becomes the last one in memory. */
    method SetLast(entry: Entry)
      requires Valid() && entry.index == lastIndex + 1
      modifies this
      ensures Valid() && Contents() == old(Contents()) + [entry]
      ensures old(InStep()) ==> InStep()
    {
      ghost var log := Contents();
      Extend(entries, lastIndex, entry);
      lastIndex := entry.index;
      lastTerm := entry.term;
      entries := entries[entry.index := entry];
      if old(InStep()) {
        Follows(log);
      }
    }

    /** The part of the log that the applier was handed is still the same. */
    lemma Follows(log: seq<Entry>)
      requires Valid() && applier.lastQueued <= |log| && applier.lastQueued <= lastIndex
      requires Contents()[..applier.lastQueued] == log[..applier.lastQueued]
      ensures HandedInOrder(applier.Handed(), applier.base, applier.lastQueued, log) ==> InStep()
    {
      if HandedInOrder(applier.Handed(), applier.base, applier.lastQueued, log) {
        KeepsOrder(applier.Handed(), applier.base, applier.lastQueued, log, Contents());
      }
    }

    /** The filter of mergeEntries: entries that are already in the log do not need to be persisted again. */
    method NotInLog(newEntries: seq<Entry>) returns (missing: seq<Entry>)
      requires Valid()
      ensures missing == Missing(Contents(), newEntries)
    {
      missing := [];
      for j := 0 to |newEntries|
        invariant missing == Missing(Contents(), newEntries[..j])
      {
        var entry := newEntries[j];
        if entry.index !in entries || entries[entry.index].term != entry.term {
          missing := missing + [entry];
        }
        assert newEntries[..j + 1][..j] == newEntries[..j];
      }
      assert newEntries[..|newEntries|] == newEntries;
    }

    /** mergeEntries up to its first await: what the leader does not have is cut, and the entries that are
        not in the log remain to be persisted. */
    method BeginMerge(newEntries: seq<Entry>, prevLogIndex: nat, prevLogTerm: nat) returns (pending: seq<Entry>)
      requires Valid() && prevLogIndex <= lastIndex && prevLogTerm == TermAt(Contents(), prevLogIndex)
      modifies this
      ensures Valid() && Contents() == old(Contents())[..prevLogIndex]
      ensures pending == Missing(Contents(), newEntries)
      ensures old(InStep()) && applier.lastQueued <= prevLogIndex ==> InStep()
    {
      CutTo(prevLogIndex, prevLogTerm);
      pending := NotInLog(newEntries);
    }

    method CutTo(prevLogIndex: nat, prevLogTerm: nat)
      requires Valid() && prevLogIndex <= lastIndex && prevLogTerm == TermAt(Contents(), prevLogIndex)
      modifies this
      ensures Valid() && Contents() == old(Contents())[..prevLogIndex]
      ensures old(InStep()) && applier.lastQueued <= prevLogIndex ==> InStep()
    {
      if lastIndex > prevLogIndex {
        ghost var before, log := entries, Contents();
        DeleteConflictingEntries(prevLogIndex + 1, lastIndex);
        CutShort(before, lastIndex, entries, prevLogIndex);
        lastIndex := prevLogIndex;
        lastTerm := prevLogTerm;
        if old(InStep()) && applier.lastQueued <= prevLogIndex {
          Follows(log);
        }
      }
    }

    /** The rest of mergeEntries, once the pending entries are persisted. */
    method FinishMerge(pending: seq<Entry>)
      requires Valid() && Durable()
      requires forall j :: 0 <= j < |pending| ==> pending[j].index == lastIndex + 1 + j
      modifies this, disk`entries, disk`indexes, disk`overwritten
      ensures Valid() && Contents() == old(Contents()) + pending
      ensures Durable() && disk.entries == old(disk.entries) + pending
      ensures pending != [] ==> Contents() == Replay(disk.entries)
      ensures old(InStep()) ==> InStep()
    {
      if |pending| == 0 {
        assert disk.entries == disk.entries + pending;
        return;
      }
      PersistPending(pending);
      assert Contents() == old(Contents()) && (old(InStep()) ==> InStep());
      LandEntries(pending);
    }

    method PersistPending(pending: seq<Entry>)
      requires Valid() && Durable() && pending != []
      requires forall j :: 0 <= j < |pending| ==> pending[j].index == lastIndex + 1 + j
      modifies disk`entries, disk`indexes, disk`overwritten
      ensures disk.Valid() && disk.entries == old(disk.entries) + pending
      ensures Replay(disk.entries) == Contents() + pending
    {
      GapFreeExtend(disk.entries, pending, lastIndex);
      ReplayBatch(disk.entries, lastIndex, pending);
      assert Replay(disk.entries)[..lastIndex] == Contents();
      var _ := disk.PersistEntries(pending);
    }

    /** The loop that puts the persisted entries into the log. */
    method LandEntries(pending: seq<Entry>)
      requires Valid() && pending != []
      requires forall j :: 0 <= j < |pending| ==> pending[j].index == lastIndex + 1 + j
      modifies this
      ensures Valid() && Contents() == old(Contents()) + pending
      ensures old(InStep()) ==> InStep()
    {
      ghost var log := Contents();
      var last := PutAll(pending);
      lastIndex := last.index;
      lastTerm := last.term;
      if old(InStep()) {
        Follows(log);
      }
    }

    method PutAll(pending: seq<Entry>) returns (last: Entry)
      requires Valid() && pending != []
      requires forall j :: 0 <= j < |pending| ==> pending[j].index == lastIndex + 1 + j
      modifies this`entries
      ensures Dense(entries, lastIndex + |pending|)
      ensures ToSeq(entries, lastIndex + |pending|) == old(Contents()) + pending && last == pending[|pending| - 1]
    {
      ghost var log := Contents();
      last := pending[0];
      for j := 0 to |pending|
        invariant Dense(entries, lastIndex + j) && ToSeq(entries, lastIndex + j) == log + pending[..j]
        invariant j > 0 ==> last == pending[j - 1]
      {
        assert pending[j].index == lastIndex + j + 1 && (log + pending[..j])[..lastIndex + j] == log + pending[..j];
        PutEntry(pending[j], lastIndex + j);
        last := pending[j];
        TakeOneMore(log, pending, j);
      }
      assert pending[..|pending|] == pending;
    }

    /** Both parts without interruption: exactly the merge that the cluster's steps use. */
    method MergeEntries(newEntries: seq<Entry>, prevLogIndex: nat, prevLogTerm: nat)
      requires Valid() && Durable() && prevLogIndex <= lastIndex && prevLogTerm == TermAt(Contents(), prevLogIndex)
      requires forall j :: 0 <= j < |newEntries| ==> newEntries[j].index == prevLogIndex + 1 + j
      modifies this, disk`entries, disk`indexes, disk`overwritten
      ensures Valid() && Contents() == Merge(old(Contents()), prevLogIndex, newEntries)
      ensures Durable() && disk.entries == old(disk.entries) + newEntries
      ensures newEntries != [] ==> Contents() == Replay(disk.entries)
      ensures old(InStep()) && applier.lastQueued <= prevLogIndex ==> InStep()
    {
      var pending := BeginMerge(newEntries, prevLogIndex, prevLogTerm);
      AllMissing(Contents(), newEntries);
      FinishMerge(pending);
    }

    /** The loop of commit: the entries between the last queued one and index are handed over. A stalled applier
        throws on the first one. */
    method EnqueueBefore(index: nat) returns (threw: bool)
      requires Valid() && applier.Valid() && applier.lastQueued < index <= lastIndex
      modifies applier
      ensures applier.Valid() && applier.base == old(applier.base)
      ensures unchanged(this) && threw == (old(applier.Phase()) == Stalled && old(applier.lastQueued) + 1 < index)
      ensures applier.lastQueued == if threw then old(applier.lastQueued) + 1 else index - 1
      ensures applier.Handed() ==
              HandAll(old(applier.Handed()), Contents(), old(applier.lastQueued), applier.lastQueued)
    {
      ghost var before, from, log := applier.Handed(), applier.lastQueued, Contents();
      var prevIndex := applier.lastQueued + 1;
      threw := false;
      while prevIndex < index && !threw
        invariant applier.Valid() && applier.base == old(applier.base) && unchanged(this)
        invariant from < prevIndex <= index && applier.lastQueued == if threw then prevIndex else prevIndex - 1
        invariant applier.Handed() == HandAll(before, log, from, applier.lastQueued)
        invariant threw ==> before.phase == Stalled && prevIndex == from + 1 < index
        invariant before.phase == Stalled ==> prevIndex == from + 1
        decreases index - prevIndex, !threw
      {
        threw := EnqueueNext(prevIndex);
        if !threw {
          prevIndex := prevIndex + 1;
        }
      }
    }

    /** One entry of that loop. */
    method EnqueueNext(index: nat) returns (threw: bool)
      requires Valid() && applier.Valid() && 1 <= index <= lastIndex
      modifies applier
      ensures applier.Valid() && applier.base == old(applier.base) && applier.lastQueued == index
      ensures unchanged(this) && threw == (old(applier.Phase()) == Stalled)
      ensures applier.Handed() == HandEntry(old(applier.Handed()), Contents()[index - 1], None)
    {
      var entry := GetEntry(index);
      threw := applier.Enqueue(entry, None);
    }

    /** Hands every entry after the last queued one, up to index, to the applier; only the last one carries
        the promise. At index 0 that one is missing, and handing it over throws, as does handing the first one to
        a stalled applier. */
    method Commit(index: nat, promise: Option<nat>) returns (threw: bool)
      requires Valid() && applier.Valid() && index <= lastIndex
      modifies applier
      ensures applier.Valid() && applier.base == old(applier.base)
      ensures threw == (index == 0 || old(applier.Phase()) == Stalled)
      ensures applier.lastQueued == if index == 0 then old(applier.lastQueued)
                                    else LastHanded(old(applier.Phase()), old(applier.lastQueued), index)
      ensures applier.Handed() ==
              if index == 0 then HandMissing(old(applier.Handed()), promise)
              else HandUpTo(old(applier.Handed()), old(applier.lastQueued), Contents(), index, promise)
      ensures old(InStep()) && index > old(applier.lastQueued) ==> InStep() && !threw
    {
      if InStep() && index > applier.lastQueued {
        applier.AppliedInOrder(Contents());
        StaysInOrder(applier.Handed(), applier.base, applier.lastQueued, Contents(), index, promise);
      }
      threw := HandOver(index, promise);
    }

    method HandOver(index: nat, promise: Option<nat>) returns (threw: bool)
      requires Valid() && applier.Valid() && index <= lastIndex
      modifies applier
      ensures applier.Valid() && applier.base == old(applier.base) && unchanged(this)
      ensures threw == (index == 0 || old(applier.Phase()) == Stalled)
      ensures applier.lastQueued == if index == 0 then old(applier.lastQueued)
                                    else LastHanded(old(applier.Phase()), old(applier.lastQueued), index)
      ensures applier.Handed() ==
              if index == 0 then HandMissing(old(applier.Handed()), promise)
              else HandUpTo(old(applier.Handed()), old(applier.lastQueued), Contents(), index, promise)
    {
      ghost var before, queued, log := applier.Handed(), applier.lastQueued, Contents();
      if applier.lastQueued < index {
        threw := EnqueueBefore(index);
        if threw {
          HandedOne(before, queued, log, index, promise);
          return;
        }
      }
      if index > 0 {
        HandedRest(before, queued, log, index, promise);
      }
      var entry := GetEntry(index);
      threw := applier.Enqueue(entry, promise);
    }

    method CheckOutdated(term: nat, index: nat) returns (outdated: bool)
      requires Valid()
      ensures outdated == Outdated(Contents(), term, index)
    {
      if term < lastTerm {
        return true;
      }
      return term == lastTerm && index < lastIndex;
    }
  }
}
