/** What a server persists: the stable storage of the fuzz harness. */
module Stable {
  import opened Entries

  /** The indexes that a replay of the stream would fill. */
  ghost predicate Indexes(indexes: set<nat>, length: nat) {
    forall i :: i in indexes <==> 1 <= i <= length
  }

  lemma {:induction false} GapFreeReplay(stream: seq<Entry>, entry: Entry)
    requires GapFree(stream + [entry])
    ensures GapFree(stream) && 1 <= entry.index <= |Replay(stream)| + 1
    ensures Replay(stream + [entry]) == Replay(stream)[..entry.index - 1] + [entry]
  {
    GapFreePrefix(stream, [entry]);
    ReplayLength(stream);
    var all := stream + [entry];
    assert all[|stream|] == entry && all[..|stream|] == stream;
    assert IndexBefore(all, |stream|) == IndexBefore(stream, |stream|);
    assert Replay(all) == Put(Replay(all[..|all| - 1]), all[|all| - 1]);
  }

  /** A stream may be extended by entries that continue a log no longer than what it replays to. */
  lemma {:induction false} GapFreeExtend(stream: seq<Entry>, batch: seq<Entry>, prev: nat)
    requires GapFree(stream) && prev <= |Replay(stream)|
    requires forall j :: 0 <= j < |batch| ==> batch[j].index == prev + 1 + j
    ensures GapFree(stream + batch)
  {
    ReplayLength(stream);
    forall k | 0 <= k < |stream + batch|
      ensures 1 <= (stream + batch)[k].index <= IndexBefore(stream + batch, k) + 1
    {
      if k <= |stream| {
        assert IndexBefore(stream + batch, k) == IndexBefore(stream, k);
      }
    }
  }

  /** One more entry of a batch. */
  lemma BatchStep(stream: seq<Entry>, batch: seq<Entry>, i: nat)
    requires GapFree(stream + batch) && i < |batch|
    ensures stream + batch[..i + 1] == stream + batch[..i] + [batch[i]]
    ensures GapFree(stream + batch[..i + 1])
  {
    assert stream + batch == (stream + batch[..i + 1]) + batch[i + 1..];
    GapFreePrefix(stream + batch[..i + 1], batch[i + 1..]);
  }

  lemma GapFreePrefix(a: seq<Entry>, b: seq<Entry>)
    requires GapFree(a + b)
    ensures GapFree(a)
  {
    forall k | 0 <= k < |a|
      ensures 1 <= a[k].index <= IndexBefore(a, k) + 1
    {
      assert (a + b)[k] == a[k];
      assert IndexBefore(a + b, k) == IndexBefore(a, k);
    }
  }

  /** Replaying one more entry of a stream. */
  lemma ReplayStep(stream: seq<Entry>, k: nat)
    requires GapFree(stream) && k < |stream|
    ensures 1 <= stream[k].index <= |Replay(stream[..k])| + 1
    ensures Replay(stream[..k + 1]) == Replay(stream[..k])[..stream[k].index - 1] + [stream[k]]
  {
    assert stream[..k + 1] == stream[..k] + [stream[k]] && stream == stream[..k + 1] + stream[k + 1..];
    GapFreePrefix(stream[..k + 1], stream[k + 1..]);
    GapFreeReplay(stream[..k], stream[k]);
  }

  /** One more entry is persisted, once its index and what follows it have stopped counting. */
  lemma PersistOne(stream: seq<Entry>, entry: Entry, indexes: set<nat>)
    requires GapFree(stream + [entry]) && 1 <= entry.index && Indexes(indexes, entry.index - 1)
    ensures |Replay(stream + [entry])| == entry.index && |stream + [entry]| == |stream| + 1
    ensures Indexes(indexes + {entry.index}, entry.index)
  {
    GapFreeReplay(stream, entry);
  }

  class ServerState {
    var entries: seq<Entry>
    var indexes: set<nat>
    var currentTerm: Option<nat>
    var votedFor: Option<nat>
    var lastApplied: nat
    var killed: bool

    /** How many persisted entries were overwritten so far. */
    ghost var overwritten: nat

    ghost predicate Valid()
      reads this
    {
      && GapFree(entries) && Indexes(indexes, |Replay(entries)|)
      && overwritten + |Replay(entries)| == |entries|
    }

    constructor ()
      ensures Valid() && entries == [] && currentTerm == None && lastApplied == 0 && !killed
    {
      entries, indexes, currentTerm, votedFor, lastApplied, killed := [], {}, None, None, 0, false;
      overwritten := 0;
    }

    /** The inner loop: an index and all that follow it without a gap stop counting. */
    method DeleteIndexes(fromIndex: nat, ghost length: nat) returns (removed: nat)
      requires Indexes(indexes, length) && 1 <= fromIndex <= length + 1
      modifies this`indexes
      ensures Indexes(indexes, fromIndex - 1) && removed == length + 1 - fromIndex
      ensures entries == old(entries) && overwritten == old(overwritten)
    {
      removed := 0;
      var ix := fromIndex;
      while ix in indexes
        invariant fromIndex <= ix <= length + 1 && removed == ix - fromIndex
        invariant forall j :: j in indexes <==> 1 <= j < fromIndex || ix <= j <= length
        decreases length + 1 - ix
      {
        indexes := indexes - {ix};
        removed := removed + 1;
        ix := ix + 1;
      }
    }

    /** One entry: what it overwrites stops counting before it is added. */
    method PersistEntry(entry: Entry) returns (removed: nat)
      requires Valid() && GapFree(entries + [entry])
      modifies this`entries, this`indexes, this`overwritten
      ensures Valid() && entries == old(entries) + [entry]
      ensures overwritten == old(overwritten) + removed
    {
      ghost var stream := entries;
      GapFreeReplay(stream, entry);
      removed := DeleteIndexes(entry.index, |Replay(stream)|);
      PersistOne(stream, entry, indexes);
      entries := entries + [entry];
      indexes := indexes + {entry.index};
      overwritten := overwritten + removed;
    }

    /** Every entry is kept in the stream; the count says how many entries a replay no longer yields. */
    method PersistEntries(batch: seq<Entry>) returns (overwrittenOrDeleted: nat)
      requires Valid() && GapFree(entries + batch)
      modifies this`entries, this`indexes, this`overwritten
      ensures Valid() && entries == old(entries) + batch
      ensures overwritten == old(overwritten) + overwrittenOrDeleted
    {
      overwrittenOrDeleted := 0;
      ghost var start := entries;
      assert start + batch[..0] == start;
      for i := 0 to |batch|
        invariant Valid() && entries == start + batch[..i]
        invariant overwritten == old(overwritten) + overwrittenOrDeleted
      {
        BatchStep(start, batch, i);
        var removed := PersistEntry(batch[i]);
        overwrittenOrDeleted := overwrittenOrDeleted + removed;
      }
      assert batch[..|batch|] == batch;
    }

    method PersistState(currentTerm: nat, votedFor: Option<nat>)
      modifies this`currentTerm, this`votedFor
      ensures this.currentTerm == Some(currentTerm) && this.votedFor == votedFor
    {
      this.currentTerm, this.votedFor := Some(currentTerm), votedFor;
    }

    method Kill()
      modifies this`killed
      ensures killed
    {
      killed := true;
    }

    /** Nothing is restored for a server that never persisted a term, whatever entries it persisted. */
    method Restart() returns (restored: bool, stream: seq<Entry>, applied: nat, term: nat, vote: Option<nat>)
      requires Valid()
      modifies this`killed
      ensures !killed && restored == currentTerm.Some?
      ensures restored ==> stream == entries && applied == lastApplied && Some(term) == currentTerm && vote == votedFor
      ensures !restored ==> stream == [] && applied == 0 && term == 0 && vote == None
    {
      killed := false;
      if currentTerm == None {
        return false, [], 0, 0, None;
      }
      return true, entries, lastApplied, currentTerm.value, votedFor;
    }
  }
}
