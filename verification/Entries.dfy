/** Log entries, logs as sequences, and the persisted stream that a restart replays. */
module Entries {

  datatype Option<+T> = None | Some(value: T)

  /** What an entry carries: the no-op symbol, or a command for the state machine. */
  datatype Payload = Noop | Command(value: int)

  datatype Entry = Entry(index: nat, term: nat, value: Payload)

  /** Indexes start at 1 and every entry sits at its own index. */
  ghost predicate Indexed(log: seq<Entry>) {
    forall i :: 0 <= i < |log| ==> log[i].index == i + 1
  }

  /** Whether the applier has a call pending. It stalls when a missing entry is queued while it is idle: the
      next entry that is queued makes it take the missing one, which throws and leaves it busy for ever. */
  datatype Applying = Idle | Stalled | Busy

  /** A no-op that reaches an idle applier is done at once. */
  function AfterEntry(applying: Applying, entry: Entry): Applying {
    if applying == Idle && entry.value == Noop then Idle else Busy
  }

  function AfterMissing(applying: Applying): Applying {
    if applying == Idle then Stalled else applying
  }

  /** After the entries of the log past index from, up to index to. */
  function AfterAll(applying: Applying, log: seq<Entry>, from: nat, to: nat): Applying
    requires to <= |log|
  {
    if to <= from then applying else AfterEntry(AfterAll(applying, log, from, to - 1), log[to - 1])
  }

  /** The indexes of the first and the last entry that a commit up to index hands over: a stalled applier throws
      on the first one, which ends the commit. */
  function FirstHanded(lastQueued: nat, index: nat): (first: nat)
    requires index >= 1
    ensures 1 <= first <= index
  {
    if lastQueued < index then lastQueued + 1 else index
  }

  function LastHanded(applying: Applying, lastQueued: nat, index: nat): (last: nat)
    requires index >= 1
    ensures FirstHanded(lastQueued, index) <= last <= index
  {
    if applying == Stalled then FirstHanded(lastQueued, index) else index
  }

  function TermAt(log: seq<Entry>, index: nat): nat
    requires index <= |log|
  {
    if index == 0 then 0 else log[index - 1].term
  }

  function LastTerm(log: seq<Entry>): nat {
    TermAt(log, |log|)
  }

  /** The up-to-date check of section 5.4.1: the other log, given by its last term and index, is behind. */
  predicate Outdated(log: seq<Entry>, otherTerm: nat, otherIndex: nat) {
    otherTerm < LastTerm(log) || (otherTerm == LastTerm(log) && otherIndex < |log|)
  }

  /** What the code does to its log when it accepts entries after prev. */
  function Merge(log: seq<Entry>, prev: nat, entries: seq<Entry>): seq<Entry>
    requires prev <= |log|
  {
    log[..prev] + entries
  }

  /** The receiver rule of the Raft paper (Figure 2, AppendEntries steps 3 and 4): entries are
      deleted only when one of the new entries conflicts with them. */
  function PaperMerge(log: seq<Entry>, prev: nat, entries: seq<Entry>): seq<Entry>
    requires prev <= |log|
  {
    if prev + |entries| <= |log| && (forall j :: 0 <= j < |entries| ==> log[prev + j].term == entries[j].term)
    then log
    else log[..prev] + entries
  }

  /** Placing one entry: it replaces whatever was at its index and drops everything after. */
  function Put(log: seq<Entry>, entry: Entry): (r: seq<Entry>) {
    if 1 <= entry.index <= |log| + 1 then log[..entry.index - 1] + [entry] else log
  }

  /** The log a restart rebuilds from everything that was ever persisted, oldest first. */
  function Replay(stream: seq<Entry>): (r: seq<Entry>)
    ensures Indexed(r)
  {
    if stream == [] then [] else Put(Replay(stream[..|stream| - 1]), stream[|stream| - 1])
  }

  ghost function IndexBefore(stream: seq<Entry>, k: nat): nat
    requires k <= |stream|
  {
    if k == 0 then 0 else stream[k - 1].index
  }

  /** Each persisted entry overwrites or directly extends the log as it was when it was written. */
  ghost predicate GapFree(stream: seq<Entry>) {
    forall k :: 0 <= k < |stream| ==> 1 <= stream[k].index <= IndexBefore(stream, k) + 1
  }

  lemma {:induction false} ReplayLength(stream: seq<Entry>)
    requires GapFree(stream)
    ensures |Replay(stream)| == if stream == [] then 0 else stream[|stream| - 1].index
    ensures stream != [] ==> Replay(stream)[|Replay(stream)| - 1] == stream[|stream| - 1]
  {
    if stream != [] {
      var front := stream[..|stream| - 1];
      assert GapFree(front) by {
        forall k | 0 <= k < |front|
          ensures 1 <= front[k].index <= IndexBefore(front, k) + 1
        {
          assert IndexBefore(front, k) == IndexBefore(stream, k);
        }
      }
      ReplayLength(front);
    }
  }

  /** Replaying a stream that grew by one batch equals cutting the replayed log at the batch and appending it. */
  lemma {:induction false} ReplayBatch(stream: seq<Entry>, prev: nat, batch: seq<Entry>)
    requires prev <= |Replay(stream)|
    requires forall j :: 0 <= j < |batch| ==> batch[j].index == prev + 1 + j
    ensures batch != [] ==> Replay(stream + batch) == Merge(Replay(stream), prev, batch)
    ensures batch == [] ==> Replay(stream + batch) == Replay(stream)
  {
    if batch == [] {
      assert stream + batch == stream;
    } else {
      var front, last := batch[..|batch| - 1], batch[|batch| - 1];
      ReplayBatch(stream, prev, front);
      assert (stream + batch)[..|stream + batch| - 1] == stream + front;
      assert Put(Merge(Replay(stream), prev, front), last) == Merge(Replay(stream), prev, batch);
      if front == [] {
        assert stream + front == stream;
        assert Put(Replay(stream), last) == Merge(Replay(stream), prev, batch);
      }
    }
  }

  lemma AppendReplays(log: seq<Entry>, stream: seq<Entry>, entry: Entry)
    requires log <= Replay(stream) && entry.index == |log| + 1
    ensures Replay(stream + [entry]) == log + [entry]
  {
    ReplayBatch(stream, |log|, [entry]);
  }
}
