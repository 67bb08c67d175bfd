/** The invariant checks of the fuzz harness: what exactly they detect, and that no run trips them. */
module Runner {
  import opened Entries
  import opened Cluster
  import opened Safety

  /** Log Matching as far as terms show it: below a common term all terms are common. */
  ghost predicate TermsMatch(a: seq<Entry>, b: seq<Entry>) {
    forall i, j :: 0 <= i < j < |a| && j < |b| && a[j].term == b[j].term ==> a[i].term == b[i].term
  }

  /** The logs in the order in which the check looks at them. */
  ghost predicate LongestFirst(logs: seq<seq<Entry>>) {
    forall k, l :: 0 <= k < l < |logs| ==> |logs[k]| >= |logs[l]|
  }

  function GetEntry(log: seq<Entry>, index: nat): Option<Entry> {
    if 1 <= index <= |log| then Some(log[index - 1]) else None
  }

  /** The highest index at which both logs have an entry of the same term, or 0. */
  method FindMatchIndex(log1: seq<Entry>, log2: seq<Entry>) returns (index: nat)
    ensures index <= |log1| && index <= |log2|
    ensures index > 0 ==> log1[index - 1].term == log2[index - 1].term
    ensures forall j :: index <= j < |log1| && j < |log2| ==> log1[j].term != log2[j].term
  {
    index := |log1|;
    while index > 0
      invariant index <= |log1|
      invariant forall j :: index <= j < |log1| && j < |log2| ==> log1[j].term != log2[j].term
    {
      var entry1, entry2 := GetEntry(log1, index), GetEntry(log2, index);
      if entry1.Some? && entry2.Some? && entry1.value.term == entry2.value.term {
        return;
      }
      index := index - 1;
    }
  }

  /** The index of the violation that is reported for one pair, or 0. It is enough to look below the highest
      match. */
  method ComparePair(log1: seq<Entry>, log2: seq<Entry>) returns (violation: nat)
    ensures violation == 0 <==> TermsMatch(log1, log2)
    ensures violation > 0 ==> violation <= |log1| && violation <= |log2|
                              && log1[violation - 1].term != log2[violation - 1].term
  {
    var index := FindMatchIndex(log1, log2);
    ghost var highest := index;
    while index > 0
      invariant index <= highest
      invariant forall j :: index <= j < highest ==> log1[j].term == log2[j].term
    {
      var entry1, entry2 := GetEntry(log1, index), GetEntry(log2, index);
      if (entry1.Some? && entry2.None?) || (entry1.None? && entry2.Some?) || entry1.value.term != entry2.value.term {
        assert log1[highest - 1].term == log2[highest - 1].term;
        return index;
      }
      index := index - 1;
    }
    violation := 0;
  }

  /** Throws if and only if two neighbours in the order violate Log Matching. */
  method VerifyLogMatching(logs: seq<seq<Entry>>) returns (throws: bool)
    ensures throws <==> exists k :: 0 <= k < |logs| - 1 && !TermsMatch(logs[k], logs[k + 1])
  {
    var nonEmptyLogs := logs;
    ghost var k := 0;
    while |nonEmptyLogs| > 1
      invariant k <= |logs| && nonEmptyLogs == logs[k..]
      invariant forall j :: 0 <= j < k && j < |logs| - 1 ==> TermsMatch(logs[j], logs[j + 1])
      decreases |nonEmptyLogs|
    {
      var log1 := nonEmptyLogs[0];
      nonEmptyLogs := nonEmptyLogs[1..];
      var log2 := nonEmptyLogs[0];
      var violation := ComparePair(log1, log2);
      if violation > 0 {
        assert !TermsMatch(logs[k], logs[k + 1]);
        return true;
      }
      k := k + 1;
    }
    throws := false;
  }

  // ---------------------------------------------------------------- no run trips the checks

  lemma MatchingTerms(a: seq<Entry>, b: seq<Entry>)
    requires LogsMatch(a, b)
    ensures TermsMatch(a, b)
  {
    forall i, j | 0 <= i < j < |a| && j < |b| && a[j].term == b[j].term
      ensures a[i].term == b[i].term
    {
      assert a[..j + 1][i] == b[..j + 1][i];
    }
  }

  lemma PrefixesMatch(a: seq<Entry>, b: seq<Entry>, a': seq<Entry>, b': seq<Entry>)
    requires TermsMatch(a, b) && a' <= a && b' <= b
    ensures TermsMatch(a', b')
  {
  }

  /** In every run, whatever logs of whatever servers are compared in whatever order, also of servers whose log is cut
      while the entries to come are still being persisted. */
  lemma LogCheckNeverThrows(n: nat, run: seq<Action>, ids: seq<nat>, logs: seq<seq<Entry>>, k: nat)
    requires 2 <= n && |ids| == |logs| && k < |logs| - 1
    requires forall j :: 0 <= j < |ids| ==> ids[j] < n && logs[j] <= Exec(n, run).servers[ids[j]].log
    ensures TermsMatch(logs[k], logs[k + 1])
  {
    var a, b := Exec(n, run).servers[ids[k]].log, Exec(n, run).servers[ids[k + 1]].log;
    assert run[..|run|] == run;
    assert LogAt(n, run, |run|, ids[k], a) && LogAt(n, run, |run|, ids[k + 1], b);
    AllLogsMatch(n, run, |run|, |run|, ids[k], ids[k + 1], a, b);
    MatchingTerms(a, b);
    PrefixesMatch(a, b, logs[k], logs[k + 1]);
  }

  /** What the harness has on record of a server: the term that it last persisted, and whether the last role it
      reported is that of a leader. */
  datatype Note = Note(term: Option<nat>, leads: bool)

  /** The servers, other than this one, that are on record as leaders of the term. */
  function OtherLeaders(notes: seq<Note>, id: nat, term: nat): (others: set<nat>) {
    set v: nat | v < |notes| && v != id && notes[v].leads && notes[v].term == Some(term)
  }

  /** The record may lag, as long as its role and its term are of the same moment. */
  ghost predicate Noted(n: nat, run: seq<Action>, v: nat, note: Note)
    requires v < n
  {
    note.leads ==>
      exists q :: 0 <= q <= |run| && At(n, run, q, v).role.Leader? && note.term == Some(At(n, run, q, v).term)
  }

  /** The election check never throws for a server that has come to lead a term, however late it is made. */
  lemma ElectionCheckNeverThrows(n: nat, run: seq<Action>, p: nat, id: nat, notes: seq<Note>)
    requires 2 <= n && id < n && p <= |run| && At(n, run, p, id).role.Leader?
    requires |notes| == n && forall v :: 0 <= v < n ==> Noted(n, run, v, notes[v])
    ensures OtherLeaders(notes, id, At(n, run, p, id).term) == {}
  {
    forall v: nat | v < n && v != id && notes[v].leads
      ensures notes[v].term != Some(At(n, run, p, id).term)
    {
      var q :| 0 <= q <= |run| && At(n, run, q, v).role.Leader? && notes[v].term == Some(At(n, run, q, v).term);
      if At(n, run, q, v).term == At(n, run, p, id).term {
        OneLeaderPerTerm(n, run, q, p, v, id);
      }
    }
  }

  // ---------------------------------------------------------------- what the log check does not see

  const LONG := [Entry(1, 1, Noop), Entry(2, 2, Noop), Entry(3, 2, Noop)]
  const MIDDLE := [Entry(1, 3, Noop), Entry(2, 3, Noop)]
  const SHORT := [Entry(1, 2, Noop), Entry(2, 2, Noop)]

  /** Only neighbours are compared: two logs that violate Log Matching pass with a third one between them. */
  lemma NeighboursAreNotAllPairs()
    ensures LongestFirst([LONG, MIDDLE, SHORT])
    ensures TermsMatch(LONG, MIDDLE) && TermsMatch(MIDDLE, SHORT) && !TermsMatch(LONG, SHORT)
  {
    assert LONG[1].term == SHORT[1].term && LONG[0].term != SHORT[0].term;
  }
}
