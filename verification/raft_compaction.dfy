/**
 * Log compaction: a snapshot index and term with the entries after it answer every question a node asks
 * of its log as the whole log would, from the snapshot on.
 */
module RaftCompaction {
  import opened RaftTypes
  import opened RaftNode

  ghost predicate Indexed(f: Log) {
    forall k :: 0 <= k < |f| ==> f[k].index == k + 1
  }

  /** The node holds the whole log `f`, compacted up to its snapshot index. */
  ghost predicate Represents(s: Node, f: Log) {
    && 0 <= s.snapIndex <= |f|
    && s.logs == f[s.snapIndex..]
    && s.snapTerm == TermOf(f, s.snapIndex)
    && Indexed(f)
  }

  /** The same node without compaction. */
  function Whole(s: Node, f: Log): Node {
    s.(logs := f, snapIndex := 0, snapTerm := 0)
  }

  lemma WholeRepresents(s: Node, f: Log)
    requires Indexed(f)
    ensures Represents(Whole(s, f), f)
  {
    assert f[0..] == f;
  }

  /** What the node reads is what is in the whole log. */
  lemma Reads(s: Node, f: Log)
    requires Represents(s, f)
    ensures LastLogIndex(s) == |f| && LastLogTerm(s) == TermOf(f, |f|)
    ensures forall k :: CanSlice(s, k) <==> s.snapIndex < k <= |f|
    ensures forall k :: s.snapIndex < k <= |f| ==> At(s, k) == f[k - 1]
    ensures forall k :: CanRead(s, k) <==> s.snapIndex <= k <= |f|
    ensures forall k :: s.snapIndex <= k <= |f| ==> LogTermAt(s, k) == TermOf(f, k)
  {
    if s.logs != [] {
      assert s.logs[|s.logs| - 1] == f[|f| - 1];
    }
  }

  /** Compaction is invisible to the reads that elections, matching and replication are made of. */
  lemma CompactionRefines(s: Node, f: Log)
    requires Represents(s, f) && |s.nextIndex| == s.peers
    ensures var u := Whole(s, f);
            && LastLogIndex(s) == LastLogIndex(u) && LastLogTerm(s) == LastLogTerm(u)
            && (forall i, t :: UpToDate(s, i, t) <==> UpToDate(u, i, t))
            && (forall k :: k >= s.snapIndex ==> (CanRead(s, k) <==> CanRead(u, k)))
            && (forall k :: s.snapIndex <= k && CanRead(u, k) ==> LogTermAt(s, k) == LogTermAt(u, k))
            && (forall i: nat :: i < s.peers && s.snapIndex < s.nextIndex[i] ==>
                  (CanCall(s, i) <==> CanCall(u, i)) && (CanCall(s, i) ==> CallFor(s, i) == CallFor(u, i)))
            && VoteRequest(s) == VoteRequest(u)
  {
    var u := Whole(s, f);
    WholeRepresents(s, f);
    Reads(s, f);
    Reads(u, f);
    forall i: nat | i < s.peers && s.snapIndex < s.nextIndex[i]
      ensures CanCall(s, i) <==> CanCall(u, i)
      ensures CanCall(s, i) ==> CallFor(s, i) == CallFor(u, i)
    {
      var prev := PrevIndex(s, i);
      if prev <= |f| {
        assert s.logs[prev - s.snapIndex..] == f[prev..];
      }
    }
  }

  /** Taking a snapshot changes no answer: the node still holds the same whole log. */
  lemma SnapshotKeeps(s: Node, f: Log, index: int)
    requires Represents(s, f) && s.commitIndex <= |f|
    ensures var w := TakeSnapshot(s, index);
            && w.halted == s.halted && Represents(w, f)
            && Whole(w, f) == Whole(s, f).(lastApplied := w.lastApplied)
            && w.lastApplied == (if s.snapIndex < index <= s.commitIndex then Max(s.lastApplied, index) else s.lastApplied)
            && w.snapIndex == (if s.snapIndex < index <= s.commitIndex then index else s.snapIndex)
  {
    Reads(s, f);
    if s.snapIndex < index <= s.commitIndex {
      assert s.logs[index - s.snapIndex..|f| - s.snapIndex] == f[index..];
    }
  }

  // Writing entries.

  /** Entries numbered from prev + 1 on. */
  ghost predicate Follows(es: Log, prev: int) {
    forall j :: 0 <= j < |es| ==> es[j].index == prev + 1 + j
  }

  /** Where the log and the entries have the same term they have the same command. */
  ghost predicate Consistent(f: Log, prev: int, es: Log) {
    forall j :: 0 <= j < |es| && 0 <= prev + j < |f| && f[prev + j].term == es[j].term ==> f[prev + j] == es[j]
  }

  lemma WriteEntryOverlays(s: Node, f: Log, prev: nat, e: Entry)
    requires Represents(s, f) && s.snapIndex <= prev <= |f| && e.index == prev + 1
    requires prev < |f| && f[prev].term == e.term ==> f[prev] == e
    ensures var w := WriteEntry(s, e); var g := Overlay(f, prev, [e]);
            w == s.(logs := g[s.snapIndex..]) && Represents(w, g)
  {
    Reads(s, f);
    var g := Overlay(f, prev, [e]);
    if prev == |f| {
      assert g == f + [e];
      assert g[s.snapIndex..] == s.logs + [e];
    } else {
      assert At(s, e.index) == f[prev];
      assert g == f[prev := e];
      assert g[s.snapIndex..] == s.logs[e.index - s.snapIndex - 1 := e];
      if f[prev].term == e.term { assert g == f; }
    }
  }

  lemma OverlayOneThenRest(f: Log, prev: nat, es: Log)
    requires prev <= |f| && es != []
    ensures Overlay(Overlay(f, prev, [es[0]]), prev + 1, es[1..]) == Overlay(f, prev, es)
  {
  }

  lemma RestConsistent(f: Log, prev: nat, es: Log)
    requires prev <= |f| && es != [] && Follows(es, prev) && Consistent(f, prev, es)
    ensures Follows(es[1..], prev + 1) && Consistent(Overlay(f, prev, [es[0]]), prev + 1, es[1..])
  {
    var g := Overlay(f, prev, [es[0]]);
    var rest := es[1..];
    forall j | 0 <= j < |rest| ensures rest[j].index == prev + 1 + 1 + j { assert rest[j] == es[j + 1]; }
    forall j | 0 <= j < |rest| && prev + 1 + j < |g| && g[prev + 1 + j].term == rest[j].term
      ensures g[prev + 1 + j] == rest[j]
    {
      assert rest[j] == es[j + 1] && g[prev + 1 + j] == f[prev + (j + 1)];
    }
  }

  /** The entry loop of AppendEntries lays the batch over the log, one entry after the other. */
  lemma {:induction false} WriteEntriesOverlays(s: Node, f: Log, prev: nat, es: Log)
    requires Represents(s, f) && s.snapIndex <= prev <= |f| && !s.halted
    requires Follows(es, prev) && Consistent(f, prev, es)
    ensures var w := WriteEntries(s, es); var g := Overlay(f, prev, es);
            w == s.(logs := g[s.snapIndex..]) && Represents(w, g)
    decreases |es|
  {
    if es == [] {
      assert Overlay(f, prev, es) == f;
    } else {
      WriteEntryOverlays(s, f, prev, es[0]);
      RestConsistent(f, prev, es);
      WriteEntriesOverlays(WriteEntry(s, es[0]), Overlay(f, prev, [es[0]]), prev + 1, es[1..]);
      OverlayOneThenRest(f, prev, es);
    }
  }

  /** `b` is the index right after the last one, before prev, with another term than prev; it is prev if
      the log has none from the snapshot on. */
  ghost predicate AfterMismatch(f: Log, snap: nat, prev: nat, b: int)
    requires snap <= prev <= |f|
  {
    || (b == prev && forall k :: snap <= k <= prev ==> TermOf(f, k) == TermOf(f, prev))
    || (snap < b <= prev && TermOf(f, b - 1) != TermOf(f, prev)
        && forall k :: b <= k <= prev ==> TermOf(f, k) == TermOf(f, prev))
  }

  /** Backtracking finds the index after the last mismatch. */
  lemma {:induction false} BacktrackBounds(s: Node, f: Log, prev: int, index: int)
    requires Represents(s, f) && s.snapIndex <= prev <= |f|
    requires s.snapIndex - 1 <= index <= prev
    ensures CanRead(s, prev)
    requires forall k :: index < k <= prev ==> TermOf(f, k) == TermOf(f, prev)
    ensures AfterMismatch(f, s.snapIndex, prev, Backtrack(s, prev, index))
    decreases index - s.snapIndex + 1
  {
    Reads(s, f);
    if s.snapIndex <= index && LogTermAt(s, index) == LogTermAt(s, prev) {
      BacktrackBounds(s, f, prev, index - 1);
    }
  }
}
