/** What the handlers do to a node that holds a whole log, given the calls that the cluster can carry. */
module RaftHandlers {
  import opened RaftTypes
  import opened RaftNode
  import opened RaftCompaction

  /** Entries of one term at one index are the same entry. */
  ghost predicate SameEntries(f: Log, l: Log) {
    forall k :: 0 <= k < |f| && k < |l| && f[k].term == l[k].term ==> f[k] == l[k]
  }

  /** The call carries the segment of `l` after its prevLogIndex, and commits nothing beyond it. */
  ghost predicate BatchOf(l: Log, a: AppendArgs) {
    && Indexed(l)
    && 0 <= a.prevLogIndex && a.prevLogIndex + |a.entries| <= |l|
    && a.entries == l[a.prevLogIndex..a.prevLogIndex + |a.entries|]
    && a.prevLogTerm == TermOf(l, a.prevLogIndex)
    && 0 <= a.leaderCommit <= a.prevLogIndex + |a.entries|
  }

  /** The call reaches a node that can compare its log with the batch, and the two match there. */
  predicate Accepts(s: Node, f: Log, a: AppendArgs)
    requires 0 <= s.snapIndex
  {
    && a.term >= s.currentTerm
    && s.snapIndex <= a.prevLogIndex <= |f|
    && TermOf(f, a.prevLogIndex) == a.prevLogTerm
  }

  /** The call reaches a node that compacted its log beyond the start of the batch. */
  predicate StrandedBy(s: Node, a: AppendArgs) {
    a.term >= s.currentTerm && a.prevLogIndex < s.snapIndex
  }

  function Accepted(s: Node, f: Log, a: AppendArgs): Node
    requires 0 <= s.snapIndex <= a.prevLogIndex <= |f|
  {
    Adopt(s, a.term).(logs := Overlay(f, a.prevLogIndex, a.entries)[s.snapIndex..],
                      commitIndex := Max(s.commitIndex, a.leaderCommit))
  }

  lemma BatchFits(f: Log, l: Log, a: AppendArgs)
    requires BatchOf(l, a) && SameEntries(f, l)
    ensures Follows(a.entries, a.prevLogIndex) && Consistent(f, a.prevLogIndex, a.entries)
  {
    forall j | 0 <= j < |a.entries| ensures a.entries[j] == l[a.prevLogIndex + j] {}
  }

  lemma AcceptEntriesOutcome(t: Node, f: Log, l: Log, a: AppendArgs)
    requires Represents(t, f) && t.snapIndex <= t.commitIndex <= |f| && !t.halted
    requires BatchOf(l, a) && SameEntries(f, l) && t.snapIndex <= a.prevLogIndex <= |f|
    ensures var g := Overlay(f, a.prevLogIndex, a.entries);
            var c := t.(logs := g[t.snapIndex..], commitIndex := Max(t.commitIndex, a.leaderCommit));
            AcceptEntries(t, a) == Answer(c, AppendReply(t.currentTerm, true, 0, AppNormal)) && Represents(c, g)
  {
    var g := Overlay(f, a.prevLogIndex, a.entries);
    BatchFits(f, l, a);
    WriteEntriesOverlays(t, f, a.prevLogIndex, a.entries);
    var w := t.(logs := g[t.snapIndex..]);
    assert WriteEntries(t, a.entries) == w;
    Reads(w, g);
    Reads(w.(commitIndex := Max(t.commitIndex, a.leaderCommit)), g);
  }

  lemma AcceptOutcome(s: Node, f: Log, l: Log, a: AppendArgs)
    requires Represents(s, f) && s.snapIndex <= s.commitIndex <= |f| && !s.halted
    requires BatchOf(l, a) && SameEntries(f, l) && Accepts(s, f, a)
    ensures HandleAppend(s, a)
         == Answer(Accepted(s, f, a), AppendReply(a.term, true, 0, AppNormal))
    ensures Represents(Accepted(s, f, a), Overlay(f, a.prevLogIndex, a.entries))
  {
    var t := Adopt(s, a.term);
    Reads(t, f);
    AcceptEntriesOutcome(t, f, l, a);
  }

  /** AppendEntries halts the node exactly if the node compacted its log beyond the start of the batch. */
  lemma AppendOutcome(s: Node, f: Log, l: Log, a: AppendArgs)
    requires Represents(s, f) && s.snapIndex <= s.commitIndex <= |f| && !s.halted
    requires BatchOf(l, a) && SameEntries(f, l)
    ensures var ans := HandleAppend(s, a);
            && (ans.node.halted <==> StrandedBy(s, a))
            && (!ans.node.halted ==>
                  && ans.reply.appState == AppNormal
                  && (ans.reply.success <==> Accepts(s, f, a))
                  && ans.reply.term == Max(s.currentTerm, a.term)
                  && (!ans.reply.success ==>
                        if ans.reply.updateNextIndex == NO_UPDATE then a.term < s.currentTerm
                        else
                          && a.term >= s.currentTerm && 1 <= ans.reply.updateNextIndex <= a.prevLogIndex
                          && (if a.prevLogIndex > |f| then ans.reply.updateNextIndex == |f| + 1
                              else AfterMismatch(f, s.snapIndex, a.prevLogIndex, ans.reply.updateNextIndex))))
            && (!Accepts(s, f, a) ==>
                  ans.node == (if a.term < s.currentTerm then s
                               else Adopt(s, a.term).(halted := StrandedBy(s, a))))
  {
    var t := Adopt(s, a.term);
    Reads(t, f);
    if Accepts(s, f, a) {
      AcceptOutcome(s, f, l, a);
    } else if a.term >= s.currentTerm && s.snapIndex <= a.prevLogIndex <= |f| {
      BacktrackBounds(t, f, a.prevLogIndex, a.prevLogIndex);
    }
  }

  /** Although the code bounds the new commit index by its own last index, which may lie in a tail the
      batch did not write, a success never commits beyond the batch. */
  lemma CommitWithinBatch(s: Node, f: Log, l: Log, a: AppendArgs)
    requires Represents(s, f) && s.snapIndex <= s.commitIndex <= |f| && !s.halted
    requires BatchOf(l, a) && SameEntries(f, l)
    ensures var ans := HandleAppend(s, a);
            && s.commitIndex <= ans.node.commitIndex
            && (ans.node.commitIndex != s.commitIndex ==>
                  ans.reply.success && ans.node.commitIndex == a.leaderCommit <= a.prevLogIndex + |a.entries|)
  {
    AppendOutcome(s, f, l, a);
    if Accepts(s, f, a) { AcceptOutcome(s, f, l, a); }
  }

  lemma TailIsBatch(f: Log, a: AppendArgs)
    requires Indexed(f) && 0 <= a.prevLogIndex <= |f| && a.entries == f[a.prevLogIndex..]
    requires a.prevLogTerm == TermOf(f, a.prevLogIndex) && 0 <= a.leaderCommit <= |f|
    ensures BatchOf(f, a)
  {
    assert f[a.prevLogIndex..|f|] == f[a.prevLogIndex..];
  }

  lemma CallReads(s: Node, f: Log, i: nat)
    requires Represents(s, f) && i < |s.nextIndex| && i != s.me && 1 <= s.nextIndex[i] <= |f| + 1
    ensures CanCall(s, i)
    ensures s.nextIndex[i] <= s.snapIndex ==> CallFor(s, i) == CallSnapshot
    ensures s.nextIndex[i] > s.snapIndex ==>
              && 0 <= PrevIndex(s, i) <= |f| && PrevIndex(s, i) - s.snapIndex <= |s.logs|
              && CallFor(s, i) == CallAppend(BatchAfter(s, PrevIndex(s, i), TermOf(f, PrevIndex(s, i))))
  {
    hide Represents, Indexed, CanSlice, LastLogIndex, At, TermOf, CanRead, UpToDate;
    RepresentedParts(s, f);
    ReadsAt(s, f, PrevIndex(s, i));
  }

  /** The tail of m_logs after index prev, as a batch. */
  function BatchAfter(s: Node, prev: int, term: int): AppendArgs
    requires 0 <= prev - s.snapIndex <= |s.logs|
  {
    AppendArgs(s.currentTerm, s.me, prev, term, s.logs[prev - s.snapIndex..], s.commitIndex)
  }

  lemma ReadsAt(s: Node, f: Log, k: int)
    requires Represents(s, f) && k <= |f|
    ensures LastLogIndex(s) == |f|
    ensures s.snapIndex < k ==> CanSlice(s, k) && At(s, k).term == TermOf(f, k)
  {
    Reads(s, f);
  }

  lemma RepresentedParts(s: Node, f: Log)
    requires Represents(s, f)
    ensures 0 <= s.snapIndex <= |f| && |s.logs| == |f| - s.snapIndex && s.snapTerm == TermOf(f, s.snapIndex)
    ensures Indexed(f)
  {
  }

  lemma RepresentedTail(s: Node, f: Log, k: nat)
    requires Represents(s, f) && s.snapIndex <= k <= |f|
    ensures k - s.snapIndex <= |s.logs| && s.logs[k - s.snapIndex..] == f[k..]
  {
  }

  /** A peer's call from a leader with legal cursors is the tail of the log after nextIndex - 1. */
  lemma CallOutcome(s: Node, f: Log, i: nat)
    requires Represents(s, f) && 0 <= s.commitIndex <= |f| && |s.nextIndex| == s.peers
    requires i < s.peers && i != s.me && 1 <= s.nextIndex[i] <= |f| + 1
    ensures CanCall(s, i)
    ensures s.nextIndex[i] <= s.snapIndex ==> CallFor(s, i) == CallSnapshot
    ensures s.nextIndex[i] > s.snapIndex ==>
              var prev := s.nextIndex[i] - 1;
              && CallFor(s, i) == CallAppend(
                   AppendArgs(s.currentTerm, s.me, prev, TermOf(f, prev), f[prev..], s.commitIndex))
              && BatchOf(f, CallFor(s, i).args)
  {
    hide Represents, CallFor, CanCall, BatchOf, TermOf, Indexed;
    CallReads(s, f, i);
    RepresentedParts(s, f);
    if s.nextIndex[i] > s.snapIndex {
      RepresentedTail(s, f, s.nextIndex[i] - 1);
      TailIsBatch(f, CallFor(s, i).args);
    }
  }

  function InstalledLog(f: Log, c: Log): Log {
    Overlay(f, 0, c)
  }

  lemma InstalledTail(f: Log, snap: nat, c: Log)
    requires Indexed(f) && Indexed(c) && snap < |c| && snap <= |f|
    ensures var g := InstalledLog(f, c);
            && Indexed(g) && |g| == Max(|f|, |c|) && TermOf(g, |c|) == TermOf(c, |c|)
            && g[|c|..] == if |f| > |c| then f[snap..][|c| - snap..] else []
  {
    var g := InstalledLog(f, c);
    if |f| > |c| {
      assert g == c + f[|c|..];
    } else {
      assert g == c;
    }
  }

  /** Installing the snapshot of a prefix `c` puts `c` under whatever of the log lies beyond it. */
  lemma SnapshotOutcome(s: Node, f: Log, c: Log, a: SnapArgs)
    requires Represents(s, f) && NumbersOk(s, |f|) && !s.halted
    requires Indexed(c) && a.lastIndex == |c| && a.lastTerm == TermOf(c, |c|)
    ensures var ans := HandleSnapshot(s, a); var g := InstalledLog(f, c);
            && !ans.node.halted
            && (Installs(s, a) <==> a.term >= s.currentTerm && s.snapIndex < |c|)
            && (Installs(s, a) ==>
                  && Represents(ans.node, g) && NumbersOk(ans.node, |g|)
                  && ans.node == Adopt(s, a.term).(logs := g[|c|..], snapIndex := |c|, snapTerm := a.lastTerm,
                       commitIndex := Max(s.commitIndex, |c|), lastApplied := Max(s.lastApplied, |c|)))
            && (!Installs(s, a) ==> ans.node == if a.term < s.currentTerm then s else Adopt(s, a.term))
            && ans.reply.term == (if a.term < s.currentTerm then s.currentTerm else if Installs(s, a) then a.term else 0)
  {
    Reads(Adopt(s, a.term), f);
    if s.snapIndex < |c| { InstalledTail(f, s.snapIndex, c); }
  }

  ghost predicate NumbersOk(s: Node, last: nat) {
    s.snapIndex <= s.lastApplied <= s.commitIndex <= last
  }
}
