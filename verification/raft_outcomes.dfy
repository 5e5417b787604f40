/**
 * What the handlers of src/raftCore/raft.cpp do, told by the whole log of the node and its other fields: when each
 * of their branches is taken, what the node is afterwards, and what it answers.
 */
module RaftOutcomes {
  import opened RaftTypes
  import opened RaftNode
  import opened RaftCompaction
  import opened RaftHandlers

  // Elections.

  /** A log that ends in term `term` at index `index` is at least as up to date as f. */
  predicate AsUpToDate(f: Log, index: int, term: int) {
    TermOf(f, |f|) < term || (TermOf(f, |f|) == term && |f| <= index)
  }

  lemma ElectionExactly(s: Node, f: Log)
    requires Represents(s, f)
    ensures var t := StartElection(s);
            && (s.status == Leader ==> t == s)
            && (s.status != Leader ==>
                  && t == s.(status := Candidate, currentTerm := s.currentTerm + 1, votedFor := s.me)
                  && VoteRequest(t) == VoteArgs(s.currentTerm + 1, s.me, |f|, TermOf(f, |f|)))
  {
    Reads(s, f);
  }

  /** A vote is granted if and only if the request is of no older term, no other candidate has the vote of that
      term, and the candidate's log is at least as up to date as the voter's. */
  lemma VoteExactly(s: Node, f: Log, a: VoteArgs)
    requires Represents(s, f)
    ensures var r := HandleVote(s, a).reply;
            && (r.voteGranted <==>
                  && a.term >= s.currentTerm && AsUpToDate(f, a.lastLogIndex, a.lastLogTerm)
                  && (a.term == s.currentTerm ==> s.votedFor == -1 || s.votedFor == a.candidateId))
            && r.term == Max(s.currentTerm, a.term)
            && r.voteState == (if a.term < s.currentTerm then Expire else if r.voteGranted then Normal else Voted)
    ensures var ans, later := HandleVote(s, a), a.term > s.currentTerm;
            ans.node == s.(currentTerm := Max(s.currentTerm, a.term),
                           status := if later then Follower else s.status,
                           votedFor := if ans.reply.voteGranted then a.candidateId else if later then -1 else s.votedFor)
  {
    Reads(s, f);
    Reads(StepDown(s, a.term), f);
  }

  /** With a vote that completes more than half of the peers, counted from 1 for its own, a candidate leads, and
      expects every peer to continue right after its own log; nothing is known to match. */
  lemma VoteReplyExactly(s: Node, f: Log, r: VoteReply, count: int)
    requires Represents(s, f)
    ensures var c := HandleVoteReply(s, r, count);
            && (r.term > s.currentTerm ==>
                  c == Counted(s.(currentTerm := r.term, status := Follower, votedFor := -1), count))
            && (r.term < s.currentTerm || (r.term == s.currentTerm && !r.voteGranted) ==> c == Counted(s, count))
            && (r.term == s.currentTerm && r.voteGranted && 2 * (count + 1) <= s.peers ==> c == Counted(s, count + 1))
            && (r.term == s.currentTerm && r.voteGranted && 2 * (count + 1) > s.peers ==>
                  && c.count == 0
                  && (s.status == Leader ==> c.node == s.(halted := true))
                  && (s.status != Leader ==>
                        && c.node == s.(status := Leader, nextIndex := c.node.nextIndex, matchIndex := c.node.matchIndex)
                        && |c.node.nextIndex| == |s.nextIndex| && |c.node.matchIndex| == |s.matchIndex|
                        && (forall j :: 0 <= j < |s.nextIndex| ==> c.node.nextIndex[j] == |f| + 1)
                        && (forall j :: 0 <= j < |s.matchIndex| ==> c.node.matchIndex[j] == 0)))
  {
    Reads(s, f);
  }

  // AppendEntries.

  /** One entry of a batch. */
  lemma EntryExactly(s: Node, f: Log, e: Entry)
    requires Represents(s, f)
    ensures var w := WriteEntry(s, e);
            && (e.index > |f| ==> w == s.(logs := s.logs + [e]))
            && (e.index <= s.snapIndex ==> w == s.(halted := true))
            && (s.snapIndex < e.index <= |f| ==>
                  var mine := f[e.index - 1];
                  && (mine.term != e.term ==> w == s.(logs := f[e.index - 1 := e][s.snapIndex..]))
                  && (mine.term == e.term ==> w == s.(halted := s.halted || mine.command != e.command)))
  {
    Reads(s, f);
  }

  /** A batch of a leader's log: the node afterwards, field by field. */
  lemma AppendExactly(s: Node, f: Log, l: Log, a: AppendArgs)
    requires Represents(s, f) && s.snapIndex <= s.commitIndex <= |f| && !s.halted
    requires BatchOf(l, a) && SameEntries(f, l)
    ensures var t := HandleAppend(s, a).node; var prev, later := a.prevLogIndex, a.term > s.currentTerm;
            var takes := s.snapIndex <= prev <= |f| && TermOf(f, prev) == a.prevLogTerm;
            && (a.term < s.currentTerm ==> t == s)
            && (a.term >= s.currentTerm ==>
                  t == s.(currentTerm := a.term, status := Follower, votedFor := if later then -1 else s.votedFor,
                          logs := if takes then Overlay(f, prev, a.entries)[s.snapIndex..] else s.logs,
                          commitIndex := if takes then Max(s.commitIndex, a.leaderCommit) else s.commitIndex,
                          halted := prev < s.snapIndex))
  {
    hide BatchOf, SameEntries, HandleAppend;
    Reads(s, f);
    AppendOutcome(s, f, l, a);
    if Accepts(s, f, a) { AcceptOutcome(s, f, l, a); }
  }

  /** Any batch that is numbered from prevLogIndex on and disagrees with no command of its own term is accepted where the
      terms match, whatever the leader has committed: the commit index follows the leader's up to the end of the log. */
  lemma AcceptExactly(s: Node, f: Log, a: AppendArgs)
    requires Represents(s, f) && s.commitIndex <= |f| && !s.halted && a.term >= s.currentTerm
    requires s.snapIndex <= a.prevLogIndex <= |f| && TermOf(f, a.prevLogIndex) == a.prevLogTerm
    requires Follows(a.entries, a.prevLogIndex) && Consistent(f, a.prevLogIndex, a.entries)
    ensures var g, later := Overlay(f, a.prevLogIndex, a.entries), a.term > s.currentTerm;
            HandleAppend(s, a)
            == Answer(s.(currentTerm := a.term, status := Follower, votedFor := if later then -1 else s.votedFor,
                         logs := g[s.snapIndex..],
                         commitIndex := if a.leaderCommit > s.commitIndex then Min(a.leaderCommit, |g|) else s.commitIndex),
                      AppendReply(a.term, true, 0, AppNormal))
  {
    AcceptedExactly(Adopt(s, a.term), f, a);
    Reads(Adopt(s, a.term), f);
    hide Overlay, AcceptEntries, Represents, Consistent, Follows;
  }

  lemma AcceptedExactly(t: Node, f: Log, a: AppendArgs)
    requires Represents(t, f) && t.commitIndex <= |f| && !t.halted && t.snapIndex <= a.prevLogIndex <= |f|
    requires Follows(a.entries, a.prevLogIndex) && Consistent(f, a.prevLogIndex, a.entries)
    ensures var g := Overlay(f, a.prevLogIndex, a.entries);
            AcceptEntries(t, a)
            == Answer(t.(logs := g[t.snapIndex..],
                         commitIndex := if a.leaderCommit > t.commitIndex then Min(a.leaderCommit, |g|) else t.commitIndex),
                      AppendReply(t.currentTerm, true, 0, AppNormal))
  {
    var g := Overlay(f, a.prevLogIndex, a.entries);
    WriteEntriesOverlays(t, f, a.prevLogIndex, a.entries);
    Reads(t.(logs := g[t.snapIndex..]), g);
    LongerOverlay(f, a.prevLogIndex, a.entries);
    hide Overlay, WriteEntries, Consistent, Follows;
  }

  lemma LongerOverlay(f: Log, prev: nat, es: Log)
    requires prev <= |f|
    ensures |f| <= |Overlay(f, prev, es)| && prev + |es| <= |Overlay(f, prev, es)|
  {
  }

  /** The call that a heartbeat makes for a peer, or the assertion that fails. */
  lemma CallExactly(s: Node, f: Log, i: nat)
    requires Represents(s, f) && i < |s.nextIndex| && i != s.me
    ensures var next := s.nextIndex[i];
            && (CanCall(s, i) <==> 1 <= next && (next > s.snapIndex ==> next <= |f| + 1))
            && (CanCall(s, i) && next <= s.snapIndex ==> CallFor(s, i) == CallSnapshot)
            && (CanCall(s, i) && next > s.snapIndex ==>
                  CallFor(s, i) == CallAppend(AppendArgs(s.currentTerm, s.me, next - 1, TermOf(f, next - 1), f[next - 1..],
                                                         s.commitIndex)))
  {
    Reads(s, f);
    if s.snapIndex < s.nextIndex[i] <= |f| + 1 {
      var prev := s.nextIndex[i] - 1;
      assert s.logs[prev - s.snapIndex..] == f[prev..];
    }
  }

  /** A reply to a batch is taken by a leader of its term only. A refusal moves the cursor to where the follower says.
      A success moves match and cursor to the end of the batch, or leaves them ahead of it; the success that
      completes more than half of the peers commits up to there, if the batch ends with an entry of the leader's
      term. */
  lemma AppendReplyExactly(s: Node, f: Log, i: nat, a: AppendArgs, r: AppendReply, count: int)
    requires Represents(s, f) && i < |s.nextIndex| && i < |s.matchIndex| && !s.halted
    ensures var c := HandleAppendReply(s, i, a, r, count);
            var leads := r.appState == AppNormal && r.term == s.currentTerm && s.status == Leader;
            var reached := a.prevLogIndex + |a.entries|;
            var own := a.entries != [] && a.entries[|a.entries| - 1].term == s.currentTerm;
            var m := Max(s.matchIndex[i], reached);
            var moved := s.(matchIndex := s.matchIndex[i := m], nextIndex := s.nextIndex[i := m + 1]);
            var commit := if own then Max(s.commitIndex, reached) else s.commitIndex;
            && (r.appState == AppNormal && r.term > s.currentTerm ==>
                  c == Counted(s.(currentTerm := r.term, status := Follower, votedFor := -1), count))
            && (!leads && !(r.appState == AppNormal && r.term > s.currentTerm) ==> c == Counted(s, count))
            && (leads && !r.success ==>
                  c == Counted(s.(nextIndex := s.nextIndex[i := if r.updateNextIndex == -100 then s.nextIndex[i]
                                                                else r.updateNextIndex]), count))
            && (leads && r.success && m > |f| ==> c == Counted(moved.(halted := true), count + 1))
            && (leads && r.success && m <= |f| && 2 * (count + 1) <= s.peers ==> c == Counted(moved, count + 1))
            && (leads && r.success && m <= |f| && 2 * (count + 1) > s.peers ==>
                  c == Counted(moved.(commitIndex := commit, halted := commit > |f|), 0))
  {
    Reads(s, f);
    assert s.nextIndex[i := s.nextIndex[i]] == s.nextIndex;
  }

  // Snapshots.

  /** The request carries the node's term and the term of its whole log at its snapshot. */
  lemma RequestExactly(s: Node, f: Log)
    requires Represents(s, f)
    ensures 0 <= s.snapIndex <= |f| && SnapshotRequest(s) == SnapArgs(s.me, s.currentTerm, s.snapIndex, TermOf(f, s.snapIndex))
  {
    Reads(s, f);
  }

  /** A snapshot of the prefix c that reaches beyond the node's own replaces what it covers and keeps what lies beyond;
      any other of no older term only makes the node a follower. */
  lemma InstallExactly(s: Node, f: Log, c: Log, a: SnapArgs)
    requires Represents(s, f) && NumbersOk(s, |f|) && !s.halted
    requires Indexed(c) && a.lastIndex == |c| && a.lastTerm == TermOf(c, |c|)
    ensures var ans, later := HandleSnapshot(s, a), a.term > s.currentTerm;
            && (a.term < s.currentTerm ==> ans == Answer(s, SnapReply(s.currentTerm)))
            && (a.term >= s.currentTerm && |c| <= s.snapIndex ==>
                  ans == Answer(s.(currentTerm := a.term, status := Follower, votedFor := if later then -1 else s.votedFor),
                                SnapReply(0)))
            && (a.term >= s.currentTerm && |c| > s.snapIndex ==>
                  ans == Answer(s.(currentTerm := a.term, status := Follower, votedFor := if later then -1 else s.votedFor,
                                   logs := if |c| < |f| then f[|c|..] else [],
                                   commitIndex := Max(s.commitIndex, |c|), lastApplied := Max(s.lastApplied, |c|),
                                   snapIndex := |c|, snapTerm := TermOf(c, |c|)),
                                SnapReply(a.term)))
  {
    Reads(s, f);
    Reads(Adopt(s, a.term), f);
  }

  /** The reply to a snapshot: a leader still in the request's term takes the peer to match the snapshot. */
  lemma SnapshotReplyExactly(s: Node, i: nat, a: SnapArgs, r: SnapReply)
    requires i < |s.nextIndex| && i < |s.matchIndex|
    ensures var t := HandleSnapshotReply(s, i, a, r);
            var taken := s.status == Leader && s.currentTerm == a.term;
            && (!taken ==> t == s)
            && (taken && r.term > s.currentTerm ==> t == s.(currentTerm := r.term, status := Follower, votedFor := -1))
            && (taken && r.term <= s.currentTerm ==>
                  && t.matchIndex[..] == s.matchIndex[i := a.lastIndex] && t.nextIndex[..] == s.nextIndex[i := a.lastIndex + 1]
                  && t == s.(matchIndex := t.matchIndex, nextIndex := t.nextIndex))
  {
  }

  /** A snapshot is taken exactly of what is committed and not yet covered. */
  lemma CompactExactly(s: Node, f: Log, index: int)
    requires Represents(s, f) && s.commitIndex <= |f|
    ensures var takes := s.snapIndex < index <= s.commitIndex;
            TakeSnapshot(s, index)
            == if takes then s.(logs := f[index..], snapIndex := index, snapTerm := TermOf(f, index),
                                lastApplied := Max(s.lastApplied, index))
               else s
  {
    Reads(s, f);
    if s.snapIndex < index <= s.commitIndex {
      assert s.logs[index - s.snapIndex..|f| - s.snapIndex] == f[index..];
    }
  }

  // Commands.

  lemma StartExactly(s: Node, f: Log, c: Command)
    requires Represents(s, f)
    ensures StartCommand(s, c)
            == if s.status == Leader then s.(logs := s.logs + [Entry(c, s.currentTerm, |f| + 1)]) else s
  {
    Reads(s, f);
  }

  /** The assertions of getApplyLogs hold exactly if what is committed is in the log and not yet covered. */
  lemma ApplyExactly(s: Node, f: Log)
    requires Represents(s, f)
    ensures CanApply(s) <==> s.commitIndex <= |f| && (s.lastApplied < s.commitIndex ==> s.snapIndex <= s.lastApplied)
    ensures CanApply(s) ==> Applied(s) == s.(lastApplied := Max(s.lastApplied, s.commitIndex))
  {
    Reads(s, f);
    if s.lastApplied < s.commitIndex && CanApply(s) { assert CanSlice(s, s.lastApplied + 1); }
  }
}
