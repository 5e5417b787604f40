/** Whole runs of a cluster from its start, and what holds along every one of them. */
module RaftRuns {
  import opened RaftTypes
  import opened RaftNode
  import opened RaftCompaction
  import opened RaftHandlers
  import opened RaftProtocol
  import opened RaftCluster
  import opened RaftInvariant
  import opened RaftSteps
  import opened RaftReplySteps

  /** A cluster of n nodes goes through the worlds of `run` by the actions of `acts`. */
  ghost predicate IsRun(n: nat, run: seq<World>, acts: seq<Action>) {
    && 2 <= n && |run| == |acts| + 1 && run[0] == Init(n)
    && forall k :: 0 <= k < |acts| ==>
         Ready(run[k]) && Enabled(run[k].sys, acts[k]) && run[k + 1] == Step(run[k], acts[k])
  }

  lemma InitOk(n: nat)
    requires 2 <= n
    ensures Inv(Init(n)) && |Init(n).sys.nodes| == n
  {
    var w := Init(n);
    forall i | 0 <= i < n ensures NodeOk(w.sys.nodes[i], i, n, w.hist.proto.members[i], w.hist.proto.led) {
      assert w.sys.nodes[i] == InitNode(i, n) && w.hist.proto.members[i] == InitMember();
    }
  }

  /** Any step from a sound world leads to a sound world that remembers all that happened. A node ends only
      by an AppendEntries whose batch starts before its snapshot. */
  lemma StepKeeps(w: World, a: Action)
    requires Inv(w) && Ready(w) && Enabled(w.sys, a)
    ensures Inv(Step(w, a)) && HistoryGrows(w.hist, Step(w, a).hist)
    ensures |Step(w, a).sys.nodes| == |w.sys.nodes|
    ensures !a.Lose? ==>
              (Step(w, a).sys.nodes[Actor(a)].halted <==>
                 a.DeliverAppend? && StrandedBy(w.sys.nodes[a.pk.to], a.pk.args))
  {
    hide Inv, HistoryGrows, HandleAppend, HandleVote, HandleVoteReply, HandleAppendReply, HandleSnapshot,
      HandleSnapshotReply, TakeSnapshot, StrandedBy;
    match a
    case Timeout(i) => TimeoutKeeps(w, i);
    case HeartBeat(i) => HeartBeatKeeps(w, i);
    case DeliverVote(pk) => DeliverVoteKeeps(w, pk);
    case ReturnVote(pk) => ReturnVoteKeeps(w, pk);
    case DeliverAppend(pk) => DeliverAppendKeeps(w, pk);
    case ReturnAppend(pk) => ReturnAppendKeeps(w, pk);
    case SendSnap(pk) => SendSnapKeeps(w, pk);
    case DeliverSnap(pk) => DeliverSnapKeeps(w, pk);
    case ReturnSnap(pk) => ReturnSnapKeeps(w, pk);
    case Lose(pk) => LoseKeeps(w, pk);
    case ClientStart(i, c) => StartKeeps(w, i, c);
    case ApplyTick(i) => ApplyKeeps(w, i);
    case Compact(i, index) => CompactKeeps(w, i, index);
  }

  lemma OthersUntouched(w: World, a: Action, j: nat)
    requires Ready(w) && Enabled(w.sys, a) && j < |w.sys.nodes| && j != Actor(a)
    ensures j < |Step(w, a).sys.nodes| && Step(w, a).sys.nodes[j] == w.sys.nodes[j]
  {
  }

  lemma {:induction false} RunOk(n: nat, run: seq<World>, acts: seq<Action>, k: nat)
    requires IsRun(n, run, acts) && k < |run|
    ensures Inv(run[k]) && Ready(run[k]) && |run[k].sys.nodes| == n
  {
    hide Inv, Ready, Enabled, Step, Init;
    assert 2 <= n;
    if k == 0 {
      InitOk(n);
    } else {
      RunOk(n, run, acts, k - 1);
      StepKeeps(run[k - 1], acts[k - 1]);
    }
    InvReady(run[k]);
  }

  lemma HistoryGrowsOn(f: History, g: History, h: History)
    requires HistoryGrows(f, g) && HistoryGrows(g, h)
    ensures HistoryGrows(f, h)
  {
    forall i | 0 <= i < |f.proto.members| ensures MemberGrows(f.proto.members[i], h.proto.members[i]) {
      assert MemberGrows(f.proto.members[i], g.proto.members[i]) && MemberGrows(g.proto.members[i], h.proto.members[i]);
    }
    forall r | 0 <= r < |f.rounds| ensures RoundGrows(f.rounds[r], h.rounds[r]) {
      assert RoundGrows(f.rounds[r], g.rounds[r]) && RoundGrows(g.rounds[r], h.rounds[r]);
    }
  }

  lemma StepGrows(n: nat, run: seq<World>, acts: seq<Action>, k: nat)
    requires IsRun(n, run, acts) && k < |acts|
    ensures HistoryGrows(run[k].hist, run[k + 1].hist)
  {
    RunOk(n, run, acts, k);
    StepKeeps(run[k], acts[k]);
  }

  lemma {:induction false} RunGrows(n: nat, run: seq<World>, acts: seq<Action>, a: nat, b: nat)
    requires IsRun(n, run, acts) && a <= b < |run|
    ensures HistoryGrows(run[a].hist, run[b].hist)
    decreases b
  {
    hide HistoryGrows, Step, Ready, Enabled, Inv, Init;
    if a == b {
      RunOk(n, run, acts, a);
      HistorySame(run[a]);
    } else {
      RunGrows(n, run, acts, a, b - 1);
      StepGrows(n, run, acts, b - 1);
      HistoryGrowsOn(run[a].hist, run[b - 1].hist, run[b].hist);
    }
  }

  lemma HistorySame(w: World)
    requires Inv(w)
    ensures HistoryGrows(w.hist, w.hist)
  {
  }

  // Elections.

  lemma LeaderIsLed(w: World, i: nat)
    requires Inv(w) && i < |w.sys.nodes| && w.sys.nodes[i].status == Leader
    ensures var t := w.sys.nodes[i].currentTerm; t in w.hist.proto.led && w.hist.proto.led[t].leader == i
  {
  }

  /** Election safety: over a whole run, no two nodes are ever Leader in the same term. */
  lemma ElectionSafety(n: nat, run: seq<World>, acts: seq<Action>, a: nat, b: nat, i: nat, j: nat)
    requires IsRun(n, run, acts) && a < |run| && b < |run|
    requires i < |run[a].sys.nodes| && run[a].sys.nodes[i].status == Leader
    requires j < |run[b].sys.nodes| && run[b].sys.nodes[j].status == Leader
    requires run[a].sys.nodes[i].currentTerm == run[b].sys.nodes[j].currentTerm
    ensures i == j
  {
    if b < a {
      ElectionSafety(n, run, acts, b, a, j, i);
    } else {
      RunOk(n, run, acts, a);
      RunOk(n, run, acts, b);
      LeaderIsLed(run[a], i);
      LeaderIsLed(run[b], j);
      RunGrows(n, run, acts, a, b);
    }
  }

  // Entries.

  /** The entry is in a node's log, in a batch under way, or in a batch whose answer is under way. */
  ghost predicate Carries(sys: System, e: Entry) {
    || (exists i :: 0 <= i < |sys.nodes| && e in sys.nodes[i].logs)
    || (exists pk :: pk in sys.net && (pk.AppendCall? || pk.AppendReturn?) && e in pk.args.entries)
  }

  /** The entry sits in the log that the leader of its term led, at the index it carries. */
  predicate IsLed(led: Terms, e: Entry) {
    e.term in led && 1 <= e.index <= |led[e.term].log| && led[e.term].log[e.index - 1] == e
  }

  lemma LogEntryLed(s: Node, n: nat, m: Member, led: Terms, e: Entry)
    requires Represents(s, m.log) && MemberOk(m, n, led) && e in s.logs
    ensures IsLed(led, e)
  {
    var k :| 0 <= k < |s.logs| && s.logs[k] == e;
    assert m.log[s.snapIndex + k] == e;
  }

  lemma KnownLed(led: Terms, l: Log, t: int, k: nat)
    requires Known(led, l, t) && k < |l|
    ensures IsLed(led, l[k])
  {
  }

  lemma BatchEntryLed(led: Terms, l: Log, t: int, lo: nat, hi: nat, e: Entry)
    requires Known(led, l, t) && lo <= hi <= |l| && e in l[lo..hi]
    ensures IsLed(led, e)
  {
    var k :| lo <= k < hi && l[k] == e;
    KnownLed(led, l, t, k);
  }

  lemma PacketEntryLed(h: History, pk: Packet, e: Entry)
    requires Sound(h.proto) && PacketOk(h, pk) && (pk.AppendCall? || pk.AppendReturn?) && e in pk.args.entries
    ensures IsLed(h.proto.led, e)
  {
    hide Known, IsLed, Sound, Indexed, AppendReplyOk, TermOf;
    var a := pk.args;
    assert AppendArgsOk(h, pk.round, pk.from, a);
    CallIsBatch(h, pk.round, pk.from, a);
    BatchEntryLed(h.proto.led, h.proto.led[a.term].log, a.term, a.prevLogIndex, a.prevLogIndex + |a.entries|, e);
  }

  lemma CarriedIsLed(w: World, e: Entry)
    requires Inv(w) && Carries(w.sys, e)
    ensures IsLed(w.hist.proto.led, e)
  {
    hide MemberOk, PacketOk, ElectionsOk, RoundsOk, Distinct, Uncounted, IsLed;
    if i :| 0 <= i < |w.sys.nodes| && e in w.sys.nodes[i].logs {
      LogEntryLed(w.sys.nodes[i], |w.sys.nodes|, w.hist.proto.members[i], w.hist.proto.led, e);
    } else {
      var pk :| pk in w.sys.net && (pk.AppendCall? || pk.AppendReturn?) && e in pk.args.entries;
      PacketEntryLed(w.hist, pk, e);
    }
  }

  lemma LedOnce(a: History, b: History, d: Entry, e: Entry)
    requires HistoryGrows(a, b) && IsLed(a.proto.led, d) && IsLed(b.proto.led, e)
    requires d.index == e.index && d.term == e.term
    ensures d == e
  {
  }

  /** Entry identity: wherever and whenever two entries of one index and one term are seen in a run, they
      are the same entry. The assertion on mismatching commands can never fail. */
  lemma EntryIdentity(n: nat, run: seq<World>, acts: seq<Action>, a: nat, b: nat, d: Entry, e: Entry)
    requires IsRun(n, run, acts) && a < |run| && b < |run|
    requires Carries(run[a].sys, d) && Carries(run[b].sys, e) && d.index == e.index && d.term == e.term
    ensures d == e
  {
    hide IsRun, Carries, Inv, Ready, IsLed, HistoryGrows;
    RunOk(n, run, acts, a);
    RunOk(n, run, acts, b);
    CarriedIsLed(run[a], d);
    CarriedIsLed(run[b], e);
    if a <= b {
      RunGrows(n, run, acts, a, b);
      LedOnce(run[a].hist, run[b].hist, d, e);
    } else {
      RunGrows(n, run, acts, b, a);
      LedOnce(run[b].hist, run[a].hist, e, d);
    }
  }

  // Assertions.

  /** No assertion of the Raft node fails in any run, except that of matchLog, which fails exactly when a
      batch that starts before the receiver's snapshot reaches it in its term or before. */
  lemma OnlyStrandedHalts(n: nat, run: seq<World>, acts: seq<Action>, k: nat, i: nat)
    requires IsRun(n, run, acts) && k < |acts| && i < n
    ensures i < |run[k].sys.nodes| && i < |run[k + 1].sys.nodes|
    ensures !run[k].sys.nodes[i].halted ==>
              (run[k + 1].sys.nodes[i].halted <==>
                 acts[k].DeliverAppend? && acts[k].pk.AppendCall? && acts[k].pk.to == i
                 && StrandedBy(run[k].sys.nodes[i], acts[k].pk.args))
  {
    hide Inv, StrandedBy, HandleAppend, HandleVote, HandleVoteReply, HandleAppendReply, HandleSnapshot,
      HandleSnapshotReply;
    RunOk(n, run, acts, k);
    RunOk(n, run, acts, k + 1);
    StepKeeps(run[k], acts[k]);
    if i != Actor(acts[k]) { OthersUntouched(run[k], acts[k], i); }
  }

  // Numbers.

  /** The indices of a node are in order, and each entry sits at the index it carries. */
  ghost predicate Ordered(s: Node) {
    && 0 <= s.snapIndex <= s.lastApplied <= s.commitIndex <= LastLogIndex(s)
    && forall j :: 0 <= j < |s.logs| ==> s.logs[j].index == s.snapIndex + 1 + j
  }

  ghost predicate Later(s: Node, t: Node) {
    && s.currentTerm <= t.currentTerm && s.snapIndex <= t.snapIndex
    && s.lastApplied <= t.lastApplied && s.commitIndex <= t.commitIndex
  }

  lemma NodeOrdered(n: nat, run: seq<World>, acts: seq<Action>, k: nat, i: nat)
    requires IsRun(n, run, acts) && k < |run| && i < n
    ensures i < |run[k].sys.nodes| && Ordered(run[k].sys.nodes[i])
  {
    RunOk(n, run, acts, k);
    Reads(run[k].sys.nodes[i], run[k].hist.proto.members[i].log);
  }

  lemma AppendLaterAt(s: Node, f: Log, l: Log, a: AppendArgs)
    requires Represents(s, f) && s.snapIndex <= s.commitIndex <= |f| && !s.halted
    requires BatchOf(l, a) && SameEntries(f, l)
    ensures Later(s, HandleAppend(s, a).node)
  {
    hide HandleAppend, BatchOf, SameEntries;
    AppendOutcome(s, f, l, a);
    if Accepts(s, f, a) { AcceptOutcome(s, f, l, a); }
  }

  lemma AppendLater(w: World, pk: Packet)
    requires Inv(w) && Ready(w) && pk in w.sys.net && pk.AppendCall? && pk.to < |w.sys.nodes|
    requires !w.sys.nodes[pk.to].halted
    ensures Later(w.sys.nodes[pk.to], HandleAppend(w.sys.nodes[pk.to], pk.args).node)
  {
    var s, m := w.sys.nodes[pk.to], w.hist.proto.members[pk.to];
    assert PacketOk(w.hist, pk) && MemberOk(m, |w.sys.nodes|, w.hist.proto.led);
    hide HandleAppend;
    CallIsBatch(w.hist, pk.round, pk.from, pk.args);
    var l := w.hist.proto.led[pk.args.term].log;
    KnownSame(w.hist.proto.led, m.log, m.term, l, pk.args.term);
    AppendLaterAt(s, m.log, l, pk.args);
  }

  lemma VoteLater(s: Node, a: VoteArgs)
    ensures Later(s, HandleVote(s, a).node)
  {
  }

  lemma VoteReplyLater(s: Node, r: VoteReply, count: int)
    ensures Later(s, HandleVoteReply(s, r, count).node)
  {
  }

  lemma AppendReplyLater(s: Node, to: nat, a: AppendArgs, r: AppendReply, count: int)
    requires to < |s.nextIndex| && to < |s.matchIndex|
    ensures Later(s, HandleAppendReply(s, to, a, r, count).node)
  {
  }

  lemma SnapshotLater(s: Node, a: SnapArgs)
    ensures Later(s, HandleSnapshot(s, a).node)
  {
  }

  lemma SnapshotReplyLater(s: Node, to: nat, a: SnapArgs, r: SnapReply)
    requires to < |s.nextIndex| && to < |s.matchIndex|
    ensures Later(s, HandleSnapshotReply(s, to, a, r))
  {
  }

  lemma StepLater(w: World, a: Action)
    requires Inv(w) && Ready(w) && Enabled(w.sys, a)
    ensures Later(w.sys.nodes[Actor(a)], Step(w, a).sys.nodes[Actor(a)])
  {
    hide Inv, Later, HandleVote, HandleVoteReply, HandleAppend, HandleAppendReply, HandleSnapshot, HandleSnapshotReply;
    match a
    case DeliverAppend(pk) => AppendLater(w, pk);
    case DeliverVote(pk) => VoteLater(w.sys.nodes[pk.to], pk.vargs);
    case ReturnVote(pk) =>
      VoteReplyLater(w.sys.nodes[pk.from], pk.vreply, VoteCount(w.sys, pk.from, pk.vargs.term));
    case ReturnAppend(pk) =>
      AppendReplyLater(w.sys.nodes[pk.from], pk.to, pk.args, pk.reply, w.sys.rounds[pk.round]);
    case DeliverSnap(pk) => SnapshotLater(w.sys.nodes[pk.to], pk.sargs);
    case ReturnSnap(pk) => SnapshotReplyLater(w.sys.nodes[pk.from], pk.to, pk.sargs, pk.sreply);
    case _ => LocalLater(w, a);
  }

  /** The steps that handle no call and no reply. */
  lemma LocalLater(w: World, a: Action)
    requires Ready(w) && Enabled(w.sys, a)
    requires a.Timeout? || a.HeartBeat? || a.SendSnap? || a.Lose? || a.ClientStart? || a.ApplyTick? || a.Compact?
    ensures Later(w.sys.nodes[Actor(a)], Step(w, a).sys.nodes[Actor(a)])
  {
  }

  /** The snapshot, applied and commit indices and the term of a node never decrease. */
  lemma {:induction false} NeverBack(n: nat, run: seq<World>, acts: seq<Action>, a: nat, b: nat, i: nat)
    requires IsRun(n, run, acts) && a <= b < |run| && i < n
    ensures i < |run[a].sys.nodes| && i < |run[b].sys.nodes|
    ensures Later(run[a].sys.nodes[i], run[b].sys.nodes[i])
    ensures LastLogIndex(run[a].sys.nodes[i]) <= LastLogIndex(run[b].sys.nodes[i])
    decreases b
  {
    hide HistoryGrows, Step, Ready, Enabled, Inv, Init, Later;
    RunOk(n, run, acts, a);
    if a == b {
      LaterSame(run[a].sys.nodes[i]);
    } else {
      RunOk(n, run, acts, b - 1);
      NeverBack(n, run, acts, a, b - 1, i);
      NodeLater(run[b - 1], acts[b - 1], i);
      LaterStill(run[a].sys.nodes[i], run[b - 1].sys.nodes[i], run[b].sys.nodes[i]);
    }
  }

  lemma LaterSame(s: Node)
    ensures Later(s, s)
  {
  }

  lemma LaterStill(s: Node, t: Node, u: Node)
    requires Later(s, t) && Later(t, u)
    ensures Later(s, u)
  {
  }

  lemma NodeLater(w: World, a: Action, i: nat)
    requires Inv(w) && Ready(w) && Enabled(w.sys, a) && i < |w.sys.nodes|
    ensures i < |Step(w, a).sys.nodes| && Later(w.sys.nodes[i], Step(w, a).sys.nodes[i])
    ensures LastLogIndex(w.sys.nodes[i]) <= LastLogIndex(Step(w, a).sys.nodes[i])
  {
    hide Step, Enabled;
    StepKeeps(w, a);
    LastGrows(w, Step(w, a), i);
    if i == Actor(a) {
      StepLater(w, a);
    } else {
      OthersUntouched(w, a, i);
      LaterSame(w.sys.nodes[i]);
    }
  }

  lemma LastGrows(w: World, v: World, i: nat)
    requires Inv(w) && Inv(v) && HistoryGrows(w.hist, v.hist) && i < |w.sys.nodes| == |v.sys.nodes|
    ensures LastLogIndex(w.sys.nodes[i]) <= LastLogIndex(v.sys.nodes[i])
  {
    Reads(w.sys.nodes[i], w.hist.proto.members[i].log);
    Reads(v.sys.nodes[i], v.hist.proto.members[i].log);
  }

  /** While a node leads, every cursor it keeps for a peer names an index from 1 to one past its last. */
  lemma CursorsLegal(n: nat, run: seq<World>, acts: seq<Action>, k: nat, i: nat, j: nat)
    requires IsRun(n, run, acts) && k < |run| && i < n && j < n
    ensures i < |run[k].sys.nodes| && j < |run[k].sys.nodes[i].nextIndex|
    ensures var s := run[k].sys.nodes[i];
            s.status == Leader ==> 1 <= s.nextIndex[j] <= LastLogIndex(s) + 1
  {
    RunOk(n, run, acts, k);
    Reads(run[k].sys.nodes[i], run[k].hist.proto.members[i].log);
  }

  /** A follower's commit index rises to no more than the end of the batch it accepted. */
  lemma FollowerCommit(n: nat, run: seq<World>, acts: seq<Action>, k: nat)
    requires IsRun(n, run, acts) && k < |acts| && acts[k].DeliverAppend?
    ensures var pk := acts[k].pk;
            && pk.AppendCall? && pk.to < |run[k].sys.nodes| && pk.to < |run[k + 1].sys.nodes|
            && var s, t := run[k].sys.nodes[pk.to], run[k + 1].sys.nodes[pk.to];
            t.commitIndex != s.commitIndex ==>
              s.commitIndex < t.commitIndex == pk.args.leaderCommit <= pk.args.prevLogIndex + |pk.args.entries|
  {
    var w, pk := run[k], acts[k].pk;
    RunOk(n, run, acts, k);
    var s, m := w.sys.nodes[pk.to], w.hist.proto.members[pk.to];
    assert PacketOk(w.hist, pk) && MemberOk(m, |w.sys.nodes|, w.hist.proto.led);
    CallIsBatch(w.hist, pk.round, pk.from, pk.args);
    KnownSame(w.hist.proto.led, m.log, m.term, w.hist.proto.led[pk.args.term].log, pk.args.term);
    CommitWithinBatch(s, m.log, w.hist.proto.led[pk.args.term].log, pk.args);
  }

  // Commits.

  /** A node is noted as holding a round's last entry only at an answer at which it held it. */
  ghost predicate HeldAt(run: seq<World>, acts: seq<Action>, r: nat, v: nat, last: int, t: int, k: nat) {
    exists j :: 0 <= j < k && j < |acts| && j + 1 < |run|
      && acts[j].DeliverAppend? && acts[j].pk.AppendCall? && acts[j].pk.round == r && acts[j].pk.to == v
      && v < |run[j + 1].sys.nodes| && Holds(run[j + 1].sys.nodes[v], last, t)
  }

  lemma {:induction false} HeldMeans(n: nat, run: seq<World>, acts: seq<Action>, k: nat, r: nat, v: nat)
    requires IsRun(n, run, acts) && k < |run| && r < |run[k].hist.rounds| && v in run[k].hist.rounds[r].held
    ensures HeldAt(run, acts, r, v, run[k].hist.rounds[r].last, run[k].hist.rounds[r].lastTerm, k)
  {
    if k > 0 {
      RunOk(n, run, acts, k - 1);
      var w, a := run[k - 1], acts[k - 1];
      StepKeeps(w, a);
      var rd := run[k].hist.rounds[r];
      if r < |w.hist.rounds| && v in w.hist.rounds[r].held {
        HeldMeans(n, run, acts, k - 1, r, v);
        assert RoundGrows(w.hist.rounds[r], rd);
        var j :| 0 <= j < k - 1 && j < |acts| && j + 1 < |run|
          && acts[j].DeliverAppend? && acts[j].pk.AppendCall? && acts[j].pk.round == r && acts[j].pk.to == v
          && v < |run[j + 1].sys.nodes| && Holds(run[j + 1].sys.nodes[v], rd.last, rd.lastTerm);
        assert HeldAt(run, acts, r, v, rd.last, rd.lastTerm, k);
      } else {
        NewlyHeld(w, a, r, v);
        assert run[k - 1 + 1] == run[k];
      }
    }
  }

  lemma NewlyHeld(w: World, a: Action, r: nat, v: nat)
    requires Ready(w) && Enabled(w.sys, a) && r < |Step(w, a).hist.rounds| && v in Step(w, a).hist.rounds[r].held
    requires !(r < |w.hist.rounds| && v in w.hist.rounds[r].held)
    ensures a.DeliverAppend? && a.pk.round == r && a.pk.to == v && v < |Step(w, a).sys.nodes|
    ensures Holds(Step(w, a).sys.nodes[v], Step(w, a).hist.rounds[r].last, Step(w, a).hist.rounds[r].lastTerm)
  {
  }

  lemma LeaderCommitsByReply(w: World, a: Action, i: nat)
    requires Ready(w) && Enabled(w.sys, a) && i == Actor(a)
    requires w.sys.nodes[i].status == Leader && Step(w, a).sys.nodes[i].status == Leader
    requires Step(w, a).sys.nodes[i].commitIndex != w.sys.nodes[i].commitIndex
    ensures a.ReturnAppend?
  {
    hide HandleAppend, HandleSnapshot, HandleVote, HandleVoteReply, HandleAppendReply, HandleSnapshotReply;
    match a
    case DeliverAppend(pk) => FollowersOnly(w.sys.nodes[i], pk.args);
    case DeliverSnap(pk) => SnapshotFollows(w.sys.nodes[i], pk.sargs);
    case DeliverVote(pk) => VoteCommitsNothing(w.sys.nodes[i], pk.vargs);
    case ReturnVote(pk) =>
      VoteReplyCommitsNothing(w.sys.nodes[i], pk.vreply, VoteCount(w.sys, pk.from, pk.vargs.term));
    case ReturnSnap(pk) => SnapshotReplyCommitsNothing(w.sys.nodes[i], pk.to, pk.sargs, pk.sreply);
    case _ => 
  }

  lemma SnapshotFollows(s: Node, a: SnapArgs)
    ensures var t := HandleSnapshot(s, a).node; t == s || t.status == Follower
  {
  }

  lemma VoteCommitsNothing(s: Node, a: VoteArgs)
    ensures HandleVote(s, a).node.commitIndex == s.commitIndex
  {
  }

  lemma VoteReplyCommitsNothing(s: Node, r: VoteReply, count: int)
    ensures HandleVoteReply(s, r, count).node.commitIndex == s.commitIndex
  {
  }

  lemma SnapshotReplyCommitsNothing(s: Node, to: nat, a: SnapArgs, r: SnapReply)
    requires to < |s.nextIndex| && to < |s.matchIndex|
    ensures HandleSnapshotReply(s, to, a, r).commitIndex == s.commitIndex
  {
  }

  lemma FollowersOnly(s: Node, a: AppendArgs)
    ensures var t := HandleAppend(s, a).node; t == s || t.status == Follower
  {
    var f := Adopt(s, a.term);
    WriteKeepsStatus(f, a.entries);
  }

  lemma {:induction false} WriteKeepsStatus(s: Node, es: Log)
    ensures WriteEntries(s, es).status == s.status
    decreases |es|
  {
    if es != [] && !s.halted { WriteKeepsStatus(WriteEntry(s, es[0]), es[1..]); }
  }

  /** Commit quorum: whenever a leader raises its commit index, to L say, a majority, itself included, held
      an entry of the leader's term at L, or had compacted it, when they answered in that round. */
  lemma CommitNeedsQuorum(n: nat, run: seq<World>, acts: seq<Action>, k: nat, i: nat) returns (r: nat, q: set<nat>)
    requires IsRun(n, run, acts) && k < |acts| && i < |run[k].sys.nodes| && i < |run[k + 1].sys.nodes|
    requires run[k].sys.nodes[i].status == Leader && run[k + 1].sys.nodes[i].status == Leader
    requires run[k + 1].sys.nodes[i].commitIndex != run[k].sys.nodes[i].commitIndex
    ensures var t := run[k + 1].sys.nodes[i];
            && Majority(n, q) && i in q
            && Holds(t, t.commitIndex, t.currentTerm)
            && (forall v :: v in q && v != i ==> HeldAt(run, acts, r, v, t.commitIndex, t.currentTerm, k + 1))
  {
    hide Inv, Ready, HeldAt, Holds;
    RunOk(n, run, acts, k);
    r, q := CommitHeld(run[k], acts[k], i);
    forall v | v in q && v != i
      ensures HeldAt(run, acts, r, v, run[k + 1].sys.nodes[i].commitIndex, run[k + 1].sys.nodes[i].currentTerm, k + 1)
    {
      HeldMeans(n, run, acts, k + 1, r, v);
    }
  }

  /** The step by which a leader commits, seen through the round that it closes. */
  lemma CommitHeld(w: World, a: Action, i: nat) returns (r: nat, q: set<nat>)
    requires Inv(w) && Ready(w) && Enabled(w.sys, a) && i < |w.sys.nodes| && i < |Step(w, a).sys.nodes|
    requires w.sys.nodes[i].status == Leader && Step(w, a).sys.nodes[i].status == Leader
    requires Step(w, a).sys.nodes[i].commitIndex != w.sys.nodes[i].commitIndex
    ensures var v, t := Step(w, a), Step(w, a).sys.nodes[i];
            && r < |v.hist.rounds| && t.commitIndex == v.hist.rounds[r].last && t.currentTerm == v.hist.rounds[r].lastTerm
            && Majority(|w.sys.nodes|, q) && i in q && q <= v.hist.rounds[r].held + {i}
            && Holds(t, t.commitIndex, t.currentTerm)
  {
    hide Inv, Ready, Enabled, Holds, HandleAppendReply;
    if i != Actor(a) { OthersUntouched(w, a, i); }
    LeaderCommitsByReply(w, a, i);
    CommitPacket(w, a);
    CommitQuorum(w, a.pk);
    r := a.pk.round;
    q := Step(w, a).hist.rounds[r].acked;
  }

  lemma CommitPacket(w: World, a: Action)
    requires Inv(w) && Ready(w) && Enabled(w.sys, a) && a.ReturnAppend?
    ensures a.pk in w.sys.net && a.pk.AppendReturn? && Actor(a) == a.pk.from < |w.sys.nodes|
    ensures a.pk.to < |w.sys.nodes| && a.pk.round < |w.sys.rounds| == |w.hist.rounds|
    ensures Step(w, a) == ReturnAppendStep(w, a.pk) && |Step(w, a).hist.rounds| == |w.hist.rounds|
  {
  }
}
