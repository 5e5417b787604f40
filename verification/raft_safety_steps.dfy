/** Every guarded step keeps the cluster safe. */
module RaftSafetySteps {
  import opened RaftTypes
  import opened RaftNode
  import opened RaftCompaction
  import opened RaftHandlers
  import opened RaftProtocol
  import opened RaftAgreement
  import opened RaftCluster
  import opened RaftInvariant
  import opened RaftSteps
  import opened RaftReplySteps
  import opened RaftRuns
  import opened RaftApply
  import opened RaftSafety

  // Steps of a node on its own.

  lemma LoseSafe(w: World, pk: Packet)
    requires Safe(w) && Inv(w)
    ensures Safe(LoseStep(w, pk))
  {
    hide PacketOk, Agreed, NodesSafe, MemberOk, LedOk, Distinct, Uncounted, ElectionsOk, RoundsOk;
    SafeQuiet(w, LoseStep(w, pk), 0);
  }

  lemma CompactSafe(w: World, i: nat, index: int)
    requires Safe(w) && Inv(w) && Ready(w) && i < |w.sys.nodes|
    ensures Safe(CompactStep(w, i, index))
  {
    hide PacketOk, Agreed, NodesSafe, MemberOk, LedOk, Distinct, Uncounted, ElectionsOk, RoundsOk, TakeSnapshot;
    SnapshotKeeps(w.sys.nodes[i], w.hist.proto.members[i].log, index);
    SafeQuiet(w, CompactStep(w, i, index), i);
  }

  lemma HandedOverSafe(p: Proto, m: Member, s: Node, msgs: seq<ApplyMsg>)
    requires NodeSafe(p, m, s, msgs) && Represents(s, m.log) && NumbersOk(s, |m.log|)
    ensures CanApply(s) && NodeSafe(p, m, Applied(s), msgs + PendingFrom(s, s.lastApplied))
  {
    CommittedSlices(s, m.log);
    PendingAre(s, m.log, s.lastApplied);
  }

  lemma ApplySafe(w: World, i: nat)
    requires Safe(w) && Inv(w) && Ready(w) && i < |w.sys.nodes|
    ensures Safe(ApplyStep(w, i))
  {
    hide PacketOk, Agreed, NodeSafe, MemberOk, LedOk, Distinct, Uncounted, ElectionsOk, RoundsOk, PendingFrom, CanApply;
    var p, s := w.hist.proto, w.sys.nodes[i];
    assert NodeOk(s, i, |w.sys.nodes|, p.members[i], p.led);
    HandedOverSafe(p, p.members[i], s, w.sys.applied[i]);
    GrowsSame(p);
    SafeKept(w, ApplyStep(w, i), i);
  }

  lemma StartSafe(w: World, i: nat, c: Command)
    requires Safe(w) && Inv(w) && Ready(w) && i < |w.sys.nodes|
    ensures Safe(StartStep(w, i, c))
  {
    hide PacketOk, Agreed, NodeSafe, MemberOk, LedOk, Distinct, Uncounted, ElectionsOk, RoundsOk;
    var v, p, s := StartStep(w, i, c), w.hist.proto, w.sys.nodes[i];
    if s.status == Leader {
      var l := p.members[i].log;
      ExtendAgreed(p, i, s.currentTerm, c);
      assert NodeSafe(p, p.members[i], s, w.sys.applied[i]);
      CommitInLog(p, p.members[i], s, w.sys.applied[i]);
      assert v.hist.proto.members[i].log == Extended(l, s.currentTerm, c);
      NodeSafeGrows(p, v.hist.proto, p.members[i], v.hist.proto.members[i], s, v.sys.nodes[i], w.sys.applied[i]);
      SafeKept(w, v, i);
    } else {
      SafeQuiet(w, v, i);
    }
  }

  lemma CommitInLog(p: Proto, m: Member, s: Node, msgs: seq<ApplyMsg>)
    requires NodeSafe(p, m, s, msgs)
    ensures 0 <= s.commitIndex <= |m.log| && m.log[..s.commitIndex] <= m.log
  {
  }

  lemma TimeoutSafe(w: World, i: nat)
    requires Safe(w) && Inv(w) && Ready(w) && i < |w.sys.nodes|
    ensures Safe(TimeoutStep(w, i))
  {
    hide PacketOk, Agreed, NodeSafe, MemberOk, LedOk, Distinct, Uncounted, ElectionsOk, RoundsOk;
    var v, p := TimeoutStep(w, i), w.hist.proto;
    if w.sys.nodes[i].status != Leader {
      AskAgreed(p, i);
      SafeUnmoved(w, v, i);
    }
  }

  // Heartbeats.

  lemma BeatCallSafe(h: History, s: Node, i: nat, n: nat, j: nat, msgs: seq<ApplyMsg>)
    requires i < n == |h.proto.members| && j < n && j != i && CanBeat'(s, n)
    requires NodeOk(s, i, n, h.proto.members[i], h.proto.led) && s.status == Leader
    requires NodeSafe(h.proto, h.proto.members[i], s, msgs)
    ensures PacketSafe(Opened(h, i, s.currentTerm, h.proto.members[i].log), BeatCall(s, |h.rounds|, j))
  {
    hide Represents, TermOf, BatchOf, Committed, CanSlice, LastLogIndex;
    CallOutcome(s, h.proto.members[i].log, j);
  }

  lemma BeatSafe(w: World, i: nat)
    requires Safe(w) && Inv(w) && Ready(w) && i < |w.sys.nodes|
    ensures Safe(HeartBeatStep(w, i))
  {
    hide PacketOk, Agreed, NodeSafe, MemberOk, LedOk, Distinct, Uncounted, ElectionsOk, RoundsOk, Represents, PacketSafe;
    var v, s, h := HeartBeatStep(w, i), w.sys.nodes[i], w.hist;
    assert NodeOk(s, i, |w.sys.nodes|, h.proto.members[i], h.proto.led);
    if s.status == Leader {
      BeatCan(s, h.proto.members[i].log);
      LastIs(s, h.proto.members[i].log);
      assert v.hist == Opened(h, i, s.currentTerm, h.proto.members[i].log);
      forall pk | pk in BeatCalls(s, |h.rounds|) ensures PacketSafe(v.hist, pk) {
        var j: nat :| j < s.peers && j != s.me && pk == BeatCall(s, |h.rounds|, j);
        BeatCallSafe(h, s, i, |w.sys.nodes|, j, w.sys.applied[i]);
      }
      GrowsSame(h.proto);
      SafeUnmoved(w, v, i);
    }
  }

  lemma LastIs(s: Node, f: Log)
    requires Represents(s, f)
    ensures LastLogIndex(s) == |f| && LastLogTerm(s) == TermOf(f, |f|)
  {
    Reads(s, f);
  }

  // Votes.

  lemma VotedAgreed(p: Proto, v: nat, t: int, granted: bool, c: nat)
    requires Agreed(p) && v < |p.members| && c < |p.members| && c != v
    requires granted ==>
               && 1 <= t && p.members[v].term <= t && (t in p.members[v].voted ==> p.members[v].voted[t] == c)
               && t in p.members[c].asked && UpToDateWith(p.members[c].asked[t], p.members[v].log)
    ensures var q := p.(members := p.members[v := AfterVote(p.members[v], t, granted, c)]);
            Grows(p, q) && Agreed(q)
  {
    hide Agreed, UpToDateWith, Grows;
    TermAgreed(p, v, t);
    var b := p.(members := p.members[v := p.members[v].(term := Max(p.members[v].term, t))]);
    var q := p.(members := p.members[v := AfterVote(p.members[v], t, granted, c)]);
    if granted {
      GrantAgreed(b, v, t, c);
      assert Grant(b, v, t, c) == q;
      GrowsOn(p, b, q);
    } else {
      assert q == b;
    }
  }

  lemma GrowsOn(p: Proto, q: Proto, r: Proto)
    requires Grows(p, q) && Grows(q, r)
    ensures Grows(p, r)
  {
    forall i | 0 <= i < |p.members| ensures MemberGrows(p.members[i], r.members[i]) {
      assert MemberGrows(p.members[i], q.members[i]) && MemberGrows(q.members[i], r.members[i]);
    }
  }

  /** What a granted vote says of the candidate. */
  lemma VoteGrounds(w: World, pk: Packet)
    requires Inv(w) && pk in w.sys.net && pk.VoteCall?
    ensures pk.from < |w.sys.nodes| == |w.hist.proto.members| && pk.to < |w.sys.nodes| && pk.from != pk.to
    ensures var p := w.hist.proto; var m := p.members[pk.to]; var t := pk.vargs.term;
            var ans := HandleVote(w.sys.nodes[pk.to], pk.vargs);
            && ans.node.currentTerm == Max(m.term, t)
            && (ans.reply.voteGranted ==>
                  && 1 <= t && m.term <= t && (t in m.voted ==> m.voted[t] == pk.from)
                  && t in p.members[pk.from].asked && UpToDateWith(p.members[pk.from].asked[t], m.log))
  {
    hide Distinct, Uncounted, ElectionsOk, RoundsOk, LedOk, HandleVote, Known;
    var p := w.hist.proto;
    assert PacketOk(w.hist, pk);
    assert MemberOk(p.members[pk.from], |p.members|, p.led) && MemberOk(p.members[pk.to], |p.members|, p.led);
    VoteOutcome(w.sys.nodes[pk.to], pk.to, |w.sys.nodes|, p.members[pk.to], p.led, pk.vargs);
  }

  lemma DeliverVoteSafe(w: World, pk: Packet)
    requires Safe(w) && Inv(w) && Ready(w) && pk in w.sys.net && pk.VoteCall?
    ensures pk.to < |w.sys.nodes| && Safe(DeliverVoteStep(w, pk))
  {
    hide Inv, Agreed, NodeSafe, NodesSafe, NetSafe, HandleVote, UpToDateWith, Grows;
    VoteGrounds(w, pk);
    VoteStepIs(w, pk);
    var v, p := DeliverVoteStep(w, pk), w.hist.proto;
    VotedAgreed(p, pk.to, pk.vargs.term, HandleVote(w.sys.nodes[pk.to], pk.vargs).reply.voteGranted, pk.from);
    VoteCommitsNothing(w.sys.nodes[pk.to], pk.vargs);
    SafeUnmoved(w, v, pk.to);
  }

  lemma ReturnVoteSafe(w: World, pk: Packet)
    requires Safe(w) && Inv(w) && Ready(w) && pk in w.sys.net && pk.VoteReturn?
    ensures pk.from < |w.sys.nodes| && Safe(ReturnVoteStep(w, pk))
  {
    hide Inv, Agreed, NodeSafe, NodesSafe, NetSafe, HandleVoteReply, Grows, Safe, TookTerm;
    CallerFacts(w, pk);
    if pk.vreply.term == w.sys.nodes[pk.from].currentTerm && pk.vreply.voteGranted {
      NotLeaderYet(w, pk);
      ReturnVoteIs(w, pk);
      TalliedSafe(w, ReturnVoteStep(w, pk), pk);
    } else {
      ReturnVoteIdle(w, pk);
      TookTermSafe(w, ReturnVoteStep(w, pk), pk.from, pk.vreply.term, pk);
    }
  }

  lemma ElectedFacts(w: World, pk: Packet)
    requires Inv(w) && pk in w.sys.net && pk.VoteReturn? && pk.from < |w.sys.nodes| && pk.vreply.voteGranted
    requires pk.vargs.term == w.sys.nodes[pk.from].currentTerm
    requires (pk.from, pk.vargs.term) in w.sys.votes
    requires w.sys.votes[(pk.from, pk.vargs.term)] + 1 >= Quorum(|w.sys.nodes|)
    ensures var p, t := w.hist.proto, pk.vargs.term;
            && pk.from < |p.members| && t !in p.led && 1 <= t == p.members[pk.from].term
            && Majority(|p.members|, Voters(p.members, pk.from, t))
  {
    hide Distinct, RoundsOk, LedOk, Known;
    var c, t, p := pk.from, pk.vargs.term, w.hist.proto;
    assert PacketOk(w.hist, pk) && Uncounted(w.hist, KeyOf(pk)) && MemberOk(p.members[c], |p.members|, p.led);
    assert ElectionOk(p, c, t, w.sys.votes[(c, t)], w.hist.counted[(c, t)]);
    CountElectsOnce(p, c, t, w.sys.votes[(c, t)], w.hist.counted[(c, t)], pk.to);
  }

  lemma TalliedSafe(w: World, v: World, pk: Packet)
    requires Safe(w) && Inv(w) && pk in w.sys.net && pk.VoteReturn? && pk.from < |w.sys.nodes| && pk.vreply.voteGranted
    requires pk.vargs.term == w.sys.nodes[pk.from].currentTerm && (pk.from, pk.vargs.term) in w.sys.votes
    requires Tallied(w, v, pk)
    ensures Safe(v)
  {
    hide Inv, Agreed, NodeSafe, NodesSafe, NetSafe, Grows;
    GrowsSame(w.hist.proto);
    SizesAgree(w);
    if w.sys.votes[(pk.from, pk.vargs.term)] + 1 >= Quorum(|w.sys.nodes|) {
      ElectedFacts(w, pk);
      ElectAgreed(w.hist.proto, pk.from, pk.vargs.term);
    }
    SafeUnmoved(w, v, pk.from);
  }

  lemma SizesAgree(w: World)
    requires Inv(w)
    ensures 2 <= |w.sys.nodes| == |w.hist.proto.members| == |w.sys.applied|
    ensures forall i :: 0 <= i < |w.sys.nodes| ==>
              NodeOk(w.sys.nodes[i], i, |w.sys.nodes|, w.hist.proto.members[i], w.hist.proto.led)
  {
  }

  // AppendEntries.

  /** The guard on the node says that the write on its whole log leaves no stale tail. */
  lemma GuardReaches(s: Node, f: Log, l: Log, a: AppendArgs)
    requires Represents(s, f) && BatchOf(l, a) && Accepts(s, f, a) && AppendGuard(s, a)
    ensures ReachesEnd(f, a.prevLogIndex, a.entries)
  {
    Reads(s, f);
    if Conflicts(f, a.prevLogIndex, a.entries) {
      var j :| 0 <= j < |a.entries| && a.prevLogIndex + j < |f| && f[a.prevLogIndex + j].term != a.entries[j].term;
      assert At(s, a.prevLogIndex + 1 + j) == f[a.prevLogIndex + j];
      assert Overwrites(s, a);
    }
  }

  lemma WrittenAgreed(p: Proto, i: nat, a: AppendArgs)
    requires Agreed(p) && i < |p.members| && a.term in p.led && p.members[i].term <= a.term
    requires BatchOf(p.led[a.term].log, a) && a.prevLogIndex <= |p.members[i].log|
    requires TermOf(p.members[i].log, a.prevLogIndex) == a.prevLogTerm
    requires ReachesEnd(p.members[i].log, a.prevLogIndex, a.entries)
    ensures var w := Written(p.members[i], a.term, a.prevLogIndex, a.entries); var q := p.(members := p.members[i := w]);
            && Grows(p, q) && Agreed(q)
            && p.led[a.term].log[..a.prevLogIndex + |a.entries|] <= w.log
  {
    hide Agreed, Grows, ReachesEnd;
    TermAgreed(p, i, a.term);
    var b := p.(members := p.members[i := p.members[i].(term := Max(p.members[i].term, a.term))]);
    var hi := a.prevLogIndex + |a.entries|;
    WriteAgreed(b, i, a.term, a.prevLogIndex, hi);
    var q := p.(members := p.members[i := Written(p.members[i], a.term, a.prevLogIndex, a.entries)]);
    assert Write(b, i, a.term, a.prevLogIndex, hi) == q;
    GrowsOn(p, b, q);
  }

  /** The node committed the leader's prefix up to leaderCommit, or what it had committed before. */
  lemma WrittenCommit(p: Proto, q: Proto, m: Member, s: Node, msgs: seq<ApplyMsg>, a: AppendArgs, w: Member, t: Node)
    requires NodeSafe(p, m, s, msgs) && BatchSafe(p, a) && Grows(p, q) && m.term <= a.term == w.term
    requires a.leaderCommit <= a.prevLogIndex + |a.entries| <= |p.led[a.term].log|
    requires p.led[a.term].log[..a.prevLogIndex + |a.entries|] <= w.log && m.log[..s.commitIndex] <= w.log
    requires t.commitIndex == Max(s.commitIndex, a.leaderCommit)
    ensures NodeSafe(q, w, t, msgs)
  {
    if a.leaderCommit <= s.commitIndex {
      NodeSafeGrows(p, q, m, w, s, t, msgs);
    } else {
      assert w.log[..t.commitIndex] == p.led[a.term].log[..a.leaderCommit];
      CommittedGrows(p, q, p.led[a.term].log[..a.leaderCommit], a.term, a.term);
      AppliedKept(msgs, m.log, s.commitIndex, w.log, t.commitIndex);
    }
  }

  lemma CommittedKept(p: Proto, i: nat, s: Node, msgs: seq<ApplyMsg>, a: AppendArgs)
    requires Agreed(p) && i < |p.members| && a.term in p.led && p.members[i].term <= a.term
    requires BatchOf(p.led[a.term].log, a) && a.prevLogIndex <= |p.members[i].log|
    requires NodeSafe(p, p.members[i], s, msgs)
    ensures p.members[i].log[..s.commitIndex] <= Overlay(p.members[i].log, a.prevLogIndex, a.entries)
  {
    hide Agreed, Grows;
    TermAgreed(p, i, a.term);
    var b := p.(members := p.members[i := p.members[i].(term := Max(p.members[i].term, a.term))]);
    CommittedGrows(p, b, p.members[i].log[..s.commitIndex], p.members[i].term, a.term);
    CommittedSurvivesWrite(b, i, a.term, a.prevLogIndex, a.prevLogIndex + |a.entries|, p.members[i].log[..s.commitIndex]);
  }

  lemma AppendedSafe(p: Proto, i: nat, n: nat, s: Node, msgs: seq<ApplyMsg>, a: AppendArgs)
    requires Agreed(p) && i < n == |p.members| && NodeOk(s, i, n, p.members[i], p.led) && !s.halted
    requires a.term in p.led && BatchOf(p.led[a.term].log, a) && BatchSafe(p, a)
    requires NodeSafe(p, p.members[i], s, msgs) && AppendGuard(s, a)
    ensures var w := Appended(s, p.members[i], a); var q := p.(members := p.members[i := w]);
            Grows(p, q) && Agreed(q) && NodeSafe(q, w, HandleAppend(s, a).node, msgs)
  {
    hide Agreed, Grows, NodeSafe, AppendGuard, BatchSafe, Leads;
    var m, l := p.members[i], p.led[a.term].log;
    LogsSame(p, i, a.term);
    if Accepts(s, m.log, a) {
      AcceptOutcome(s, m.log, l, a);
      GuardReaches(s, m.log, l, a);
      WrittenAgreed(p, i, a);
      CommittedKept(p, i, s, msgs, a);
      var w := Appended(s, m, a);
      WrittenCommit(p, p.(members := p.members[i := w]), m, s, msgs, a, w, HandleAppend(s, a).node);
    } else {
      AppendOutcome(s, m.log, l, a);
      TermAgreed(p, i, a.term);
      CommitInLog(p, m, s, msgs);
      NodeSafeGrows(p, p.(members := p.members[i := m.(term := Max(m.term, a.term))]), m, m.(term := Max(m.term, a.term)),
                    s, HandleAppend(s, a).node, msgs);
    }
  }

  lemma LogsSame(p: Proto, i: nat, t: int)
    requires Agreed(p) && i < |p.members| && t in p.led
    ensures SameEntries(p.members[i].log, p.led[t].log)
  {
    assert MemberOk(p.members[i], |p.members|, p.led) && LedOk(p, t);
    KnownSame(p.led, p.members[i].log, p.members[i].term, p.led[t].log, t);
  }

  lemma AppendFacts(w: World, pk: Packet)
    requires Safe(w) && Inv(w) && pk in w.sys.net && pk.AppendCall?
    ensures var p, a := w.hist.proto, pk.args;
            && pk.from < |p.members| && pk.to < |p.members| == |w.sys.nodes| == |w.sys.applied|
            && a.term in p.led && BatchOf(p.led[a.term].log, a) && Known(p.led, p.led[a.term].log, a.term)
            && BatchSafe(p, a)
            && MemberOk(p.members[pk.to], |p.members|, p.led)
            && NodeOk(w.sys.nodes[pk.to], pk.to, |p.members|, p.members[pk.to], p.led)
            && NodeSafe(p, p.members[pk.to], w.sys.nodes[pk.to], w.sys.applied[pk.to])
  {
    hide BatchSafe, NodeSafe, MemberOk, NodeOk, BatchOf, LedOk, Known, ElectionsOk, RoundsOk, Agreed;
    assert PacketOk(w.hist, pk) && PacketSafe(w.hist, pk);
    CallIsBatch(w.hist, pk.round, pk.from, pk.args);
  }

  lemma DeliverAppendSafe(w: World, pk: Packet)
    requires Safe(w) && Inv(w) && Ready(w) && pk in w.sys.net && pk.AppendCall? && pk.to < |w.sys.nodes|
    requires !w.sys.nodes[pk.to].halted && AppendGuard(w.sys.nodes[pk.to], pk.args)
    ensures Safe(DeliverAppendStep(w, pk))
  {
    hide Inv, Agreed, NodeSafe, NodesSafe, Grows, BatchSafe, AppendGuard, BatchOf, Known, MemberOk, Leads, Represents,
      HandleAppend, AppendAnswer, Accepts, Written;
    var v, h := DeliverAppendStep(w, pk), w.hist;
    var s, n := w.sys.nodes[pk.to], |w.sys.nodes|;
    var m := h.proto.members[pk.to];
    AppendFacts(w, pk);
    SnapInLog(s, m.log);
    AppendAnswers(s, pk.to, n, m, h.proto.led, pk.args);
    AnswerShape(s, m, h.proto.led[pk.args.term].log, pk.args, HandleAppend(s, pk.args));
    AppendStepIs(w, pk, HandleAppend(s, pk.args));
    AppendedSafe(h.proto, pk.to, n, s, w.sys.applied[pk.to], pk.args);
    BatchSafeGrows(h.proto, v.hist.proto, pk.args);
    SafeKept(w, v, pk.to);
  }

  lemma AnswerShape(s: Node, m: Member, l: Log, a: AppendArgs, ans: Answer<AppendReply>)
    requires 0 <= s.snapIndex && AppendAnswer(s, m, l, a, ans)
    ensures ans.node.currentTerm == Max(m.term, a.term)
    ensures Accepts(s, m.log, a) <==> !ans.node.halted && ans.reply.success
  {
  }

  // Replies to AppendEntries.

  /** A leader commits what a majority acknowledged. */
  lemma CountedCommit(p: Proto, count: int, r: Round, c: nat, m: Member, v: nat)
    requires RoundOk(p, count, r) && r.leader == c && c < |p.members| && m == p.members[c] && r.term == m.term == r.lastTerm
    requires v < |p.members| && v !in r.acked && v in r.held && 2 <= |p.members| && count + 1 >= Quorum(|p.members|)
    requires r.term in p.members[v].acked && r.last <= p.members[v].acked[r.term]
    requires p.led[r.term].log == m.log && 1 <= r.last <= |m.log|
    ensures Committed(p, m.log[..r.last], m.term)
  {
    hide ElectionOk, Known, LedOk, Committed;
    AckedRound(p, count, r, v);
    var acked := r.acked + {v};
    forall x | x in acked ensures x in Ackers(p, r.term, r.last) {}
    SubsetSize(acked, Ackers(p, r.term, r.last));
    assert Chosen(p, r.term, r.last);
    ChosenCommitted(p, r.term, r.last);
  }

  lemma ChosenCommitted(p: Proto, t: int, k: nat)
    requires Chosen(p, t, k)
    ensures Committed(p, p.led[t].log[..k], t)
  {
    assert p.led[t].log[..k] <= p.led[t].log[..k];
  }

  lemma CountedCommitSafe(h: History, s: Node, n: nat, pk: Packet, count: int, msgs: seq<ApplyMsg>)
    requires pk.AppendReturn? && pk.from < n == |h.proto.members| && pk.to < n && pk.round < |h.rounds| && 2 <= n
    requires CountedFacts(h, s, pk) && RoundOk(h.proto, count, h.rounds[pk.round])
    requires NodeOk(s, pk.from, n, h.proto.members[pk.from], h.proto.led) && s.status == Leader
    requires NodeSafe(h.proto, h.proto.members[pk.from], s, msgs)
    ensures NodeSafe(h.proto, h.proto.members[pk.from], Counted'(s, pk.to, pk.args, count).node, msgs)
  {
    hide Represents, RoundOk, Committed, AppliedSafe;
    var m, r, t := h.proto.members[pk.from], h.rounds[pk.round], Counted'(s, pk.to, pk.args, count).node;
    if t.commitIndex != s.commitIndex {
      CountedCommit(h.proto, count, r, pk.from, m, pk.to);
      AppliedKept(msgs, m.log, s.commitIndex, m.log, t.commitIndex);
    }
  }

  lemma CountedSafe(w: World, v: World, pk: Packet)
    requires Safe(w) && Inv(w) && pk in w.sys.net && pk.AppendReturn? && pk.from < |w.sys.nodes| && pk.to < |w.sys.nodes|
    requires pk.round < |w.sys.rounds| && Counts(w.sys.nodes[pk.from], pk.reply) && pk.reply.appState == AppNormal
    requires CountedFacts(w.hist, w.sys.nodes[pk.from], pk) && CountedReply(w, v, pk)
    ensures Safe(v)
  {
    hide PacketOk, Agreed, NodeSafe, MemberOk, LedOk, Distinct, Uncounted, ElectionsOk, RoundOk, CountedFacts, Leads,
      Represents, PacketSafe;
    var s, c := w.sys.nodes[pk.from], pk.from;
    SizesAgree(w);
    assert RoundOk(w.hist.proto, w.sys.rounds[pk.round], w.hist.rounds[pk.round]);
    CountedCommitSafe(w.hist, s, |w.sys.nodes|, pk, w.sys.rounds[pk.round], w.sys.applied[c]);
    GrowsSame(w.hist.proto);
    SafeKept(w, v, c);
  }

  lemma ReturnAppendSafe(w: World, pk: Packet)
    requires Safe(w) && Inv(w) && Ready(w) && pk in w.sys.net && pk.AppendReturn?
    requires pk.from < |w.sys.nodes| && pk.to < |w.sys.nodes| && pk.round < |w.sys.rounds|
    ensures Safe(ReturnAppendStep(w, pk))
  {
    hide Inv, Safe, CountedFacts, CountedReply, TookTerm, HandleAppendReply;
    var s, v := w.sys.nodes[pk.from], ReturnAppendStep(w, pk);
    ReturnAppendFacts(w, pk);
    if Counts(s, pk.reply) {
      ReturnAppendCounts(w, pk);
      CountedSafe(w, v, pk);
    } else if Rewinds(s, pk.reply) {
      ReplyRewindsIs(w, pk);
      RewoundSafe(w, v, pk.from);
    } else {
      ReplyIdleIs(w, pk);
      TookTermSafe(w, v, pk.from, pk.reply.term, pk);
    }
  }

  lemma RewoundSafe(w: World, v: World, i: nat)
    requires Safe(w) && Inv(w) && i < |w.sys.nodes| == |v.sys.nodes| && v.hist == w.hist
    requires v.sys.net <= w.sys.net && v.sys.nodes == w.sys.nodes[i := v.sys.nodes[i]] && v.sys.applied == w.sys.applied
    requires v.sys.nodes[i].commitIndex == w.sys.nodes[i].commitIndex
    ensures Safe(v)
  {
    hide Safe;
    SizesAgree(w);
    SafeQuiet(w, v, i);
  }

  // Snapshots.

  lemma SentCoverSafe(h: History, pk: Packet, s: Node, n: nat, msgs: seq<ApplyMsg>)
    requires pk.SnapTask? && pk.from < n == |h.proto.members| && Agreed(h.proto)
    requires NodeOk(s, pk.from, n, h.proto.members[pk.from], h.proto.led)
    requires NodeSafe(h.proto, h.proto.members[pk.from], s, msgs)
    ensures s.snapIndex <= |h.proto.members[pk.from].log|
    ensures PacketSafe(CoveredHistory(h, pk.round, pk.to, h.proto.members[pk.from].log[..s.snapIndex]),
                       SnapCall(pk.round, pk.from, pk.to, SnapshotRequest(s)))
  {
    hide Committed, Matched, AppliedSafe, LeadersComplete, MemberAgrees;
    var m := h.proto.members[pk.from];
    assert MemberMatched(m, h.proto.led);
    MatchedPrefix(h.proto.led, m.log, m.term, s.snapIndex);
    assert m.log[..s.snapIndex] <= m.log[..s.commitIndex];
    CommittedPrefix(h.proto, m.log[..s.commitIndex], m.term, m.log[..s.snapIndex]);
  }

  lemma SendSnapSafe(w: World, pk: Packet)
    requires Safe(w) && Inv(w) && Ready(w) && pk in w.sys.net && pk.SnapTask? && pk.from < |w.sys.nodes|
    ensures Safe(SendSnapStep(w, pk))
  {
    hide PacketOk, Agreed, NodeSafe, MemberOk, LedOk, Uncounted, ElectionsOk, RoundsOk, PacketSafe, Represents, Leads;
    var v, s := SendSnapStep(w, pk), w.sys.nodes[pk.from];
    SizesAgree(w);
    SnapInLog(s, w.hist.proto.members[pk.from].log);
    SentCoverSafe(w.hist, pk, s, |w.sys.nodes|, w.sys.applied[pk.from]);
    var c := w.hist.proto.members[pk.from].log[..s.snapIndex];
    assert v.hist == CoveredHistory(w.hist, pk.round, pk.to, c);
    forall b | b in w.sys.net && b != pk ensures SameCover(w.hist, v.hist, KeyOf(b)) {
      assert KeyOf(b) != KeyOf(pk);
    }
    GrowsSame(w.hist.proto);
    SafeUnmoved(w, v, pk.from);
  }

  lemma SnapInLog(s: Node, f: Log)
    requires Represents(s, f)
    ensures 0 <= s.snapIndex <= |f|
  {
  }

  lemma InstalledAgreed(p: Proto, i: nat, c: Log, t: int)
    requires Agreed(p) && i < |p.members| && p.members[i].term <= t && Matched(p.led, c, t) && Committed(p, c, t)
    requires |c| < |p.members[i].log| ==> TermOf(p.members[i].log, |c|) == TermOf(c, |c|)
    ensures var w := p.members[i].(term := Max(p.members[i].term, t), log := Overlay(p.members[i].log, 0, c));
            var q := p.(members := p.members[i := w]);
            Grows(p, q) && Agreed(q)
  {
    hide Agreed, Grows, Matched, Committed;
    TermAgreed(p, i, t);
    var b := p.(members := p.members[i := p.members[i].(term := Max(p.members[i].term, t))]);
    CommittedGrows(p, b, c, t, t);
    CoverAgreed(b, i, c);
    var q := p.(members := p.members[i :=
      p.members[i].(term := Max(p.members[i].term, t), log := Overlay(p.members[i].log, 0, c))]);
    assert Cover(b, i, c) == q;
    GrowsOn(p, b, q);
  }

  /** The node committed the snapshot's prefix, or what it had committed before, which it keeps. */
  lemma CoveredCommit(p: Proto, q: Proto, m: Member, s: Node, msgs: seq<ApplyMsg>, c: Log, w: Member, t: Node,
                      more: seq<ApplyMsg>)
    requires NodeSafe(p, m, s, msgs) && Grows(p, q) && m.term <= w.term && Committed(p, c, w.term)
    requires c <= w.log && m.log[..s.commitIndex] <= w.log && t.commitIndex == Max(s.commitIndex, |c|)
    requires forall x :: x in more ==> x.SnapshotMsg?
    ensures NodeSafe(q, w, t, msgs + more)
  {
    if |c| <= s.commitIndex {
      NodeSafeGrows(p, q, m, w, s, t, msgs);
    } else {
      assert w.log[..t.commitIndex] == c;
      CommittedGrows(p, q, c, w.term, w.term);
      AppliedKept(msgs, m.log, s.commitIndex, w.log, t.commitIndex);
    }
  }

  lemma OverlayStarts(l: Log, c: Log)
    ensures c <= Overlay(l, 0, c)
  {
  }

  lemma CommittedCovered(p: Proto, i: nat, s: Node, msgs: seq<ApplyMsg>, c: Log, t: int)
    requires Agreed(p) && i < |p.members| && p.members[i].term <= t && Committed(p, c, t)
    requires NodeSafe(p, p.members[i], s, msgs)
    ensures p.members[i].log[..s.commitIndex] <= Overlay(p.members[i].log, 0, c)
  {
    hide Agreed;
    GrowsSame(p);
    CommittedGrows(p, p, p.members[i].log[..s.commitIndex], p.members[i].term, t);
    CommittedSurvivesCover(p, i, c, t, p.members[i].log[..s.commitIndex]);
  }

  lemma SnapGuardLands(s: Node, f: Log, c: Log, a: SnapArgs)
    requires Represents(s, f) && SnapGuard(s, a) && Installs(s, a)
    requires a.lastIndex == |c| && a.lastTerm == TermOf(c, |c|)
    ensures |c| < |f| ==> TermOf(f, |c|) == TermOf(c, |c|)
  {
    Reads(s, f);
  }

  lemma InstallSafe(p: Proto, i: nat, n: nat, s: Node, msgs: seq<ApplyMsg>, a: SnapArgs, c: Log)
    requires Agreed(p) && i < n == |p.members| && NodeOk(s, i, n, p.members[i], p.led) && !s.halted
    requires Matched(p.led, c, a.term) && Committed(p, c, a.term)
    requires a.lastIndex == |c| && a.lastTerm == TermOf(c, |c|)
    requires NodeSafe(p, p.members[i], s, msgs) && SnapGuard(s, a)
    ensures var w := Installed(s, p.members[i], a, c); var q := p.(members := p.members[i := w]);
            var more := if Installs(s, a) then [SnapshotMsg(a.lastIndex, a.lastTerm)] else [];
            Grows(p, q) && Agreed(q) && NodeSafe(q, w, HandleSnapshot(s, a).node, msgs + more)
  {
    hide Agreed, Grows, NodeSafe, SnapGuard, Leads, Represents, Matched, Committed, Installs, HandleSnapshot;
    var m := p.members[i];
    IndexedMatched(p.led, c, a.term);
    SnapshotOutcome(s, m.log, c, a);
    var w := Installed(s, m, a, c);
    if Installs(s, a) {
      SnapGuardLands(s, m.log, c, a);
      InstalledAgreed(p, i, c, a.term);
      OverlayStarts(m.log, c);
      CommittedCovered(p, i, s, msgs, c, a.term);
      CoveredCommit(p, p.(members := p.members[i := w]), m, s, msgs, c, w, HandleSnapshot(s, a).node,
                    [SnapshotMsg(a.lastIndex, a.lastTerm)]);
    } else {
      TermAgreed(p, i, a.term);
      CommitInLog(p, m, s, msgs);
      NodeSafeGrows(p, p.(members := p.members[i := w]), m, w, s, HandleSnapshot(s, a).node, msgs);
      assert msgs + [] == msgs;
    }
  }

  lemma IndexedMatched(led: Terms, c: Log, t: int)
    requires Matched(led, c, t)
    ensures Indexed(c)
  {
  }

  lemma SnapFacts(w: World, pk: Packet)
    requires Safe(w) && Inv(w) && pk in w.sys.net && (pk.SnapCall? || pk.SnapReturn?)
    ensures pk.from < |w.sys.nodes| && pk.to < |w.sys.nodes| && (pk.round, pk.to) in w.hist.covered
    ensures var c := w.hist.covered[(pk.round, pk.to)];
            && Matched(w.hist.proto.led, c, pk.sargs.term) && Committed(w.hist.proto, c, pk.sargs.term)
            && pk.sargs.lastIndex == |c| && pk.sargs.lastTerm == TermOf(c, |c|)
  {
    hide NodesSafe, Agreed, NodesOk, ElectionsOk, RoundsOk, Matched, Committed, Known, Sound;
    SizesAgree(w);
    assert PacketOk(w.hist, pk) && PacketSafe(w.hist, pk);
  }

  lemma DeliverSnapSafe(w: World, pk: Packet)
    requires Safe(w) && Inv(w) && Ready(w) && pk in w.sys.net && pk.SnapCall? && pk.to < |w.sys.nodes|
    requires !w.sys.nodes[pk.to].halted && SnapGuard(w.sys.nodes[pk.to], pk.sargs)
    ensures Safe(DeliverSnapStep(w, pk))
  {
    hide Inv, Agreed, NodeSafe, Grows, SnapGuard, Matched, Committed, MemberOk, Leads, Represents, HandleSnapshot, Installs,
      NumbersOk, TermOf;
    var v, h := DeliverSnapStep(w, pk), w.hist;
    var s, m := w.sys.nodes[pk.to], h.proto.members[pk.to];
    SizesAgree(w);
    SnapFacts(w, pk);
    var c := h.covered[(pk.round, pk.to)];
    SnapTerm(s, pk.sargs);
    SnapStepIs(w, pk);
    InstallSafe(h.proto, pk.to, |w.sys.nodes|, s, w.sys.applied[pk.to], pk.sargs, c);
    CoverSafeGrows(h, v.hist, pk.round, pk.to, pk.sargs);
    SafeKept(w, v, pk.to);
  }

  lemma SnapTerm(s: Node, a: SnapArgs)
    ensures HandleSnapshot(s, a).node.currentTerm == Max(s.currentTerm, a.term)
  {
  }

  lemma ReturnSnapSafe(w: World, pk: Packet)
    requires Safe(w) && Inv(w) && Ready(w) && pk in w.sys.net && pk.SnapReturn?
    requires pk.from < |w.sys.nodes| && pk.to < |w.sys.nodes|
    ensures Safe(ReturnSnapStep(w, pk))
  {
    hide Inv, Safe, TookTerm, HandleSnapshotReply;
    var v, s := ReturnSnapStep(w, pk), w.sys.nodes[pk.from];
    SizesAgree(w);
    SnapshotReplyCommitsNothing(s, pk.to, pk.sargs, pk.sreply);
    if Resets(s, pk.sargs, pk.sreply) {
      ResetKeepsTerm(s, pk.to, pk.sargs, pk.sreply);
      RewoundSafe(w, v, pk.from);
    } else {
      ReturnSnapIs(w, pk);
      TookTermSafe(w, v, pk.from,
                   if s.status == Leader && s.currentTerm == pk.sargs.term then pk.sreply.term else s.currentTerm, pk);
    }
  }

  lemma ResetKeepsTerm(s: Node, to: nat, a: SnapArgs, r: SnapReply)
    requires to < |s.nextIndex| && to < |s.matchIndex| && Resets(s, a, r)
    ensures HandleSnapshotReply(s, to, a, r).currentTerm == s.currentTerm
  {
  }
}
