/** Replies to AppendEntries, and the calls that carry snapshots, keep the invariant. */
module RaftReplySteps {
  import opened RaftTypes
  import opened RaftNode
  import opened RaftCompaction
  import opened RaftHandlers
  import opened RaftProtocol
  import opened RaftCluster
  import opened RaftInvariant
  import opened RaftSteps

  /** The reply is a success that the leader of its term counts. */
  predicate Counts(s: Node, r: AppendReply) {
    s.status == Leader && r.term == s.currentTerm && r.success
  }

  /** The reply moves the leader's cursor back. */
  predicate Rewinds(s: Node, r: AppendReply) {
    s.status == Leader && r.term == s.currentTerm && !r.success && r.updateNextIndex != NO_UPDATE
  }

  // Replies that are not counted.

  lemma ReplyIdleIs(w: World, pk: Packet)
    requires Ready(w) && pk.AppendReturn? && pk.from < |w.sys.nodes| && pk.to < |w.sys.nodes|
    requires pk.round < |w.sys.rounds| && pk.reply.appState == AppNormal
    requires var s := w.sys.nodes[pk.from];
             !Counts(s, pk.reply) && !Rewinds(s, pk.reply) && w.hist.proto.members[pk.from].term == s.currentTerm
    ensures TookTerm(w, ReturnAppendStep(w, pk), pk.from, pk.reply.term, pk)
  {
    assert w.sys.rounds[pk.round := w.sys.rounds[pk.round]] == w.sys.rounds;
  }

  lemma RewoundNode(s: Node, i: nat, n: nat, m: Member, led: Terms, to: nat, next: int)
    requires NodeOk(s, i, n, m, led) && to < n && 1 <= next <= |m.log| + 1
    ensures NodeOk(s.(nextIndex := s.nextIndex[to := next]), i, n, m, led)
  {
  }

  lemma RewindBound(h: History, s: Node, n: nat, pk: Packet)
    requires pk.AppendReturn? && PacketOk(h, pk) && n == |h.proto.members| && Rewinds(s, pk.reply)
    requires NodeOk(s, pk.from, n, h.proto.members[pk.from], h.proto.led)
    ensures 1 <= pk.reply.updateNextIndex <= |h.proto.members[pk.from].log| + 1
  {
  }

  lemma ReplyRewinds(w: World, v: World, pk: Packet)
    requires Inv(w) && pk in w.sys.net && pk.AppendReturn? && pk.from < |w.sys.nodes| && pk.to < |w.sys.nodes|
    requires var s := w.sys.nodes[pk.from];
             && Rewinds(s, pk.reply) && v.hist == w.hist && pk.to < |s.nextIndex|
             && v.sys == w.sys.(nodes := w.sys.nodes[pk.from :=
                  s.(nextIndex := s.nextIndex[pk.to := pk.reply.updateNextIndex])], net := w.sys.net - {pk})
    ensures Inv(v) && HistoryGrows(w.hist, v.hist)
  {
    var s, m := w.sys.nodes[pk.from], w.hist.proto.members[pk.from];
    RewindBound(w.hist, s, |w.sys.nodes|, pk);
    RewoundNode(s, pk.from, |w.sys.nodes|, m, w.hist.proto.led, pk.to, pk.reply.updateNextIndex);
    CallEndedKeeps(w, v, pk.from, pk);
  }

  lemma ReplyRewindsIs(w: World, pk: Packet)
    requires Ready(w) && pk.AppendReturn? && pk.from < |w.sys.nodes| && pk.to < |w.sys.nodes|
    requires pk.round < |w.sys.rounds| && pk.reply.appState == AppNormal
    requires var s := w.sys.nodes[pk.from];
             Rewinds(s, pk.reply) && w.hist.proto.members[pk.from].term == s.currentTerm
    ensures var v, s := ReturnAppendStep(w, pk), w.sys.nodes[pk.from];
            && v.hist == w.hist
            && v.sys == w.sys.(nodes := w.sys.nodes[pk.from :=
                 s.(nextIndex := s.nextIndex[pk.to := pk.reply.updateNextIndex])], net := w.sys.net - {pk})
  {
    assert w.sys.rounds[pk.round := w.sys.rounds[pk.round]] == w.sys.rounds;
  }

  // Replies that are counted.

  function Advanced(s: Node, to: nat, last: int): Node
    requires to < |s.nextIndex| && to < |s.matchIndex|
  {
    var m := Max(s.matchIndex[to], last);
    s.(matchIndex := s.matchIndex[to := m], nextIndex := s.nextIndex[to := m + 1])
  }

  /** The batch ends with an entry of the leader's term. */
  predicate EndsOwn(s: Node, a: AppendArgs) {
    |a.entries| > 0 && a.entries[|a.entries| - 1].term == s.currentTerm
  }

  /** The leader after it counted a success: it commits the batch if this completes a majority. */
  function Counted'(s: Node, to: nat, a: AppendArgs, count: int): Counted
    requires to < |s.nextIndex| && to < |s.matchIndex|
  {
    var last := a.prevLogIndex + |a.entries|;
    var w := Advanced(s, to, last);
    if count + 1 < Quorum(s.peers) then Counted(w, count + 1)
    else Counted(if EndsOwn(s, a) then w.(commitIndex := Max(s.commitIndex, last)) else w, 0)
  }

  lemma CountedOutcome(s: Node, f: Log, to: nat, a: AppendArgs, r: AppendReply, count: int)
    requires Represents(s, f) && NumbersOk(s, |f|) && to < |s.nextIndex| == |s.matchIndex| && CursorsOk(s, |f|)
    requires Counts(s, r) && r.appState == AppNormal && 0 <= a.prevLogIndex && a.prevLogIndex + |a.entries| <= |f|
    ensures HandleAppendReply(s, to, a, r, count) == Counted'(s, to, a, count)
    ensures var c := Counted'(s, to, a, count).node;
            Represents(c, f) && NumbersOk(c, |f|) && CursorsOk(c, |f|)
  {
    Reads(s, f);
    var c := Counted'(s, to, a, count).node;
    Reads(Advanced(s, to, a.prevLogIndex + |a.entries|), f);
    Reads(c, f);
  }

  function AckedHistory(h: History, r: nat, v: nat): History
    requires r < |h.rounds|
  {
    h.(rounds := Acked(h.rounds, r, v))
  }

  lemma AckedFrame(h: History, r: nat, v: nat)
    requires r < |h.rounds|
    ensures HistoryGrows(h, AckedHistory(h, r, v))
  {
  }

  lemma AckedNet(net: set<Packet>, h: History, pk: Packet)
    requires NetOk(net, h) && pk in net && pk.AppendReturn? && pk.round < |h.rounds|
    ensures NetOk(net - {pk}, AckedHistory(h, pk.round, pk.to))
  {
    var g := AckedHistory(h, pk.round, pk.to);
    AckedFrame(h, pk.round, pk.to);
    forall b | b in net && b != pk ensures Uncounted(g, KeyOf(b)) {
      assert Uncounted(h, KeyOf(b)) && KeyOf(b) != KeyOf(pk);
    }
    NetKept(net, h, g, {pk}, {});
    assert net - {pk} + {} == net - {pk};
  }

  /** A round's counter completes a majority at most once. */
  lemma AckedRound(p: Proto, count: int, r: Round, v: nat)
    requires RoundOk(p, count, r) && v < |p.members| && v !in r.acked && v in r.held && 2 <= |p.members|
    requires r.term in p.members[v].acked && r.last <= p.members[v].acked[r.term]
    ensures var q := Quorum(|p.members|); var b := r.(acked := r.acked + {v});
            && RoundOk(p, if count + 1 < q then count + 1 else 0, b)
            && (count + 1 >= q ==> Majority(|p.members|, b.acked))
  {
    SizeBelow(|p.members|, r.acked + {v});
  }

  lemma AckedRounds(counts: seq<int>, h: History, r: nat, v: nat)
    requires RoundsOk(counts, h.rounds, h.proto) && r < |counts| && 2 <= |h.proto.members|
    requires v < |h.proto.members| && v !in h.rounds[r].acked && v in h.rounds[r].held
    requires h.rounds[r].term in h.proto.members[v].acked
             && h.rounds[r].last <= h.proto.members[v].acked[h.rounds[r].term]
    ensures var q := Quorum(|h.proto.members|);
            RoundsOk(counts[r := if counts[r] + 1 < q then counts[r] + 1 else 0], Acked(h.rounds, r, v), h.proto)
  {
    AckedRound(h.proto, counts[r], h.rounds[r], v);
  }

  lemma ReplyCountsIs(w: World, pk: Packet)
    requires Ready(w) && pk.AppendReturn? && pk.from < |w.sys.nodes| && pk.to < |w.sys.nodes| && 2 <= |w.sys.nodes|
    requires pk.round < |w.sys.rounds| && Counts(w.sys.nodes[pk.from], pk.reply)
    requires var s := w.sys.nodes[pk.from];
             HandleAppendReply(s, pk.to, pk.args, pk.reply, w.sys.rounds[pk.round])
             == Counted'(s, pk.to, pk.args, w.sys.rounds[pk.round])
    ensures CountedReply(w, ReturnAppendStep(w, pk), pk)
  {
  }

  ghost predicate CountedReply(w: World, v: World, pk: Packet)
    requires pk.AppendReturn? && pk.from < |w.sys.nodes| && pk.round < |w.sys.rounds| == |w.hist.rounds|
    requires pk.to < |w.sys.nodes[pk.from].nextIndex| && pk.to < |w.sys.nodes[pk.from].matchIndex|
  {
    var c := Counted'(w.sys.nodes[pk.from], pk.to, pk.args, w.sys.rounds[pk.round]);
    && v.sys == w.sys.(nodes := w.sys.nodes[pk.from := c.node], net := w.sys.net - {pk},
                       rounds := w.sys.rounds[pk.round := c.count])
    && v.hist == AckedHistory(w.hist, pk.round, pk.to)
  }

  /** What a counted success says about its round and its sender's log. */
  ghost predicate CountedFacts(h: History, s: Node, pk: Packet)
    requires pk.AppendReturn? && pk.from < |h.proto.members| && pk.to < |h.proto.members| && pk.round < |h.rounds|
  {
    var r, m, v := h.rounds[pk.round], h.proto.members[pk.from], h.proto.members[pk.to];
    && r.leader == pk.from && r.term == pk.args.term == s.currentTerm
    && 0 <= pk.args.prevLogIndex && pk.args.prevLogIndex + |pk.args.entries| == r.last <= |m.log|
    && r.lastTerm == TermOf(m.log, r.last)
    && (EndsOwn(s, pk.args) ==> r.lastTerm == r.term)
    && pk.to !in r.acked && pk.to in r.held && r.term in v.acked && r.last <= v.acked[r.term]
  }

  lemma CountedTells(h: History, s: Node, n: nat, pk: Packet)
    requires pk.AppendReturn? && PacketOk(h, pk) && Uncounted(h, KeyOf(pk)) && n == |h.proto.members|
    requires NodeOk(s, pk.from, n, h.proto.members[pk.from], h.proto.led) && Counts(s, pk.reply)
    ensures CountedFacts(h, s, pk)
  {
    var a, l := pk.args, h.proto.members[pk.from].log;
    if a.entries != [] {
      assert a.entries[|a.entries| - 1] == l[h.rounds[pk.round].last - 1];
    }
  }

  lemma CountedNode(s: Node, i: nat, n: nat, m: Member, led: Terms, to: nat, a: AppendArgs, r: AppendReply, count: int)
    requires NodeOk(s, i, n, m, led) && to < n && Counts(s, r) && r.appState == AppNormal
    requires 0 <= a.prevLogIndex && a.prevLogIndex + |a.entries| <= |m.log|
    ensures HandleAppendReply(s, to, a, r, count) == Counted'(s, to, a, count)
    ensures NodeOk(Counted'(s, to, a, count).node, i, n, m, led)
  {
    CountedOutcome(s, m.log, to, a, r, count);
  }

  lemma CountedParts(net: set<Packet>, counts: seq<int>, h: History, s: Node, pk: Packet)
    requires NetOk(net, h) && RoundsOk(counts, h.rounds, h.proto) && 2 <= |h.proto.members|
    requires pk in net && pk.AppendReturn? && pk.from < |h.proto.members| && pk.to < |h.proto.members|
    requires pk.round < |h.rounds| && CountedFacts(h, s, pk)
    ensures var g, q := AckedHistory(h, pk.round, pk.to), Quorum(|h.proto.members|);
            && HistoryGrows(h, g) && NetOk(net - {pk}, g)
            && RoundsOk(counts[pk.round := if counts[pk.round] + 1 < q then counts[pk.round] + 1 else 0], g.rounds, g.proto)
  {
    AckedFrame(h, pk.round, pk.to);
    AckedNet(net, h, pk);
    AckedRounds(counts, h, pk.round, pk.to);
  }

  lemma CountedKeeps(w: World, v: World, pk: Packet)
    requires Inv(w) && pk in w.sys.net && pk.AppendReturn? && pk.from < |w.sys.nodes| && pk.to < |w.sys.nodes|
    requires pk.round < |w.sys.rounds| && Counts(w.sys.nodes[pk.from], pk.reply) && pk.reply.appState == AppNormal
    requires CountedFacts(w.hist, w.sys.nodes[pk.from], pk) && CountedReply(w, v, pk)
    ensures Inv(v) && HistoryGrows(w.hist, v.hist)
  {
    hide NodeOk, PacketOk, Distinct, Uncounted, RoundOk, ElectionOk, LedOk, MemberOk;
    var s, m := w.sys.nodes[pk.from], w.hist.proto.members[pk.from];
    CountedNode(s, pk.from, |w.sys.nodes|, m, w.hist.proto.led, pk.to, pk.args, pk.reply, w.sys.rounds[pk.round]);
    CountedParts(w.sys.net, w.sys.rounds, w.hist, s, pk);
    NodesKept(w.sys.nodes, w.hist.proto, v.sys.nodes, v.hist.proto, pk.from);
  }

  lemma ReturnAppendFacts(w: World, pk: Packet)
    requires Inv(w) && pk in w.sys.net && pk.AppendReturn?
    ensures pk.from < |w.sys.nodes| && pk.to < |w.sys.nodes| && pk.round < |w.sys.rounds| == |w.hist.rounds|
    ensures pk.reply.appState == AppNormal
    ensures w.hist.proto.members[pk.from].term == w.sys.nodes[pk.from].currentTerm
    ensures Counts(w.sys.nodes[pk.from], pk.reply) ==> CountedFacts(w.hist, w.sys.nodes[pk.from], pk)
  {
    assert PacketOk(w.hist, pk) && Uncounted(w.hist, KeyOf(pk));
    if Counts(w.sys.nodes[pk.from], pk.reply) {
      CountedTells(w.hist, w.sys.nodes[pk.from], |w.sys.nodes|, pk);
    }
  }

  lemma ReturnAppendCounts(w: World, pk: Packet)
    requires Inv(w) && Ready(w) && pk in w.sys.net && pk.AppendReturn? && pk.from < |w.sys.nodes| && pk.to < |w.sys.nodes|
    requires pk.round < |w.sys.rounds| && Counts(w.sys.nodes[pk.from], pk.reply) && pk.reply.appState == AppNormal
    requires CountedFacts(w.hist, w.sys.nodes[pk.from], pk)
    ensures CountedReply(w, ReturnAppendStep(w, pk), pk)
  {
    CountedNode(w.sys.nodes[pk.from], pk.from, |w.sys.nodes|, w.hist.proto.members[pk.from], w.hist.proto.led,
                pk.to, pk.args, pk.reply, w.sys.rounds[pk.round]);
    ReplyCountsIs(w, pk);
  }

  lemma ReturnAppendKeeps(w: World, pk: Packet)
    requires Inv(w) && Ready(w) && pk in w.sys.net && pk.AppendReturn? && pk.from < |w.sys.nodes|
    requires pk.to < |w.sys.nodes| && pk.round < |w.sys.rounds| && !w.sys.nodes[pk.from].halted
    ensures var v := ReturnAppendStep(w, pk);
            Inv(v) && HistoryGrows(w.hist, v.hist) && !v.sys.nodes[pk.from].halted
  {
    hide Inv, HistoryGrows, CountedFacts;
    var s := w.sys.nodes[pk.from];
    ReturnAppendFacts(w, pk);
    if Counts(s, pk.reply) {
      ReturnAppendCounts(w, pk);
      CountedKeeps(w, ReturnAppendStep(w, pk), pk);
    } else if Rewinds(s, pk.reply) {
      ReplyRewindsIs(w, pk);
      ReplyRewinds(w, ReturnAppendStep(w, pk), pk);
    } else {
      ReplyIdleIs(w, pk);
      TookTermKeeps(w, ReturnAppendStep(w, pk), pk.from, pk.reply.term, pk);
    }
  }

  /** The leader committed up to the end of a round of its own term, and a majority, itself included, held
      the last entry of that round or had compacted it when they answered in that round. */
  ghost predicate QuorumHeld(n: nat, leader: nat, t: Node, r: Round) {
    && t.commitIndex == r.last
    && r.leader == leader && r.term == r.lastTerm == t.currentTerm
    && Holds(t, r.last, t.currentTerm)
    && Majority(n, r.acked) && leader in r.acked && r.acked <= r.held + {leader}
  }

  lemma CommitTells(w: World, v: World, pk: Packet)
    requires Inv(w) && pk in w.sys.net && pk.AppendReturn? && pk.from < |w.sys.nodes| && pk.to < |w.sys.nodes|
    requires pk.round < |w.sys.rounds| && Counts(w.sys.nodes[pk.from], pk.reply) && pk.reply.appState == AppNormal
    requires CountedFacts(w.hist, w.sys.nodes[pk.from], pk) && CountedReply(w, v, pk)
    requires v.sys.nodes[pk.from].commitIndex != w.sys.nodes[pk.from].commitIndex
    ensures w.sys.nodes[pk.from].commitIndex < v.sys.nodes[pk.from].commitIndex
    ensures QuorumHeld(|w.sys.nodes|, pk.from, v.sys.nodes[pk.from], v.hist.rounds[pk.round])
  {
    hide PacketOk, Distinct, Uncounted, ElectionOk, LedOk, MemberOk, Known;
    var s, m := w.sys.nodes[pk.from], w.hist.proto.members[pk.from];
    CountedOutcome(s, m.log, pk.to, pk.args, pk.reply, w.sys.rounds[pk.round]);
    AckedRound(w.hist.proto, w.sys.rounds[pk.round], w.hist.rounds[pk.round], pk.to);
    Reads(v.sys.nodes[pk.from], m.log);
  }

  /** Commit quorum: a leader raises its commit index only over a round that a majority held. */
  lemma CommitQuorum(w: World, pk: Packet)
    requires Inv(w) && Ready(w) && pk in w.sys.net && pk.AppendReturn? && pk.from < |w.sys.nodes|
    requires pk.to < |w.sys.nodes| && pk.round < |w.sys.rounds|
    ensures var v := ReturnAppendStep(w, pk); var s, t := w.sys.nodes[pk.from], v.sys.nodes[pk.from];
            t.commitIndex != s.commitIndex ==>
              && s.status == Leader && s.commitIndex < t.commitIndex && s.currentTerm == t.currentTerm
              && QuorumHeld(|w.sys.nodes|, pk.from, t, v.hist.rounds[pk.round])
  {
    var s := w.sys.nodes[pk.from];
    ReturnAppendFacts(w, pk);
    if Counts(s, pk.reply) {
      ReturnAppendCounts(w, pk);
      if ReturnAppendStep(w, pk).sys.nodes[pk.from].commitIndex != s.commitIndex {
        CommitTells(w, ReturnAppendStep(w, pk), pk);
      }
    } else if Rewinds(s, pk.reply) {
      ReplyRewindsIs(w, pk);
    } else {
      ReplyIdleIs(w, pk);
    }
  }

  // Snapshots.

  function CoveredHistory(h: History, round: nat, to: nat, c: Log): History {
    h.(covered := h.covered[(round, to) := c])
  }

  lemma CoveredNet(net: set<Packet>, h: History, pk: Packet, a: SnapArgs, c: Log)
    requires NetOk(net, h) && pk in net && pk.SnapTask?
    requires PacketOk(CoveredHistory(h, pk.round, pk.to, c), SnapCall(pk.round, pk.from, pk.to, a))
    requires HistoryGrows(h, CoveredHistory(h, pk.round, pk.to, c))
    ensures NetOk(net - {pk} + {SnapCall(pk.round, pk.from, pk.to, a)}, CoveredHistory(h, pk.round, pk.to, c))
  {
    var g := CoveredHistory(h, pk.round, pk.to, c);
    var back := SnapCall(pk.round, pk.from, pk.to, a);
    assert Uncounted(h, KeyOf(pk));
    forall b | b in net && b != pk ensures SameCover(h, g, KeyOf(b)) && Uncounted(g, KeyOf(b)) {
      assert Uncounted(h, KeyOf(b)) && KeyOf(b) != KeyOf(pk);
    }
    NetKept(net, h, g, {pk}, {back});
  }

  lemma SentSnapshotOk(h: History, pk: Packet, s: Node, n: nat)
    requires Sound(h.proto) && pk.SnapTask? && PacketOk(h, pk) && n == |h.proto.members|
    requires NodeOk(s, pk.from, n, h.proto.members[pk.from], h.proto.led)
    ensures var c := h.proto.members[pk.from].log[..s.snapIndex];
            PacketOk(CoveredHistory(h, pk.round, pk.to, c), SnapCall(pk.round, pk.from, pk.to, SnapshotRequest(s)))
  {
    var l := h.proto.members[pk.from].log;
    assert MemberOk(h.proto.members[pk.from], n, h.proto.led);
    assert TermOf(l[..s.snapIndex], s.snapIndex) == TermOf(l, s.snapIndex);
  }

  lemma SendSnapKeeps(w: World, pk: Packet)
    requires Inv(w) && Ready(w) && pk in w.sys.net && pk.SnapTask? && pk.from < |w.sys.nodes|
    ensures var v := SendSnapStep(w, pk);
            Inv(v) && HistoryGrows(w.hist, v.hist) && v.sys.nodes == w.sys.nodes
  {
    hide Known, Distinct, Uncounted, RoundOk, ElectionOk, LedOk, MemberOk;
    var s := w.sys.nodes[pk.from];
    assert PacketOk(w.hist, pk);
    SentSnapshotOk(w.hist, pk, s, |w.sys.nodes|);
    CoveredNet(w.sys.net, w.hist, pk, SnapshotRequest(s), w.hist.proto.members[pk.from].log[..s.snapIndex]);
  }

  /** The member after InstallSnapshot. */
  function Installed(s: Node, m: Member, a: SnapArgs, c: Log): Member {
    var w := m.(term := Max(m.term, a.term));
    if Installs(s, a) then w.(log := Overlay(m.log, 0, c)) else w
  }

  lemma InstalledOk(s: Node, i: nat, n: nat, m: Member, led: Terms, a: SnapArgs, c: Log)
    requires NodeOk(s, i, n, m, led) && MemberOk(m, n, led) && !s.halted
    requires Known(led, c, a.term) && a.lastIndex == |c| && a.lastTerm == TermOf(c, |c|)
    ensures var w := Installed(s, m, a, c); var ans := HandleSnapshot(s, a);
            && MemberOk(w, n, led) && MemberGrows(m, w) && |m.log| <= |w.log|
            && NodeOk(ans.node, i, n, w, led) && !ans.node.halted && ans.node.currentTerm == w.term
  {
    SnapshotOutcome(s, m.log, c, a);
    LaterTerm(m, n, led, a.term);
    if Installs(s, a) {
      KnownGrows(led, led, m.log, m.term, a.term);
      OverlayKnown(led, m.log, 0, c, c, a.term);
    } else if m.term <= a.term {
      AdoptedNode(s, i, n, m, led, a.term, false);
    }
  }

  lemma SnapStepIs(w: World, pk: Packet)
    requires Ready(w) && pk.SnapCall? && pk.to < |w.sys.nodes| && (pk.round, pk.to) in w.hist.covered
    requires HandleSnapshot(w.sys.nodes[pk.to], pk.sargs).node.currentTerm
             == Max(w.hist.proto.members[pk.to].term, pk.sargs.term)
    ensures DeliverSnapStep(w, pk).hist == WithMember(w.hist, pk.to,
              Installed(w.sys.nodes[pk.to], w.hist.proto.members[pk.to], pk.sargs, w.hist.covered[(pk.round, pk.to)]))
  {
  }

  lemma DeliverSnapKeeps(w: World, pk: Packet)
    requires Inv(w) && Ready(w) && pk in w.sys.net && pk.SnapCall? && pk.to < |w.sys.nodes|
    requires !w.sys.nodes[pk.to].halted
    ensures var v := DeliverSnapStep(w, pk);
            Inv(v) && HistoryGrows(w.hist, v.hist) && !v.sys.nodes[pk.to].halted
  {
    var v, h := DeliverSnapStep(w, pk), w.hist;
    var s, m, n := w.sys.nodes[pk.to], h.proto.members[pk.to], |w.sys.nodes|;
    assert PacketOk(h, pk) && MemberOk(m, n, h.proto.led);
    var c := h.covered[(pk.round, pk.to)];
    InstalledOk(s, pk.to, n, m, h.proto.led, pk.sargs, c);
    SnapStepIs(w, pk);
    MemberFrame(h, pk.to, Installed(s, m, pk.sargs, c));
    PacketKept(h, v.hist, pk);
    NetAnswered(w.sys.net, h, v.hist, pk,
                SnapReturn(pk.round, pk.from, pk.to, pk.sargs, HandleSnapshot(s, pk.sargs).reply));
    MemberStepKeeps(w, v, pk.to, Installed(s, m, pk.sargs, c));
  }

  /** The leader counts the snapshot as installed. */
  predicate Resets(s: Node, a: SnapArgs, r: SnapReply) {
    s.status == Leader && s.currentTerm == a.term && r.term <= s.currentTerm
  }

  lemma ResetNode(h: History, s: Node, n: nat, pk: Packet)
    requires pk.SnapReturn? && PacketOk(h, pk) && n == |h.proto.members| && Resets(s, pk.sargs, pk.sreply)
    requires NodeOk(s, pk.from, n, h.proto.members[pk.from], h.proto.led)
    ensures NodeOk(HandleSnapshotReply(s, pk.to, pk.sargs, pk.sreply), pk.from, n, h.proto.members[pk.from], h.proto.led)
  {
  }

  lemma ReturnSnapIs(w: World, pk: Packet)
    requires Ready(w) && pk.SnapReturn? && pk.from < |w.sys.nodes| && pk.to < |w.sys.nodes|
    requires var s := w.sys.nodes[pk.from];
             !Resets(s, pk.sargs, pk.sreply) && w.hist.proto.members[pk.from].term == s.currentTerm
    ensures var s := w.sys.nodes[pk.from];
            var t := if s.status == Leader && s.currentTerm == pk.sargs.term then pk.sreply.term else s.currentTerm;
            TookTerm(w, ReturnSnapStep(w, pk), pk.from, t, pk)
  {
  }

  lemma ReturnSnapKeeps(w: World, pk: Packet)
    requires Inv(w) && Ready(w) && pk in w.sys.net && pk.SnapReturn? && pk.from < |w.sys.nodes| && pk.to < |w.sys.nodes|
    requires !w.sys.nodes[pk.from].halted
    ensures var v := ReturnSnapStep(w, pk);
            Inv(v) && HistoryGrows(w.hist, v.hist) && !v.sys.nodes[pk.from].halted
  {
    var v, s := ReturnSnapStep(w, pk), w.sys.nodes[pk.from];
    assert PacketOk(w.hist, pk);
    assert NodeOk(s, pk.from, |w.sys.nodes|, w.hist.proto.members[pk.from], w.hist.proto.led);
    if Resets(s, pk.sargs, pk.sreply) {
      ResetNode(w.hist, s, |w.sys.nodes|, pk);
      CallEndedKeeps(w, v, pk.from, pk);
    } else {
      ReturnSnapIs(w, pk);
      TookTermKeeps(w, v, pk.from,
                    if s.status == Leader && s.currentTerm == pk.sargs.term then pk.sreply.term else s.currentTerm, pk);
    }
  }
}
