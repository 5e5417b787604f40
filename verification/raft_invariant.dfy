/** What holds in every reachable state of the cluster, whatever the calls overwrite or keep. */
module RaftInvariant {
  import opened RaftTypes
  import opened RaftNode
  import opened RaftCompaction
  import opened RaftHandlers
  import opened RaftProtocol
  import opened RaftCluster

  /** The number of votes, or of successes, that the counters wait for. */
  function Quorum(n: nat): nat { n / 2 + 1 }

  // Nodes.

  ghost predicate CursorsOk(s: Node, last: nat) {
    forall j :: 0 <= j < |s.nextIndex| && j < |s.matchIndex| ==>
      1 <= s.nextIndex[j] <= last + 1 && s.matchIndex[j] <= last
  }

  ghost predicate Leads(s: Node, i: nat, m: Member, led: Terms) {
    s.status == Leader ==> m.term in led && led[m.term] == Led(i, m.log) && CursorsOk(s, |m.log|)
  }

  ghost predicate NodeOk(s: Node, i: nat, n: nat, m: Member, led: Terms) {
    && s.me == i && s.peers == n == |s.nextIndex| == |s.matchIndex|
    && s.currentTerm == m.term
    && s.votedFor == (if m.term in m.voted then m.voted[m.term] else -1)
    && Represents(s, m.log)
    && NumbersOk(s, |m.log|)
    && Leads(s, i, m, led)
  }

  // Calls.

  ghost predicate VoteArgsOk(h: History, from: nat, a: VoteArgs)
    requires from < |h.proto.members|
  {
    var m := h.proto.members[from];
    && a.candidateId == from
    && a.term in m.asked
    && a.lastLogIndex == |m.asked[a.term]| && a.lastLogTerm == TermOf(m.asked[a.term], |m.asked[a.term]|)
    && (from, a.term) in h.counted
  }

  /** The batch is the segment after prevLogIndex of the log led in its term, up to the end of its round. */
  ghost predicate AppendArgsOk(h: History, round: nat, from: nat, a: AppendArgs) {
    && round < |h.rounds|
    && var r := h.rounds[round];
    && r.leader == from && r.term == a.term && a.leaderId == from
    && a.term in h.proto.led && h.proto.led[a.term].leader == from
    && var l := h.proto.led[a.term].log;
    && 0 <= a.prevLogIndex && a.prevLogIndex + |a.entries| == r.last <= |l|
    && a.entries == l[a.prevLogIndex..r.last]
    && a.prevLogTerm == TermOf(l, a.prevLogIndex)
    && r.lastTerm == TermOf(l, r.last)
    && 0 <= a.leaderCommit <= r.last
  }

  ghost predicate AppendReplyOk(h: History, round: nat, to: nat, a: AppendArgs, r: AppendReply)
    requires round < |h.rounds| && to < |h.proto.members|
  {
    && r.appState == AppNormal
    && (r.success ==>
          && r.term == a.term
          && to in h.rounds[round].held
          && a.term in h.proto.members[to].acked
          && h.rounds[round].last <= h.proto.members[to].acked[a.term])
    && (!r.success && r.updateNextIndex != NO_UPDATE ==>
          r.term == a.term && 1 <= r.updateNextIndex <= a.prevLogIndex)
    && (!r.success && r.updateNextIndex == NO_UPDATE ==> a.term < r.term)
  }

  ghost predicate SnapArgsOk(h: History, round: nat, from: nat, to: nat, a: SnapArgs)
    requires from < |h.proto.members|
  {
    && (round, to) in h.covered
    && var s := h.covered[(round, to)];
    && a.leaderId == from && a.term <= h.proto.members[from].term
    && a.lastIndex == |s| && a.lastTerm == TermOf(s, |s|)
    && Known(h.proto.led, s, a.term)
    && |s| <= |h.proto.members[from].log|
  }

  ghost predicate PacketOk(h: History, pk: Packet) {
    && pk.from < |h.proto.members| && pk.to < |h.proto.members| && pk.from != pk.to
    && match pk
       case VoteCall(from, to, a) => VoteArgsOk(h, from, a)
       case VoteReturn(from, to, a, r) =>
         && VoteArgsOk(h, from, a)
         && (r.voteGranted ==> r.term == a.term && to in Voters(h.proto.members, from, a.term))
       case AppendCall(round, from, to, a) => AppendArgsOk(h, round, from, a)
       case AppendReturn(round, from, to, a, r) => AppendArgsOk(h, round, from, a) && AppendReplyOk(h, round, to, a, r)
       case SnapTask(round, from, to) => round < |h.rounds|
       case SnapCall(round, from, to, a) => round < |h.rounds| && SnapArgsOk(h, round, from, to, a)
       case SnapReturn(round, from, to, a, _) => round < |h.rounds| && SnapArgsOk(h, round, from, to, a)
  }

  datatype Key = VoteKey(from: nat, to: nat, term: int) | RoundKey(round: nat, to: nat)

  function KeyOf(pk: Packet): Key {
    match pk
    case VoteCall(from, to, a) => VoteKey(from, to, a.term)
    case VoteReturn(from, to, a, _) => VoteKey(from, to, a.term)
    case AppendCall(round, _, to, _) => RoundKey(round, to)
    case AppendReturn(round, _, to, _, _) => RoundKey(round, to)
    case SnapTask(round, _, to) => RoundKey(round, to)
    case SnapCall(round, _, to, _) => RoundKey(round, to)
    case SnapReturn(round, _, to, _, _) => RoundKey(round, to)
  }

  /** A call is under way only once. */
  ghost predicate Distinct(net: set<Packet>) {
    forall a, b :: a in net && b in net && KeyOf(a) == KeyOf(b) ==> a == b
  }

  /** A call whose answer is outstanding has not been counted. */
  ghost predicate Uncounted(h: History, k: Key) {
    match k
    case VoteKey(from, to, t) => (from, t) in h.counted ==> to !in h.counted[(from, t)]
    case RoundKey(round, to) => round < |h.rounds| ==> to !in h.rounds[round].acked
  }

  // Counters.

  ghost predicate ElectionOk(p: Proto, c: nat, t: int, count: int, counted: set<nat>) {
    var q := Quorum(|p.members|);
    && c in counted && counted <= Voters(p.members, c, t)
    && 0 <= count < q
    && |counted| == count + (if t in p.led && p.led[t].leader == c then q else 0)
  }

  ghost predicate ElectionsOk(votes: map<(nat, int), int>, counted: map<(nat, int), set<nat>>, p: Proto) {
    && votes.Keys == counted.Keys
    && forall x :: x in votes ==> ElectionOk(p, x.0, x.1, votes[x], counted[x])
  }

  ghost predicate RoundOk(p: Proto, count: int, r: Round) {
    var q := Quorum(|p.members|);
    && r.leader < |p.members|
    && r.term in p.led && p.led[r.term].leader == r.leader
    && 0 <= r.last <= |p.led[r.term].log| && r.lastTerm == TermOf(p.led[r.term].log, r.last)
    && r.leader in r.acked && r.acked <= r.held + {r.leader}
    && 0 <= count && (|r.acked| == count < q || |r.acked| == count + q)
    && (forall v :: v in r.acked ==> v < |p.members|)
    && (forall v :: v in r.acked && v != r.leader ==>
          r.term in p.members[v].acked && r.last <= p.members[v].acked[r.term])
  }

  ghost predicate RoundsOk(counts: seq<int>, rounds: seq<Round>, p: Proto) {
    && |counts| == |rounds|
    && forall r :: 0 <= r < |counts| ==> RoundOk(p, counts[r], rounds[r])
  }

  ghost predicate NodesOk(nodes: seq<Node>, p: Proto) {
    && |nodes| == |p.members|
    && forall i :: 0 <= i < |nodes| ==> NodeOk(nodes[i], i, |nodes|, p.members[i], p.led)
  }

  ghost predicate NetOk(net: set<Packet>, h: History) {
    && Distinct(net)
    && forall pk :: pk in net ==> PacketOk(h, pk) && Uncounted(h, KeyOf(pk))
  }

  ghost predicate Inv(w: World) {
    && 2 <= |w.sys.nodes|
    && NodesOk(w.sys.nodes, w.hist.proto)
    && |w.sys.applied| == |w.sys.nodes|
    && Sound(w.hist.proto)
    && NetOk(w.sys.net, w.hist)
    && ElectionsOk(w.sys.votes, w.hist.counted, w.hist.proto)
    && RoundsOk(w.sys.rounds, w.hist.rounds, w.hist.proto)
  }

  lemma InvReady(w: World)
    requires Inv(w)
    ensures Ready(w)
  {
    forall pk | pk in w.sys.net ensures pk.to < |w.sys.nodes| && (pk.AppendReturn? ==> pk.round < |w.sys.rounds|) {
      assert PacketOk(w.hist, pk);
    }
  }

  // What every step keeps of the history.

  ghost predicate RoundGrows(a: Round, b: Round) {
    a.leader == b.leader && a.term == b.term && a.last == b.last && a.lastTerm == b.lastTerm && a.held <= b.held
  }

  ghost predicate HistoryGrows(h: History, g: History) {
    && Grows(h.proto, g.proto)
    && (forall i :: 0 <= i < |h.proto.members| ==> |h.proto.members[i].log| <= |g.proto.members[i].log|)
    && (forall x :: x in h.counted ==> x in g.counted)
    && |h.rounds| <= |g.rounds|
    && (forall r :: 0 <= r < |h.rounds| ==> RoundGrows(h.rounds[r], g.rounds[r]))
  }

  lemma SliceOfPrefix(a: Log, b: Log, i: nat, j: nat)
    requires a <= b && i <= j <= |a|
    ensures a[i..j] == b[i..j] && TermOf(a, i) == TermOf(b, i) && TermOf(a, j) == TermOf(b, j)
  {
  }

  lemma AppendArgsKept(h: History, g: History, round: nat, from: nat, a: AppendArgs)
    requires HistoryGrows(h, g) && AppendArgsOk(h, round, from, a)
    ensures AppendArgsOk(g, round, from, a)
  {
    assert RoundGrows(h.rounds[round], g.rounds[round]);
    SliceOfPrefix(h.proto.led[a.term].log, g.proto.led[a.term].log, a.prevLogIndex, h.rounds[round].last);
  }

  lemma SnapArgsKept(h: History, g: History, round: nat, from: nat, to: nat, a: SnapArgs)
    requires HistoryGrows(h, g) && from < |h.proto.members| && SnapArgsOk(h, round, from, to, a)
    requires (round, to) in g.covered && g.covered[(round, to)] == h.covered[(round, to)]
    ensures SnapArgsOk(g, round, from, to, a)
  {
    KnownGrows(h.proto.led, g.proto.led, h.covered[(round, to)], a.term, a.term);
    assert MemberGrows(h.proto.members[from], g.proto.members[from]);
  }

  ghost predicate SameCover(h: History, g: History, k: Key) {
    k.RoundKey? && (k.round, k.to) in h.covered ==>
      (k.round, k.to) in g.covered && g.covered[(k.round, k.to)] == h.covered[(k.round, k.to)]
  }

  lemma PacketKept(h: History, g: History, pk: Packet)
    requires HistoryGrows(h, g) && PacketOk(h, pk) && SameCover(h, g, KeyOf(pk))
    ensures PacketOk(g, pk)
  {
    assert MemberGrows(h.proto.members[pk.from], g.proto.members[pk.from]);
    assert MemberGrows(h.proto.members[pk.to], g.proto.members[pk.to]);
    match pk
    case VoteCall(_, _, _) =>
    case VoteReturn(_, _, _, _) =>
    case AppendCall(round, from, _, a) => AppendArgsKept(h, g, round, from, a);
    case AppendReturn(round, from, _, a, _) =>
      AppendArgsKept(h, g, round, from, a);
      assert RoundGrows(h.rounds[round], g.rounds[round]);
    case SnapTask(_, _, _) =>
    case SnapCall(round, from, to, a) => SnapArgsKept(h, g, round, from, to, a);
    case SnapReturn(round, from, to, a, _) => SnapArgsKept(h, g, round, from, to, a);
  }

  lemma ElectionKept(p: Proto, q: Proto, c: nat, t: int, count: int, counted: set<nat>)
    requires Grows(p, q) && ElectionOk(p, c, t, count, counted)
    requires t in q.led && q.led[t].leader == c ==> t in p.led
    ensures ElectionOk(q, c, t, count, counted)
  {
    forall v | v in counted ensures v in Voters(q.members, c, t) {
      assert v in Voters(p.members, c, t);
      assert MemberGrows(p.members[v], q.members[v]);
    }
  }

  lemma RoundKept(p: Proto, q: Proto, count: int, a: Round, b: Round)
    requires Grows(p, q) && RoundOk(p, count, a) && RoundGrows(a, b) && b.acked == a.acked
    ensures RoundOk(q, count, b)
  {
    SliceOfPrefix(p.led[a.term].log, q.led[a.term].log, 0, a.last);
    forall v | v in b.acked && v != b.leader
      ensures b.term in q.members[v].acked && b.last <= q.members[v].acked[b.term]
    {
      assert MemberGrows(p.members[v], q.members[v]);
    }
  }

  /** Leaders of other terms, and other leaders, keep what they lead. */
  lemma NodeKept(s: Node, j: nat, n: nat, m: Member, a: Terms, b: Terms)
    requires NodeOk(s, j, n, m, a)
    requires m.term in a && a[m.term].leader == j ==> m.term in b && b[m.term] == a[m.term]
    ensures NodeOk(s, j, n, m, b)
  {
  }
}
