/**
 * Safety of the runs in which no write leaves a stale tail behind a conflict and no snapshot keeps a
 * suffix of another history: logs match, and no two nodes ever hand over different commands at one index.
 */
module RaftSafety {
  import opened RaftTypes
  import opened RaftNode
  import opened RaftCompaction
  import opened RaftHandlers
  import opened RaftProtocol
  import opened RaftAgreement
  import opened RaftCluster
  import opened RaftInvariant
  import opened RaftSteps
  import opened RaftReplySteps
  import opened RaftRuns
  import opened RaftApply

  // What a caller could check before the call.

  /** The batch overwrites an entry of the node by one of another term. */
  ghost predicate Overwrites(s: Node, a: AppendArgs) {
    exists j :: 0 <= j < |a.entries| && CanSlice(s, a.prevLogIndex + 1 + j)
             && At(s, a.prevLogIndex + 1 + j).term != a.entries[j].term
  }

  /** A batch that would be accepted and conflicts with the node's log reaches the end of that log. */
  ghost predicate AppendGuard(s: Node, a: AppendArgs) {
    a.term >= s.currentTerm && CanRead(s, a.prevLogIndex) && LogTermAt(s, a.prevLogIndex) == a.prevLogTerm
      && Overwrites(s, a)
    ==> LastLogIndex(s) <= a.prevLogIndex + |a.entries|
  }

  /** A snapshot that would keep a suffix of the log lands on the term that it covers. */
  ghost predicate SnapGuard(s: Node, a: SnapArgs) {
    Installs(s, a) && LastLogIndex(s) > a.lastIndex ==>
      CanRead(s, a.lastIndex) && LogTermAt(s, a.lastIndex) == a.lastTerm
  }

  ghost predicate Guarded(sys: System, a: Action) {
    match a
    case DeliverAppend(pk) => pk.AppendCall? && pk.to < |sys.nodes| ==> AppendGuard(sys.nodes[pk.to], pk.args)
    case DeliverSnap(pk) => pk.SnapCall? && pk.to < |sys.nodes| ==> SnapGuard(sys.nodes[pk.to], pk.sargs)
    case _ => true
  }

  ghost predicate GuardedRun(n: nat, run: seq<World>, acts: seq<Action>) {
    IsRun(n, run, acts) && forall k :: 0 <= k < |acts| ==> Guarded(run[k].sys, acts[k])
  }

  // The rules of the Raft paper, beside what the code does.

  /** AppendEntries as Figure 2 of the Raft paper has it: from the first conflict on, the old log goes. */
  function Truncating(f: Log, prev: nat, es: Log): Log
    requires prev <= |f|
    decreases |es|
  {
    if es == [] then f
    else if prev < |f| && f[prev].term == es[0].term then Truncating(f, prev + 1, es[1..])
    else f[..prev] + es
  }

  lemma RestReaches(f: Log, prev: nat, es: Log)
    requires prev < |f| && es != [] && f[prev].term == es[0].term
    ensures ReachesEnd(f, prev, es) <==> ReachesEnd(f, prev + 1, es[1..])
  {
    var rest := es[1..];
    if Conflicts(f, prev, es) {
      var j :| 0 <= j < |es| && prev + j < |f| && f[prev + j].term != es[j].term;
      assert rest[j - 1] == es[j];
      assert f[prev + 1 + (j - 1)].term != rest[j - 1].term;
    }
    if Conflicts(f, prev + 1, rest) {
      var j :| 0 <= j < |rest| && prev + 1 + j < |f| && f[prev + 1 + j].term != rest[j].term;
      assert f[prev + (j + 1)].term != es[j + 1].term;
    }
  }

  /** The loop that overwrites in place gives Raft's result if and only if it leaves no stale tail. */
  lemma {:induction false} OverwritingIsTruncating(f: Log, prev: nat, es: Log)
    requires prev <= |f| && Consistent(f, prev, es)
    ensures Overlay(f, prev, es) == Truncating(f, prev, es) <==> ReachesEnd(f, prev, es)
    decreases |es|
  {
    if es == [] {
      assert Overlay(f, prev, es) == f;
    } else if prev < |f| && f[prev].term == es[0].term {
      var rest := es[1..];
      forall j | 0 <= j < |rest| && prev + 1 + j < |f| && f[prev + 1 + j].term == rest[j].term
        ensures f[prev + 1 + j] == rest[j]
      {
        assert es[j + 1] == rest[j] && f[prev + (j + 1)] == f[prev + 1 + j];
      }
      RestReaches(f, prev, es);
      OverwritingIsTruncating(f, prev + 1, rest);
      assert f[prev] == es[0];
      assert Overlay(f, prev, es) == Overlay(f, prev + 1, rest);
    } else if prev < |f| {
      assert f[prev + 0].term != es[0].term;
      assert Conflicts(f, prev, es);
      assert |Overlay(f, prev, es)| == Max(|f|, prev + |es|);
    }
  }

  /** InstallSnapshot as section 7 of the Raft paper has it: a suffix is kept only behind an equal term. */
  function Discarding(f: Log, c: Log): Log {
    if |c| < |f| && TermOf(f, |c|) == TermOf(c, |c|) then c + f[|c|..] else c
  }

  /** Keeping the suffix unseen gives Raft's result if and only if the terms are equal. */
  lemma KeepingIsDiscarding(f: Log, c: Log)
    ensures InstalledLog(f, c) == Discarding(f, c) <==> (|c| < |f| ==> TermOf(f, |c|) == TermOf(c, |c|))
  {
    if |c| < |f| {
      assert InstalledLog(f, c) == c + f[|c|..] && |InstalledLog(f, c)| == |f|;
    } else {
      assert InstalledLog(f, c) == c;
    }
  }

  // What is safe.

  ghost predicate CommitSafe(p: Proto, m: Member, s: Node) {
    0 <= s.commitIndex <= |m.log| && Committed(p, m.log[..s.commitIndex], m.term)
  }

  /** The commands handed over are those of the committed log. */
  ghost predicate AppliedSafe(msgs: seq<ApplyMsg>, f: Log, commit: int) {
    forall m :: m in msgs && m.CommandMsg? ==>
      1 <= m.index <= commit && m.index <= |f| && f[m.index - 1].command == m.command
  }

  ghost predicate NodeSafe(p: Proto, m: Member, s: Node, msgs: seq<ApplyMsg>) {
    CommitSafe(p, m, s) && AppliedSafe(msgs, m.log, s.commitIndex)
  }

  /** The leader commit of a batch and the prefix covered by a snapshot are committed. */
  ghost predicate BatchSafe(p: Proto, a: AppendArgs) {
    && a.term in p.led && 0 <= a.leaderCommit <= |p.led[a.term].log|
    && Committed(p, p.led[a.term].log[..a.leaderCommit], a.term)
  }

  ghost predicate CoverSafe(h: History, round: nat, to: nat, a: SnapArgs) {
    && (round, to) in h.covered
    && Matched(h.proto.led, h.covered[(round, to)], a.term)
    && Committed(h.proto, h.covered[(round, to)], a.term)
  }

  ghost predicate PacketSafe(h: History, pk: Packet) {
    match pk
    case AppendCall(_, _, _, a) => BatchSafe(h.proto, a)
    case AppendReturn(_, _, _, a, _) => BatchSafe(h.proto, a)
    case SnapCall(round, _, to, a) => CoverSafe(h, round, to, a)
    case SnapReturn(round, _, to, a, _) => CoverSafe(h, round, to, a)
    case _ => true
  }

  ghost predicate NodesSafe(p: Proto, nodes: seq<Node>, applied: seq<seq<ApplyMsg>>) {
    && |nodes| == |p.members| == |applied|
    && forall i :: 0 <= i < |nodes| ==> NodeSafe(p, p.members[i], nodes[i], applied[i])
  }

  ghost predicate NetSafe(h: History, net: set<Packet>) {
    forall pk :: pk in net ==> PacketSafe(h, pk)
  }

  ghost predicate Safe(w: World) {
    && Agreed(w.hist.proto)
    && NodesSafe(w.hist.proto, w.sys.nodes, w.sys.applied)
    && NetSafe(w.hist, w.sys.net)
  }

  // Frames.

  lemma NodeSafeGrows(p: Proto, q: Proto, m: Member, w: Member, s: Node, t: Node, msgs: seq<ApplyMsg>)
    requires Grows(p, q) && NodeSafe(p, m, s, msgs) && t.commitIndex == s.commitIndex && m.term <= w.term
    requires m.log[..s.commitIndex] <= w.log
    ensures NodeSafe(q, w, t, msgs)
  {
    CommittedGrows(p, q, m.log[..s.commitIndex], m.term, w.term);
    assert w.log[..t.commitIndex] == m.log[..s.commitIndex];
    AppliedKept(msgs, m.log, s.commitIndex, w.log, t.commitIndex);
  }

  lemma AppliedKept(msgs: seq<ApplyMsg>, f: Log, c: nat, g: Log, d: nat)
    requires AppliedSafe(msgs, f, c) && c <= |f| && f[..c] <= g && c <= d <= |g|
    ensures AppliedSafe(msgs, g, d)
  {
    forall m | m in msgs && m.CommandMsg? ensures m.index <= |g| && g[m.index - 1].command == m.command {
      assert f[..c][m.index - 1] == f[m.index - 1];
    }
  }

  lemma PacketSafeGrows(h: History, g: History, pk: Packet)
    requires Grows(h.proto, g.proto) && PacketSafe(h, pk) && SameCover(h, g, KeyOf(pk))
    ensures PacketSafe(g, pk)
  {
    match pk
    case AppendCall(_, _, _, a) => BatchSafeGrows(h.proto, g.proto, a);
    case AppendReturn(_, _, _, a, _) => BatchSafeGrows(h.proto, g.proto, a);
    case SnapCall(round, _, to, a) => CoverSafeGrows(h, g, round, to, a);
    case SnapReturn(round, _, to, a, _) => CoverSafeGrows(h, g, round, to, a);
    case _ =>
  }

  lemma BatchSafeGrows(p: Proto, q: Proto, a: AppendArgs)
    requires Grows(p, q) && BatchSafe(p, a)
    ensures BatchSafe(q, a)
  {
    assert p.led[a.term].log[..a.leaderCommit] == q.led[a.term].log[..a.leaderCommit];
    CommittedGrows(p, q, p.led[a.term].log[..a.leaderCommit], a.term, a.term);
  }

  lemma CoverSafeGrows(h: History, g: History, round: nat, to: nat, a: SnapArgs)
    requires Grows(h.proto, g.proto) && CoverSafe(h, round, to, a)
    requires (round, to) in g.covered && g.covered[(round, to)] == h.covered[(round, to)]
    ensures CoverSafe(g, round, to, a)
  {
    MatchedGrows(h.proto.led, g.proto.led, h.covered[(round, to)], a.term, a.term);
    CommittedGrows(h.proto, g.proto, h.covered[(round, to)], a.term, a.term);
  }

  lemma NodesSafeKept(p: Proto, q: Proto, a: seq<Node>, b: seq<Node>, x: seq<seq<ApplyMsg>>, y: seq<seq<ApplyMsg>>, i: nat)
    requires NodesSafe(p, a, x) && Grows(p, q) && i < |a| == |b| && |y| == |x|
    requires forall j :: 0 <= j < |a| && j != i ==> q.members[j] == p.members[j] && b[j] == a[j] && y[j] == x[j]
    requires NodeSafe(q, q.members[i], b[i], y[i])
    ensures NodesSafe(q, b, y)
  {
    forall j | 0 <= j < |b| ensures NodeSafe(q, q.members[j], b[j], y[j]) {
      if j != i {
        assert NodeSafe(p, p.members[j], a[j], x[j]);
        assert p.members[j].log[..a[j].commitIndex] <= p.members[j].log;
        NodeSafeGrows(p, q, p.members[j], q.members[j], a[j], b[j], x[j]);
      }
    }
  }

  lemma NetSafeKept(h: History, g: History, a: set<Packet>, b: set<Packet>)
    requires NetSafe(h, a) && Grows(h.proto, g.proto)
    requires forall pk :: pk in b ==> (pk in a && SameCover(h, g, KeyOf(pk))) || PacketSafe(g, pk)
    ensures NetSafe(g, b)
  {
    forall pk | pk in b ensures PacketSafe(g, pk) {
      if pk in a && SameCover(h, g, KeyOf(pk)) { PacketSafeGrows(h, g, pk); }
    }
  }

  /** Only node i and its member changed, and the calls under way are old ones or safe. */
  ghost predicate Local(w: World, v: World, i: nat) {
    && i < |w.sys.nodes| == |v.sys.nodes| == |w.hist.proto.members| == |v.hist.proto.members|
    && |w.sys.applied| == |v.sys.applied| == |w.sys.nodes|
    && forall j :: 0 <= j < |w.sys.nodes| && j != i ==>
         && v.hist.proto.members[j] == w.hist.proto.members[j]
         && v.sys.nodes[j] == w.sys.nodes[j] && v.sys.applied[j] == w.sys.applied[j]
  }

  ghost predicate CallsSafe(w: World, v: World) {
    forall pk :: pk in v.sys.net ==> (pk in w.sys.net && SameCover(w.hist, v.hist, KeyOf(pk))) || PacketSafe(v.hist, pk)
  }

  lemma SafeKept(w: World, v: World, i: nat)
    requires Safe(w) && Local(w, v, i) && CallsSafe(w, v)
    requires Grows(w.hist.proto, v.hist.proto) && Agreed(v.hist.proto)
    requires NodeSafe(v.hist.proto, v.hist.proto.members[i], v.sys.nodes[i], v.sys.applied[i])
    ensures Safe(v)
  {
    NodesSafeKept(w.hist.proto, v.hist.proto, w.sys.nodes, v.sys.nodes, w.sys.applied, v.sys.applied, i);
    NetSafeKept(w.hist, v.hist, w.sys.net, v.sys.net);
  }

  /** A step of node i that commits, applies and sends nothing, and keeps its log. */
  lemma SafeUnmoved(w: World, v: World, i: nat)
    requires Safe(w) && Local(w, v, i) && CallsSafe(w, v)
    requires Grows(w.hist.proto, v.hist.proto) && Agreed(v.hist.proto)
    requires v.hist.proto.members[i].log == w.hist.proto.members[i].log
    requires v.sys.nodes[i].commitIndex == w.sys.nodes[i].commitIndex && v.sys.applied[i] == w.sys.applied[i]
    ensures Safe(v)
  {
    var p, q := w.hist.proto, v.hist.proto;
    assert NodeSafe(p, p.members[i], w.sys.nodes[i], w.sys.applied[i]);
    assert MemberGrows(p.members[i], q.members[i]);
    NodeSafeGrows(p, q, p.members[i], q.members[i], w.sys.nodes[i], v.sys.nodes[i], w.sys.applied[i]);
    SafeKept(w, v, i);
  }

  lemma GrowsSame(p: Proto)
    ensures Grows(p, p)
  {
  }

  /** The history stayed as it was. */
  lemma SafeQuiet(w: World, v: World, i: nat)
    requires Safe(w) && Local(w, v, i) && v.hist == w.hist && v.sys.net <= w.sys.net
    requires v.sys.nodes[i].commitIndex == w.sys.nodes[i].commitIndex && v.sys.applied[i] == w.sys.applied[i]
    ensures Safe(v)
  {
    GrowsSame(w.hist.proto);
    SafeUnmoved(w, v, i);
  }

  // Later terms.

  lemma TermAgreed(p: Proto, i: nat, t: int)
    requires Agreed(p) && i < |p.members|
    ensures var m := p.members[i]; var q := p.(members := p.members[i := m.(term := Max(m.term, t))]);
            Grows(p, q) && Agreed(q)
  {
    BumpAgreed(p, i, Max(p.members[i].term, t));
  }

  lemma TookTermSafe(w: World, v: World, i: nat, t: int, pk: Packet)
    requires Safe(w) && Inv(w) && i < |w.sys.nodes| && TookTerm(w, v, i, t, pk)
    ensures Safe(v)
  {
    hide PacketOk, Agreed, NodesSafe, NetSafe, MemberOk, LedOk, Distinct, Uncounted, ElectionsOk, RoundsOk;
    TermAgreed(w.hist.proto, i, t);
    SafeUnmoved(w, v, i);
  }
}
