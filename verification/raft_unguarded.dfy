/**
 * Without the guard the promise of Raft fails: a run of three nodes, without any loss or restart, in which
 * two nodes hand over different commands at index 1.
 */
module RaftUnguarded {
  import opened RaftTypes
  import opened RaftNode
  import opened RaftCompaction
  import opened RaftHandlers
  import opened RaftProtocol
  import opened RaftCluster
  import opened RaftInvariant
  import opened RaftSteps
  import opened RaftReplySteps
  import opened RaftRuns

  ghost predicate Reachable(n: nat, w: World) {
    exists run, acts :: IsRun(n, run, acts) && run[|acts|] == w
  }

  lemma StartReachable(n: nat)
    requires 2 <= n
    ensures Reachable(n, Init(n))
  {
    InitOk(n);
    InvReady(Init(n));
    assert IsRun(n, [Init(n)], []);
  }

  lemma ReachableReady(n: nat, w: World)
    requires Reachable(n, w)
    ensures Ready(w) && |w.sys.nodes| == n
  {
    hide Ready, Inv, Step, Init, Enabled;
    var run, acts :| IsRun(n, run, acts) && run[|acts|] == w;
    RunOk(n, run, acts, |acts|);
  }

  lemma ReachStep(n: nat, w: World, a: Action)
    requires Reachable(n, w) && Enabled(w.sys, a)
    ensures Ready(w) && Reachable(n, Step(w, a))
  {
    hide Ready, Inv, Step, Init, Enabled;
    ReachableReady(n, w);
    var run, acts :| IsRun(n, run, acts) && run[|acts|] == w;
    RunExtends(n, run, acts, a);
    var longer := run + [Step(w, a)];
    assert longer[|acts + [a]|] == Step(w, a);
  }

  lemma RunExtends(n: nat, run: seq<World>, acts: seq<Action>, a: Action)
    requires IsRun(n, run, acts) && Ready(run[|acts|]) && Enabled(run[|acts|].sys, a)
    ensures IsRun(n, run + [Step(run[|acts|], a)], acts + [a])
  {
    hide Ready, Inv, Step, Init, Enabled;
    var longer, more := run + [Step(run[|acts|], a)], acts + [a];
    assert longer[0] == run[0];
    forall k | 0 <= k < |more|
      ensures Ready(longer[k]) && Enabled(longer[k].sys, more[k]) && longer[k + 1] == Step(longer[k], more[k])
    {
      if k < |acts| {
        assert longer[k] == run[k] && longer[k + 1] == run[k + 1] && more[k] == acts[k];
      } else {
        assert longer[k] == run[|acts|] && more[k] == a;
      }
    }
  }

  /** The world has these nodes, and its nodes handed these messages over. */
  ghost predicate Stands(w: World, nodes: seq<Node>, applied: seq<seq<ApplyMsg>>) {
    Reachable(3, w) && w.sys.nodes == nodes && w.sys.applied == applied
  }

  /** Calls of earlier rounds are still under way. */
  ghost predicate Keeps(w: World, v: World) {
    && |w.sys.rounds| <= |v.sys.rounds|
    && forall pk :: pk in w.sys.net && pk.AppendCall? && pk.round < |w.sys.rounds| ==> pk in v.sys.net
  }

  // Rounds of messages between two nodes, none of them lost.

  /** Node i asks for votes, and node j's vote elects it. */
  lemma Elected(w: World, i: nat, j: nat, t: Node, u: Node) returns (v: World)
    requires Reachable(3, w) && i < 3 && j < 3 && i != j && |w.sys.nodes| == 3
    requires !w.sys.nodes[i].halted && !w.sys.nodes[j].halted && w.sys.nodes[i].status != Leader
    requires w.sys.nodes[i].me == i && w.sys.nodes[i].peers == 3
    requires t == StartElection(w.sys.nodes[i])
    requires HandleVote(w.sys.nodes[j], VoteRequest(t)) == Answer(u, VoteReply(t.currentTerm, Normal, true)) && !u.halted
    ensures Stands(v, w.sys.nodes[i := BecomeLeader(t)][j := u], w.sys.applied)
  {
    hide Reachable, HandleVote, BecomeLeader, Ask, Grant, Moved, Count, Elect;
    ReachableReady(3, w);
    var call := VoteCall(i, j, VoteRequest(t));
    var back := VoteReturn(i, j, VoteRequest(t), VoteReply(t.currentTerm, Normal, true));
    AskedFor(w, i, j, t);
    ReachStep(3, w, Timeout(i));
    var a := Step(w, Timeout(i));
    ReachStep(3, a, DeliverVote(call));
    VotedFor(a, call, u, back);
    var b := Step(a, DeliverVote(call));
    ReachStep(3, b, ReturnVote(back));
    v := Step(b, ReturnVote(back));
    assert w.sys.nodes[i := t][j := u][i := BecomeLeader(t)] == w.sys.nodes[i := BecomeLeader(t)][j := u];
  }

  lemma AskedFor(w: World, i: nat, j: nat, t: Node)
    requires Ready(w) && i < 3 && j < 3 && i != j && |w.sys.nodes| == 3 && w.sys.nodes[i].me == i
    requires !w.sys.nodes[i].halted && w.sys.nodes[i].status != Leader && t == StartElection(w.sys.nodes[i])
    ensures var a := Step(w, Timeout(i));
            && VoteCall(i, j, VoteRequest(t)) in a.sys.net && a.sys.nodes == w.sys.nodes[i := t]
            && a.sys.applied == w.sys.applied && VoteCount(a.sys, i, t.currentTerm) == 1
  {
  }

  lemma VotedFor(a: World, call: Packet, u: Node, back: Packet)
    requires Ready(a) && call in a.sys.net && call.VoteCall? && call.to < |a.sys.nodes| && !a.sys.nodes[call.to].halted
    requires back.VoteReturn? && back == VoteReturn(call.from, call.to, call.vargs, back.vreply)
    requires HandleVote(a.sys.nodes[call.to], call.vargs) == Answer(u, back.vreply) && !u.halted
    ensures var b := Step(a, DeliverVote(call));
            && back in b.sys.net && b.sys.nodes == a.sys.nodes[call.to := u]
            && b.sys.applied == a.sys.applied && b.sys.votes == a.sys.votes
  {
    hide HandleVote;
  }

  /** Leader i's next heartbeat reaches node j, and the answer comes back. */
  lemma Exchanged(w: World, i: nat, j: nat, a: AppendArgs, r: AppendReply, u: Node) returns (v: World)
    requires Reachable(3, w) && i < 3 && j < 3 && i != j && |w.sys.nodes| == 3
    requires var s := w.sys.nodes[i];
             !s.halted && s.status == Leader && s.me == i && |s.nextIndex| == 3 == |s.matchIndex|
             && CanCall(s, j) && CallFor(s, j) == CallAppend(a)
    requires !w.sys.nodes[j].halted && HandleAppend(w.sys.nodes[j], a) == Answer(u, r) && !u.halted
    ensures Stands(v, w.sys.nodes[i := HandleAppendReply(w.sys.nodes[i], j, a, r, 1).node][j := u], w.sys.applied)
    ensures Keeps(w, v)
  {
    hide Reachable, HandleAppend, HandleAppendReply, CanCall, CallFor, Moved, Wrote, Held, Acked;
    var round := |w.sys.rounds|;
    var call, back := AppendCall(round, i, j, a), AppendReturn(round, i, j, a, r);
    LeaderBeats(w, i);
    Beaten(w, i, j, a);
    ReachStep(3, w, HeartBeat(i));
    var x := Step(w, HeartBeat(i));
    ReachStep(3, x, DeliverAppend(call));
    Answered(x, call, u, r);
    var y := Step(x, DeliverAppend(call));
    ReachStep(3, y, ReturnAppend(back));
    v := Step(y, ReturnAppend(back));
    assert v.sys.nodes == w.sys.nodes[i := HandleAppendReply(w.sys.nodes[i], j, a, r, 1).node][j := u];
  }

  /** Leader i's next heartbeat is under way to node j. */
  lemma Delayed(w: World, i: nat, j: nat, a: AppendArgs) returns (v: World)
    requires Reachable(3, w) && i < 3 && j < 3 && i != j && |w.sys.nodes| == 3
    requires var s := w.sys.nodes[i];
             !s.halted && s.status == Leader && s.me == i && |s.nextIndex| == 3 == |s.matchIndex|
             && CanCall(s, j) && CallFor(s, j) == CallAppend(a)
    ensures Stands(v, w.sys.nodes, w.sys.applied)
    ensures |v.sys.rounds| == |w.sys.rounds| + 1 && AppendCall(|w.sys.rounds|, i, j, a) in v.sys.net
  {
    hide Reachable, CanCall, CallFor;
    LeaderBeats(w, i);
    Beaten(w, i, j, a);
    ReachStep(3, w, HeartBeat(i));
    v := Step(w, HeartBeat(i));
  }

  lemma LeaderBeats(w: World, i: nat)
    requires Reachable(3, w) && i < |w.sys.nodes| && w.sys.nodes[i].status == Leader
    ensures Ready(w) && |w.sys.nodes| == 3 && |w.sys.nodes[i].nextIndex| == w.sys.nodes[i].peers && CanBeat(w.sys.nodes[i])
  {
    hide Ready, Inv, Step, Init, Enabled;
    var run, acts :| IsRun(3, run, acts) && run[|acts|] == w;
    RunOk(3, run, acts, |acts|);
    SizesKnown(w, i);
    BeatCan(w.sys.nodes[i], w.hist.proto.members[i].log);
  }

  lemma SizesKnown(w: World, i: nat)
    requires Inv(w) && i < |w.sys.nodes|
    ensures i < |w.hist.proto.members|
    ensures var s, m := w.sys.nodes[i], w.hist.proto.members[i];
            NodeOk(s, i, |w.sys.nodes|, m, w.hist.proto.led)
  {
  }

  lemma Beaten(w: World, i: nat, j: nat, a: AppendArgs)
    requires Ready(w) && i < |w.sys.nodes| && j < |w.sys.nodes| && i != j && w.sys.nodes[i].me == i
    requires var s := w.sys.nodes[i];
             !s.halted && s.status == Leader && |s.nextIndex| == s.peers && CanBeat(s) && CallFor(s, j) == CallAppend(a)
    ensures var x := Step(w, HeartBeat(i));
            && x.sys.nodes == w.sys.nodes && x.sys.applied == w.sys.applied && x.sys.rounds == w.sys.rounds + [1]
            && AppendCall(|w.sys.rounds|, i, j, a) in x.sys.net
  {
    assert BeatCall(w.sys.nodes[i], |w.sys.rounds|, j) in BeatCalls(w.sys.nodes[i], |w.sys.rounds|);
  }

  lemma Answered(x: World, call: Packet, u: Node, r: AppendReply)
    requires Ready(x) && call in x.sys.net && call.AppendCall? && call.to < |x.sys.nodes| && !x.sys.nodes[call.to].halted
    requires HandleAppend(x.sys.nodes[call.to], call.args) == Answer(u, r) && !u.halted
    ensures var y := Step(x, DeliverAppend(call));
            && y.sys.nodes == x.sys.nodes[call.to := u] && y.sys.applied == x.sys.applied && y.sys.rounds == x.sys.rounds
            && AppendReturn(call.round, call.from, call.to, call.args, r) in y.sys.net
  {
    hide HandleAppend;
  }

  lemma TimedOut(w: World, i: nat) returns (v: World)
    requires Reachable(3, w) && i < |w.sys.nodes| == 3 && !w.sys.nodes[i].halted
    ensures Stands(v, w.sys.nodes[i := StartElection(w.sys.nodes[i])], w.sys.applied)
  {
    hide Reachable;
    ReachStep(3, w, Timeout(i));
    v := Step(w, Timeout(i));
  }

  lemma Started(w: World, i: nat, c: Command) returns (v: World)
    requires Reachable(3, w) && i < |w.sys.nodes| == 3 && !w.sys.nodes[i].halted
    ensures Stands(v, w.sys.nodes[i := StartCommand(w.sys.nodes[i], c)], w.sys.applied)
  {
    hide Reachable;
    ReachStep(3, w, ClientStart(i, c));
    v := Step(w, ClientStart(i, c));
  }

  lemma Handed(w: World, i: nat, msgs: seq<ApplyMsg>) returns (v: World)
    requires Reachable(3, w) && i < |w.sys.nodes| == 3 == |w.sys.applied| && !w.sys.nodes[i].halted
    requires CanApply(w.sys.nodes[i]) && PendingFrom(w.sys.nodes[i], w.sys.nodes[i].lastApplied) == msgs
    ensures Stands(v, w.sys.nodes[i := Applied(w.sys.nodes[i])], w.sys.applied[i := w.sys.applied[i] + msgs])
    ensures Keeps(w, v)
  {
    hide Reachable, PendingFrom, CanApply;
    ReachStep(3, w, ApplyTick(i));
    v := Step(w, ApplyTick(i));
  }

  lemma Compacted(w: World, i: nat, index: int) returns (v: World)
    requires Reachable(3, w) && i < |w.sys.nodes| == 3 == |w.sys.applied| && !w.sys.nodes[i].halted
    requires exists m :: m in w.sys.applied[i] && m.CommandMsg? && m.index == index
    ensures Stands(v, w.sys.nodes[i := TakeSnapshot(w.sys.nodes[i], index)], w.sys.applied) && Keeps(w, v)
  {
    hide Reachable, TakeSnapshot;
    ReachStep(3, w, Compact(i, index));
    v := Step(w, Compact(i, index));
  }

  // The run. A node of it, by what changes along the run.

  function N(me: nat, term: int, vote: int, logs: Log, commit: int, applied: int, next: seq<int>, matched: seq<int>,
             status: Status): Node {
    Node(me, 3, term, vote, logs, commit, applied, next, matched, status, 0, 0, false)
  }

  const X1 := Entry("x", 1, 1)
  const X2 := Entry("x2", 1, 2)
  const Y1 := Entry("y", 2, 1)
  const W3 := Entry("w", 5, 3)

  lemma InitialStand() returns (w: World)
    ensures Stands(w, [InitNode(0, 3), InitNode(1, 3), InitNode(2, 3)], [[], [], []])
  {
    w := Init(3);
    StartReachable(3);
  }

  lemma InitIs(i: nat)
    ensures InitNode(i, 3) == N(i, 0, -1, [], 0, 0, [0, 0, 0], [0, 0, 0], Follower)
  {
    assert seq(3, i => 0) == [0, 0, 0];
  }

  lemma LeadsNow(s: Node)
    requires |s.nextIndex| == 3 == |s.matchIndex|
    ensures BecomeLeader(s) == var k := LastLogIndex(s) + 1;
              s.(status := Leader, nextIndex := [k, k, k], matchIndex := [0, 0, 0])
  {
    var k := LastLogIndex(s) + 1;
    assert seq(3, i => k) == [k, k, k] && seq(3, i => 0) == [0, 0, 0];
  }

  /** Node 0 leads term 1 and takes two commands. */
  lemma Phase0() returns (w: World)
    ensures Stands(w, [N(0, 1, 0, [X1, X2], 0, 0, [1, 1, 1], [0, 0, 0], Leader),
                       N(1, 0, -1, [], 0, 0, [0, 0, 0], [0, 0, 0], Follower),
                       N(2, 1, 0, [], 0, 0, [0, 0, 0], [0, 0, 0], Follower)], [[], [], []])
  {
    hide Reachable;
    w := InitialStand();
    InitIs(0); InitIs(1); InitIs(2);
    var t := N(0, 1, 0, [], 0, 0, [0, 0, 0], [0, 0, 0], Candidate);
    LeadsNow(t);
    w := Elected(w, 0, 2, t, N(2, 1, 0, [], 0, 0, [0, 0, 0], [0, 0, 0], Follower));
    w := Started(w, 0, "x");
    w := Started(w, 0, "x2");
    assert w.sys.nodes[0].logs == [X1, X2];
  }

  /** Then node 1 leads term 2, and node 0 follows it. */
  lemma Phase1(u: World) returns (w: World)
    requires Stands(u, [N(0, 1, 0, [X1, X2], 0, 0, [1, 1, 1], [0, 0, 0], Leader),
                        N(1, 0, -1, [], 0, 0, [0, 0, 0], [0, 0, 0], Follower),
                        N(2, 1, 0, [], 0, 0, [0, 0, 0], [0, 0, 0], Follower)], [[], [], []])
    ensures Stands(w, [N(0, 2, -1, [X1, X2], 0, 0, [1, 1, 1], [0, 0, 0], Follower),
                       N(1, 2, 1, [Y1], 0, 0, [1, 1, 1], [0, 0, 0], Leader),
                       N(2, 2, 1, [], 0, 0, [0, 0, 0], [0, 0, 0], Follower)], [[], [], []])
  {
    hide Reachable;
    w := TimedOut(u, 1);
    var t := N(1, 2, 1, [], 0, 0, [0, 0, 0], [0, 0, 0], Candidate);
    LeadsNow(t);
    w := Elected(w, 1, 2, t, N(2, 2, 1, [], 0, 0, [0, 0, 0], [0, 0, 0], Follower));
    var a := AppendArgs(2, 1, 0, 0, [], 0);
    w := Exchanged(w, 1, 0, a, AppendReply(2, true, 0, AppNormal),
                   N(0, 2, -1, [X1, X2], 0, 0, [1, 1, 1], [0, 0, 0], Follower));
    assert w.sys.nodes[1].nextIndex == [1, 1, 1] && w.sys.nodes[1].matchIndex == [0, 0, 0];
    w := Started(w, 1, "y");
    assert w.sys.nodes[1].logs == [Y1];
  }

  /** Node 0 leads term 3 and brings its two commands to node 2, and node 1 to its term. */
  lemma Phase2(u: World) returns (w: World)
    requires Stands(u, [N(0, 2, -1, [X1, X2], 0, 0, [1, 1, 1], [0, 0, 0], Follower),
                        N(1, 2, 1, [Y1], 0, 0, [1, 1, 1], [0, 0, 0], Leader),
                        N(2, 2, 1, [], 0, 0, [0, 0, 0], [0, 0, 0], Follower)], [[], [], []])
    ensures Stands(w, [N(0, 3, 0, [X1, X2], 0, 0, [3, 2, 3], [0, 0, 2], Leader),
                       N(1, 3, -1, [Y1], 0, 0, [1, 1, 1], [0, 0, 0], Follower),
                       N(2, 3, 0, [X1, X2], 0, 0, [0, 0, 0], [0, 0, 0], Follower)], [[], [], []])
  {
    hide Reachable;
    w := u;
    var t := N(0, 3, 0, [X1, X2], 0, 0, [1, 1, 1], [0, 0, 0], Candidate);
    LeadsNow(t);
    w := Elected(w, 0, 2, t, N(2, 3, 0, [], 0, 0, [0, 0, 0], [0, 0, 0], Follower));
    var c := N(2, 3, 0, [], 0, 0, [0, 0, 0], [0, 0, 0], Follower);
    assert [X1, X2][2..] == [];
    w := Exchanged(w, 0, 2, AppendArgs(3, 0, 2, 1, [], 0), AppendReply(3, false, 1, AppNormal), c);
    assert w.sys.nodes[0].nextIndex == [3, 3, 1];
    assert [X1, X2][0..] == [X1, X2];
    WriteTwo(c);
    w := Exchanged(w, 0, 2, AppendArgs(3, 0, 0, 0, [X1, X2], 0), AppendReply(3, true, 0, AppNormal), c.(logs := [X1, X2]));
    assert w.sys.nodes[0].nextIndex == [3, 3, 3] && w.sys.nodes[0].matchIndex == [0, 0, 2];
    w := Exchanged(w, 0, 1, AppendArgs(3, 0, 2, 1, [], 0), AppendReply(3, false, 2, AppNormal),
                   N(1, 3, -1, [Y1], 0, 0, [1, 1, 1], [0, 0, 0], Follower));
    assert w.sys.nodes[0].nextIndex == [3, 2, 3];
  }

  lemma WriteOne(s: Node, e: Entry, l: Log)
    requires !s.halted && WriteEntry(s, e) == s.(logs := l)
    ensures WriteEntries(s, [e]) == s.(logs := l)
  {
    assert [e][1..] == [];
  }

  lemma WriteTwo(s: Node)
    requires s.logs == [] && s.snapIndex == 0 && !s.halted
    ensures WriteEntries(s, [X1, X2]) == s.(logs := [X1, X2])
  {
    var t := s.(logs := [X1]);
    assert s.logs + [X1] == [X1] && t.logs + [X2] == [X1, X2];
    assert WriteEntry(s, X1) == t && [X1, X2][1..] == [X2];
    WriteOne(t, X2, [X1, X2]);
    assert WriteEntries(s, [X1, X2]) == WriteEntries(t, [X2]);
  }

  /** Node 1 leads term 4 and overwrites node 0's first command; the second stays behind it. */
  lemma Phase3(u: World) returns (w: World)
    requires Stands(u, [N(0, 3, 0, [X1, X2], 0, 0, [3, 2, 3], [0, 0, 2], Leader),
                        N(1, 3, -1, [Y1], 0, 0, [1, 1, 1], [0, 0, 0], Follower),
                        N(2, 3, 0, [X1, X2], 0, 0, [0, 0, 0], [0, 0, 0], Follower)], [[], [], []])
    ensures Stands(w, [N(0, 4, -1, [Y1, X2], 0, 0, [3, 2, 3], [0, 0, 2], Follower),
                       N(1, 4, 1, [Y1], 0, 0, [2, 2, 2], [1, 0, 0], Leader),
                       N(2, 4, 1, [X1, X2], 0, 0, [0, 0, 0], [0, 0, 0], Follower)], [[], [], []])
  {
    hide Reachable;
    w := u;
    var t := N(1, 4, 1, [Y1], 0, 0, [1, 1, 1], [0, 0, 0], Candidate);
    LeadsNow(t);
    w := Elected(w, 1, 2, t, N(2, 4, 1, [X1, X2], 0, 0, [0, 0, 0], [0, 0, 0], Follower));
    var c := N(0, 4, -1, [X1, X2], 0, 0, [3, 2, 3], [0, 0, 2], Follower);
    assert [Y1][1..] == [];
    BacktracksToOne(c);
    w := Exchanged(w, 1, 0, AppendArgs(4, 1, 1, 2, [], 0), AppendReply(4, false, 1, AppNormal), c);
    assert w.sys.nodes[1].nextIndex == [1, 2, 2];
    assert [Y1][0..] == [Y1] && [X1, X2][0 := Y1] == [Y1, X2];
    WriteOne(c, Y1, [Y1, X2]);
    w := Exchanged(w, 1, 0, AppendArgs(4, 1, 0, 0, [Y1], 0), AppendReply(4, true, 0, AppNormal), c.(logs := [Y1, X2]));
    assert w.sys.nodes[1].nextIndex == [2, 2, 2] && w.sys.nodes[1].matchIndex == [1, 0, 0];
  }

  lemma BacktracksToOne(s: Node)
    requires s.logs == [X1, X2] && s.snapIndex == 0 && s.snapTerm == 0
    ensures CanRead(s, 1) && LogTermAt(s, 1) == 1 && Backtrack(s, 1, 1) == 1
  {
    assert CanRead(s, 0) && LogTermAt(s, 0) == 0;
    assert Backtrack(s, 1, 0) == 1;
  }

  /** Node 0 leads term 5, brings a third command to node 2, where it lands on equal terms, and commits. */
  lemma Phase4Leads(u: World) returns (w: World)
    requires Stands(u, [N(0, 4, -1, [Y1, X2], 0, 0, [3, 2, 3], [0, 0, 2], Follower),
                        N(1, 4, 1, [Y1], 0, 0, [2, 2, 2], [1, 0, 0], Leader),
                        N(2, 4, 1, [X1, X2], 0, 0, [0, 0, 0], [0, 0, 0], Follower)], [[], [], []])
    ensures Stands(w, [N(0, 5, 0, [Y1, X2, W3], 0, 0, [3, 3, 3], [0, 0, 0], Leader),
                       N(1, 4, 1, [Y1], 0, 0, [2, 2, 2], [1, 0, 0], Leader),
                       N(2, 5, 0, [X1, X2], 0, 0, [0, 0, 0], [0, 0, 0], Follower)], [[], [], []])
  {
    hide Reachable;
    w := u;
    var t := N(0, 5, 0, [Y1, X2], 0, 0, [3, 2, 3], [0, 0, 2], Candidate);
    LeadsNow(t);
    var c := N(2, 5, 0, [X1, X2], 0, 0, [0, 0, 0], [0, 0, 0], Follower);
    w := Elected(w, 0, 2, t, c);
    w := Started(w, 0, "w");
    assert w.sys.nodes[0].logs == [Y1, X2, W3];
  }

  lemma Phase4(u: World) returns (w: World)
    requires Stands(u, [N(0, 4, -1, [Y1, X2], 0, 0, [3, 2, 3], [0, 0, 2], Follower),
                        N(1, 4, 1, [Y1], 0, 0, [2, 2, 2], [1, 0, 0], Leader),
                        N(2, 4, 1, [X1, X2], 0, 0, [0, 0, 0], [0, 0, 0], Follower)], [[], [], []])
    ensures Stands(w, [N(0, 5, 0, [Y1, X2, W3], 3, 0, [3, 3, 4], [0, 0, 3], Leader),
                       N(1, 4, 1, [Y1], 0, 0, [2, 2, 2], [1, 0, 0], Leader),
                       N(2, 5, 0, [X1, X2, W3], 3, 0, [0, 0, 0], [0, 0, 0], Follower)], [[], [], []])
  {
    hide Reachable;
    w := Phase4Leads(u);
    var c := N(2, 5, 0, [X1, X2], 0, 0, [0, 0, 0], [0, 0, 0], Follower);
    assert [Y1, X2, W3][2..] == [W3] && [X1, X2] + [W3] == [X1, X2, W3];
    WriteOne(c, W3, [X1, X2, W3]);
    var d := c.(logs := [X1, X2, W3]);
    w := Exchanged(w, 0, 2, AppendArgs(5, 0, 2, 1, [W3], 0), AppendReply(5, true, 0, AppNormal), d);
    assert w.sys.nodes[0].nextIndex == [3, 3, 4] && w.sys.nodes[0].matchIndex == [0, 0, 3];
    assert [Y1, X2, W3][3..] == [];
    w := Exchanged(w, 0, 2, AppendArgs(5, 0, 3, 5, [], 3), AppendReply(5, true, 0, AppNormal), d.(commitIndex := 3));
    assert w.sys.nodes[0].nextIndex == [3, 3, 4] && w.sys.nodes[0].matchIndex == [0, 0, 3];
  }

  lemma ThreePending(s: Node, a: Entry, b: Entry)
    requires s.logs == [a, b, W3] && a.index == 1 && b.index == 2
    requires s.commitIndex == 3 && s.lastApplied == 0 && s.snapIndex == 0
    ensures CanApply(s)
    ensures PendingFrom(s, 0) == [CommandMsg(1, a.command), CommandMsg(2, b.command), CommandMsg(3, "w")]
  {
    assert PendingFrom(s, 3) == [];
    assert PendingFrom(s, 2) == [CommandMsg(3, "w")];
    assert PendingFrom(s, 1) == [CommandMsg(2, b.command), CommandMsg(3, "w")];
  }

  /** State Machine Safety fails in this run: nodes 0 and 2 hand over different commands at index 1. */
  lemma DifferentCommandsAtOneIndex() returns (w: World, x: ApplyMsg, y: ApplyMsg)
    ensures Reachable(3, w) && |w.sys.applied| == 3
    ensures x in w.sys.applied[0] && y in w.sys.applied[2] && x.CommandMsg? && y.CommandMsg?
    ensures x.index == y.index && x.command != y.command
  {
    hide Reachable;
    w := Phase0();
    w := Phase1(w);
    w := Phase2(w);
    w := Phase3(w);
    w := Phase4(w);
    ThreePending(w.sys.nodes[0], Y1, X2);
    var ys := [CommandMsg(1, "y"), CommandMsg(2, "x2"), CommandMsg(3, "w")];
    w := Handed(w, 0, ys);
    ThreePending(w.sys.nodes[2], X1, X2);
    var xs := [CommandMsg(1, "x"), CommandMsg(2, "x2"), CommandMsg(3, "w")];
    w := Handed(w, 2, xs);
    x, y := ys[0], xs[0];
    assert w.sys.applied[0] == [] + ys && w.sys.applied[2] == [] + xs;
    assert "x"[0] != "y"[0];
  }

  // The assertion of matchLog does fail: a heartbeat that is delayed until its receiver took a snapshot ends
  // the receiver's process.

  function Compact1(): Node {
    N(2, 1, 0, [], 1, 1, [0, 0, 0], [0, 0, 0], Follower).(snapIndex := 1, snapTerm := 1)
  }

  /** Node 0 leads, and its first heartbeat is under way to node 2. */
  lemma FirstBeat() returns (w: World)
    ensures Stands(w, [N(0, 1, 0, [X1], 0, 0, [1, 1, 1], [0, 0, 0], Leader),
                       N(1, 0, -1, [], 0, 0, [0, 0, 0], [0, 0, 0], Follower),
                       N(2, 1, 0, [], 0, 0, [0, 0, 0], [0, 0, 0], Follower)], [[], [], []])
    ensures |w.sys.rounds| > 0 && AppendCall(|w.sys.rounds| - 1, 0, 2, AppendArgs(1, 0, 0, 0, [X1], 0)) in w.sys.net
  {
    hide Reachable;
    w := InitialStand();
    InitIs(0); InitIs(1); InitIs(2);
    var t := N(0, 1, 0, [], 0, 0, [0, 0, 0], [0, 0, 0], Candidate);
    LeadsNow(t);
    w := Elected(w, 0, 2, t, N(2, 1, 0, [], 0, 0, [0, 0, 0], [0, 0, 0], Follower));
    w := Started(w, 0, "x");
    assert w.sys.nodes[0].logs == [X1] && [X1][0..] == [X1];
    w := Delayed(w, 0, 2, AppendArgs(1, 0, 0, 0, [X1], 0));
  }

  /** The second heartbeat brings the entry to node 2, the third its commit; node 2 applies and compacts. */
  lemma CompactsBehind(u: World) returns (w: World)
    requires Stands(u, [N(0, 1, 0, [X1], 0, 0, [1, 1, 1], [0, 0, 0], Leader),
                        N(1, 0, -1, [], 0, 0, [0, 0, 0], [0, 0, 0], Follower),
                        N(2, 1, 0, [], 0, 0, [0, 0, 0], [0, 0, 0], Follower)], [[], [], []])
    ensures Reachable(3, w) && |w.sys.nodes| == 3 && w.sys.nodes[2] == Compact1() && Keeps(u, w)
  {
    hide Reachable;
    var c := N(2, 1, 0, [], 0, 0, [0, 0, 0], [0, 0, 0], Follower);
    assert [X1][0..] == [X1] && [] + [X1] == [X1];
    WriteOne(c, X1, [X1]);
    w := Exchanged(u, 0, 2, AppendArgs(1, 0, 0, 0, [X1], 0), AppendReply(1, true, 0, AppNormal), c.(logs := [X1]));
    assert w.sys.nodes[0].nextIndex == [1, 1, 2] && [X1][1..] == [];
    var d := c.(logs := [X1], commitIndex := 1);
    w := Exchanged(w, 0, 2, AppendArgs(1, 0, 1, 1, [], 1), AppendReply(1, true, 0, AppNormal), d);
    OnePending(d);
    w := Handed(w, 2, [CommandMsg(1, "x")]);
    assert CommandMsg(1, "x") in w.sys.applied[2];
    SnapshotsOne(w.sys.nodes[2]);
    w := Compacted(w, 2, 1);
  }

  lemma OnePending(s: Node)
    requires s.logs == [X1] && s.commitIndex == 1 && s.lastApplied == 0 && s.snapIndex == 0
    ensures CanApply(s) && PendingFrom(s, 0) == [CommandMsg(1, "x")]
  {
    assert PendingFrom(s, 1) == [];
  }

  lemma SnapshotsOne(s: Node)
    requires s == N(2, 1, 0, [X1], 1, 1, [0, 0, 0], [0, 0, 0], Follower)
    ensures TakeSnapshot(s, 1) == Compact1()
  {
    assert [X1][1..1] == [];
  }

  lemma DelayedHeartbeatEndsProcess() returns (w: World, a: Action)
    ensures Reachable(3, w) && Enabled(w.sys, a) && a.DeliverAppend? && Actor(a) == 2 && Ready(w)
    ensures !w.sys.nodes[2].halted && |Step(w, a).sys.nodes| == 3 && Step(w, a).sys.nodes[2].halted
  {
    hide Reachable;
    var u := FirstBeat();
    w := CompactsBehind(u);
    var pk := AppendCall(|u.sys.rounds| - 1, 0, 2, AppendArgs(1, 0, 0, 0, [X1], 0));
    a := DeliverAppend(pk);
    ReachStep(3, w, a);
    StrandedHalts(Compact1(), pk.args);
  }

  lemma StrandedHalts(s: Node, a: AppendArgs)
    requires StrandedBy(s, a) && s.logs == []
    ensures HandleAppend(s, a).node.halted
  {
  }
}
