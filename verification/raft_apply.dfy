/** What a node hands to its apply channel over a whole run. */
module RaftApply {
  import opened RaftTypes
  import opened RaftNode
  import opened RaftCompaction
  import opened RaftHandlers
  import opened RaftProtocol
  import opened RaftCluster
  import opened RaftInvariant
  import opened RaftSteps
  import opened RaftReplySteps
  import opened RaftRuns

  /** The index up to which the messages bring the state machine; an older snapshot brings nothing. */
  function Reach(msgs: seq<ApplyMsg>): int {
    if msgs == [] then 0
    else
      var before := Reach(msgs[..|msgs| - 1]);
      match msgs[|msgs| - 1]
      case CommandMsg(k, _) => k
      case SnapshotMsg(k, _) => Max(before, k)
  }

  /** Every command continues right where the messages before it had brought the state machine. */
  ghost predicate Contiguous(msgs: seq<ApplyMsg>) {
    forall k :: 0 <= k < |msgs| && msgs[k].CommandMsg? ==> msgs[k].index == Reach(msgs[..k]) + 1
  }

  lemma ReachOne(msgs: seq<ApplyMsg>, m: ApplyMsg)
    ensures Reach(msgs + [m]) == if m.CommandMsg? then m.index else Max(Reach(msgs), m.index)
  {
    assert (msgs + [m])[..|msgs|] == msgs;
  }

  lemma ContiguousOne(msgs: seq<ApplyMsg>, m: ApplyMsg)
    requires Contiguous(msgs) && (m.CommandMsg? ==> m.index == Reach(msgs) + 1)
    ensures Contiguous(msgs + [m])
  {
    var all := msgs + [m];
    forall k | 0 <= k < |all| && all[k].CommandMsg? ensures all[k].index == Reach(all[..k]) + 1 {
      assert all[..k] == if k < |msgs| then msgs[..k] else msgs;
    }
  }

  lemma {:induction false} ReachRises(msgs: seq<ApplyMsg>, a: nat, b: nat)
    requires Contiguous(msgs) && a <= b <= |msgs|
    ensures Reach(msgs[..a]) <= Reach(msgs[..b])
    ensures forall k :: a <= k < b ==> msgs[k].index <= Reach(msgs[..b])
  {
    if a < b {
      ReachRises(msgs, a, b - 1);
      assert msgs[..b] == msgs[..b - 1] + [msgs[b - 1]];
      ReachOne(msgs[..b - 1], msgs[b - 1]);
    }
  }

  /** Command indices strictly increase, and between two commands that follow each other without a
      snapshot in between, they increase by one. */
  lemma CommandsIncrease(msgs: seq<ApplyMsg>, a: nat, b: nat)
    requires Contiguous(msgs) && a < b < |msgs| && msgs[a].CommandMsg? && msgs[b].CommandMsg?
    ensures msgs[a].index < msgs[b].index
    ensures b == a + 1 ==> msgs[b].index == msgs[a].index + 1
  {
    ReachRises(msgs, a, b);
    if b == a + 1 {
      assert msgs[..b] == msgs[..a] + [msgs[a]];
      ReachOne(msgs[..a], msgs[a]);
    }
  }

  /** The messages that getApplyLogs builds from index `from` on. */
  lemma {:induction false} PendingAre(s: Node, f: Log, from: int)
    requires Represents(s, f) && s.commitIndex <= |f| && s.snapIndex <= from
    ensures forall k :: from < k <= s.commitIndex ==> CanSlice(s, k)
    ensures var ms := PendingFrom(s, from);
            && |ms| == Max(0, s.commitIndex - from)
            && forall j :: 0 <= j < |ms| ==> ms[j] == CommandMsg(from + 1 + j, f[from + j].command)
    decreases s.commitIndex - from
  {
    Reads(s, f);
    if from < s.commitIndex {
      PendingAre(s, f, from + 1);
      assert At(s, from + 1) == f[from];
    }
  }

  lemma {:induction false} AppendContiguous(msgs: seq<ApplyMsg>, more: seq<ApplyMsg>, k: nat)
    requires Contiguous(msgs) && k <= |more|
    requires forall j :: 0 <= j < |more| ==> more[j].CommandMsg? && more[j].index == Reach(msgs) + 1 + j
    ensures Contiguous(msgs + more[..k]) && Reach(msgs + more[..k]) == Reach(msgs) + k
  {
    if k == 0 {
      assert msgs + more[..0] == msgs;
    } else {
      AppendContiguous(msgs, more, k - 1);
      assert msgs + more[..k] == (msgs + more[..k - 1]) + [more[k - 1]];
      ContiguousOne(msgs + more[..k - 1], more[k - 1]);
      ReachOne(msgs + more[..k - 1], more[k - 1]);
    }
  }

  /** The messages of a node bring its state machine exactly to lastApplied. */
  ghost predicate StreamOk(msgs: seq<ApplyMsg>, s: Node) {
    Contiguous(msgs) && Reach(msgs) == s.lastApplied
  }

  lemma ApplyTickStream(msgs: seq<ApplyMsg>, s: Node, f: Log)
    requires StreamOk(msgs, s) && Represents(s, f) && NumbersOk(s, |f|)
    ensures CanApply(s) && StreamOk(msgs + PendingFrom(s, s.lastApplied), Applied(s))
  {
    CommittedSlices(s, f);
    PendingAre(s, f, s.lastApplied);
    var more := PendingFrom(s, s.lastApplied);
    AppendContiguous(msgs, more, |more|);
    assert more[..|more|] == more;
  }

  lemma InstallStream(msgs: seq<ApplyMsg>, s: Node, a: SnapArgs)
    requires StreamOk(msgs, s) && !s.halted
    ensures var more := if Installs(s, a) then [SnapshotMsg(a.lastIndex, a.lastTerm)] else [];
            StreamOk(msgs + more, HandleSnapshot(s, a).node)
  {
    var more := if Installs(s, a) then [SnapshotMsg(a.lastIndex, a.lastTerm)] else [];
    if Installs(s, a) {
      ReachOne(msgs, SnapshotMsg(a.lastIndex, a.lastTerm));
      ContiguousOne(msgs, SnapshotMsg(a.lastIndex, a.lastTerm));
    } else {
      assert msgs + more == msgs;
    }
  }

  /** A snapshot is taken only at an index whose command was handed over, so it applies nothing. */
  lemma CompactStream(msgs: seq<ApplyMsg>, s: Node, index: int)
    requires StreamOk(msgs, s) && exists m :: m in msgs && m.CommandMsg? && m.index == index
    ensures StreamOk(msgs, TakeSnapshot(s, index))
  {
    var m :| m in msgs && m.CommandMsg? && m.index == index;
    var k :| 0 <= k < |msgs| && msgs[k] == m;
    ReachRises(msgs, 0, |msgs|);
    assert msgs[..|msgs|] == msgs;
  }

  /** The handlers that hand nothing over leave lastApplied alone. */
  lemma HandlersApplyNothing(w: World, a: Action)
    requires Ready(w) && Enabled(w.sys, a) && !a.ApplyTick? && !a.DeliverSnap? && !a.Compact?
    ensures Step(w, a).sys.applied == w.sys.applied
    ensures Step(w, a).sys.nodes[Actor(a)].lastApplied == w.sys.nodes[Actor(a)].lastApplied
  {
    hide HandleAppend, HandleVote, HandleVoteReply, HandleAppendReply, HandleSnapshotReply;
    match a
    case DeliverAppend(pk) => AppendAppliesNothing(w.sys.nodes[pk.to], pk.args);
    case DeliverVote(pk) => VotesApplyNothing(w.sys.nodes[pk.to], pk.vargs);
    case ReturnVote(pk) =>
      VoteRepliesApplyNothing(w.sys.nodes[pk.from], pk.vreply, VoteCount(w.sys, pk.from, pk.vargs.term));
    case ReturnAppend(pk) =>
      RepliesApplyNothing(w.sys.nodes[pk.from], pk.to, pk.args, pk.reply, w.sys.rounds[pk.round]);
    case ReturnSnap(pk) => SnapRepliesApplyNothing(w.sys.nodes[pk.from], pk.to, pk.sargs, pk.sreply);
    case _ =>
  }

  lemma {:induction false} WritesApplyNothing(s: Node, es: Log)
    ensures WriteEntries(s, es).lastApplied == s.lastApplied
    decreases |es|
  {
    if es != [] && !s.halted { WritesApplyNothing(WriteEntry(s, es[0]), es[1..]); }
  }

  lemma AppendAppliesNothing(s: Node, a: AppendArgs)
    ensures HandleAppend(s, a).node.lastApplied == s.lastApplied
  {
    WritesApplyNothing(Adopt(s, a.term), a.entries);
  }

  lemma VotesApplyNothing(s: Node, a: VoteArgs)
    ensures HandleVote(s, a).node.lastApplied == s.lastApplied
  {
  }

  lemma VoteRepliesApplyNothing(s: Node, r: VoteReply, count: int)
    ensures HandleVoteReply(s, r, count).node.lastApplied == s.lastApplied
  {
  }

  lemma RepliesApplyNothing(s: Node, to: nat, a: AppendArgs, r: AppendReply, count: int)
    requires to < |s.nextIndex| && to < |s.matchIndex|
    ensures HandleAppendReply(s, to, a, r, count).node.lastApplied == s.lastApplied
  {
  }

  lemma SnapRepliesApplyNothing(s: Node, to: nat, a: SnapArgs, r: SnapReply)
    requires to < |s.nextIndex| && to < |s.matchIndex|
    ensures HandleSnapshotReply(s, to, a, r).lastApplied == s.lastApplied
  {
  }

  ghost predicate StreamsOk(sys: System) {
    |sys.applied| == |sys.nodes| && forall i :: 0 <= i < |sys.nodes| ==> StreamOk(sys.applied[i], sys.nodes[i])
  }

  /** What a step makes of the messages and the node that it runs on. */
  lemma ActorStream(w: World, a: Action)
    requires Inv(w) && Ready(w) && Enabled(w.sys, a) && StreamOk(w.sys.applied[Actor(a)], w.sys.nodes[Actor(a)])
    ensures var i, v := Actor(a), Step(w, a);
            && |v.sys.applied| == |w.sys.applied| && v.sys.applied == w.sys.applied[i := v.sys.applied[i]]
            && StreamOk(v.sys.applied[i], v.sys.nodes[i])
  {
    hide StreamOk, PacketOk, ElectionsOk, RoundsOk, Uncounted, Distinct, Sound, HandleSnapshot, Installs,
      TakeSnapshot, PendingFrom, CanApply, HandleAppend, HandleVote, HandleVoteReply, HandleAppendReply,
      HandleSnapshotReply, MemberOk;
    match a
    case ApplyTick(i) => ApplyTickStream(w.sys.applied[i], w.sys.nodes[i], w.hist.proto.members[i].log);
    case DeliverSnap(pk) => InstallStream(w.sys.applied[pk.to], w.sys.nodes[pk.to], pk.sargs);
    case Compact(i, index) => CompactStream(w.sys.applied[i], w.sys.nodes[i], index);
    case _ =>
      HandlersApplyNothing(w, a);
      SameStream(w.sys.applied[Actor(a)], w.sys.nodes[Actor(a)], Step(w, a).sys.nodes[Actor(a)]);
  }

  lemma SameStream(msgs: seq<ApplyMsg>, s: Node, t: Node)
    requires StreamOk(msgs, s) && t.lastApplied == s.lastApplied
    ensures StreamOk(msgs, t)
  {
  }

  lemma StreamsKept(w: World, a: Action)
    requires Inv(w) && Ready(w) && Enabled(w.sys, a) && StreamsOk(w.sys)
    ensures StreamsOk(Step(w, a).sys)
  {
    hide Inv, Step, StreamOk, Enabled;
    StepKeeps(w, a);
    ActorInRange(w, a);
    ActorStream(w, a);
    var v := Step(w, a);
    forall j | 0 <= j < |v.sys.nodes| ensures StreamOk(v.sys.applied[j], v.sys.nodes[j]) {
      if j != Actor(a) { OthersUntouched(w, a, j); }
    }
  }

  lemma ActorInRange(w: World, a: Action)
    requires Enabled(w.sys, a)
    ensures Actor(a) < |w.sys.nodes|
  {
  }

  /** Apply stream: in every run, what a node handed over are the commands from index 1 on without gap,
      except where an installed snapshot jumped ahead, and it reaches exactly lastApplied. */
  lemma {:induction false} ApplyStream(n: nat, run: seq<World>, acts: seq<Action>, k: nat)
    requires IsRun(n, run, acts) && k < |run|
    ensures StreamsOk(run[k].sys)
  {
    hide Inv, Ready, Enabled, Step;
    if k > 0 {
      hide StreamsOk, Init;
      RunOk(n, run, acts, k - 1);
      ApplyStream(n, run, acts, k - 1);
      StreamsKept(run[k - 1], acts[k - 1]);
    }
  }

  // Where a command comes from.

  /** The command at index m was in node i's log, committed there, when node i handed it over. */
  ghost predicate TakenFromLog(run: seq<World>, acts: seq<Action>, i: nat, m: ApplyMsg, k: nat) {
    exists j :: 0 <= j < k && j < |acts| && j < |run| && acts[j] == ApplyTick(i) && i < |run[j].sys.nodes|
      && m.CommandMsg? && CanSlice(run[j].sys.nodes[i], m.index) && m.index <= run[j].sys.nodes[i].commitIndex
      && At(run[j].sys.nodes[i], m.index).command == m.command
  }

  lemma TakenEarlier(run: seq<World>, acts: seq<Action>, i: nat, m: ApplyMsg, k: nat, l: nat)
    requires TakenFromLog(run, acts, i, m, k) && k <= l
    ensures TakenFromLog(run, acts, i, m, l)
  {
  }

  lemma NewMessage(w: World, a: Action, i: nat, m: ApplyMsg)
    requires Inv(w) && Ready(w) && Enabled(w.sys, a) && i < |w.sys.applied| == |Step(w, a).sys.applied|
    requires m in Step(w, a).sys.applied[i] && m !in w.sys.applied[i] && m.CommandMsg?
    ensures a == ApplyTick(i) && i < |w.sys.nodes|
    ensures var s := w.sys.nodes[i];
            CanSlice(s, m.index) && m.index <= s.commitIndex && At(s, m.index).command == m.command
  {
    hide Inv, PendingFrom, CanApply, CanSlice, HandleSnapshot, Installs, TakeSnapshot, HandleAppend, HandleVote,
      HandleVoteReply, HandleAppendReply, HandleSnapshotReply;
    if a == ApplyTick(i) {
      PendingMessage(w, i, m);
    } else if !a.ApplyTick? && !a.DeliverSnap? && !a.Compact? {
      HandlersApplyNothing(w, a);
    }
  }

  lemma PendingMessage(w: World, i: nat, m: ApplyMsg)
    requires Inv(w) && i < |w.sys.nodes|
    ensures var s := w.sys.nodes[i];
            && CanApply(s)
            && (m in PendingFrom(s, s.lastApplied) ==>
                  m.CommandMsg? && CanSlice(s, m.index) && m.index <= s.commitIndex && At(s, m.index).command == m.command)
  {
    hide PacketOk, ElectionsOk, RoundsOk, Uncounted, Distinct, Sound, PendingFrom, CanApply;
    var s, f := w.sys.nodes[i], w.hist.proto.members[i].log;
    CommittedSlices(s, f);
    PendingAre(s, f, s.lastApplied);
    Reads(s, f);
  }

  /** Every command handed over was, at that moment, the committed entry of the log at its index. */
  lemma {:induction false} CommandsFromLog(n: nat, run: seq<World>, acts: seq<Action>, k: nat, i: nat, m: ApplyMsg)
    requires IsRun(n, run, acts) && k < |run| && i < |run[k].sys.applied| && m in run[k].sys.applied[i] && m.CommandMsg?
    ensures TakenFromLog(run, acts, i, m, k)
  {
    hide Inv, Ready, Enabled, Step, TakenFromLog;
    if k > 0 {
      hide Init;
      RunOk(n, run, acts, k - 1);
      AppliedSize(run[k - 1], acts[k - 1]);
      if m in run[k - 1].sys.applied[i] {
        CommandsFromLog(n, run, acts, k - 1, i, m);
        TakenEarlier(run, acts, i, m, k - 1, k);
      } else {
        NewMessage(run[k - 1], acts[k - 1], i, m);
        TakenNow(run, acts, i, m, k);
      }
    }
  }

  lemma AppliedSize(w: World, a: Action)
    requires Ready(w) && Enabled(w.sys, a)
    ensures |Step(w, a).sys.applied| == |w.sys.applied|
  {
  }

  lemma TakenNow(run: seq<World>, acts: seq<Action>, i: nat, m: ApplyMsg, k: nat)
    requires 0 < k <= |acts| && k <= |run| && acts[k - 1] == ApplyTick(i) && i < |run[k - 1].sys.nodes| && m.CommandMsg?
    requires var s := run[k - 1].sys.nodes[i];
             CanSlice(s, m.index) && m.index <= s.commitIndex && At(s, m.index).command == m.command
    ensures TakenFromLog(run, acts, i, m, k)
  {
  }
}
