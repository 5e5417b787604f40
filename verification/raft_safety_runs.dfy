/** Log Matching and State Machine Safety over whole guarded runs. */
module RaftSafetyRuns {
  import opened RaftTypes
  import opened RaftNode
  import opened RaftCompaction
  import opened RaftHandlers
  import opened RaftProtocol
  import opened RaftAgreement
  import opened RaftCluster
  import opened RaftInvariant
  import opened RaftSteps
  import opened RaftReplySteps
  import opened RaftRuns
  import opened RaftApply
  import opened RaftSafety
  import opened RaftSafetySteps

  lemma InitAgreed(n: nat)
    ensures Agreed(Init(n).hist.proto)
  {
    var p := Init(n).hist.proto;
    forall i | 0 <= i < n ensures MemberAgrees(p, i) && MemberMatched(p.members[i], p.led) {
      assert p.members[i] == InitMember();
    }
  }

  lemma InitSafe(n: nat)
    requires 2 <= n
    ensures Safe(Init(n))
  {
    hide Agreed;
    InitAgreed(n);
  }

  /** A guarded step keeps the cluster safe. */
  lemma StepSafe(w: World, a: Action)
    requires Safe(w) && Inv(w) && Ready(w) && Enabled(w.sys, a) && Guarded(w.sys, a)
    ensures Safe(Step(w, a))
  {
    hide Safe, Inv, Ready, AppendGuard, SnapGuard;
    SizesAgree(w);
    PacketSizes(w, a);
    match a
    case Timeout(i) => TimeoutSafe(w, i);
    case HeartBeat(i) => BeatSafe(w, i);
    case DeliverVote(pk) => DeliverVoteSafe(w, pk);
    case ReturnVote(pk) => ReturnVoteSafe(w, pk);
    case DeliverAppend(pk) => DeliverAppendSafe(w, pk);
    case ReturnAppend(pk) => ReturnAppendSafe(w, pk);
    case SendSnap(pk) => SendSnapSafe(w, pk);
    case DeliverSnap(pk) => DeliverSnapSafe(w, pk);
    case ReturnSnap(pk) => ReturnSnapSafe(w, pk);
    case Lose(pk) => LoseSafe(w, pk);
    case ClientStart(i, c) => StartSafe(w, i, c);
    case ApplyTick(i) => ApplySafe(w, i);
    case Compact(i, index) => CompactSafe(w, i, index);
  }

  lemma PacketSizes(w: World, a: Action)
    requires Ready(w) && Enabled(w.sys, a)
    ensures forall pk :: pk in w.sys.net ==>
              pk.to < |w.sys.nodes| && (pk.AppendReturn? ==> pk.round < |w.sys.rounds|)
  {
  }

  lemma {:induction false} RunSafe(n: nat, run: seq<World>, acts: seq<Action>, k: nat)
    requires GuardedRun(n, run, acts) && k < |run|
    ensures Safe(run[k])
  {
    hide Safe, Inv, Ready, Enabled, Guarded, Step;
    if k == 0 {
      assert 2 <= n && run[0] == Init(n);
      InitSafe(n);
    } else {
      RunOk(n, run, acts, k - 1);
      RunSafe(n, run, acts, k - 1);
      assert Guarded(run[k - 1].sys, acts[k - 1]);
      StepSafe(run[k - 1], acts[k - 1]);
    }
  }

  // Log Matching.

  /** Logs that have one term at one index, be it only that of a snapshot, hold the same entries up to it. */
  ghost predicate NodesMatch(s: Node, t: Node) {
    forall k :: CanRead(s, k) && CanRead(t, k) && LogTermAt(s, k) == LogTermAt(t, k) ==>
      forall j :: CanSlice(s, j) && CanSlice(t, j) && j <= k ==> At(s, j) == At(t, j)
  }

  lemma WholesMatch(s: Node, f: Log, t: Node, g: Log)
    requires Represents(s, f) && Represents(t, g)
    requires forall k :: 0 <= k < |f| && k < |g| && f[k].term == g[k].term ==> f[..k + 1] == g[..k + 1]
    ensures NodesMatch(s, t)
  {
    Reads(s, f);
    Reads(t, g);
    forall k, j | CanRead(s, k) && CanRead(t, k) && LogTermAt(s, k) == LogTermAt(t, k)
                  && CanSlice(s, j) && CanSlice(t, j) && j <= k
      ensures At(s, j) == At(t, j)
    {
      assert f[..k - 1 + 1] == g[..k - 1 + 1];
      assert f[..k][j - 1] == g[..k][j - 1];
    }
  }

  /** Log Matching holds between any two nodes in every world of a guarded run. */
  lemma LogMatchingInRuns(n: nat, run: seq<World>, acts: seq<Action>, k: nat, i: nat, j: nat)
    requires GuardedRun(n, run, acts) && k < |run| && i < n && j < n
    ensures i < |run[k].sys.nodes| && j < |run[k].sys.nodes| && NodesMatch(run[k].sys.nodes[i], run[k].sys.nodes[j])
  {
    hide Agreed, NodesMatch, Represents, Guarded;
    RunOk(n, run, acts, k);
    RunSafe(n, run, acts, k);
    var w, p := run[k], run[k].hist.proto;
    SizesAgree(w);
    var f, g := p.members[i].log, p.members[j].log;
    forall x | 0 <= x < |f| && x < |g| && f[x].term == g[x].term ensures f[..x + 1] == g[..x + 1] {
      LogMatching(p, i, j, x);
    }
    WholesMatch(w.sys.nodes[i], f, w.sys.nodes[j], g);
  }

  // Leader Completeness.

  /** What some node committed in a term is in the log of whoever leads that term or a later one. */
  lemma CommittedInLeader(p: Proto, c: Log, t: int, i: nat)
    requires Agreed(p) && Committed(p, c, t) && i < |p.members| && t <= p.members[i].term
    requires p.members[i].term in p.led && p.led[p.members[i].term].log == p.members[i].log
    ensures c <= p.members[i].log
  {
    if c != [] {
      var u, k: nat :| u <= t && Chosen(p, u, k) && c <= p.led[u].log[..k];
      ChosenChoosable(p, u, k);
      InLaterLed(p, c, u, k, p.members[i].term);
    }
  }

  /** Leader Completeness: in a guarded run, what any node has committed is in the log of every node that
      then leads its term or a later one; where neither has compacted it the entries are the same. */
  lemma LeaderCompleteness(n: nat, run: seq<World>, acts: seq<Action>, k: nat, i: nat, j: nat)
    requires GuardedRun(n, run, acts) && k < |run| && i < n && j < n
    ensures i < |run[k].sys.nodes| && j < |run[k].sys.nodes|
    ensures var s, l := run[k].sys.nodes[i], run[k].sys.nodes[j];
            l.status == Leader && s.currentTerm <= l.currentTerm ==>
              && s.commitIndex <= LastLogIndex(l)
              && forall x :: CanSlice(s, x) && x <= s.commitIndex && CanSlice(l, x) ==> At(s, x) == At(l, x)
  {
    hide Agreed, Committed, Represents, CanSlice, LastLogIndex, At, Guarded;
    RunOk(n, run, acts, k);
    RunSafe(n, run, acts, k);
    var w, p := run[k], run[k].hist.proto;
    SizesAgree(w);
    var s, l := w.sys.nodes[i], w.sys.nodes[j];
    assert NodeSafe(p, p.members[i], s, w.sys.applied[i]);
    if l.status == Leader && s.currentTerm <= l.currentTerm {
      CommittedInLeader(p, p.members[i].log[..s.commitIndex], p.members[i].term, j);
      SharedPrefix(s, p.members[i].log, l, p.members[j].log, s.commitIndex);
    }
  }

  lemma SharedPrefix(s: Node, f: Log, t: Node, g: Log, c: nat)
    requires Represents(s, f) && Represents(t, g) && c <= |f| && f[..c] <= g
    ensures c <= LastLogIndex(t)
    ensures forall x :: CanSlice(s, x) && x <= c && CanSlice(t, x) ==> At(s, x) == At(t, x)
  {
    Reads(s, f);
    Reads(t, g);
    forall x | CanSlice(s, x) && x <= c && CanSlice(t, x) ensures At(s, x) == At(t, x) {
      assert f[..c][x - 1] == g[x - 1];
    }
  }

  // State Machine Safety.

  lemma StepExtendsApplied(w: World, a: Action, i: nat)
    requires Inv(w) && Ready(w) && Enabled(w.sys, a) && i < |w.sys.applied|
    ensures |Step(w, a).sys.applied| == |w.sys.applied| && w.sys.applied[i] <= Step(w, a).sys.applied[i]
  {
    hide Inv, PendingFrom, CanApply, HandleSnapshot, Installs, TakeSnapshot, HandleAppend, HandleVote,
      HandleVoteReply, HandleAppendReply, HandleSnapshotReply;
  }

  lemma {:induction false} AppliedExtends(n: nat, run: seq<World>, acts: seq<Action>, a: nat, b: nat, i: nat)
    requires IsRun(n, run, acts) && a <= b < |run| && i < |run[a].sys.applied|
    ensures i < |run[b].sys.applied| && run[a].sys.applied[i] <= run[b].sys.applied[i]
    decreases b
  {
    hide Inv, Ready, Enabled, Step, Init;
    if a < b {
      RunOk(n, run, acts, b - 1);
      AppliedExtends(n, run, acts, a, b - 1, i);
      StepExtendsApplied(run[b - 1], acts[b - 1], i);
    }
  }

  lemma SameCommand(w: World, i: nat, j: nat, x: ApplyMsg, y: ApplyMsg)
    requires Safe(w) && i < |w.sys.applied| && j < |w.sys.applied|
    requires x in w.sys.applied[i] && y in w.sys.applied[j] && x.CommandMsg? && y.CommandMsg? && x.index == y.index
    ensures x == y
  {
    hide Agreed, Committed;
    var p := w.hist.proto;
    var s, t := w.sys.nodes[i], w.sys.nodes[j];
    assert NodeSafe(p, p.members[i], s, w.sys.applied[i]) && NodeSafe(p, p.members[j], t, w.sys.applied[j]);
    var f, g := p.members[i].log[..s.commitIndex], p.members[j].log[..t.commitIndex];
    CommittedLine(p, f, p.members[i].term, g, p.members[j].term);
    assert f[x.index - 1] == g[x.index - 1];
  }

  /** State Machine Safety: over a whole guarded run, no two nodes ever hand over different commands at
      one index, whenever they do so. */
  lemma StateMachineSafety(n: nat, run: seq<World>, acts: seq<Action>, a: nat, b: nat, i: nat, j: nat,
                           x: ApplyMsg, y: ApplyMsg)
    requires GuardedRun(n, run, acts) && a < |run| && b < |run|
    requires i < |run[a].sys.applied| && x in run[a].sys.applied[i] && x.CommandMsg?
    requires j < |run[b].sys.applied| && y in run[b].sys.applied[j] && y.CommandMsg?
    requires x.index == y.index
    ensures x.command == y.command
  {
    hide Safe, Ready, Enabled, Step, Init, Guarded;
    var c := if a <= b then b else a;
    AppliedExtends(n, run, acts, a, c, i);
    AppliedExtends(n, run, acts, b, c, j);
    RunSafe(n, run, acts, c);
    SameCommand(run[c], i, j, x, y);
  }

  // The guard is exactly what Log Matching needs.

  /** A stale tail behind a conflict belongs to another history. */
  lemma StaleTailUnmatched(led: Terms, f: Log, t: int, l: Log, prev: nat, hi: nat, u: int)
    requires Matched(led, f, t) && prev <= hi <= |l| && prev <= |f| && !ReachesEnd(f, prev, l[prev..hi])
    ensures !Matched(led, Overlay(f, prev, l[prev..hi]), u)
  {
    var es := l[prev..hi];
    var g := Overlay(f, prev, es);
    var j :| 0 <= j < |es| && prev + j < |f| && f[prev + j].term != es[j].term;
    var last := |f| - 1;
    assert g[last] == f[last] && g[prev + j] == es[j];
    var owner := led[f[last].term].log;
    assert f[..last + 1] <= owner;
    assert f[..last + 1][prev + j] == owner[prev + j];
    assert g[..last + 1][prev + j] != owner[prev + j];
  }

  /** So does a suffix kept behind a snapshot that lands on another term. */
  lemma StraySuffixUnmatched(led: Terms, f: Log, t: int, c: Log, u: int)
    requires Matched(led, f, t) && 0 < |c| < |f| && TermOf(f, |c|) != TermOf(c, |c|)
    ensures !Matched(led, Overlay(f, 0, c), u)
  {
    var g := Overlay(f, 0, c);
    var last := |f| - 1;
    assert g[last] == f[last] && g[|c| - 1] == c[|c| - 1];
    var owner := led[f[last].term].log;
    assert f[..last + 1] <= owner;
    assert f[..last + 1][|c| - 1] == owner[|c| - 1];
    assert g[..last + 1][|c| - 1] != owner[|c| - 1];
  }

  lemma UnguardedReaches(s: Node, f: Log, l: Log, a: AppendArgs)
    requires Represents(s, f) && BatchOf(l, a) && !AppendGuard(s, a)
    ensures Accepts(s, f, a) && !ReachesEnd(f, a.prevLogIndex, a.entries)
  {
    Reads(s, f);
    var j :| 0 <= j < |a.entries| && CanSlice(s, a.prevLogIndex + 1 + j)
             && At(s, a.prevLogIndex + 1 + j).term != a.entries[j].term;
    assert f[a.prevLogIndex + j].term != a.entries[j].term;
    assert Conflicts(f, a.prevLogIndex, a.entries);
  }

  lemma UnguardedAppend(w: World, pk: Packet)
    requires Safe(w) && Inv(w) && Ready(w) && pk in w.sys.net && pk.AppendCall? && pk.to < |w.sys.nodes|
    requires !w.sys.nodes[pk.to].halted && !AppendGuard(w.sys.nodes[pk.to], pk.args)
    ensures !LogsMatched(DeliverAppendStep(w, pk).hist.proto)
  {
    hide Inv, NodesSafe, NetSafe, BatchSafe, AppendGuard, BatchOf, Known, MemberOk, Leads,
      HandleAppend, AppendAnswer, Accepts, Matched, ReachesEnd, LeadersComplete, MemberAgrees;
    var v, p, a := DeliverAppendStep(w, pk), w.hist.proto, pk.args;
    var s, m := w.sys.nodes[pk.to], p.members[pk.to];
    AppendFacts(w, pk);
    SnapInLog(s, m.log);
    AppendAnswers(s, pk.to, |w.sys.nodes|, m, p.led, a);
    AnswerShape(s, m, p.led[a.term].log, a, HandleAppend(s, a));
    AppendStepIs(w, pk, HandleAppend(s, a));
    UnguardedReaches(s, m.log, p.led[a.term].log, a);
    BatchBounds(s, m.log, p.led[a.term].log, a);
    assert MemberMatched(m, p.led);
    var x := v.hist.proto.members[pk.to];
    StaleTailUnmatched(p.led, m.log, m.term, p.led[a.term].log, a.prevLogIndex, a.prevLogIndex + |a.entries|, x.term);
    assert !MemberMatched(x, v.hist.proto.led);
  }

  lemma BatchBounds(s: Node, f: Log, l: Log, a: AppendArgs)
    requires BatchOf(l, a) && 0 <= s.snapIndex && Accepts(s, f, a)
    ensures 0 <= a.prevLogIndex <= |f| && a.prevLogIndex + |a.entries| <= |l|
    ensures a.entries == l[a.prevLogIndex..a.prevLogIndex + |a.entries|]
  {
  }

  lemma UnguardedSnap(w: World, pk: Packet)
    requires Safe(w) && Inv(w) && Ready(w) && pk in w.sys.net && pk.SnapCall? && pk.to < |w.sys.nodes|
    requires !w.sys.nodes[pk.to].halted && !SnapGuard(w.sys.nodes[pk.to], pk.sargs)
    ensures !LogsMatched(DeliverSnapStep(w, pk).hist.proto)
  {
    hide Inv, NodesSafe, NetSafe, SnapGuard, Committed, MemberOk, Leads, HandleSnapshot, Installs, NumbersOk,
      TermOf, Matched, LeadersComplete, MemberAgrees, Represents;
    var v, p, a := DeliverSnapStep(w, pk), w.hist.proto, pk.sargs;
    var s, m := w.sys.nodes[pk.to], p.members[pk.to];
    SizesAgree(w);
    SnapFacts(w, pk);
    var c := w.hist.covered[(pk.round, pk.to)];
    SnapTerm(s, a);
    SnapStepIs(w, pk);
    UnguardedLands(s, m.log, c, a);
    assert MemberMatched(m, p.led);
    var x := v.hist.proto.members[pk.to];
    StraySuffixUnmatched(p.led, m.log, m.term, c, x.term);
    assert !MemberMatched(x, v.hist.proto.led);
  }

  lemma UnguardedLands(s: Node, f: Log, c: Log, a: SnapArgs)
    requires Represents(s, f) && !SnapGuard(s, a) && a.lastIndex == |c| && a.lastTerm == TermOf(c, |c|)
    ensures Installs(s, a) && 0 < |c| < |f| && TermOf(f, |c|) != TermOf(c, |c|)
  {
    Reads(s, f);
  }

  /** An unguarded step from a safe world breaks Log Matching at once. */
  lemma UnguardedBreaks(w: World, a: Action)
    requires Safe(w) && Inv(w) && Ready(w) && Enabled(w.sys, a) && !Guarded(w.sys, a)
    ensures !LogsMatched(Step(w, a).hist.proto)
  {
    hide Safe, Inv, Ready, AppendGuard, SnapGuard, LogsMatched;
    PacketSizes(w, a);
    match a
    case DeliverAppend(pk) => UnguardedAppend(w, pk);
    case DeliverSnap(pk) => UnguardedSnap(w, pk);
    case _ =>
  }

  ghost predicate MatchedTo(run: seq<World>, k: nat) {
    forall j :: 0 <= j <= k && j < |run| ==> LogsMatched(run[j].hist.proto)
  }

  lemma {:induction false} MatchedIsSafe(n: nat, run: seq<World>, acts: seq<Action>, k: nat)
    requires IsRun(n, run, acts) && k < |run| && MatchedTo(run, k)
    ensures Safe(run[k]) && forall j :: 0 <= j < k ==> Guarded(run[j].sys, acts[j])
  {
    hide Safe, Inv, Ready, Enabled, Guarded, Step, LogsMatched;
    if k == 0 {
      assert 2 <= n && run[0] == Init(n);
      InitSafe(n);
    } else {
      RunOk(n, run, acts, k - 1);
      MatchedIsSafe(n, run, acts, k - 1);
      assert LogsMatched(run[k].hist.proto);
      if !Guarded(run[k - 1].sys, acts[k - 1]) { UnguardedBreaks(run[k - 1], acts[k - 1]); }
      StepSafe(run[k - 1], acts[k - 1]);
    }
  }

  /** Log Matching, of the logs of all nodes and those that they showed when they asked for votes, against the logs
      of all the leaders there have been, holds in every world of a run if and only if every step of the run is
      guarded. */
  lemma MatchingExactlyGuarded(n: nat, run: seq<World>, acts: seq<Action>)
    requires IsRun(n, run, acts)
    ensures GuardedRun(n, run, acts) <==> MatchedTo(run, |acts|)
  {
    hide Safe, Inv, Ready, Enabled, Guarded, Step, LogsMatched;
    if GuardedRun(n, run, acts) {
      forall k | 0 <= k < |run| ensures LogsMatched(run[k].hist.proto) {
        RunSafe(n, run, acts, k);
        SafeMatched(run[k]);
      }
    } else if MatchedTo(run, |acts|) {
      MatchedIsSafe(n, run, acts, |acts|);
    }
  }

  lemma SafeMatched(w: World)
    requires Safe(w)
    ensures LogsMatched(w.hist.proto)
  {
  }

  // Among the logs of the nodes alone an unguarded step need not show at once.

  /** Where two logs have one term at one index, they are the same up to it. */
  ghost predicate LogsAgree(f: Log, g: Log) {
    forall k :: 0 <= k < |f| && k < |g| && f[k].term == g[k].term ==> f[..k + 1] == g[..k + 1]
  }

  lemma MatchedPair(led: Terms, f: Log, t: int, g: Log, u: int, k: nat)
    requires Matched(led, f, t) && Matched(led, g, u) && k < |f| && k < |g| && f[k].term == g[k].term
    ensures f[..k + 1] == g[..k + 1]
  {
    var owner := led[f[k].term].log;
    assert f[..k + 1] <= owner && g[..k + 1] <= owner;
  }

  lemma OverlaySplits(f: Log, l: Log, prev: nat, hi: nat)
    requires prev <= hi <= |l| && prev <= |f| && hi < |f| && f[..prev] == l[..prev]
    ensures var g := Overlay(f, prev, l[prev..hi]);
            |g| == |f| && g[..hi] == l[..hi] && forall k :: hi <= k < |f| ==> g[k] == f[k]
  {
    var g := Overlay(f, prev, l[prev..hi]);
    assert g == f[..prev] + l[prev..hi] + f[hi..];
    assert l[..hi] == l[..prev] + l[prev..hi];
  }

  lemma SameAt(f: Log, g: Log, k: nat, i: nat)
    requires i < k <= |f| && k <= |g| && f[..k] == g[..k]
    ensures f[i] == g[i]
  {
    assert f[..k][i] == g[..k][i];
  }

  lemma SameUpTo(f: Log, g: Log, k: nat, n: nat)
    requires k <= n <= |f| && n <= |g| && f[..n] == g[..n]
    ensures f[..k] == g[..k]
  {
    assert f[..n][..k] == f[..k] && g[..n][..k] == g[..k];
  }

  /** `g` has the entries of l up to hi and of f from there on, and f and l differ before. */
  ghost predicate Spliced(g: Log, f: Log, l: Log, hi: nat) {
    && hi <= |l| && hi < |f| == |g| && g[..hi] == l[..hi]
    && (forall k :: hi <= k < |f| ==> g[k] == f[k])
    && exists j :: 0 <= j < hi && f[j].term != l[j].term
  }

  lemma TailDisagrees(led: Terms, g: Log, f: Log, t: int, l: Log, hi: nat, h: Log, ht: int)
    requires Matched(led, f, t) && Matched(led, h, ht) && Spliced(g, f, l, hi)
    requires hi < |h| && h[hi].term == f[hi].term
    ensures !LogsAgree(g, h)
  {
    MatchedPair(led, f, t, h, ht, hi);
    hide Matched;
    var j :| 0 <= j < hi && f[j].term != l[j].term;
    SameAt(f, h, hi + 1, j);
    SameAt(g, l, hi, j);
    if g[..hi + 1] == h[..hi + 1] { SameAt(g, h, hi + 1, j); }
  }

  lemma TailAgrees(led: Terms, g: Log, f: Log, t: int, l: Log, lt: int, hi: nat, h: Log, ht: int)
    requires Matched(led, f, t) && Matched(led, l, lt) && Matched(led, h, ht) && Spliced(g, f, l, hi)
    requires hi < |h| ==> h[hi].term != f[hi].term
    ensures LogsAgree(g, h)
  {
    hide Matched;
    forall k | 0 <= k < |g| && k < |h| && g[k].term == h[k].term ensures g[..k + 1] == h[..k + 1] {
      if k < hi {
        SameAt(g, l, hi, k);
        MatchedPair(led, l, lt, h, ht, k);
        SameUpTo(g, l, k + 1, hi);
      } else {
        MatchedPair(led, f, t, h, ht, k);
        SameAt(f, h, k + 1, hi);
        assert false;
      }
    }
  }

  /** A log with a stale tail agrees with another exactly if the other does not hold the first entry of that tail. */
  lemma TailMeets(led: Terms, f: Log, t: int, l: Log, lt: int, prev: nat, hi: nat, h: Log, ht: int)
    requires Matched(led, f, t) && Matched(led, l, lt) && Matched(led, h, ht)
    requires prev <= hi <= |l| && prev <= |f| && TermOf(f, prev) == TermOf(l, prev) && !ReachesEnd(f, prev, l[prev..hi])
    ensures hi < |f|
    ensures LogsAgree(Overlay(f, prev, l[prev..hi]), h) <==> !(hi < |h| && h[hi].term == f[hi].term)
  {
    var es := l[prev..hi];
    var j :| 0 <= j < |es| && prev + j < |f| && f[prev + j].term != es[j].term;
    assert f[prev + j].term != l[prev + j].term;
    if prev > 0 { MatchedPair(led, f, t, l, lt, prev - 1); }
    OverlaySplits(f, l, prev, hi);
    hide Overlay, Matched, LogsAgree;
    assert Spliced(Overlay(f, prev, es), f, l, hi);
    if hi < |h| && h[hi].term == f[hi].term {
      TailDisagrees(led, Overlay(f, prev, es), f, t, l, hi, h, ht);
    } else {
      TailAgrees(led, Overlay(f, prev, es), f, t, l, lt, hi, h, ht);
    }
  }

  /** After an unguarded AppendEntries the logs of the receiver and of another node still agree if and only if the
      other node does not hold the first entry that was left standing behind the batch. */
  lemma UnguardedAppendMeets(w: World, pk: Packet, j: nat)
    requires Safe(w) && Inv(w) && Ready(w) && pk in w.sys.net && pk.AppendCall? && pk.to < |w.sys.nodes|
    requires !w.sys.nodes[pk.to].halted && !AppendGuard(w.sys.nodes[pk.to], pk.args)
    requires j < |w.hist.proto.members| && j != pk.to && pk.to < |w.hist.proto.members|
    ensures var f, h := w.hist.proto.members[pk.to].log, w.hist.proto.members[j].log;
            var q, last := DeliverAppendStep(w, pk).hist.proto, pk.args.prevLogIndex + |pk.args.entries|;
            && 0 <= last < |f| && |q.members| == |w.hist.proto.members|
            && (LogsAgree(q.members[pk.to].log, q.members[j].log) <==>
                  !(last < |h| && h[last].term == f[last].term))
  {
    hide Inv, NodesSafe, NetSafe, AppendGuard, BatchOf, Known, MemberOk, Leads, LogsAgree, ReachesEnd,
      HandleAppend, AppendAnswer, Accepts, Matched, LeadersComplete, MemberAgrees, Overlay;
    var p, a := w.hist.proto, pk.args;
    var s, m := w.sys.nodes[pk.to], p.members[pk.to];
    AppendFacts(w, pk);
    var l := p.led[a.term].log;
    SnapInLog(s, m.log);
    AppendAnswers(s, pk.to, |w.sys.nodes|, m, p.led, a);
    AnswerShape(s, m, l, a, HandleAppend(s, a));
    AppendStepIs(w, pk, HandleAppend(s, a));
    UnguardedReaches(s, m.log, l, a);
    BatchBounds(s, m.log, l, a);
    BatchTerms(s, m.log, l, a);
    assert MemberMatched(m, p.led) && MemberMatched(p.members[j], p.led);
    TailMeets(p.led, m.log, m.term, l, a.term, a.prevLogIndex, a.prevLogIndex + |a.entries|,
              p.members[j].log, p.members[j].term);
  }

  lemma BatchTerms(s: Node, f: Log, l: Log, a: AppendArgs)
    requires BatchOf(l, a) && 0 <= s.snapIndex && Accepts(s, f, a)
    ensures 0 <= a.prevLogIndex <= |f| && a.prevLogIndex <= |l| && TermOf(f, a.prevLogIndex) == TermOf(l, a.prevLogIndex)
  {
  }

  /** The same after an unguarded InstallSnapshot, with the first entry that was kept behind the snapshot. */
  lemma UnguardedSnapMeets(w: World, pk: Packet, j: nat)
    requires Safe(w) && Inv(w) && Ready(w) && pk in w.sys.net && pk.SnapCall? && pk.to < |w.sys.nodes|
    requires !w.sys.nodes[pk.to].halted && !SnapGuard(w.sys.nodes[pk.to], pk.sargs)
    requires j < |w.hist.proto.members| && j != pk.to && pk.to < |w.hist.proto.members|
    ensures var f, h := w.hist.proto.members[pk.to].log, w.hist.proto.members[j].log;
            var q, last := DeliverSnapStep(w, pk).hist.proto, pk.sargs.lastIndex;
            && 0 <= last < |f| && |q.members| == |w.hist.proto.members|
            && (LogsAgree(q.members[pk.to].log, q.members[j].log) <==>
                  !(last < |h| && h[last].term == f[last].term))
  {
    hide Inv, NodesSafe, NetSafe, SnapGuard, Committed, MemberOk, Leads, HandleSnapshot, Installs, NumbersOk,
      LogsAgree, Matched, LeadersComplete, MemberAgrees, Represents, Overlay;
    var p, a := w.hist.proto, pk.sargs;
    var s, m := w.sys.nodes[pk.to], p.members[pk.to];
    SizesAgree(w);
    SnapFacts(w, pk);
    var c := w.hist.covered[(pk.round, pk.to)];
    SnapTerm(s, a);
    SnapStepIs(w, pk);
    UnguardedLands(s, m.log, c, a);
    assert MemberMatched(m, p.led) && MemberMatched(p.members[j], p.led);
    assert c[0..|c|] == c && m.log[|c| - 1].term != c[|c| - 1].term;
    assert Conflicts(m.log, 0, c);
    TailMeets(p.led, m.log, m.term, c, a.term, 0, |c|, p.members[j].log, p.members[j].term);
  }

  // The guard is also exactly where the handlers do what the Raft paper asks.

  lemma SameAbove(f: Log, g: Log, k: nat)
    requires k <= |f| && k <= |g| && f[..k] == g[..k] && f[k..] == g[k..]
    ensures f == g
  {
    assert f == f[..k] + f[k..] && g == g[..k] + g[k..];
  }

  lemma {:induction false} TruncatingKeepsFront(f: Log, prev: nat, es: Log, k: nat)
    requires k <= prev <= |f|
    ensures k <= |Truncating(f, prev, es)| && Truncating(f, prev, es)[..k] == f[..k] == Overlay(f, prev, es)[..k]
    decreases |es|
  {
    if es != [] && prev < |f| && f[prev].term == es[0].term {
      TruncatingKeepsFront(f, prev + 1, es[1..], k);
    }
  }

  /** A node that accepts a batch ends with the log that Raft's rule gives if and only if it is guarded. */
  lemma AppendFollowsRaft(s: Node, f: Log, l: Log, a: AppendArgs)
    requires Represents(s, f) && s.snapIndex <= s.commitIndex <= |f| && !s.halted
    requires BatchOf(l, a) && SameEntries(f, l) && Accepts(s, f, a)
    ensures var g := Truncating(f, a.prevLogIndex, a.entries);
            s.snapIndex <= |g| && (HandleAppend(s, a).node.logs == g[s.snapIndex..] <==> AppendGuard(s, a))
  {
    hide AppendGuard, Represents, BatchOf, ReachesEnd, Conflicts;
    SnapInLog(s, f);
    BatchBounds(s, f, l, a);
    AcceptOutcome(s, f, l, a);
    BatchFits(f, l, a);
    OverwritingIsTruncating(f, a.prevLogIndex, a.entries);
    TruncatingKeepsFront(f, a.prevLogIndex, a.entries, s.snapIndex);
    if AppendGuard(s, a) {
      GuardReaches(s, f, l, a);
    } else {
      UnguardedReaches(s, f, l, a);
      if Overlay(f, a.prevLogIndex, a.entries)[s.snapIndex..] == Truncating(f, a.prevLogIndex, a.entries)[s.snapIndex..] {
        SameAbove(Overlay(f, a.prevLogIndex, a.entries), Truncating(f, a.prevLogIndex, a.entries), s.snapIndex);
      }
    }
  }

  /** A node that installs a snapshot keeps what Raft's rule keeps if and only if it is guarded. */
  lemma InstallFollowsRaft(s: Node, f: Log, c: Log, a: SnapArgs)
    requires Represents(s, f) && NumbersOk(s, |f|) && !s.halted && Indexed(c)
    requires a.lastIndex == |c| && a.lastTerm == TermOf(c, |c|) && Installs(s, a)
    ensures |c| <= |Discarding(f, c)|
    ensures HandleSnapshot(s, a).node.logs == Discarding(f, c)[|c|..] <==> SnapGuard(s, a)
  {
    Reads(s, f);
    SnapshotOutcome(s, f, c, a);
    var g, d := InstalledLog(f, c), Discarding(f, c);
    KeepingIsDiscarding(f, c);
    OverlayStarts(f, c);
    assert g[..|c|] == c && d[..|c|] == c;
    if g[|c|..] == d[|c|..] { SameAbove(g, d, |c|); }
  }
}
