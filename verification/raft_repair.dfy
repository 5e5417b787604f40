/**
 * Log repair: a leader and one follower that exchange heartbeats without loss. Every refusal moves the
 * leader's cursor back, at most one snapshot is installed, and the exchange ends with equal logs.
 */
module RaftRepair {
  import opened RaftTypes
  import opened RaftNode
  import opened RaftCompaction
  import opened RaftHandlers
  import opened RaftProtocol
  import opened RaftCluster
  import opened RaftInvariant
  import opened RaftSteps
  import opened RaftRuns
  import opened RaftAgreement
  import opened RaftSafety
  import opened RaftSafetyRuns

  datatype Pair = Pair(leader: Node, follower: Node)

  /** The leader's next heartbeat for peer i, the follower's answer, and what the leader makes of it. */
  function Next(p: Pair, i: nat, count: int): Pair
    requires i < |p.leader.nextIndex| && i < |p.leader.matchIndex| && CanCall(p.leader, i)
  {
    match CallFor(p.leader, i)
    case NoCall => p
    case CallAppend(a) =>
      var ans := HandleAppend(p.follower, a);
      Pair(HandleAppendReply(p.leader, i, a, ans.reply, count).node, ans.node)
    case CallSnapshot =>
      var a := SnapshotRequest(p.leader);
      var ans := HandleSnapshot(p.follower, a);
      Pair(HandleSnapshotReply(p.leader, i, a, ans.reply), ans.node)
  }

  /** The follower accepts the leader's next heartbeat. */
  predicate Succeeds(p: Pair, i: nat)
    requires i < |p.leader.nextIndex| && CanCall(p.leader, i)
  {
    CallFor(p.leader, i).CallAppend? && HandleAppend(p.follower, CallFor(p.leader, i).args).reply.success
  }

  /** A leader and a follower that compacted no more than the leader. */
  ghost predicate Met(p: Pair, i: nat, l: Log, f: Log) {
    var s, t := p.leader, p.follower;
    && Represents(s, l) && s.status == Leader && !s.halted && 0 <= s.commitIndex <= |l|
    && i < s.peers == |s.nextIndex| == |s.matchIndex| && i != s.me
    && 1 <= s.nextIndex[i] <= |l| + 1 && s.matchIndex[i] <= |l|
    && Represents(t, f) && NumbersOk(t, |f|) && !t.halted && t.currentTerm <= s.currentTerm && 0 <= s.currentTerm
    && SameEntries(f, l)
    && t.snapIndex <= s.snapIndex
  }

  /** Besides, equal snapshot indices have equal terms. */
  ghost predicate Paired(p: Pair, i: nat, l: Log, f: Log) {
    Met(p, i, l, f) && (p.follower.snapIndex == p.leader.snapIndex ==> p.follower.snapTerm == p.leader.snapTerm)
  }

  /** The follower has what the leader has at every index after `prev`. */
  ghost predicate EqualAfter(s: Node, t: Node, prev: int) {
    forall k :: prev < k <= LastLogIndex(s) ==> CanSlice(s, k) && CanSlice(t, k) && At(t, k) == At(s, k)
  }

  lemma CallOf(p: Pair, i: nat, l: Log, f: Log)
    requires Met(p, i, l, f)
    ensures CanCall(p.leader, i)
    ensures p.leader.nextIndex[i] <= p.leader.snapIndex <==> CallFor(p.leader, i) == CallSnapshot
    ensures p.leader.nextIndex[i] > p.leader.snapIndex ==>
              var a := AppendArgs(p.leader.currentTerm, p.leader.me, p.leader.nextIndex[i] - 1,
                                  TermOf(l, p.leader.nextIndex[i] - 1), l[p.leader.nextIndex[i] - 1..],
                                  p.leader.commitIndex);
              CallFor(p.leader, i) == CallAppend(a) && BatchOf(l, a)
  {
    CallOutcome(p.leader, l, i);
  }

  lemma OverlaidEquals(s: Node, l: Log, t: Node, f: Log, prev: nat)
    requires Represents(s, l) && prev <= |f| && prev <= |l| && s.snapIndex <= prev
    requires Represents(t, Overlay(f, prev, l[prev..])) && t.snapIndex <= prev
    ensures EqualAfter(s, t, prev) && LastLogIndex(s) == |l|
  {
    var g := Overlay(f, prev, l[prev..]);
    Reads(s, l);
    Reads(t, g);
    forall k: int | prev < k <= |l| ensures CanSlice(s, k) && CanSlice(t, k) && At(t, k) == At(s, k) {
      assert g[k - 1] == l[prev..][k - 1 - prev];
    }
  }

  /** A heartbeat that succeeds leaves the follower equal to the leader after prevLogIndex. */
  lemma SuccessEquals(p: Pair, i: nat, count: int, l: Log, f: Log)
    requires Paired(p, i, l, f) && CanCall(p.leader, i) && Succeeds(p, i)
    ensures var q := Next(p, i, count);
            && !q.leader.halted && !q.follower.halted && q.leader.status == Leader
            && EqualAfter(q.leader, q.follower, p.leader.nextIndex[i] - 1)
            && LastLogIndex(q.leader) == |l|
  {
    hide Represents, SameEntries, BatchOf, EqualAfter, HandleAppend, HandleAppendReply, CallFor, CanCall, Overlay;
    CallOf(p, i, l, f);
    var s, a := p.leader, CallFor(p.leader, i).args;
    SnapshotsOrdered(p, i, l, f);
    AppendOutcome(p.follower, f, l, a);
    AcceptOutcome(p.follower, f, l, a);
    Reads(s, l);
    CountsSuccess(s, i, a, HandleAppend(p.follower, a).reply, count, l);
    var q := Next(p, i, count);
    OverlaidEquals(q.leader, l, q.follower, f, a.prevLogIndex);
  }

  lemma SnapshotsOrdered(p: Pair, i: nat, l: Log, f: Log)
    requires Met(p, i, l, f)
    ensures 0 <= p.follower.snapIndex <= p.leader.snapIndex <= |l|
  {
  }

  lemma CountsSuccess(s: Node, i: nat, a: AppendArgs, r: AppendReply, count: int, l: Log)
    requires Represents(s, l) && s.status == Leader && !s.halted && s.commitIndex <= |l| && LastLogIndex(s) == |l|
    requires i < |s.nextIndex| == |s.matchIndex| && s.matchIndex[i] <= |l|
    requires a.prevLogIndex + |a.entries| == |l|
    requires r == AppendReply(s.currentTerm, true, 0, AppNormal)
    ensures var t := HandleAppendReply(s, i, a, r, count).node;
            && Represents(t, l) && t.status == Leader && !t.halted && t.snapIndex == s.snapIndex
            && i < |t.nextIndex| && t.nextIndex[i] == |l| + 1
  {
  }

  /** A refusal moves the cursor back, and not below 1; it leaves both logs and snapshots alone. */
  lemma RefusalRewinds(p: Pair, i: nat, count: int, l: Log, f: Log)
    requires Paired(p, i, l, f) && CanCall(p.leader, i) && CallFor(p.leader, i).CallAppend? && !Succeeds(p, i)
    ensures var q := Next(p, i, count);
            && Paired(q, i, l, f)
            && q.leader.nextIndex[i] < p.leader.nextIndex[i]
            && q.leader.snapIndex == p.leader.snapIndex && q.follower.snapIndex == p.follower.snapIndex
  {
    hide SameEntries, BatchOf, HandleAppend, CallFor, CanCall, TermOf, Indexed;
    CallOf(p, i, l, f);
    SnapshotsOrdered(p, i, l, f);
    AppendOutcome(p.follower, f, l, CallFor(p.leader, i).args);
  }

  lemma SnapshotTermIs(s: Node, l: Log)
    requires Represents(s, l)
    ensures 0 <= s.snapIndex <= |l| && s.snapTerm == TermOf(l, s.snapIndex) && Indexed(l)
  {
  }

  lemma CoveredSame(f: Log, l: Log, k: nat)
    requires SameEntries(f, l) && k <= |l| && Indexed(l)
    ensures SameEntries(Overlay(f, 0, l[..k]), l) && Indexed(l[..k]) && TermOf(l[..k], k) == TermOf(l, k)
  {
    var g := Overlay(f, 0, l[..k]);
    forall j | 0 <= j < |g| && j < |l| && g[j].term == l[j].term ensures g[j] == l[j] {
      if j < k {
        assert g[j] == l[j];
      } else {
        assert g[j] == f[j];
      }
    }
  }

  /** A snapshot call leaves the follower with the leader's snapshot index, and the cursor right after it. */
  lemma SnapshotAnchors(p: Pair, i: nat, count: int, l: Log, f: Log) returns (g: Log)
    requires Paired(p, i, l, f) && CanCall(p.leader, i) && CallFor(p.leader, i) == CallSnapshot
    ensures var q := Next(p, i, count);
            && Paired(q, i, l, g)
            && q.leader.snapIndex == q.follower.snapIndex == p.leader.snapIndex
            && q.leader.nextIndex[i] == q.leader.snapIndex + 1 && q.leader.matchIndex[i] == p.leader.snapIndex
  {
    hide SameEntries, CanCall, TermOf, Indexed;
    var s, t := p.leader, p.follower;
    CallOf(p, i, l, f);
    var c := l[..s.snapIndex];
    var a := SnapshotRequest(s);
    SnapshotTermIs(s, l);
    CoveredSame(f, l, s.snapIndex);
    SnapshotOutcome(t, f, c, a);
    g := if Installs(t, a) then Overlay(f, 0, c) else f;
  }

  /** Once both stand on the same snapshot, the entry right after it is always accepted. */
  lemma AnchoredSucceeds(p: Pair, i: nat, l: Log, f: Log)
    requires Paired(p, i, l, f) && p.follower.snapIndex == p.leader.snapIndex
    requires p.leader.nextIndex[i] == p.leader.snapIndex + 1
    ensures CanCall(p.leader, i) && Succeeds(p, i)
  {
    CallOf(p, i, l, f);
    AcceptOutcome(p.follower, f, l, CallFor(p.leader, i).args);
  }

  ghost predicate CanExchange(p: Pair, i: nat) {
    i < |p.leader.nextIndex| && i < |p.leader.matchIndex| && CanCall(p.leader, i)
  }

  /** The pairs follow each other by the exchange, none but the last succeeds, and it does. */
  ghost predicate Exchanges(trace: seq<Pair>, i: nat, count: int) {
    && trace != []
    && (forall k :: 0 <= k < |trace| ==> CanExchange(trace[k], i) && (Succeeds(trace[k], i) <==> k == |trace| - 1))
    && (forall k :: 0 <= k < |trace| - 1 ==> trace[k + 1] == Next(trace[k], i, count))
  }

  /** The cursor moved back, or a snapshot was sent and the next heartbeat succeeds. */
  ghost predicate Progress(trace: seq<Pair>, i: nat) {
    forall k :: 0 <= k < |trace| - 1 && CanExchange(trace[k], i) && CanExchange(trace[k + 1], i) ==>
      if CallFor(trace[k].leader, i).CallAppend?
      then trace[k + 1].leader.nextIndex[i] < trace[k].leader.nextIndex[i]
           && trace[k + 1].follower.snapIndex == trace[k].follower.snapIndex
      else k == |trace| - 2
  }

  lemma OneMore(p: Pair, rest: seq<Pair>, i: nat, count: int)
    requires Exchanges(rest, i, count) && Progress(rest, i) && CanExchange(p, i) && !Succeeds(p, i)
    requires rest[0] == Next(p, i, count)
    requires if CallFor(p.leader, i).CallAppend?
             then rest[0].leader.nextIndex[i] < p.leader.nextIndex[i] && rest[0].follower.snapIndex == p.follower.snapIndex
             else |rest| == 1
    ensures Exchanges([p] + rest, i, count) && Progress([p] + rest, i)
  {
    var all := [p] + rest;
    forall k | 0 <= k < |all|
      ensures CanExchange(all[k], i) && (Succeeds(all[k], i) <==> k == |all| - 1)
      ensures k < |all| - 1 ==> all[k + 1] == Next(all[k], i, count)
    {
      if k > 0 {
        assert all[k] == rest[k - 1];
        if k < |all| - 1 { assert all[k + 1] == rest[k]; }
      }
    }
    forall k | 0 <= k < |all| - 1 && CanExchange(all[k], i) && CanExchange(all[k + 1], i)
      ensures if CallFor(all[k].leader, i).CallAppend?
              then all[k + 1].leader.nextIndex[i] < all[k].leader.nextIndex[i]
                   && all[k + 1].follower.snapIndex == all[k].follower.snapIndex
              else k == |all| - 2
    {
      if k > 0 { assert all[k] == rest[k - 1] && all[k + 1] == rest[k]; }
    }
  }

  /** Log repair terminates: the exchange comes to a success within nextIndex + 1 heartbeats. Until then
      every refusal strictly lowers nextIndex, and a snapshot is sent at most once, just before the success,
      which leaves the follower equal to the leader on all indices after prevLogIndex. */
  lemma {:induction false} RepairEnds(p: Pair, i: nat, count: int, l: Log, f: Log) returns (trace: seq<Pair>)
    requires Paired(p, i, l, f)
    ensures Exchanges(trace, i, count) && Progress(trace, i) && trace[0] == p
    ensures |trace| <= p.leader.nextIndex[i] + 1
    ensures var last := trace[|trace| - 1]; var q := Next(last, i, count);
            && q.leader.status == Leader && !q.leader.halted && !q.follower.halted
            && EqualAfter(q.leader, q.follower, last.leader.nextIndex[i] - 1)
            && LastLogIndex(q.leader) == LastLogIndex(p.leader)
    decreases p.leader.nextIndex[i]
  {
    hide Paired, EqualAfter, CanCall, CallFor, Next, Succeeds, Exchanges, Progress;
    Repairable(p, i, l, f);
    if Succeeds(p, i) {
      SuccessEquals(p, i, count, l, f);
      trace := [p];
      Alone(p, i, count);
    } else if CallFor(p.leader, i).CallAppend? {
      RefusalRewinds(p, i, count, l, f);
      var q := Next(p, i, count);
      Repairable(q, i, l, f);
      var rest := RepairEnds(q, i, count, l, f);
      OneMore(p, rest, i, count);
      trace := [p] + rest;
    } else {
      var g := SnapshotAnchors(p, i, count, l, f);
      var q := Next(p, i, count);
      Repairable(q, i, l, g);
      AnchoredSucceeds(q, i, l, g);
      SuccessEquals(q, i, count, l, g);
      Alone(q, i, count);
      OneMore(p, [q], i, count);
      trace := [p] + [q];
    }
  }

  lemma Repairable(p: Pair, i: nat, l: Log, f: Log)
    requires Paired(p, i, l, f)
    ensures CanExchange(p, i) && 1 <= p.leader.nextIndex[i] && LastLogIndex(p.leader) == |l|
    ensures CallFor(p.leader, i).CallAppend? || CallFor(p.leader, i) == CallSnapshot
  {
    CallOf(p, i, l, f);
    Reads(p.leader, l);
  }

  lemma Alone(p: Pair, i: nat, count: int)
    requires CanExchange(p, i) && Succeeds(p, i)
    ensures Exchanges([p], i, count) && Progress([p], i)
  {
  }

  // When the exchange ends, if snapshots of one index may have different terms.

  /** Where the follower sends the cursor back to when the terms at `prev` differ: to the index after the last
      entry, from the snapshot on, with another term; with none to `prev`. */
  function SentBack(f: Log, snap: nat, prev: nat, index: nat): nat
    requires snap <= index <= prev <= |f|
  {
    if TermOf(f, index) != TermOf(f, prev) then index + 1
    else if index == snap then prev
    else SentBack(f, snap, prev, index - 1)
  }

  lemma {:induction false} SentBackIs(f: Log, snap: nat, prev: nat, index: nat, b: int)
    requires snap <= index <= prev <= |f| && AfterMismatch(f, snap, prev, b)
    requires forall k :: index < k <= prev ==> TermOf(f, k) == TermOf(f, prev)
    ensures SentBack(f, snap, prev, index) == b <= prev
  {
    if TermOf(f, index) == TermOf(f, prev) && index != snap {
      SentBackIs(f, snap, prev, index - 1, b);
    }
  }

  lemma {:induction false} SentBackBelow(f: Log, snap: nat, prev: nat, index: nat)
    requires snap <= index <= prev <= |f|
    ensures SentBack(f, snap, prev, index) <= prev
  {
    if TermOf(f, index) == TermOf(f, prev) && index != snap { SentBackBelow(f, snap, prev, index - 1); }
    assert TermOf(f, prev) == TermOf(f, prev);
  }

  /** Going back from `next` as the follower says, the exchange comes to an index before which both logs have one
      term, beyond the snapshots. */
  ghost predicate Finds(f: Log, l: Log, snap: nat, next: nat)
    requires snap <= |f| && next <= |l| + 1
    decreases next
  {
    if next <= snap + 1 then false
    else if next - 1 > |f| then Finds(f, l, snap, |f| + 1)
    else if TermOf(f, next - 1) == TermOf(l, next - 1) then true
    else SentBackBelow(f, snap, next - 1, next - 1); Finds(f, l, snap, SentBack(f, snap, next - 1, next - 1))
  }

  /** What a refusal leaves. */
  lemma RefusalLeaves(p: Pair, i: nat, count: int, l: Log, f: Log)
    requires Met(p, i, l, f) && CanCall(p.leader, i) && CallFor(p.leader, i).CallAppend? && !Succeeds(p, i)
    ensures var q := Next(p, i, count); var prev := p.leader.nextIndex[i] - 1;
            && Met(q, i, l, f) && 1 <= q.leader.nextIndex[i] < p.leader.nextIndex[i]
            && q.leader.snapIndex == p.leader.snapIndex && q.follower.snapIndex == p.follower.snapIndex
            && q.leader.snapTerm == p.leader.snapTerm && q.follower.snapTerm == p.follower.snapTerm
            && p.follower.snapIndex <= prev
            && (if prev > |f| then q.leader.nextIndex[i] == |f| + 1
                else TermOf(f, prev) != TermOf(l, prev)
                     && AfterMismatch(f, p.follower.snapIndex, prev, q.leader.nextIndex[i]))
  {
    hide SameEntries, BatchOf, HandleAppend, CallFor, CanCall, TermOf, Indexed;
    CallOf(p, i, l, f);
    SnapshotsOrdered(p, i, l, f);
    AppendOutcome(p.follower, f, l, CallFor(p.leader, i).args);
  }

  /** A heartbeat succeeds exactly if both logs have one term at prevLogIndex. */
  lemma SucceedsExactly(p: Pair, i: nat, l: Log, f: Log)
    requires Met(p, i, l, f) && CanCall(p.leader, i)
    ensures var prev := p.leader.nextIndex[i] - 1;
            Succeeds(p, i) <==> p.leader.snapIndex <= prev <= |f| && prev <= |l| && TermOf(f, prev) == TermOf(l, prev)
  {
    hide SameEntries, BatchOf, HandleAppend, CanCall, TermOf, Indexed;
    CallOf(p, i, l, f);
    SnapshotsOrdered(p, i, l, f);
    if CallFor(p.leader, i).CallAppend? {
      hide CallFor;
      AppendOutcome(p.follower, f, l, CallFor(p.leader, i).args);
    }
  }

  /** A snapshot that the follower already stands on changes nothing but the cursor, which comes right after it. */
  lemma CoveredAgain(p: Pair, i: nat, count: int, l: Log, f: Log)
    requires Met(p, i, l, f) && CanCall(p.leader, i) && CallFor(p.leader, i) == CallSnapshot
    requires p.follower.snapIndex == p.leader.snapIndex
    ensures var q := Next(p, i, count);
            && Met(q, i, l, f) && q.leader.nextIndex[i] == p.leader.snapIndex + 1
            && q.leader.snapIndex == p.leader.snapIndex && q.follower.snapIndex == p.follower.snapIndex
            && q.leader.snapTerm == p.leader.snapTerm && q.follower.snapTerm == p.follower.snapTerm
  {
    hide SameEntries, CanCall, CallFor, TermOf, Indexed;
    SnapshotsOrdered(p, i, l, f);
  }

  /** The pair after n heartbeats. */
  ghost function AfterBeats(p: Pair, i: nat, count: int, n: nat): Pair {
    if n == 0 then p
    else
      var q := AfterBeats(p, i, count, n - 1);
      if CanExchange(q, i) then Next(q, i, count) else q
  }

  ghost predicate SucceedsAfter(p: Pair, i: nat, count: int, n: nat) {
    CanExchange(AfterBeats(p, i, count, n), i) && Succeeds(AfterBeats(p, i, count, n), i)
  }

  ghost predicate Ends(p: Pair, i: nat, count: int) {
    exists n: nat :: SucceedsAfter(p, i, count, n)
  }

  lemma {:induction false} BeatsShift(p: Pair, i: nat, count: int, n: nat)
    requires CanExchange(p, i)
    ensures AfterBeats(p, i, count, n + 1) == AfterBeats(Next(p, i, count), i, count, n)
  {
    hide Next, CanExchange;
    if n > 0 { BeatsShift(p, i, count, n - 1); }
  }

  lemma EndsLater(p: Pair, i: nat, count: int)
    requires CanExchange(p, i) && Ends(Next(p, i, count), i, count)
    ensures Ends(p, i, count)
  {
    hide AfterBeats, Next, CanCall;
    var n: nat :| SucceedsAfter(Next(p, i, count), i, count, n);
    BeatsShift(p, i, count, n);
    assert SucceedsAfter(p, i, count, n + 1);
  }

  lemma EndsNow(p: Pair, i: nat, count: int)
    requires CanExchange(p, i) && Succeeds(p, i)
    ensures Ends(p, i, count)
  {
    assert SucceedsAfter(p, i, count, 0);
  }

  /** Two logs that differ at a common snapshot. */
  ghost predicate Split(p: Pair) {
    p.follower.snapIndex == p.leader.snapIndex && p.follower.snapTerm != p.leader.snapTerm
  }

  lemma SplitTerms(p: Pair, i: nat, l: Log, f: Log)
    requires Met(p, i, l, f) && Split(p)
    ensures var snap := p.leader.snapIndex;
            0 < snap <= |l| && snap <= |f| && TermOf(f, snap) != TermOf(l, snap)
    ensures CanExchange(p, i) && 1 <= p.leader.nextIndex[i] <= |l| + 1
    ensures CallFor(p.leader, i) == if p.leader.nextIndex[i] <= p.leader.snapIndex then CallSnapshot else CallFor(p.leader, i)
    ensures CallFor(p.leader, i).CallAppend? <==> p.leader.nextIndex[i] > p.leader.snapIndex
  {
    CallOf(p, i, l, f);
  }

  /** One heartbeat between logs that differ at a common snapshot. */
  lemma SplitStep(p: Pair, i: nat, count: int, l: Log, f: Log)
    requires Met(p, i, l, f) && Split(p) && CanExchange(p, i) && !Succeeds(p, i)
    ensures var q := Next(p, i, count); var snap, next := p.leader.snapIndex, p.leader.nextIndex[i];
            && Met(q, i, l, f) && Split(q) && q.leader.snapIndex == snap <= |f|
            && 1 <= next <= |l| + 1 && 1 <= q.leader.nextIndex[i] <= |l| + 1 && (next > snap ==> q.leader.nextIndex[i] < next)
            && (Finds(f, l, snap, next) <==> Finds(f, l, snap, q.leader.nextIndex[i]))
  {
    hide SameEntries, HandleAppend, CanCall, CallFor, Next, Succeeds, TermOf, AfterMismatch, SentBack;
    SplitTerms(p, i, l, f);
    var snap, next := p.leader.snapIndex, p.leader.nextIndex[i];
    if next <= snap {
      CoveredAgain(p, i, count, l, f);
    } else {
      RefusalLeaves(p, i, count, l, f);
      SucceedsExactly(p, i, l, f);
      if next - 1 <= |f| { SentBackIs(f, snap, next - 1, next - 1, Next(p, i, count).leader.nextIndex[i]); }
      if next == snap + 1 { OnlySnapshot(f, snap, Next(p, i, count).leader.nextIndex[i]); }
    }
  }

  lemma OnlySnapshot(f: Log, snap: nat, b: int)
    requires snap <= |f| && AfterMismatch(f, snap, snap, b)
    ensures b == snap
  {
  }

  lemma {:induction false} SplitNever(p: Pair, i: nat, count: int, l: Log, f: Log, n: nat)
    requires Met(p, i, l, f) && Split(p) && p.leader.snapIndex <= |f| && 0 <= p.leader.nextIndex[i] <= |l| + 1
    requires !Finds(f, l, p.leader.snapIndex, p.leader.nextIndex[i])
    ensures !SucceedsAfter(p, i, count, n)
    decreases n
  {
    hide Met, Split, Next, Succeeds, CanCall, Finds;
    SplitTerms(p, i, l, f);
    SplitFails(p, i, l, f);
    if n > 0 {
      SplitStep(p, i, count, l, f);
      SplitNever(Next(p, i, count), i, count, l, f, n - 1);
      BeatsShift(p, i, count, n - 1);
    }
  }

  lemma SplitFails(p: Pair, i: nat, l: Log, f: Log)
    requires Met(p, i, l, f) && Split(p) && CanExchange(p, i) && p.leader.snapIndex <= |f|
    requires 0 <= p.leader.nextIndex[i] <= |l| + 1
    ensures Succeeds(p, i) ==> Finds(f, l, p.leader.snapIndex, p.leader.nextIndex[i])
  {
    hide TermOf, SentBack, Succeeds;
    SplitTerms(p, i, l, f);
    SucceedsExactly(p, i, l, f);
  }

  lemma {:induction false} SplitEnds(p: Pair, i: nat, count: int, l: Log, f: Log)
    requires Met(p, i, l, f) && Split(p) && p.leader.snapIndex <= |f| && 0 <= p.leader.nextIndex[i] <= |l| + 1
    requires Finds(f, l, p.leader.snapIndex, p.leader.nextIndex[i])
    ensures Ends(p, i, count)
    decreases p.leader.nextIndex[i]
  {
    hide Met, Split, Next, Succeeds, CanCall, Ends;
    SplitTerms(p, i, l, f);
    if Succeeds(p, i) {
      EndsNow(p, i, count);
    } else {
      SplitStep(p, i, count, l, f);
      SplitEnds(Next(p, i, count), i, count, l, f);
      EndsLater(p, i, count);
    }
  }

  lemma {:induction false} TraceIsBeats(trace: seq<Pair>, i: nat, count: int, k: nat)
    requires Exchanges(trace, i, count) && k < |trace|
    ensures trace[k] == AfterBeats(trace[0], i, count, k)
  {
    hide Next, CanExchange, Succeeds;
    if k > 0 { TraceIsBeats(trace, i, count, k - 1); }
  }

  /** Log repair, exactly: the exchange comes to a success if and only if the snapshots differ in index, or agree in
      term, or the cursor on its way back comes to an index beyond them with one term in both logs. If it does
      not, refusals and snapshots follow each other for ever. */
  lemma RepairExactly(p: Pair, i: nat, count: int, l: Log, f: Log)
    requires Met(p, i, l, f)
    ensures 0 <= p.leader.snapIndex && 0 <= p.leader.nextIndex[i] <= |l| + 1 && (Split(p) ==> p.leader.snapIndex <= |f|)
    ensures Ends(p, i, count) <==> (Split(p) ==> Finds(f, l, p.leader.snapIndex, p.leader.nextIndex[i]))
  {
    hide Finds, AfterBeats, SameEntries;
    if Split(p) {
      SplitTerms(p, i, l, f);
      if Finds(f, l, p.leader.snapIndex, p.leader.nextIndex[i]) {
        SplitEnds(p, i, count, l, f);
      } else {
        forall n: nat ensures !SucceedsAfter(p, i, count, n) { SplitNever(p, i, count, l, f, n); }
      }
    } else {
      var trace := RepairEnds(p, i, count, l, f);
      TraceIsBeats(trace, i, count, |trace| - 1);
      assert SucceedsAfter(p, i, count, |trace| - 1);
    }
  }

  /** Once the cursor stands right behind snapshots of one index, or before them, it is the terms alone: the
      exchange ends if and only if they agree. */
  lemma AnchoredExactly(p: Pair, i: nat, count: int, l: Log, f: Log)
    requires Met(p, i, l, f) && p.follower.snapIndex == p.leader.snapIndex
    requires p.leader.nextIndex[i] <= p.leader.snapIndex + 1
    ensures Ends(p, i, count) <==> p.follower.snapTerm == p.leader.snapTerm
  {
    RepairExactly(p, i, count, l, f);
  }

  /** Any leader and any node of a reachable world that is not ahead of it in term or snapshot may meet. */
  lemma MetInRuns(n: nat, run: seq<World>, acts: seq<Action>, k: nat, i: nat, j: nat)
    requires IsRun(n, run, acts) && k < |run| && i < n && j < n && i != j && |run[k].sys.nodes| == n
    requires var s, t := run[k].sys.nodes[i], run[k].sys.nodes[j];
             && s.status == Leader && !s.halted && !t.halted && t.currentTerm <= s.currentTerm
             && t.snapIndex <= s.snapIndex
    ensures |run[k].hist.proto.members| == n
    ensures Met(Pair(run[k].sys.nodes[i], run[k].sys.nodes[j]), j,
                run[k].hist.proto.members[i].log, run[k].hist.proto.members[j].log)
  {
    hide Represents, Known, SameEntries, NetOk, ElectionsOk, RoundsOk, Ready, IsRun, LedOk;
    RunOk(n, run, acts, k);
    var p := run[k].hist.proto;
    assert MemberOk(p.members[i], n, p.led) && MemberOk(p.members[j], n, p.led);
    KnownSame(p.led, p.members[j].log, p.members[j].term, p.members[i].log, p.members[i].term);
    SnapshotTermIs(run[k].sys.nodes[i], p.members[i].log);
  }

  /** If equal snapshot indices of the two have equal terms, they meet what log repair asks for. */
  lemma PairedInRuns(n: nat, run: seq<World>, acts: seq<Action>, k: nat, i: nat, j: nat)
    requires IsRun(n, run, acts) && k < |run| && i < n && j < n && i != j && |run[k].sys.nodes| == n
    requires var s, t := run[k].sys.nodes[i], run[k].sys.nodes[j];
             && s.status == Leader && !s.halted && !t.halted && t.currentTerm <= s.currentTerm
             && t.snapIndex <= s.snapIndex && (t.snapIndex == s.snapIndex ==> t.snapTerm == s.snapTerm)
    ensures |run[k].hist.proto.members| == n
    ensures Paired(Pair(run[k].sys.nodes[i], run[k].sys.nodes[j]), j,
                   run[k].hist.proto.members[i].log, run[k].hist.proto.members[j].log)
  {
    hide Met, IsRun;
    MetInRuns(n, run, acts, k, i, j);
  }

  lemma OneSnapshotTerm(w: World, i: nat, j: nat)
    requires Safe(w) && Inv(w) && i < |w.sys.nodes| && j < |w.sys.nodes|
    requires w.sys.nodes[i].snapIndex == w.sys.nodes[j].snapIndex
    ensures w.sys.nodes[i].snapTerm == w.sys.nodes[j].snapTerm
  {
    hide Agreed, Committed, NetSafe, NetOk, ElectionsOk, RoundsOk, Sound;
    var p := w.hist.proto;
    var s, t := w.sys.nodes[i], w.sys.nodes[j];
    assert NodeSafe(p, p.members[i], s, w.sys.applied[i]) && NodeSafe(p, p.members[j], t, w.sys.applied[j]);
    SnapshotTermIs(s, p.members[i].log);
    SnapshotTermIs(t, p.members[j].log);
    var f, g := p.members[i].log[..s.commitIndex], p.members[j].log[..t.commitIndex];
    CommittedLine(p, f, p.members[i].term, g, p.members[j].term);
    if s.snapIndex > 0 { assert f[s.snapIndex - 1] == g[s.snapIndex - 1]; }
  }

  /** In a guarded run that is always so: a leader repairs every node that is not ahead of it in term or snapshot. */
  lemma RepairInGuardedRuns(n: nat, run: seq<World>, acts: seq<Action>, k: nat, i: nat, j: nat, count: int)
    requires GuardedRun(n, run, acts) && k < |run| && i < n && j < n && i != j && |run[k].sys.nodes| == n
    requires var s, t := run[k].sys.nodes[i], run[k].sys.nodes[j];
             && s.status == Leader && !s.halted && !t.halted && t.currentTerm <= s.currentTerm
             && t.snapIndex <= s.snapIndex
    ensures Ends(Pair(run[k].sys.nodes[i], run[k].sys.nodes[j]), j, count)
  {
    hide Met, IsRun, Guarded, Safe, Inv, Ends, Finds;
    RunOk(n, run, acts, k);
    RunSafe(n, run, acts, k);
    if run[k].sys.nodes[i].snapIndex == run[k].sys.nodes[j].snapIndex { OneSnapshotTerm(run[k], i, j); }
    MetInRuns(n, run, acts, k, i, j);
    RepairExactly(Pair(run[k].sys.nodes[i], run[k].sys.nodes[j]), j, count,
                  run[k].hist.proto.members[i].log, run[k].hist.proto.members[j].log);
  }
}
