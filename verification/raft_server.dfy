/**
 * The Raft object of src/raftCore/raft.cpp with its fields updated in place. Each handler runs under the
 * object's mutex; its contract says that it does what the handler of RaftNode says of the object's View.
 */
module RaftServer {
  import opened RaftTypes
  import opened RaftNode
  import opened RaftCompaction
  import opened RaftCluster

  /** A counter shared by the calls of one election or of one heartbeat round. */
  class Counter {
    var value: int

    constructor (start: int)
      ensures value == start
    {
      value := start;
    }
  }

  /** The calls of a heartbeat to the peers from index i on, in order. */
  function CallsFrom(s: Node, i: nat): seq<(nat, Call)>
    requires |s.nextIndex| == s.peers && CanBeat(s)
    decreases s.peers - i
  {
    if i >= s.peers then []
    else if i == s.me then CallsFrom(s, i + 1)
    else [(i, CallFor(s, i))] + CallsFrom(s, i + 1)
  }

  /** The votes asked for from the peers from index i on, in order. */
  function VotesFrom(s: Node, i: nat): seq<(nat, VoteArgs)>
    decreases s.peers - i
  {
    if i >= s.peers then []
    else if i == s.me then VotesFrom(s, i + 1)
    else [(i, VoteRequest(s))] + VotesFrom(s, i + 1)
  }

  lemma {:induction false} CallsReachAll(s: Node, i: nat, j: nat)
    requires |s.nextIndex| == s.peers && CanBeat(s) && i <= j < s.peers && j != s.me
    ensures (j, CallFor(s, j)) in CallsFrom(s, i)
    decreases s.peers - i
  {
    hide CanBeat, CallFor, CanCall;
    if i < j { CallsReachAll(s, i + 1, j); }
  }

  lemma {:induction false} CallsAreFor(s: Node, i: nat, k: nat)
    requires |s.nextIndex| == s.peers && CanBeat(s) && k < |CallsFrom(s, i)|
    ensures var x := CallsFrom(s, i)[k];
            i <= x.0 < s.peers && x.0 != s.me && x == (x.0, CallFor(s, x.0))
    decreases s.peers - i
  {
    hide CanCall, CallFor, CanBeat;
    if i == s.me { CallsAreFor(s, i + 1, k); } else if k > 0 { CallsAreFor(s, i + 1, k - 1); }
  }

  lemma {:induction false} CallsInOrder(s: Node, i: nat, a: nat, b: nat)
    requires |s.nextIndex| == s.peers && CanBeat(s) && a < b < |CallsFrom(s, i)|
    ensures CallsFrom(s, i)[a].0 < CallsFrom(s, i)[b].0
    decreases s.peers - i
  {
    hide CanCall, CallFor, CanBeat;
    if i == s.me {
      CallsInOrder(s, i + 1, a, b);
    } else if a > 0 {
      CallsInOrder(s, i + 1, a - 1, b - 1);
    } else {
      CallsAreFor(s, i + 1, b - 1);
    }
  }

  /** A heartbeat calls every other peer once, in order, each with the call made for it. */
  lemma CallsToAll(s: Node, i: nat)
    requires |s.nextIndex| == s.peers && CanBeat(s)
    ensures forall j: nat :: i <= j < s.peers && j != s.me ==> (j, CallFor(s, j)) in CallsFrom(s, i)
    ensures forall x :: x in CallsFrom(s, i) ==> i <= x.0 < s.peers && x.0 != s.me && x == (x.0, CallFor(s, x.0))
    ensures forall a, b :: 0 <= a < b < |CallsFrom(s, i)| ==> CallsFrom(s, i)[a].0 < CallsFrom(s, i)[b].0
  {
    hide CallFor, CanCall, CallsFrom;
    forall j: nat | i <= j < s.peers && j != s.me ensures (j, CallFor(s, j)) in CallsFrom(s, i) {
      CallsReachAll(s, i, j);
    }
    forall x | x in CallsFrom(s, i) ensures i <= x.0 < s.peers && x.0 != s.me && x == (x.0, CallFor(s, x.0)) {
      var k :| 0 <= k < |CallsFrom(s, i)| && CallsFrom(s, i)[k] == x;
      CallsAreFor(s, i, k);
    }
    forall a, b | 0 <= a < b < |CallsFrom(s, i)| ensures CallsFrom(s, i)[a].0 < CallsFrom(s, i)[b].0 {
      CallsInOrder(s, i, a, b);
    }
  }

  lemma {:induction false} VotesToAll(s: Node, i: nat)
    ensures forall j: nat :: i <= j < s.peers && j != s.me ==> (j, VoteRequest(s)) in VotesFrom(s, i)
    ensures forall x :: x in VotesFrom(s, i) ==> i <= x.0 < s.peers && x.0 != s.me && x.1 == VoteRequest(s)
    ensures forall a, b :: 0 <= a < b < |VotesFrom(s, i)| ==> VotesFrom(s, i)[a].0 < VotesFrom(s, i)[b].0
    decreases s.peers - i
  {
    if i < s.peers { VotesToAll(s, i + 1); }
  }

  /** What doElection and doHeartBeat send is what the cluster puts under way. */
  lemma SentIsUnderWay(s: Node, round: nat)
    requires |s.nextIndex| == s.peers && CanBeat(s)
    ensures (set x | x in VotesFrom(s, 0) :: VoteCall(s.me, x.0, x.1)) == VoteCalls(s.peers, s)
    ensures (set x | x in CallsFrom(s, 0) :: BeatPacket(s.me, round, x.0, x.1)) == BeatCalls(s, round)
  {
    VotesToAll(s, 0);
    CallsToAll(s, 0);
    forall pk | pk in VoteCalls(s.peers, s)
      ensures exists x :: x in VotesFrom(s, 0) && pk == VoteCall(s.me, x.0, x.1)
    {
      assert (pk.to, VoteRequest(s)) in VotesFrom(s, 0);
    }
    forall pk | pk in BeatCalls(s, round)
      ensures exists x :: x in CallsFrom(s, 0) && pk == BeatPacket(s.me, round, x.0, x.1)
    {
      var j: nat :| j < s.peers && j != s.me && pk == BeatCall(s, round, j);
      assert (j, CallFor(s, j)) in CallsFrom(s, 0);
    }
    forall x | x in CallsFrom(s, 0) ensures BeatPacket(s.me, round, x.0, x.1) in BeatCalls(s, round) {
      assert BeatPacket(s.me, round, x.0, x.1) == BeatCall(s, round, x.0);
    }
  }

  function BeatPacket(me: nat, round: nat, to: nat, call: Call): Packet {
    match call
    case CallAppend(a) => AppendCall(round, me, to, a)
    case _ => SnapTask(round, me, to)
  }

  class Server {
    const me: nat
    const peers: nat
    var currentTerm: int
    var votedFor: int
    var logs: seq<Entry>
    var commitIndex: int
    var lastApplied: int
    var nextIndex: seq<int>
    var matchIndex: seq<int>
    var status: Status
    var snapIndex: int
    var snapTerm: int
    var halted: bool            // an assertion failed and ended the process

    ghost function View(): Node
      reads this
    {
      Node(me, peers, currentTerm, votedFor, logs, commitIndex, lastApplied, nextIndex, matchIndex, status,
           snapIndex, snapTerm, halted)
    }

    constructor (me: nat, peers: nat)
      ensures View() == InitNode(me, peers)
    {
      this.me, this.peers := me, peers;
      currentTerm, votedFor, status := 0, -1, Follower;
      logs, commitIndex, lastApplied := [], 0, 0;
      snapIndex, snapTerm, halted := 0, 0, false;
      new;
      nextIndex, matchIndex := [], [];
      var i := 0;
      while i < peers
        invariant i <= peers
        invariant nextIndex == seq(i, k => 0) && matchIndex == seq(i, k => 0)
        invariant View().(nextIndex := [], matchIndex := []) == InitNode(me, peers).(nextIndex := [], matchIndex := [])
      {
        nextIndex, matchIndex := nextIndex + [0], matchIndex + [0];
        i := i + 1;
      }
    }

    // Reading the log.

    function GetLastLogIndex(): (index: int)
      reads this
      ensures index == LastLogIndex(View())
    {
      if logs == [] then snapIndex else logs[|logs| - 1].index
    }

    function GetLastLogTerm(): (term: int)
      reads this
      ensures term == LastLogTerm(View())
    {
      if logs == [] then snapTerm else logs[|logs| - 1].term
    }

    predicate UpToDate(index: int, term: int)
      reads this
      ensures UpToDate(index, term) <==> RaftNode.UpToDate(View(), index, term)
      ensures forall f :: Represents(View(), f) ==>
                (UpToDate(index, term) <==> TermOf(f, |f|) < term || (TermOf(f, |f|) == term && |f| <= index))
    {
      term > GetLastLogTerm() || (term == GetLastLogTerm() && index >= GetLastLogIndex())
    }

    /** getSlicesIndexFromLogIndex, followed by the access to m_logs that it is made for. */
    method EntryAt(k: int) returns (e: Entry)
      requires !halted
      modifies this`halted
      ensures halted <==> !CanSlice(View(), k)
      ensures !halted ==> e == At(View(), k)
    {
      e := Entry("", 0, 0);
      if k > snapIndex && k <= GetLastLogIndex() && k - snapIndex - 1 < |logs| {
        e := logs[k - snapIndex - 1];
      } else {
        halted := true;
      }
    }

    method GetLogTermFromLogIndex(k: int) returns (term: int)
      requires !halted
      modifies this`halted
      ensures halted <==> !CanRead(View(), k)
      ensures !halted ==> term == LogTermAt(View(), k)
    {
      term := 0;
      if k < snapIndex || k > GetLastLogIndex() {
        halted := true;
      } else if k == snapIndex {
        term := snapTerm;
      } else {
        var e := EntryAt(k);
        if !halted { term := e.term; }
      }
    }

    method MatchLog(k: int, t: int) returns (matches: bool)
      requires !halted
      modifies this`halted
      ensures halted <==> !CanRead(View(), k)
      ensures !halted ==> (matches <==> LogTermAt(View(), k) == t)
    {
      matches := false;
      if k < snapIndex || k > GetLastLogIndex() {
        halted := true;
      } else {
        var term := GetLogTermFromLogIndex(k);
        matches := t == term;
      }
    }

    // AppendEntries1.

    method WriteOne(e: Entry)
      requires !halted
      modifies this`logs, this`halted
      ensures View() == WriteEntry(old(View()), e)
    {
      if e.index > GetLastLogIndex() {
        logs := logs + [e];
      } else {
        var mine := EntryAt(e.index);
        if halted { return; }
        if mine.term == e.term && mine.command != e.command {
          halted := true;
          return;
        }
        if mine.term != e.term {
          logs := logs[e.index - snapIndex - 1 := e];
        }
      }
    }

    /** The follower's new nextIndex for the leader after a mismatch at `prev`. */
    method FindMismatch(prev: int) returns (next: int)
      requires !halted && CanRead(View(), prev)
      modifies this`halted
      ensures View() == old(View()) && next == Backtrack(View(), prev, prev)
    {
      next := prev;
      var index := prev;
      while index >= snapIndex
        invariant snapIndex - 1 <= index <= prev && next == prev && View() == old(View())
        invariant Backtrack(View(), prev, prev) == Backtrack(View(), prev, index)
        decreases index - snapIndex + 1
      {
        var here := GetLogTermFromLogIndex(index);
        var there := GetLogTermFromLogIndex(prev);
        if here != there {
          next := index + 1;
          return;
        }
        index := index - 1;
      }
    }

    /** The branch of AppendEntries1 for a batch that matches: write it, and commit with the leader. */
    method AcceptBatch(a: AppendArgs) returns (reply: AppendReply)
      requires !halted
      modifies this`logs, this`commitIndex, this`halted
      ensures View() == AcceptEntries(old(View()), a).node
      ensures !halted ==> reply == AcceptEntries(old(View()), a).reply
    {
      reply := AppendReply(0, false, 0, AppNormal);
      ghost var f := View();
      var i := 0;
      while i < |a.entries|
        invariant 0 <= i <= |a.entries| && !halted
        invariant View() == f.(logs := logs)
        invariant WriteEntries(View(), a.entries[i..]) == WriteEntries(f, a.entries)
      {
        ghost var rest := a.entries[i..];
        assert rest[0] == a.entries[i] && rest[1..] == a.entries[i + 1..];
        WriteOne(a.entries[i]);
        if halted { return; }
        i := i + 1;
      }
      assert a.entries[i..] == [];
      if GetLastLogIndex() < a.prevLogIndex + |a.entries| {
        halted := true;
        return;
      }
      if a.leaderCommit > commitIndex {
        commitIndex := if a.leaderCommit < GetLastLogIndex() then a.leaderCommit else GetLastLogIndex();
      }
      if GetLastLogIndex() < commitIndex {
        halted := true;
        return;
      }
      reply := AppendReply(currentTerm, true, 0, AppNormal);
    }

    method AppendEntries1(a: AppendArgs) returns (reply: AppendReply)
      requires !halted
      modifies this
      ensures View() == HandleAppend(old(View()), a).node
      ensures !halted ==> reply == HandleAppend(old(View()), a).reply
    {
      reply := AppendReply(0, false, 0, AppNormal);
      if a.term < currentTerm {
        reply := AppendReply(currentTerm, false, NO_UPDATE, AppNormal);
        return;
      }
      if a.term > currentTerm {
        status, currentTerm, votedFor := Follower, a.term, -1;
      }
      status := Follower;
      ghost var f := View();
      assert f == Adopt(old(View()), a.term);
      if a.prevLogIndex > GetLastLogIndex() {
        reply := AppendReply(currentTerm, false, GetLastLogIndex() + 1, AppNormal);
        return;
      } else if a.prevLogIndex < snapIndex {
        reply := AppendReply(currentTerm, false, snapIndex + 1, AppNormal);
      }
      var matches := MatchLog(a.prevLogIndex, a.prevLogTerm);
      if halted { return; }
      if matches {
        reply := AcceptBatch(a);
      } else {
        var next := FindMismatch(a.prevLogIndex);
        reply := AppendReply(currentTerm, false, next, AppNormal);
      }
    }

    // Elections.

    method DoElection() returns (calls: seq<(nat, VoteArgs)>)
      requires !halted
      modifies this`status, this`currentTerm, this`votedFor
      ensures View() == StartElection(old(View()))
      ensures calls == if old(status) == Leader then [] else VotesFrom(View(), 0)
    {
      hide LastLogIndex, LastLogTerm;
      calls := [];
      if status != Leader {
        status := Candidate;
        currentTerm := currentTerm + 1;
        votedFor := me;
        ghost var s := View();
        var i := 0;
        while i < peers
          invariant i <= peers && View() == s
          invariant calls + VotesFrom(s, i) == VotesFrom(s, 0)
        {
          if i != me {
            calls := calls + [(i, VoteArgs(currentTerm, me, GetLastLogIndex(), GetLastLogTerm()))];
          }
          i := i + 1;
        }
      }
    }

    method RequestVote(a: VoteArgs) returns (reply: VoteReply)
      requires !halted
      modifies this`status, this`currentTerm, this`votedFor
      ensures Answer(View(), reply) == HandleVote(old(View()), a)
      ensures reply.voteGranted <==>
                && a.term >= old(currentTerm) && old(UpToDate(a.lastLogIndex, a.lastLogTerm))
                && (a.term == old(currentTerm) ==> old(votedFor) == -1 || old(votedFor) == a.candidateId)
    {
      if a.term < currentTerm {
        return VoteReply(currentTerm, Expire, false);
      }
      if a.term > currentTerm {
        status, currentTerm, votedFor := Follower, a.term, -1;
      }
      if !UpToDate(a.lastLogIndex, a.lastLogTerm) {
        return VoteReply(currentTerm, Voted, false);
      }
      if votedFor != -1 && votedFor != a.candidateId {
        return VoteReply(currentTerm, Voted, false);
      } else {
        votedFor := a.candidateId;
        return VoteReply(currentTerm, Normal, true);
      }
    }

    /** The part of sendRequestVote after the reply came. */
    method VoteReturned(reply: VoteReply, votedNum: Counter)
      requires !halted && |nextIndex| == |matchIndex|
      modifies this, votedNum
      ensures Counted(View(), votedNum.value) == HandleVoteReply(old(View()), reply, old(votedNum.value))
    {
      if reply.term > currentTerm {
        status, currentTerm, votedFor := Follower, reply.term, -1;
        return;
      } else if reply.term < currentTerm {
        return;
      }
      if !reply.voteGranted {
        return;
      }
      votedNum.value := votedNum.value + 1;
      if votedNum.value >= peers / 2 + 1 {
        votedNum.value := 0;
        if status == Leader {
          halted := true;
          return;
        }
        status := Leader;
        ghost var s := View();
        var last := GetLastLogIndex();
        var i := 0;
        while i < |nextIndex|
          invariant i <= |nextIndex| == |matchIndex| == |s.nextIndex|
          invariant View() == s.(nextIndex := nextIndex, matchIndex := matchIndex) && votedNum.value == 0
          invariant forall j :: 0 <= j < i ==> nextIndex[j] == last + 1 && matchIndex[j] == 0
        {
          nextIndex, matchIndex := nextIndex[i := last + 1], matchIndex[i := 0];
          i := i + 1;
        }
        assert nextIndex == BecomeLeader(old(View())).nextIndex;
        assert matchIndex == BecomeLeader(old(View())).matchIndex;
      }
    }

    // Heartbeats.

    method GetPrevLogInfo(server: nat) returns (prev: int, term: int)
      requires !halted && server < |nextIndex|
      modifies this`halted
      ensures prev == PrevIndex(View(), server)
      ensures halted <==> prev != snapIndex && !CanSlice(View(), prev)
      ensures !halted ==> term == (if prev == snapIndex then snapTerm else At(View(), prev).term)
    {
      if nextIndex[server] == snapIndex + 1 {
        return snapIndex, snapTerm;
      }
      prev, term := nextIndex[server] - 1, 0;
      var e := EntryAt(prev);
      if !halted { term := e.term; }
    }

    /** The entries of m_logs from position j on. */
    method EntriesFrom(j: nat) returns (entries: seq<Entry>)
      requires j <= |logs|
      ensures entries == logs[j..]
    {
      entries := [];
      var i := j;
      while i < |logs|
        invariant j <= i <= |logs| && entries == logs[j..i]
      {
        entries := entries + [logs[i]];
        i := i + 1;
      }
    }

    /** What the loop of doHeartBeat sends to peer i. */
    method CallPeer(i: nat) returns (call: Call)
      requires !halted && i < |nextIndex| && i != me
      modifies this`halted
      ensures halted <==> !CanCall(old(View()), i)
      ensures !halted ==> call == CallFor(View(), i)
    {
      call := CallSnapshot;
      if nextIndex[i] < 1 {
        halted := true;
        return;
      }
      if nextIndex[i] > snapIndex {
        var prev, term := GetPrevLogInfo(i);
        if halted { return; }
        var entries := EntriesFrom(prev - snapIndex);
        if prev + |entries| != GetLastLogIndex() {
          halted := true;
          return;
        }
        call := CallAppend(AppendArgs(currentTerm, me, prev, term, entries, commitIndex));
      }
    }

    /** A failing assertion ends the process after the calls to some peers went out. */
    method DoHeartBeat() returns (calls: seq<(nat, Call)>)
      requires !halted && |nextIndex| == peers
      modifies this`halted
      ensures halted <==> old(status) == Leader && !CanBeat(old(View()))
      ensures View() == old(View()).(halted := halted)
      ensures !halted ==> calls == if status == Leader then CallsFrom(old(View()), 0) else []
    {
      hide CanCall, CallFor, CanSlice;
      calls := [];
      if status == Leader {
        ghost var s := View();
        var i := 0;
        while i < peers
          invariant i <= peers && !halted && View() == s
          invariant forall j: nat :: j < i && j != me ==> CanCall(s, j)
          invariant CanBeat(s) ==> calls + CallsFrom(s, i) == CallsFrom(s, 0)
        {
          if i != me {
            var call := CallPeer(i);
            if halted { return; }
            calls := calls + [(i, call)];
          }
          i := i + 1;
        }
      }
    }

    /** The part of sendAppendEntries after the reply came. */
    method AppendReturned(server: nat, a: AppendArgs, reply: AppendReply, appendNums: Counter)
      requires !halted && server < |nextIndex| && server < |matchIndex|
      modifies this, appendNums
      ensures Counted(View(), appendNums.value)
           == HandleAppendReply(old(View()), server, a, reply, old(appendNums.value))
    {
      if reply.appState == Disconnected {
        return;
      }
      if reply.term > currentTerm {
        status, currentTerm, votedFor := Follower, reply.term, -1;
        return;
      } else if reply.term < currentTerm {
        return;
      }
      if status != Leader {
        return;
      }
      if !reply.success {
        if reply.updateNextIndex != NO_UPDATE {
          nextIndex := nextIndex[server := reply.updateNextIndex];
        }
      } else {
        appendNums.value := appendNums.value + 1;
        var reached := a.prevLogIndex + |a.entries|;
        matchIndex := matchIndex[server := if matchIndex[server] < reached then reached else matchIndex[server]];
        nextIndex := nextIndex[server := matchIndex[server] + 1];
        var last := GetLastLogIndex();
        if nextIndex[server] > last + 1 {
          halted := true;
          return;
        }
        if appendNums.value >= 1 + peers / 2 {
          appendNums.value := 0;
          if |a.entries| > 0 && a.entries[|a.entries| - 1].term == currentTerm {
            commitIndex := if commitIndex < reached then reached else commitIndex;
          }
          if commitIndex > last {
            halted := true;
          }
        }
      }
    }

    // Snapshots.

    /** Erase the entries up to index k, or all of them if none lies beyond it. */
    method DropThrough(k: int)
      requires !halted
      modifies this`logs, this`halted
      ensures halted <==> LastLogIndex(old(View())) > k && !CanSlice(old(View()), k)
      ensures halted ==> logs == old(logs)
      ensures !halted ==> logs == if LastLogIndex(old(View())) > k then old(logs)[k - snapIndex..] else []
    {
      if GetLastLogIndex() > k {
        var e := EntryAt(k);
        if !halted { logs := logs[k - snapIndex..]; }
      } else {
        logs := [];
      }
    }

    method InstallSnapshot(a: SnapArgs) returns (reply: SnapReply, msgs: seq<ApplyMsg>)
      requires !halted
      modifies this
      ensures View() == HandleSnapshot(old(View()), a).node
      ensures !halted ==> reply == HandleSnapshot(old(View()), a).reply
      ensures msgs == if Installs(old(View()), a) then [SnapshotMsg(a.lastIndex, a.lastTerm)] else []
    {
      hide CanSlice;
      if a.term < currentTerm {
        return SnapReply(currentTerm), [];
      }
      if a.term > currentTerm {
        currentTerm, votedFor, status := a.term, -1, Follower;
      }
      status := Follower;
      if a.lastIndex <= snapIndex {
        return SnapReply(0), [];
      }
      reply, msgs := CoverThrough(a);
    }

    /** The part of InstallSnapshot from where the snapshot is taken over. */
    method CoverThrough(a: SnapArgs) returns (reply: SnapReply, msgs: seq<ApplyMsg>)
      requires !halted && a.lastIndex > snapIndex && a.term == currentTerm
      modifies this
      ensures View() == Covered(old(View()), a)
      ensures !halted ==> reply == SnapReply(old(currentTerm))
      ensures msgs == if halted then [] else [SnapshotMsg(a.lastIndex, a.lastTerm)]
    {
      hide CanSlice;
      DropThrough(a.lastIndex);
      if halted { return SnapReply(0), []; }
      commitIndex := if commitIndex < a.lastIndex then a.lastIndex else commitIndex;
      lastApplied := if lastApplied < a.lastIndex then a.lastIndex else lastApplied;
      snapIndex, snapTerm := a.lastIndex, a.lastTerm;
      reply, msgs := SnapReply(currentTerm), [SnapshotMsg(a.lastIndex, a.lastTerm)];
    }

    /** The part of leaderSendSnapShot before the call. */
    method SnapshotArgs() returns (a: SnapArgs)
      ensures a == SnapshotRequest(View())
    {
      a := SnapArgs(me, currentTerm, snapIndex, snapTerm);
    }

    /** The part of leaderSendSnapShot after the reply came. */
    method SnapshotReturned(server: nat, a: SnapArgs, reply: SnapReply)
      requires !halted && server < |nextIndex| && server < |matchIndex|
      modifies this
      ensures View() == HandleSnapshotReply(old(View()), server, a, reply)
      ensures old(status == Leader && currentTerm == a.term && reply.term <= currentTerm) ==>
                && matchIndex == old(matchIndex)[server := a.lastIndex]
                && nextIndex == old(nextIndex)[server := a.lastIndex + 1]
                && View() == old(View()).(matchIndex := matchIndex, nextIndex := nextIndex)
    {
      if status != Leader || currentTerm != a.term {
        return;
      }
      if reply.term > currentTerm {
        currentTerm, votedFor, status := reply.term, -1, Follower;
        return;
      }
      matchIndex := matchIndex[server := a.lastIndex];
      nextIndex := nextIndex[server := matchIndex[server] + 1];
    }

    /** The closing assertion, on the size of the log, never fails. */
    method Snapshot(index: int)
      requires !halted
      modifies this
      ensures View() == TakeSnapshot(old(View()), index)
    {
      if snapIndex >= index || index > commitIndex {
        return;
      }
      var last := GetLastLogIndex();
      var e := EntryAt(index);
      if halted { return; }
      var kept: seq<Entry> := [];
      var i := index + 1;
      while i <= last
        invariant index + 1 <= i <= last + 1 && i - 1 - snapIndex <= |logs| && View() == old(View())
        invariant kept == logs[index - snapIndex..i - 1 - snapIndex]
      {
        var x := EntryAt(i);
        if halted { return; }
        kept := kept + [x];
        i := i + 1;
      }
      snapIndex, snapTerm, logs := index, e.term, kept;
      commitIndex := if commitIndex < index then index else commitIndex;
      lastApplied := if lastApplied < index then index else lastApplied;
      if |logs| + snapIndex != last { halted := true; }
    }

    // Commands.

    method Start(command: Command) returns (index: int, term: int, isLeader: bool)
      requires !halted
      modifies this`logs
      ensures View() == StartCommand(old(View()), command)
      ensures isLeader <==> status == Leader
      ensures if isLeader then index == old(GetLastLogIndex()) + 1 && term == currentTerm && index == GetLastLogIndex()
              else index == -1 && term == -1
    {
      if status != Leader {
        return -1, -1, false;
      }
      index, term, isLeader := GetLastLogIndex() + 1, currentTerm, true;
      logs := logs + [Entry(command, term, index)];
    }

    /** One turn of the loop of getApplyLogs. */
    method ApplyNext(ghost s: Node) returns (msg: ApplyMsg)
      requires !halted && View() == s.(lastApplied := lastApplied)
      modifies this`lastApplied, this`halted
      ensures lastApplied == old(lastApplied) + 1
      ensures View() == s.(lastApplied := lastApplied, halted := halted)
      ensures halted <==> !(CanSlice(s, lastApplied) && At(s, lastApplied).index == lastApplied)
      ensures !halted ==> msg == CommandMsg(lastApplied, At(s, lastApplied).command)
    {
      lastApplied := lastApplied + 1;
      msg := CommandMsg(lastApplied, "");
      var e := EntryAt(lastApplied);
      if halted { return; }
      if e.index != lastApplied {
        halted := true;
        return;
      }
      msg := CommandMsg(lastApplied, e.command);
    }

    /** A failing assertion ends the process before any message is handed over. */
    method GetApplyLogs() returns (msgs: seq<ApplyMsg>)
      requires !halted
      modifies this`lastApplied, this`halted
      ensures halted <==> !CanApply(old(View()))
      ensures !halted ==> View() == Applied(old(View())) && msgs == PendingFrom(old(View()), old(lastApplied))
    {
      hide CanSlice, At;
      msgs := [];
      if commitIndex > GetLastLogIndex() {
        halted := true;
        return;
      }
      ghost var s := View();
      while lastApplied < commitIndex
        invariant !halted && s.lastApplied <= lastApplied && (lastApplied <= commitIndex || lastApplied == s.lastApplied)
        invariant View() == s.(lastApplied := lastApplied)
        invariant forall k :: s.lastApplied < k <= lastApplied ==> CanSlice(s, k) && At(s, k).index == k
        invariant CanApply(s) ==> msgs + PendingFrom(s, lastApplied) == PendingFrom(s, s.lastApplied)
        decreases commitIndex - lastApplied
      {
        var msg := ApplyNext(s);
        if halted { return; }
        msgs := msgs + [msg];
      }
    }
  }
}
