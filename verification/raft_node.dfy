/**
 * One Raft node as a value, and what each handler of src/raftCore/raft.cpp makes of it. A failing
 * assertion ends the process (src/common/util.cpp): the handler then leaves the node `halted`, and
 * so does an access outside m_logs, which the source leaves undefined.
 */
module RaftNode {
  import opened RaftTypes

  datatype Status = Follower | Candidate | Leader

  datatype Node = Node(
    me: nat,
    peers: nat,                  // m_peers.size()
    currentTerm: int,
    votedFor: int,               // -1 for nobody
    logs: Log,                   // the entries after the snapshot
    commitIndex: int,
    lastApplied: int,
    nextIndex: seq<int>,
    matchIndex: seq<int>,
    status: Status,
    snapIndex: int,              // m_lastSnapshotIncludeIndex
    snapTerm: int,               // m_lastSnapshotIncludeTerm
    halted: bool)

  datatype VoteArgs = VoteArgs(term: int, candidateId: int, lastLogIndex: int, lastLogTerm: int)

  datatype VoteState = Voted | Expire | Normal

  datatype VoteReply = VoteReply(term: int, voteState: VoteState, voteGranted: bool)

  datatype AppendArgs = AppendArgs(
    term: int, leaderId: int, prevLogIndex: int, prevLogTerm: int, entries: Log, leaderCommit: int)

  datatype AppState = Disconnected | AppNormal

  datatype AppendReply = AppendReply(term: int, success: bool, updateNextIndex: int, appState: AppState)

  datatype SnapArgs = SnapArgs(leaderId: int, term: int, lastIndex: int, lastTerm: int)

  datatype SnapReply = SnapReply(term: int)

  datatype ApplyMsg = CommandMsg(index: int, command: Command) | SnapshotMsg(index: int, term: int)

  /** The node after a handler, and its reply; no reply is sent if the node is halted. */
  datatype Answer<R> = Answer(node: Node, reply: R)

  /** The node after a reply was handled, and the counter shared by the calls of that round. */
  datatype Counted = Counted(node: Node, count: int)

  const NO_UPDATE := -100

  // Reading the log.

  function LastLogIndex(s: Node): int {
    if s.logs == [] then s.snapIndex else s.logs[|s.logs| - 1].index
  }

  function LastLogTerm(s: Node): int {
    if s.logs == [] then s.snapTerm else s.logs[|s.logs| - 1].term
  }

  /** getSlicesIndexFromLogIndex(k) passes its assertions and names an element of m_logs. */
  predicate CanSlice(s: Node, k: int) {
    s.snapIndex < k <= LastLogIndex(s) && k - s.snapIndex - 1 < |s.logs|
  }

  function At(s: Node, k: int): Entry
    requires CanSlice(s, k)
  {
    s.logs[k - s.snapIndex - 1]
  }

  predicate CanRead(s: Node, k: int) {
    (s.snapIndex == k <= LastLogIndex(s)) || CanSlice(s, k)
  }

  function LogTermAt(s: Node, k: int): int
    requires CanRead(s, k)
  {
    if k == s.snapIndex then s.snapTerm else At(s, k).term
  }

  predicate UpToDate(s: Node, index: int, term: int) {
    term > LastLogTerm(s) || (term == LastLogTerm(s) && index >= LastLogIndex(s))
  }

  // Becoming a follower of a later term.

  function Adopt(s: Node, term: int): Node {
    s.(currentTerm := term, status := Follower, votedFor := if term > s.currentTerm then -1 else s.votedFor)
  }

  function StepDown(s: Node, term: int): Node {
    s.(status := Follower, currentTerm := term, votedFor := -1)
  }

  function Halt(s: Node): Node { s.(halted := true) }

  // AppendEntries.

  function WriteEntry(s: Node, e: Entry): Node {
    if e.index > LastLogIndex(s) then
      s.(logs := s.logs + [e])
    else if !CanSlice(s, e.index) then
      Halt(s)
    else if At(s, e.index).term == e.term then
      if At(s, e.index).command != e.command then Halt(s) else s
    else
      s.(logs := s.logs[e.index - s.snapIndex - 1 := e])
  }

  function WriteEntries(s: Node, es: Log): Node
    decreases |es|
  {
    if es == [] || s.halted then s else WriteEntries(WriteEntry(s, es[0]), es[1..])
  }

  /** The index after the last one, at or below `index`, whose term differs from that at `prev`. */
  function Backtrack(s: Node, prev: int, index: int): int
    requires CanRead(s, prev) && s.snapIndex - 1 <= index <= prev
    decreases index - s.snapIndex + 1
  {
    if index < s.snapIndex then prev
    else if LogTermAt(s, index) != LogTermAt(s, prev) then index + 1
    else Backtrack(s, prev, index - 1)
  }

  function Reject(s: Node, next: int): Answer<AppendReply> {
    Answer(s, AppendReply(s.currentTerm, false, next, AppNormal))
  }

  function CommitUpTo(s: Node, leaderCommit: int): Node {
    if leaderCommit > s.commitIndex
    then s.(commitIndex := Min(leaderCommit, LastLogIndex(s)))
    else s
  }

  function AcceptEntries(s: Node, a: AppendArgs): Answer<AppendReply> {
    var w := WriteEntries(s, a.entries);
    var c := CommitUpTo(w, a.leaderCommit);
    if w.halted || LastLogIndex(w) < a.prevLogIndex + |a.entries| then
      Answer(Halt(w), AppendReply(0, false, 0, AppNormal))
    else if LastLogIndex(c) < c.commitIndex then
      Answer(Halt(c), AppendReply(0, false, 0, AppNormal))
    else
      Answer(c, AppendReply(c.currentTerm, true, 0, AppNormal))
  }

  function HandleAppend(s: Node, a: AppendArgs): Answer<AppendReply> {
    if a.term < s.currentTerm then
      Reject(s, NO_UPDATE)
    else
      var f := Adopt(s, a.term);
      if a.prevLogIndex > LastLogIndex(f) then
        Reject(f, LastLogIndex(f) + 1)
      else if !CanRead(f, a.prevLogIndex) then
        Answer(Halt(f), AppendReply(0, false, 0, AppNormal))
      else if LogTermAt(f, a.prevLogIndex) == a.prevLogTerm then
        AcceptEntries(f, a)
      else
        Reject(f, Backtrack(f, a.prevLogIndex, a.prevLogIndex))
  }

  // RequestVote and elections.

  function HandleVote(s: Node, a: VoteArgs): Answer<VoteReply> {
    if a.term < s.currentTerm then
      Answer(s, VoteReply(s.currentTerm, Expire, false))
    else
      var f := if a.term > s.currentTerm then StepDown(s, a.term) else s;
      if !UpToDate(f, a.lastLogIndex, a.lastLogTerm) then
        Answer(f, VoteReply(f.currentTerm, Voted, false))
      else if f.votedFor != -1 && f.votedFor != a.candidateId then
        Answer(f, VoteReply(f.currentTerm, Voted, false))
      else
        Answer(f.(votedFor := a.candidateId), VoteReply(f.currentTerm, Normal, true))
  }

  function StartElection(s: Node): Node {
    if s.status == Leader then s
    else s.(status := Candidate, currentTerm := s.currentTerm + 1, votedFor := s.me)
  }

  function VoteRequest(s: Node): VoteArgs {
    VoteArgs(s.currentTerm, s.me, LastLogIndex(s), LastLogTerm(s))
  }

  function BecomeLeader(s: Node): Node {
    s.(status := Leader,
       nextIndex := seq(|s.nextIndex|, i => LastLogIndex(s) + 1),
       matchIndex := seq(|s.matchIndex|, i => 0))
  }

  function HandleVoteReply(s: Node, r: VoteReply, votedNum: int): Counted {
    if r.term > s.currentTerm then
      Counted(StepDown(s, r.term), votedNum)
    else if r.term < s.currentTerm || !r.voteGranted then
      Counted(s, votedNum)
    else if votedNum + 1 < s.peers / 2 + 1 then
      Counted(s, votedNum + 1)
    else if s.status == Leader then
      Counted(Halt(s), 0)
    else
      Counted(BecomeLeader(s), 0)
  }

  // Heartbeats.

  datatype Call = NoCall | CallAppend(args: AppendArgs) | CallSnapshot

  function PrevIndex(s: Node, i: nat): int
    requires i < |s.nextIndex|
  {
    s.nextIndex[i] - 1
  }

  /** The assertions of doHeartBeat and getPrevLogInfo for peer i. */
  predicate CanCall(s: Node, i: nat)
    requires i < |s.nextIndex|
  {
    && s.nextIndex[i] >= 1
    && (s.nextIndex[i] > s.snapIndex ==>
          && (PrevIndex(s, i) == s.snapIndex || CanSlice(s, PrevIndex(s, i)))
          && PrevIndex(s, i) + |s.logs| - (PrevIndex(s, i) - s.snapIndex) == LastLogIndex(s))
  }

  function CallFor(s: Node, i: nat): Call
    requires i < |s.nextIndex| && CanCall(s, i)
  {
    if i == s.me then NoCall
    else if s.nextIndex[i] <= s.snapIndex then CallSnapshot
    else
      var prev := PrevIndex(s, i);
      var term := if prev == s.snapIndex then s.snapTerm else At(s, prev).term;
      CallAppend(AppendArgs(s.currentTerm, s.me, prev, term, s.logs[prev - s.snapIndex..], s.commitIndex))
  }

  predicate CanBeat(s: Node)
    requires |s.nextIndex| == s.peers
  {
    forall i: nat :: i < s.peers && i != s.me ==> CanCall(s, i)
  }

  function HandleAppendReply(s: Node, server: nat, a: AppendArgs, r: AppendReply, appendNums: int): Counted
    requires server < |s.nextIndex| && server < |s.matchIndex|
  {
    if r.appState == Disconnected then
      Counted(s, appendNums)
    else if r.term > s.currentTerm then
      Counted(StepDown(s, r.term), appendNums)
    else if r.term < s.currentTerm || s.status != Leader then
      Counted(s, appendNums)
    else if !r.success then
      Counted(if r.updateNextIndex != NO_UPDATE then s.(nextIndex := s.nextIndex[server := r.updateNextIndex]) else s,
              appendNums)
    else
      var m := Max(s.matchIndex[server], a.prevLogIndex + |a.entries|);
      var w := s.(matchIndex := s.matchIndex[server := m], nextIndex := s.nextIndex[server := m + 1]);
      if m + 1 > LastLogIndex(w) + 1 then
        Counted(Halt(w), appendNums + 1)
      else if appendNums + 1 < 1 + s.peers / 2 then
        Counted(w, appendNums + 1)
      else
        var c := if |a.entries| > 0 && a.entries[|a.entries| - 1].term == w.currentTerm
                 then w.(commitIndex := Max(w.commitIndex, a.prevLogIndex + |a.entries|))
                 else w;
        if c.commitIndex > LastLogIndex(c) then Counted(Halt(c), 0) else Counted(c, 0)
  }

  // Snapshots.

  function SnapshotRequest(s: Node): SnapArgs {
    SnapArgs(s.me, s.currentTerm, s.snapIndex, s.snapTerm)
  }

  /** A stale request is answered with the node's term; a snapshot that the node already covers leaves the
      reply's term unset, that is 0. */
  function HandleSnapshot(s: Node, a: SnapArgs): Answer<SnapReply> {
    if a.term < s.currentTerm then
      Answer(s, SnapReply(s.currentTerm))
    else
      var f := Adopt(s, a.term);
      if a.lastIndex <= f.snapIndex then Answer(f, SnapReply(0))
      else Answer(Covered(f, a), SnapReply(if Covered(f, a).halted then 0 else f.currentTerm))
  }

  /** The node after it took over the snapshot; erasing the covered entries may fail an assertion. */
  function Covered(f: Node, a: SnapArgs): Node {
    if LastLogIndex(f) > a.lastIndex && !CanSlice(f, a.lastIndex) then Halt(f)
    else
      f.(logs := if LastLogIndex(f) > a.lastIndex then f.logs[a.lastIndex - f.snapIndex..] else [],
         commitIndex := Max(f.commitIndex, a.lastIndex),
         lastApplied := Max(f.lastApplied, a.lastIndex),
         snapIndex := a.lastIndex,
         snapTerm := a.lastTerm)
  }

  /** InstallSnapshot hands the snapshot to the key-value server. */
  predicate Installs(s: Node, a: SnapArgs) {
    a.term >= s.currentTerm && a.lastIndex > s.snapIndex && !HandleSnapshot(s, a).node.halted
  }

  function HandleSnapshotReply(s: Node, server: nat, a: SnapArgs, r: SnapReply): Node
    requires server < |s.nextIndex| && server < |s.matchIndex|
  {
    if s.status != Leader || s.currentTerm != a.term then s
    else if r.term > s.currentTerm then StepDown(s, r.term)
    else s.(matchIndex := s.matchIndex[server := a.lastIndex], nextIndex := s.nextIndex[server := a.lastIndex + 1])
  }

  function TakeSnapshot(s: Node, index: int): Node {
    if s.snapIndex >= index || index > s.commitIndex then s
    else if !CanSlice(s, index) || LastLogIndex(s) - s.snapIndex > |s.logs| then Halt(s)
    else
      s.(logs := s.logs[index - s.snapIndex..LastLogIndex(s) - s.snapIndex],
         snapIndex := index,
         snapTerm := At(s, index).term,
         commitIndex := Max(s.commitIndex, index),
         lastApplied := Max(s.lastApplied, index))
  }

  // Commands.

  function StartCommand(s: Node, c: Command): Node {
    if s.status != Leader then s
    else s.(logs := s.logs + [Entry(c, s.currentTerm, LastLogIndex(s) + 1)])
  }

  /** The committed messages after index `from`, in order. */
  function PendingFrom(s: Node, from: int): seq<ApplyMsg>
    requires forall k :: from < k <= s.commitIndex ==> CanSlice(s, k)
    decreases s.commitIndex - from
  {
    if from >= s.commitIndex then []
    else [CommandMsg(from + 1, At(s, from + 1).command)] + PendingFrom(s, from + 1)
  }

  /** The assertions of getApplyLogs. */
  predicate CanApply(s: Node) {
    && s.commitIndex <= LastLogIndex(s)
    && forall k :: s.lastApplied < k <= s.commitIndex ==> CanSlice(s, k) && At(s, k).index == k
  }

  function Applied(s: Node): Node {
    if !CanApply(s) then Halt(s)
    else s.(lastApplied := Max(s.lastApplied, s.commitIndex))
  }

  function InitNode(me: nat, peers: nat): Node {
    Node(me, peers, 0, -1, [], 0, 0, seq(peers, i => 0), seq(peers, i => 0), Follower, 0, 0, false)
  }
}
