/**
 * A cluster of Raft nodes and the calls between them. A call is lost, or handled at most once and
 * answered at most once to its own caller, at any later time. Every handler is one step, as it holds the
 * node's mutex; leaderSendSnapShot is two. A halted node takes no more steps.
 *
 * The history beside the system records what happened and never decides what may happen.
 */
module RaftCluster {
  import opened RaftTypes
  import opened RaftNode
  import opened RaftProtocol

  datatype Packet =
    | VoteCall(from: nat, to: nat, vargs: VoteArgs)
    | VoteReturn(from: nat, to: nat, vargs: VoteArgs, vreply: VoteReply)
    | AppendCall(round: nat, from: nat, to: nat, args: AppendArgs)
    | AppendReturn(round: nat, from: nat, to: nat, args: AppendArgs, reply: AppendReply)
    | SnapTask(round: nat, from: nat, to: nat)
    | SnapCall(round: nat, from: nat, to: nat, sargs: SnapArgs)
    | SnapReturn(round: nat, from: nat, to: nat, sargs: SnapArgs, sreply: SnapReply)

  datatype System = System(
    nodes: seq<Node>,
    net: set<Packet>,                // calls under way, with what they carry
    votes: map<(nat, int), int>,     // votedNum of each election
    rounds: seq<int>,                // appendNums of each heartbeat round
    applied: seq<seq<ApplyMsg>>)     // what each node handed to its apply channel

  datatype Action =
    | Timeout(i: nat)
    | HeartBeat(i: nat)
    | DeliverVote(pk: Packet)
    | ReturnVote(pk: Packet)
    | DeliverAppend(pk: Packet)
    | ReturnAppend(pk: Packet)
    | SendSnap(pk: Packet)
    | DeliverSnap(pk: Packet)
    | ReturnSnap(pk: Packet)
    | Lose(pk: Packet)
    | ClientStart(i: nat, command: Command)
    | ApplyTick(i: nat)
    | Compact(i: nat, index: int)

  /** The node that the action runs on. */
  function Actor(a: Action): nat {
    match a
    case Timeout(i) => i
    case HeartBeat(i) => i
    case DeliverVote(pk) => pk.to
    case ReturnVote(pk) => pk.from
    case DeliverAppend(pk) => pk.to
    case ReturnAppend(pk) => pk.from
    case SendSnap(pk) => pk.from
    case DeliverSnap(pk) => pk.to
    case ReturnSnap(pk) => pk.from
    case Lose(pk) => pk.from
    case ClientStart(i, _) => i
    case ApplyTick(i) => i
    case Compact(i, _) => i
  }

  predicate Fits(sys: System, a: Action) {
    match a
    case DeliverVote(pk) => pk in sys.net && pk.VoteCall?
    case ReturnVote(pk) => pk in sys.net && pk.VoteReturn?
    case DeliverAppend(pk) => pk in sys.net && pk.AppendCall?
    case ReturnAppend(pk) => pk in sys.net && pk.AppendReturn?
    case SendSnap(pk) => pk in sys.net && pk.SnapTask?
    case DeliverSnap(pk) => pk in sys.net && pk.SnapCall?
    case ReturnSnap(pk) => pk in sys.net && pk.SnapReturn?
    case Lose(pk) => pk in sys.net
    case Compact(i, index) => i < |sys.applied| && exists m :: m in sys.applied[i] && m.CommandMsg? && m.index == index
    case _ => true
  }

  predicate Enabled(sys: System, a: Action) {
    Fits(sys, a) && Actor(a) < |sys.nodes| && (a.Lose? || !sys.nodes[Actor(a)].halted)
  }

  function SetNode(sys: System, i: nat, s: Node): System
    requires i < |sys.nodes|
  {
    sys.(nodes := sys.nodes[i := s])
  }

  /** The call is answered unless the process ended. */
  function Respond(sys: System, i: nat, s: Node, call: Packet, back: Packet): System
    requires i < |sys.nodes|
  {
    SetNode(sys, i, s).(net := if s.halted then sys.net - {call} else sys.net - {call} + {back})
  }

  function VoteCount(sys: System, c: nat, t: int): int {
    if (c, t) in sys.votes then sys.votes[(c, t)] else 0
  }

  function VoteCalls(n: nat, s: Node): set<Packet> {
    set j: nat | j < n && j != s.me :: VoteCall(s.me, j, VoteRequest(s))
  }

  function BeatCall(s: Node, round: nat, j: nat): Packet
    requires |s.nextIndex| == s.peers && CanBeat(s) && j < s.peers && j != s.me
  {
    match CallFor(s, j)
    case CallAppend(args) => AppendCall(round, s.me, j, args)
    case _ => SnapTask(round, s.me, j)
  }

  function BeatCalls(s: Node, round: nat): set<Packet>
    requires |s.nextIndex| == s.peers && CanBeat(s)
  {
    set j: nat | j < s.peers && j != s.me :: BeatCall(s, round, j)
  }

  // The history.

  datatype Round = Round(
    leader: nat, term: int,
    last: int, lastTerm: int,   // where every batch of the round ends, and the term there
    acked: set<nat>,            // the leader and the peers whose success was counted
    held: set<nat>)             // the peers that held lastTerm at last when they answered

  datatype History = History(
    proto: Proto,
    covered: map<(nat, nat), Log>,       // (round, to) -> the prefix that the snapshot sent stands for
    counted: map<(nat, int), set<nat>>,  // (candidate, term) -> itself and the voters counted
    rounds: seq<Round>)

  datatype World = World(sys: System, hist: History)

  /** Node i moved to term t, if that is later. */
  function Moved(p: Proto, i: nat, t: int): Proto
    requires i < |p.members|
  {
    if p.members[i].term < t then Bump(p, i, t) else p
  }

  /** Node i wrote a batch of term t over its log. */
  function Wrote(p: Proto, i: nat, t: int, prev: int, es: Log): Proto
    requires i < |p.members|
  {
    var m := p.members[i];
    if !(0 <= prev <= |m.log|) then p
    else
      var hi := prev + |es|;
      var a := if t in m.acked && hi < m.acked[t] then m.acked[t] else hi;
      p.(members := p.members[i := m.(log := Overlay(m.log, prev, es), acked := m.acked[t := a])])
  }

  function Count(counted: map<(nat, int), set<nat>>, c: nat, t: int, v: nat): map<(nat, int), set<nat>> {
    counted[(c, t) := (if (c, t) in counted then counted[(c, t)] else {}) + {v}]
  }

  /** Node s has term t at index k, in its log or as the last index of its snapshot. */
  predicate Holds(s: Node, k: int, t: int) {
    CanRead(s, k) && LogTermAt(s, k) == t
  }

  function Held(rounds: seq<Round>, r: nat, s: Node, v: nat): seq<Round> {
    if r < |rounds| && Holds(s, rounds[r].last, rounds[r].lastTerm)
    then rounds[r := rounds[r].(held := rounds[r].held + {v})]
    else rounds
  }

  function Acked(rounds: seq<Round>, r: nat, v: nat): seq<Round>
    requires r < |rounds|
  {
    rounds[r := rounds[r].(acked := rounds[r].acked + {v})]
  }

  // The steps: what becomes of the system, and what the history notes.

  /** Every node knows its peers, and the history follows the system. */
  predicate Ready(w: World) {
    && |w.hist.proto.members| == |w.sys.nodes| == |w.sys.applied|
    && |w.hist.rounds| == |w.sys.rounds|
    && (forall i :: 0 <= i < |w.sys.nodes| ==>
          |w.sys.nodes[i].nextIndex| == |w.sys.nodes| == |w.sys.nodes[i].matchIndex| == w.sys.nodes[i].peers)
    && (forall pk :: pk in w.sys.net ==>
          pk.to < |w.sys.nodes| && (pk.AppendReturn? ==> pk.round < |w.sys.rounds|))
  }

  function TimeoutStep(w: World, i: nat): World
    requires Ready(w) && i < |w.sys.nodes|
  {
    var s, h := w.sys.nodes[i], w.hist;
    if s.status == Leader then w
    else
      var t := StartElection(s);
      World(SetNode(w.sys, i, t).(net := w.sys.net + VoteCalls(|w.sys.nodes|, t),
                                  votes := w.sys.votes[(i, t.currentTerm) := 1]),
            h.(proto := Ask(h.proto, i), counted := Count(h.counted, i, t.currentTerm, i)))
  }

  function HeartBeatStep(w: World, i: nat): World
    requires Ready(w) && i < |w.sys.nodes|
  {
    var s, h := w.sys.nodes[i], w.hist;
    if s.status != Leader then w
    else if !CanBeat(s) then w.(sys := SetNode(w.sys, i, Halt(s)))
    else
      World(w.sys.(net := w.sys.net + BeatCalls(s, |w.sys.rounds|), rounds := w.sys.rounds + [1]),
            h.(rounds := h.rounds + [Round(i, s.currentTerm, LastLogIndex(s), LastLogTerm(s), {i}, {})]))
  }

  function DeliverVoteStep(w: World, pk: Packet): World
    requires Ready(w) && pk.VoteCall? && pk.to < |w.sys.nodes|
  {
    var s, h := w.sys.nodes[pk.to], w.hist;
    var ans := HandleVote(s, pk.vargs);
    var q := Moved(h.proto, pk.to, ans.node.currentTerm);
    World(Respond(w.sys, pk.to, ans.node, pk, VoteReturn(pk.from, pk.to, pk.vargs, ans.reply)),
          h.(proto := if ans.reply.voteGranted then Grant(q, pk.to, pk.vargs.term, pk.from) else q))
  }

  function ReturnVoteStep(w: World, pk: Packet): World
    requires Ready(w) && pk.VoteReturn? && pk.from < |w.sys.nodes|
  {
    var s, h, t := w.sys.nodes[pk.from], w.hist, pk.vargs.term;
    var c := HandleVoteReply(s, pk.vreply, VoteCount(w.sys, pk.from, t));
    World(SetNode(w.sys, pk.from, c.node).(net := w.sys.net - {pk}, votes := w.sys.votes[(pk.from, t) := c.count]),
          if pk.vreply.term != s.currentTerm || !pk.vreply.voteGranted
          then h.(proto := Moved(h.proto, pk.from, c.node.currentTerm))
          else h.(counted := Count(h.counted, pk.from, t, pk.to),
                  proto := if c.node.status == Leader && s.status != Leader
                           then Elect(h.proto, pk.from, s.currentTerm) else h.proto))
  }

  function AnsweredAppend(w: World, pk: Packet, ans: Answer<AppendReply>): World
    requires Ready(w) && pk.AppendCall? && pk.to < |w.sys.nodes|
  {
    var h, a := w.hist, pk.args;
    var q := Moved(h.proto, pk.to, ans.node.currentTerm);
    World(Respond(w.sys, pk.to, ans.node, pk, AppendReturn(pk.round, pk.from, pk.to, a, ans.reply)),
          if ans.node.halted || !ans.reply.success then h.(proto := q)
          else h.(proto := Wrote(q, pk.to, a.term, a.prevLogIndex, a.entries),
                  rounds := Held(h.rounds, pk.round, ans.node, pk.to)))
  }

  function DeliverAppendStep(w: World, pk: Packet): World
    requires Ready(w) && pk.AppendCall? && pk.to < |w.sys.nodes|
  {
    AnsweredAppend(w, pk, HandleAppend(w.sys.nodes[pk.to], pk.args))
  }

  function ReturnAppendStep(w: World, pk: Packet): World
    requires Ready(w) && pk.AppendReturn? && pk.from < |w.sys.nodes| && pk.to < |w.sys.nodes|
    requires pk.round < |w.sys.rounds|
  {
    var s, h := w.sys.nodes[pk.from], w.hist;
    var c := HandleAppendReply(s, pk.to, pk.args, pk.reply, w.sys.rounds[pk.round]);
    World(SetNode(w.sys, pk.from, c.node).(net := w.sys.net - {pk}, rounds := w.sys.rounds[pk.round := c.count]),
          if c.count != w.sys.rounds[pk.round]
          then h.(rounds := Acked(h.rounds, pk.round, pk.to))
          else h.(proto := Moved(h.proto, pk.from, c.node.currentTerm)))
  }

  function SendSnapStep(w: World, pk: Packet): World
    requires Ready(w) && pk.SnapTask? && pk.from < |w.sys.nodes|
  {
    var s, h := w.sys.nodes[pk.from], w.hist;
    var l := h.proto.members[pk.from].log;
    World(w.sys.(net := w.sys.net - {pk} + {SnapCall(pk.round, pk.from, pk.to, SnapshotRequest(s))}),
          h.(covered := h.covered[(pk.round, pk.to) := if 0 <= s.snapIndex <= |l| then l[..s.snapIndex] else l]))
  }

  function DeliverSnapStep(w: World, pk: Packet): World
    requires Ready(w) && pk.SnapCall? && pk.to < |w.sys.nodes|
  {
    var s, h, a := w.sys.nodes[pk.to], w.hist, pk.sargs;
    var ans := HandleSnapshot(s, a);
    var msgs := if Installs(s, a) then [SnapshotMsg(a.lastIndex, a.lastTerm)] else [];
    var q := Moved(h.proto, pk.to, ans.node.currentTerm);
    World(Respond(w.sys, pk.to, ans.node, pk, SnapReturn(pk.round, pk.from, pk.to, a, ans.reply))
            .(applied := w.sys.applied[pk.to := w.sys.applied[pk.to] + msgs]),
          if Installs(s, a) && (pk.round, pk.to) in h.covered
          then h.(proto := Cover(q, pk.to, h.covered[(pk.round, pk.to)]))
          else h.(proto := q))
  }

  function ReturnSnapStep(w: World, pk: Packet): World
    requires Ready(w) && pk.SnapReturn? && pk.from < |w.sys.nodes| && pk.to < |w.sys.nodes|
  {
    var s := HandleSnapshotReply(w.sys.nodes[pk.from], pk.to, pk.sargs, pk.sreply);
    World(SetNode(w.sys, pk.from, s).(net := w.sys.net - {pk}),
          w.hist.(proto := Moved(w.hist.proto, pk.from, s.currentTerm)))
  }

  function LoseStep(w: World, pk: Packet): World {
    w.(sys := w.sys.(net := w.sys.net - {pk}))
  }

  function StartStep(w: World, i: nat, c: Command): World
    requires Ready(w) && i < |w.sys.nodes|
  {
    var s, h := w.sys.nodes[i], w.hist;
    World(SetNode(w.sys, i, StartCommand(s, c)),
          if s.status != Leader then h else h.(proto := Extend(h.proto, i, s.currentTerm, c)))
  }

  function ApplyStep(w: World, i: nat): World
    requires Ready(w) && i < |w.sys.nodes|
  {
    var s := w.sys.nodes[i];
    var msgs := if CanApply(s) then PendingFrom(s, s.lastApplied) else [];
    w.(sys := SetNode(w.sys, i, Applied(s)).(applied := w.sys.applied[i := w.sys.applied[i] + msgs]))
  }

  function CompactStep(w: World, i: nat, index: int): World
    requires Ready(w) && i < |w.sys.nodes|
  {
    w.(sys := SetNode(w.sys, i, TakeSnapshot(w.sys.nodes[i], index)))
  }

  function Step(w: World, a: Action): World
    requires Ready(w) && Enabled(w.sys, a)
  {
    match a
    case Timeout(i) => TimeoutStep(w, i)
    case HeartBeat(i) => HeartBeatStep(w, i)
    case DeliverVote(pk) => DeliverVoteStep(w, pk)
    case ReturnVote(pk) => ReturnVoteStep(w, pk)
    case DeliverAppend(pk) => DeliverAppendStep(w, pk)
    case ReturnAppend(pk) => ReturnAppendStep(w, pk)
    case SendSnap(pk) => SendSnapStep(w, pk)
    case DeliverSnap(pk) => DeliverSnapStep(w, pk)
    case ReturnSnap(pk) => ReturnSnapStep(w, pk)
    case Lose(pk) => LoseStep(w, pk)
    case ClientStart(i, c) => StartStep(w, i, c)
    case ApplyTick(i) => ApplyStep(w, i)
    case Compact(i, index) => CompactStep(w, i, index)
  }

  function InitMember(): Member {
    Member(0, [], map[], map[], map[])
  }

  function Init(n: nat): World {
    World(
      System(seq(n, i requires 0 <= i < n => InitNode(i, n)), {}, map[], [], seq(n, i => [])),
      History(Proto(seq(n, i => InitMember()), map[]), map[], map[], []))
  }
}
