/** Every step of the cluster keeps the invariant and only adds to the history. */
module RaftSteps {
  import opened RaftTypes
  import opened RaftNode
  import opened RaftCompaction
  import opened RaftHandlers
  import opened RaftProtocol
  import opened RaftCluster
  import opened RaftInvariant

  // Frames.

  /** Only member i moved, and only it may lead something new. */
  ghost predicate OnlyMember(p: Proto, q: Proto, i: nat) {
    && i < |p.members| == |q.members|
    && (forall j :: 0 <= j < |p.members| && j != i ==> q.members[j] == p.members[j])
    && (forall t :: t in p.led && p.led[t].leader != i ==> t in q.led && q.led[t] == p.led[t])
  }

  lemma NodesKept(a: seq<Node>, p: Proto, b: seq<Node>, q: Proto, i: nat)
    requires NodesOk(a, p) && OnlyMember(p, q, i) && i < |a| == |b| && b == a[i := b[i]]
    requires NodeOk(b[i], i, |b|, q.members[i], q.led)
    ensures NodesOk(b, q)
  {
    forall j | 0 <= j < |b| ensures NodeOk(b[j], j, |b|, q.members[j], q.led) {
      if j != i { NodeKept(a[j], j, |a|, p.members[j], p.led, q.led); }
    }
  }

  lemma NetKept(net: set<Packet>, h: History, g: History, gone: set<Packet>, added: set<Packet>)
    requires NetOk(net, h) && HistoryGrows(h, g)
    requires forall pk :: pk in net && pk !in gone ==> SameCover(h, g, KeyOf(pk)) && Uncounted(g, KeyOf(pk))
    requires forall pk :: pk in added ==> PacketOk(g, pk) && Uncounted(g, KeyOf(pk))
    requires Distinct(added)
    requires forall a, b :: a in added && b in net && b !in gone ==> KeyOf(a) != KeyOf(b)
    ensures NetOk(net - gone + added, g)
  {
    forall pk | pk in net - gone + added ensures PacketOk(g, pk) && Uncounted(g, KeyOf(pk)) {
      if pk !in added { PacketKept(h, g, pk); }
    }
  }

  ghost predicate SameAcked(h: History, g: History) {
    && |g.rounds| == |h.rounds|
    && forall r :: 0 <= r < |h.rounds| ==> g.rounds[r].acked == h.rounds[r].acked
  }

  /** Nothing was counted and no snapshot was sent. */
  ghost predicate Uneventful(h: History, g: History) {
    HistoryGrows(h, g) && g.counted == h.counted && g.covered == h.covered && SameAcked(h, g)
  }

  ghost predicate LogsLengthen(p: Proto, q: Proto) {
    |p.members| == |q.members| && forall i :: 0 <= i < |p.members| ==> |p.members[i].log| <= |q.members[i].log|
  }

  lemma ProtoUneventful(h: History, q: Proto)
    requires Grows(h.proto, q) && LogsLengthen(h.proto, q)
    ensures Uneventful(h, h.(proto := q))
  {
  }

  /** A call ended. */
  lemma NetEnded(net: set<Packet>, h: History, g: History, pk: Packet)
    requires NetOk(net, h) && Uneventful(h, g)
    ensures NetOk(net - {pk}, g)
  {
    NetKept(net, h, g, {pk}, {});
    assert net - {pk} + {} == net - {pk};
  }

  lemma NetUnmoved(net: set<Packet>, h: History, g: History)
    requires NetOk(net, h) && Uneventful(h, g)
    ensures NetOk(net, g)
  {
    NetKept(net, h, g, {}, {});
    assert net - {} + {} == net;
  }

  /** A call was answered. */
  lemma NetAnswered(net: set<Packet>, h: History, g: History, pk: Packet, back: Packet)
    requires NetOk(net, h) && Uneventful(h, g) && pk in net
    requires PacketOk(g, back) && KeyOf(back) == KeyOf(pk)
    ensures NetOk(net - {pk} + {back}, g)
  {
    NetKept(net, h, g, {pk}, {back});
  }

  lemma ElectionsKept(votes: map<(nat, int), int>, counted: map<(nat, int), set<nat>>, p: Proto, q: Proto)
    requires ElectionsOk(votes, counted, p) && Grows(p, q) && q.led.Keys == p.led.Keys
    ensures ElectionsOk(votes, counted, q)
  {
    forall x | x in votes ensures ElectionOk(q, x.0, x.1, votes[x], counted[x]) {
      ElectionKept(p, q, x.0, x.1, votes[x], counted[x]);
    }
  }

  lemma RoundsKept(counts: seq<int>, h: History, g: History)
    requires RoundsOk(counts, h.rounds, h.proto) && HistoryGrows(h, g) && SameAcked(h, g)
    ensures RoundsOk(counts, g.rounds, g.proto)
  {
    forall r | 0 <= r < |counts| ensures RoundOk(g.proto, counts[r], g.rounds[r]) {
      RoundKept(h.proto, g.proto, counts[r], h.rounds[r], g.rounds[r]);
    }
  }

  /** A step on node i that counts nothing, elects nobody and starts no round. */
  lemma UneventfulKeeps(w: World, v: World, i: nat)
    requires Inv(w) && i < |w.sys.nodes| == |v.sys.nodes| == |v.sys.applied|
    requires Uneventful(w.hist, v.hist) && OnlyMember(w.hist.proto, v.hist.proto, i) && Sound(v.hist.proto)
    requires v.hist.proto.led.Keys == w.hist.proto.led.Keys
    requires v.sys.nodes == w.sys.nodes[i := v.sys.nodes[i]]
    requires NodeOk(v.sys.nodes[i], i, |w.sys.nodes|, v.hist.proto.members[i], v.hist.proto.led)
    requires v.sys.votes == w.sys.votes && v.sys.rounds == w.sys.rounds && NetOk(v.sys.net, v.hist)
    ensures Inv(v)
  {
    NodesKept(w.sys.nodes, w.hist.proto, v.sys.nodes, v.hist.proto, i);
    ElectionsKept(w.sys.votes, w.hist.counted, w.hist.proto, v.hist.proto);
    RoundsKept(w.sys.rounds, w.hist, v.hist);
  }

  /** Member i became m; nothing else in the history changed. */
  function WithMember(h: History, i: nat, m: Member): History
    requires i < |h.proto.members|
  {
    h.(proto := h.proto.(members := h.proto.members[i := m]))
  }

  lemma MemberFrame(h: History, i: nat, m: Member)
    requires Sound(h.proto) && i < |h.proto.members| && MemberGrows(h.proto.members[i], m)
    requires MemberOk(m, |h.proto.members|, h.proto.led) && |h.proto.members[i].log| <= |m.log|
    ensures var g := WithMember(h, i, m);
            Sound(g.proto) && OnlyMember(h.proto, g.proto, i) && Uneventful(h, g)
  {
    MemberStepSound(h.proto, i, m);
  }

  /** Node i became s and its member m, and at most one call was answered or ended. */
  lemma MemberStepKeeps(w: World, v: World, i: nat, m: Member)
    requires Inv(w) && i < |w.sys.nodes| == |v.sys.nodes| == |v.sys.applied|
    requires v.hist == WithMember(w.hist, i, m)
    requires Sound(v.hist.proto) && OnlyMember(w.hist.proto, v.hist.proto, i) && Uneventful(w.hist, v.hist)
    requires v.sys.nodes == w.sys.nodes[i := v.sys.nodes[i]]
    requires NodeOk(v.sys.nodes[i], i, |w.sys.nodes|, m, w.hist.proto.led)
    requires v.sys.votes == w.sys.votes && v.sys.rounds == w.sys.rounds && NetOk(v.sys.net, v.hist)
    ensures Inv(v)
  {
    UneventfulKeeps(w, v, i);
  }

  /** A step of node i that ends a call and leaves the history alone. */
  lemma CallEndedKeeps(w: World, v: World, i: nat, pk: Packet)
    requires Inv(w) && v.hist == w.hist && i < |w.sys.nodes| == |v.sys.nodes|
    requires v.sys == w.sys.(nodes := w.sys.nodes[i := v.sys.nodes[i]], net := w.sys.net - {pk})
    requires NodeOk(v.sys.nodes[i], i, |w.sys.nodes|, w.hist.proto.members[i], w.hist.proto.led)
    ensures Inv(v) && HistoryGrows(w.hist, v.hist)
  {
    NetEnded(w.sys.net, w.hist, v.hist, pk);
    NodesKept(w.sys.nodes, w.hist.proto, v.sys.nodes, v.hist.proto, i);
  }

  /** A member that only reaches a later term. */
  lemma LaterTerm(m: Member, n: nat, led: Terms, t: int)
    requires MemberOk(m, n, led)
    ensures var w := m.(term := Max(m.term, t)); MemberOk(w, n, led) && MemberGrows(m, w)
  {
    KnownGrows(led, led, m.log, m.term, Max(m.term, t));
  }

  // Steps that send and count nothing.

  lemma LoseKeeps(w: World, pk: Packet)
    requires Inv(w)
    ensures Inv(LoseStep(w, pk)) && HistoryGrows(w.hist, LoseStep(w, pk).hist)
  {
    NetEnded(w.sys.net, w.hist, w.hist, pk);
  }

  /** A step on node i that leaves the calls and the history alone. */
  lemma QuietKeeps(w: World, v: World, i: nat)
    requires Inv(w) && v.hist == w.hist && i < |w.sys.nodes| == |v.sys.applied| == |v.sys.nodes|
    requires v.sys == w.sys.(nodes := w.sys.nodes[i := v.sys.nodes[i]], applied := v.sys.applied)
    requires NodeOk(v.sys.nodes[i], i, |w.sys.nodes|, w.hist.proto.members[i], w.hist.proto.led)
    ensures Inv(v) && HistoryGrows(w.hist, v.hist)
  {
    NodesKept(w.sys.nodes, w.hist.proto, v.sys.nodes, v.hist.proto, i);
  }

  lemma CompactKeeps(w: World, i: nat, index: int)
    requires Inv(w) && Ready(w) && i < |w.sys.nodes| && !w.sys.nodes[i].halted
    ensures var v := CompactStep(w, i, index);
            Inv(v) && HistoryGrows(w.hist, v.hist) && !v.sys.nodes[i].halted
  {
    hide PacketOk, Distinct, Uncounted, RoundOk, ElectionOk, LedOk, MemberOk;
    SnapshotKeeps(w.sys.nodes[i], w.hist.proto.members[i].log, index);
    QuietKeeps(w, CompactStep(w, i, index), i);
  }

  lemma CommittedSlices(s: Node, f: Log)
    requires Represents(s, f) && NumbersOk(s, |f|)
    ensures CanApply(s)
  {
    Reads(s, f);
  }

  lemma ApplyKeeps(w: World, i: nat)
    requires Inv(w) && Ready(w) && i < |w.sys.nodes| && !w.sys.nodes[i].halted
    ensures var v := ApplyStep(w, i);
            Inv(v) && HistoryGrows(w.hist, v.hist) && !v.sys.nodes[i].halted
  {
    CommittedSlices(w.sys.nodes[i], w.hist.proto.members[i].log);
    QuietKeeps(w, ApplyStep(w, i), i);
  }

  // A leader's new entry.

  lemma StartOutcome(s: Node, i: nat, n: nat, m: Member, led: Terms, c: Command)
    requires NodeOk(s, i, n, m, led) && s.status == Leader
    ensures var l := Extended(m.log, m.term, c);
            NodeOk(StartCommand(s, c), i, n, m.(log := l), led[m.term := Led(i, l)])
  {
    var l := Extended(m.log, m.term, c);
    Reads(s, m.log);
    assert l[s.snapIndex..] == s.logs + [Entry(c, s.currentTerm, |m.log| + 1)];
    var w := StartCommand(s, c);
    assert CursorsOk(w, |l|);
  }

  lemma ExtendFrame(h: History, c: nat, t: int, cmd: Command)
    requires Sound(h.proto) && c < |h.proto.members| && h.proto.members[c].term == t
    requires t in h.proto.led && h.proto.led[t] == Led(c, h.proto.members[c].log)
    ensures var q := Extend(h.proto, c, t, cmd);
            Sound(q) && OnlyMember(h.proto, q, c) && Uneventful(h, h.(proto := q)) && q.led.Keys == h.proto.led.Keys
  {
    ExtendSound(h.proto, c, t, cmd);
    ProtoUneventful(h, Extend(h.proto, c, t, cmd));
  }

  lemma StartLeads(w: World, i: nat, c: Command)
    requires Inv(w) && Ready(w) && i < |w.sys.nodes| && w.sys.nodes[i].status == Leader
    ensures var v := StartStep(w, i, c);
            Inv(v) && HistoryGrows(w.hist, v.hist)
  {
    var v := StartStep(w, i, c);
    var p := w.hist.proto;
    StartOutcome(w.sys.nodes[i], i, |w.sys.nodes|, p.members[i], p.led, c);
    ExtendFrame(w.hist, i, w.sys.nodes[i].currentTerm, c);
    NetUnmoved(w.sys.net, w.hist, v.hist);
    UneventfulKeeps(w, v, i);
  }

  lemma StartKeeps(w: World, i: nat, c: Command)
    requires Inv(w) && Ready(w) && i < |w.sys.nodes| && !w.sys.nodes[i].halted
    ensures var v := StartStep(w, i, c);
            Inv(v) && HistoryGrows(w.hist, v.hist) && !v.sys.nodes[i].halted
  {
    if w.sys.nodes[i].status == Leader {
      StartLeads(w, i, c);
    } else {
      QuietKeeps(w, StartStep(w, i, c), i);
    }
  }

  // Elections.

  lemma AskOutcome(s: Node, i: nat, n: nat, m: Member, led: Terms)
    requires NodeOk(s, i, n, m, led) && s.status != Leader
    ensures var t := m.term + 1;
            NodeOk(StartElection(s), i, n, m.(term := t, voted := m.voted[t := i], asked := m.asked[t := m.log]), led)
  {
  }

  ghost predicate OlderVotes(k: Key, c: nat, t: int) {
    k.VoteKey? && k.from == c ==> k.term < t
  }

  lemma NoCallYet(net: set<Packet>, h: History, c: nat, t: int)
    requires NetOk(net, h) && Sound(h.proto) && c < |h.proto.members| && h.proto.members[c].term < t
    ensures forall pk :: pk in net ==> OlderVotes(KeyOf(pk), c, t)
  {
    forall pk | pk in net ensures OlderVotes(KeyOf(pk), c, t) {
      assert PacketOk(h, pk);
      assert MemberOk(h.proto.members[c], |h.proto.members|, h.proto.led);
    }
  }

  function Asked(h: History, i: nat): History
    requires i < |h.proto.members|
  {
    h.(proto := Ask(h.proto, i), counted := Count(h.counted, i, h.proto.members[i].term + 1, i))
  }

  lemma AskedOldCalls(net: set<Packet>, h: History, i: nat)
    requires NetOk(net, h) && Sound(h.proto) && i < |h.proto.members|
    ensures forall pk :: pk in net ==> Uncounted(Asked(h, i), KeyOf(pk))
  {
    NoCallYet(net, h, i, h.proto.members[i].term + 1);
    forall pk | pk in net ensures Uncounted(Asked(h, i), KeyOf(pk)) {
      assert Uncounted(h, KeyOf(pk)) && OlderVotes(KeyOf(pk), i, h.proto.members[i].term + 1);
    }
  }

  lemma AskedNewCall(h: History, i: nat, j: nat, s: Node)
    requires i < |h.proto.members| && j < |h.proto.members| && j != i && s.me == i
    requires s.currentTerm == h.proto.members[i].term + 1 && Represents(s, h.proto.members[i].log)
    requires (i, s.currentTerm) !in h.counted
    ensures var pk := VoteCall(i, j, VoteRequest(s));
            PacketOk(Asked(h, i), pk) && Uncounted(Asked(h, i), KeyOf(pk))
  {
    Reads(s, h.proto.members[i].log);
    assert Asked(h, i).counted[(i, s.currentTerm)] == {i};
  }

  lemma TimeoutNet(w: World, i: nat)
    requires Inv(w) && Ready(w) && i < |w.sys.nodes| && w.sys.nodes[i].status != Leader
    requires HistoryGrows(w.hist, Asked(w.hist, i))
    ensures NetOk(TimeoutStep(w, i).sys.net, Asked(w.hist, i))
  {
    var h, g := w.hist, Asked(w.hist, i);
    var s := StartElection(w.sys.nodes[i]);
    var added := VoteCalls(|w.sys.nodes|, s);
    FirstCount(w.sys.votes, h.counted, h.proto, i);
    NoCallYet(w.sys.net, h, i, s.currentTerm);
    AskedOldCalls(w.sys.net, h, i);
    forall pk | pk in added ensures PacketOk(g, pk) && Uncounted(g, KeyOf(pk)) {
      AskedNewCall(h, i, pk.to, s);
    }
    forall a, b | a in added && b in w.sys.net ensures KeyOf(a) != KeyOf(b) {
      assert OlderVotes(KeyOf(b), i, s.currentTerm);
    }
    NetKept(w.sys.net, h, g, {}, added);
    assert w.sys.net - {} + added == w.sys.net + added;
  }

  /** Nobody was counted for an election that only starts. */
  lemma FirstCount(votes: map<(nat, int), int>, counted: map<(nat, int), set<nat>>, p: Proto, i: nat)
    requires ElectionsOk(votes, counted, p) && Sound(p) && i < |p.members|
    ensures forall t :: (i, t) in counted ==> t <= p.members[i].term
  {
    forall t | (i, t) in counted ensures t <= p.members[i].term {
      assert ElectionOk(p, i, t, votes[(i, t)], counted[(i, t)]);
      assert i in Voters(p.members, i, t);
      assert MemberOk(p.members[i], |p.members|, p.led);
    }
  }

  lemma AskedElection(p: Proto, i: nat)
    requires Sound(p) && i < |p.members| && 2 <= |p.members|
    ensures ElectionOk(Ask(p, i), i, p.members[i].term + 1, 1, {i})
  {
    var t := p.members[i].term + 1;
    if t in p.led { assert LedOk(p, t); }
  }

  lemma ElectionAdded(votes: map<(nat, int), int>, counted: map<(nat, int), set<nat>>, p: Proto, q: Proto,
                      key: (nat, int), n: int, who: set<nat>)
    requires ElectionsOk(votes, counted, p) && Grows(p, q)
    requires forall x :: x in votes && x != key ==> (x.1 in q.led && q.led[x.1].leader == x.0 ==> x.1 in p.led)
    requires ElectionOk(q, key.0, key.1, n, who)
    ensures ElectionsOk(votes[key := n], counted[key := who], q)
  {
    hide ElectionOk;
    forall x | x in votes && x != key ensures ElectionOk(q, x.0, x.1, votes[x], counted[x]) {
      ElectionKept(p, q, x.0, x.1, votes[x], counted[x]);
    }
  }

  lemma TimeoutElections(w: World, i: nat)
    requires Inv(w) && i < |w.sys.nodes| && Grows(w.hist.proto, Ask(w.hist.proto, i))
    ensures ElectionsOk(w.sys.votes[(i, w.hist.proto.members[i].term + 1) := 1],
                        Asked(w.hist, i).counted, Ask(w.hist.proto, i))
  {
    var p := w.hist.proto;
    var t := p.members[i].term + 1;
    FirstCount(w.sys.votes, w.hist.counted, p, i);
    AskedElection(p, i);
    assert Asked(w.hist, i).counted == w.hist.counted[(i, t) := {i}];
    ElectionAdded(w.sys.votes, w.hist.counted, p, Ask(p, i), (i, t), 1, {i});
  }

  lemma AskFrame(h: History, i: nat)
    requires Sound(h.proto) && i < |h.proto.members|
    ensures Sound(Ask(h.proto, i)) && OnlyMember(h.proto, Ask(h.proto, i), i)
    ensures HistoryGrows(h, Asked(h, i)) && SameAcked(h, Asked(h, i))
  {
    AskSound(h.proto, i);
  }

  lemma TimeoutAsks(w: World, i: nat)
    requires Inv(w) && Ready(w) && i < |w.sys.nodes| && w.sys.nodes[i].status != Leader
    ensures var v := TimeoutStep(w, i); Inv(v) && HistoryGrows(w.hist, v.hist)
  {
    var v := TimeoutStep(w, i);
    var p := w.hist.proto;
    assert v.hist == Asked(w.hist, i);
    AskOutcome(w.sys.nodes[i], i, |w.sys.nodes|, p.members[i], p.led);
    AskFrame(w.hist, i);
    NodesKept(w.sys.nodes, p, v.sys.nodes, v.hist.proto, i);
    TimeoutNet(w, i);
    TimeoutElections(w, i);
    RoundsKept(w.sys.rounds, w.hist, v.hist);
  }

  lemma TimeoutKeeps(w: World, i: nat)
    requires Inv(w) && Ready(w) && i < |w.sys.nodes| && !w.sys.nodes[i].halted
    ensures var v := TimeoutStep(w, i);
            Inv(v) && HistoryGrows(w.hist, v.hist) && !v.sys.nodes[i].halted
  {
    if w.sys.nodes[i].status != Leader {
      TimeoutAsks(w, i);
    }
  }

  // Heartbeats.

  function Opened(h: History, i: nat, t: int, l: Log): History {
    h.(rounds := h.rounds + [Round(i, t, |l|, TermOf(l, |l|), {i}, {})])
  }

  lemma BeatCan(s: Node, f: Log)
    requires Represents(s, f) && NumbersOk(s, |f|) && |s.nextIndex| == s.peers == |s.matchIndex| && CursorsOk(s, |f|)
    ensures CanBeat(s)
  {
    forall i: nat | i < s.peers && i != s.me ensures CanCall(s, i) {
      CallOutcome(s, f, i);
    }
  }

  /** A batch cut from the log that the leader leads now, for the round that it opens. */
  lemma OpenedBatchOk(h: History, i: nat, t: int, l: Log, a: AppendArgs)
    requires t in h.proto.led && h.proto.led[t] == Led(i, l)
    requires 0 <= a.prevLogIndex <= |l| && 0 <= a.leaderCommit <= |l|
    requires a == AppendArgs(t, i, a.prevLogIndex, TermOf(l, a.prevLogIndex), l[a.prevLogIndex..], a.leaderCommit)
    ensures AppendArgsOk(Opened(h, i, t, l), |h.rounds|, i, a)
  {
    assert Opened(h, i, t, l).rounds[|h.rounds|] == Round(i, t, |l|, TermOf(l, |l|), {i}, {});
    assert l[a.prevLogIndex..|l|] == l[a.prevLogIndex..];
  }

  lemma BeatCallOk(h: History, s: Node, i: nat, n: nat, j: nat)
    requires i < n == |h.proto.members| && j < n && j != i && CanBeat'(s, n)
    requires NodeOk(s, i, n, h.proto.members[i], h.proto.led) && s.status == Leader
    ensures var g := Opened(h, i, s.currentTerm, h.proto.members[i].log);
            var pk := BeatCall(s, |h.rounds|, j);
            PacketOk(g, pk) && Uncounted(g, KeyOf(pk)) && KeyOf(pk) == RoundKey(|h.rounds|, j)
  {
    hide Represents, TermOf, BatchOf, AppendArgsOk, CanSlice, LastLogIndex;
    var l := h.proto.members[i].log;
    var g := Opened(h, i, s.currentTerm, l);
    BeatBatchOk(h, s, i, n, j);
    assert g.rounds[|h.rounds|].acked == {i};
    assert Uncounted(g, RoundKey(|h.rounds|, j));
  }

  lemma BeatBatchOk(h: History, s: Node, i: nat, n: nat, j: nat)
    requires i < n == |h.proto.members| && j < n && j != i && CanBeat'(s, n)
    requires NodeOk(s, i, n, h.proto.members[i], h.proto.led) && s.status == Leader
    ensures CanCall(s, j)
    ensures CallFor(s, j).CallAppend? ==>
              AppendArgsOk(Opened(h, i, s.currentTerm, h.proto.members[i].log), |h.rounds|, i, CallFor(s, j).args)
  {
    hide AppendArgsOk, Opened, CanSlice, BatchOf;
    var l := h.proto.members[i].log;
    CallOutcome(s, l, j);
    if s.nextIndex[j] > s.snapIndex {
      OpenedBatchOk(h, i, s.currentTerm, l, CallFor(s, j).args);
    }
  }

  ghost predicate CanBeat'(s: Node, n: nat) {
    |s.nextIndex| == s.peers == n && CanBeat(s)
  }

  ghost predicate OlderRound(k: Key, r: nat) {
    k.RoundKey? ==> k.round < r
  }

  lemma OpenedOldCalls(net: set<Packet>, h: History, i: nat, t: int, l: Log)
    requires NetOk(net, h)
    ensures forall pk :: pk in net ==> OlderRound(KeyOf(pk), |h.rounds|) && Uncounted(Opened(h, i, t, l), KeyOf(pk))
  {
    forall pk | pk in net
      ensures OlderRound(KeyOf(pk), |h.rounds|) && Uncounted(Opened(h, i, t, l), KeyOf(pk))
    {
      assert PacketOk(h, pk) && Uncounted(h, KeyOf(pk));
    }
  }

  lemma BeatNet(net: set<Packet>, h: History, s: Node, i: nat, n: nat)
    requires NetOk(net, h) && i < n == |h.proto.members| && CanBeat'(s, n) && Sound(h.proto)
    requires NodeOk(s, i, n, h.proto.members[i], h.proto.led) && s.status == Leader
    ensures NetOk(net + BeatCalls(s, |h.rounds|), Opened(h, i, s.currentTerm, h.proto.members[i].log))
  {
    var g := Opened(h, i, s.currentTerm, h.proto.members[i].log);
    var added := BeatCalls(s, |h.rounds|);
    OpenedOldCalls(net, h, i, s.currentTerm, h.proto.members[i].log);
    forall pk | pk in added
      ensures PacketOk(g, pk) && Uncounted(g, KeyOf(pk)) && KeyOf(pk) == RoundKey(|h.rounds|, pk.to)
      ensures pk.to < n && pk.to != i && pk == BeatCall(s, |h.rounds|, pk.to)
    {
      var j: nat :| j < s.peers && j != s.me && pk == BeatCall(s, |h.rounds|, j);
      BeatCallOk(h, s, i, n, j);
    }
    forall a, b | a in added && b in net ensures KeyOf(a) != KeyOf(b) {
      assert OlderRound(KeyOf(b), |h.rounds|);
    }
    NetKept(net, h, g, {}, added);
    assert net - {} + added == net + added;
  }

  lemma BeatRounds(counts: seq<int>, h: History, i: nat, m: Member)
    requires RoundsOk(counts, h.rounds, h.proto) && Sound(h.proto) && i < |h.proto.members| && 2 <= |h.proto.members|
    requires m == h.proto.members[i] && m.term in h.proto.led && h.proto.led[m.term] == Led(i, m.log)
    ensures RoundsOk(counts + [1], Opened(h, i, m.term, m.log).rounds, h.proto)
  {
  }

  lemma HeartBeatKeeps(w: World, i: nat)
    requires Inv(w) && Ready(w) && i < |w.sys.nodes| && !w.sys.nodes[i].halted
    ensures var v := HeartBeatStep(w, i);
            Inv(v) && HistoryGrows(w.hist, v.hist) && !v.sys.nodes[i].halted
  {
    var s := w.sys.nodes[i];
    var m := w.hist.proto.members[i];
    if s.status == Leader {
      Reads(s, m.log);
      BeatCan(s, m.log);
      BeatNet(w.sys.net, w.hist, s, i, |w.sys.nodes|);
      BeatRounds(w.sys.rounds, w.hist, i, m);
    }
  }

  // Votes.

  function AfterVote(m: Member, t: int, granted: bool, c: int): Member {
    var w := m.(term := Max(m.term, t));
    if granted then w.(voted := w.voted[t := c]) else w
  }

  lemma VoteNode(s: Node, i: nat, n: nat, m: Member, led: Terms, a: VoteArgs)
    requires NodeOk(s, i, n, m, led) && MemberOk(m, n, led) && 0 <= a.candidateId < n
    ensures var ans := HandleVote(s, a);
            && ans.node.halted == s.halted
            && ans.node.currentTerm == Max(m.term, a.term)
            && NodeOk(ans.node, i, n, AfterVote(m, a.term, ans.reply.voteGranted, a.candidateId), led)
  {
    hide Known, Indexed, CanSlice, CanRead;
    Reads(s, m.log);
    Reads(StepDown(s, a.term), m.log);
  }

  lemma VoteAnswer(s: Node, i: nat, n: nat, m: Member, led: Terms, a: VoteArgs)
    requires NodeOk(s, i, n, m, led) && MemberOk(m, n, led) && 0 <= a.candidateId < n
    ensures var r := HandleVote(s, a).reply;
            && (r.voteGranted <==>
                  && a.term >= m.term
                  && (a.term in m.voted ==> m.voted[a.term] == a.candidateId)
                  && (TermOf(m.log, |m.log|) < a.lastLogTerm
                      || (TermOf(m.log, |m.log|) == a.lastLogTerm && |m.log| <= a.lastLogIndex)))
            && (r.voteGranted ==> r.term == a.term)
    ensures var r := HandleVote(s, a).reply;
            && (r.voteState == Expire <==> a.term < m.term) && (r.voteState == Normal <==> r.voteGranted)
            && r.term == Max(m.term, a.term)
  {
    hide Known, Indexed, CanSlice, CanRead;
    Reads(s, m.log);
    Reads(StepDown(s, a.term), m.log);
  }

  lemma VoteOutcome(s: Node, i: nat, n: nat, m: Member, led: Terms, a: VoteArgs)
    requires NodeOk(s, i, n, m, led) && MemberOk(m, n, led) && 0 <= a.candidateId < n
    ensures var ans := HandleVote(s, a);
            && ans.node.halted == s.halted
            && ans.node.currentTerm == Max(m.term, a.term)
            && NodeOk(ans.node, i, n, AfterVote(m, a.term, ans.reply.voteGranted, a.candidateId), led)
    ensures var ans := HandleVote(s, a);
            && (ans.reply.voteGranted <==>
                  && a.term >= m.term
                  && (a.term in m.voted ==> m.voted[a.term] == a.candidateId)
                  && (TermOf(m.log, |m.log|) < a.lastLogTerm
                      || (TermOf(m.log, |m.log|) == a.lastLogTerm && |m.log| <= a.lastLogIndex)))
            && (ans.reply.voteGranted ==> ans.reply.term == a.term)
    ensures var r := HandleVote(s, a).reply;
            && (r.voteState == Expire <==> a.term < m.term) && (r.voteState == Normal <==> r.voteGranted)
            && r.term == Max(m.term, a.term)
  {
    hide HandleVote, AfterVote;
    VoteNode(s, i, n, m, led, a);
    VoteAnswer(s, i, n, m, led, a);
  }

  lemma VotedOk(m: Member, n: nat, led: Terms, t: int, granted: bool, c: nat)
    requires MemberOk(m, n, led) && c < n
    requires granted ==> 1 <= t && m.term <= t && (t in m.voted ==> m.voted[t] == c)
    ensures var w := AfterVote(m, t, granted, c); MemberOk(w, n, led) && MemberGrows(m, w)
  {
    LaterTerm(m, n, led, t);
  }

  lemma VoteStepIs(w: World, pk: Packet)
    requires Ready(w) && pk.VoteCall? && pk.to < |w.sys.nodes|
    requires var ans := HandleVote(w.sys.nodes[pk.to], pk.vargs);
             ans.node.currentTerm == Max(w.hist.proto.members[pk.to].term, pk.vargs.term)
    ensures var ans := HandleVote(w.sys.nodes[pk.to], pk.vargs);
            DeliverVoteStep(w, pk).hist == WithMember(w.hist, pk.to,
              AfterVote(w.hist.proto.members[pk.to], pk.vargs.term, ans.reply.voteGranted, pk.from))
  {
  }

  lemma VoteAnswered(h: History, v: nat, m: Member, pk: Packet, r: VoteReply)
    requires v < |h.proto.members| && pk.VoteCall? && pk.to == v && PacketOk(WithMember(h, v, m), pk)
    requires r.voteGranted ==> r.term == pk.vargs.term && r.term in m.voted && m.voted[r.term] == pk.from
    ensures var back := VoteReturn(pk.from, pk.to, pk.vargs, r);
            PacketOk(WithMember(h, v, m), back) && KeyOf(back) == KeyOf(pk)
  {
  }

  lemma DeliverVoteKeeps(w: World, pk: Packet)
    requires Inv(w) && Ready(w) && pk in w.sys.net && pk.VoteCall? && !w.sys.nodes[pk.to].halted
    ensures var v := DeliverVoteStep(w, pk);
            Inv(v) && HistoryGrows(w.hist, v.hist) && !v.sys.nodes[pk.to].halted
  {
    var v := DeliverVoteStep(w, pk);
    var h := w.hist;
    var n, m := |w.sys.nodes|, h.proto.members[pk.to];
    assert PacketOk(h, pk);
    assert MemberOk(h.proto.members[pk.from], n, h.proto.led) && MemberOk(m, n, h.proto.led);
    VoteOutcome(w.sys.nodes[pk.to], pk.to, n, m, h.proto.led, pk.vargs);
    var r := HandleVote(w.sys.nodes[pk.to], pk.vargs).reply;
    var u := AfterVote(m, pk.vargs.term, r.voteGranted, pk.from);
    VotedOk(m, n, h.proto.led, pk.vargs.term, r.voteGranted, pk.from);
    MemberFrame(h, pk.to, u);
    VoteStepIs(w, pk);
    PacketKept(h, v.hist, pk);
    VoteAnswered(h, pk.to, u, pk, r);
    NetAnswered(w.sys.net, h, v.hist, pk, VoteReturn(pk.from, pk.to, pk.vargs, r));
    MemberStepKeeps(w, v, pk.to, u);
  }

  // Counting votes.

  function CountedVote(h: History, c: nat, t: int, v: nat, q: Proto): History {
    h.(counted := Count(h.counted, c, t, v), proto := q)
  }

  lemma CountedNet(net: set<Packet>, h: History, pk: Packet, q: Proto)
    requires NetOk(net, h) && pk in net && pk.VoteReturn?
    requires Grows(h.proto, q) && q.members == h.proto.members
    ensures NetOk(net - {pk}, CountedVote(h, pk.from, pk.vargs.term, pk.to, q))
  {
    var g := CountedVote(h, pk.from, pk.vargs.term, pk.to, q);
    forall b | b in net && b != pk ensures Uncounted(g, KeyOf(b)) {
      assert Uncounted(h, KeyOf(b)) && KeyOf(b) != KeyOf(pk);
    }
    NetKept(net, h, g, {pk}, {});
    assert net - {pk} + {} == net - {pk};
  }

  /** One more voter was counted for candidate c. */
  lemma CountGrows(p: Proto, c: nat, t: int, count: int, counted: set<nat>, v: nat)
    requires ElectionOk(p, c, t, count, counted) && v !in counted && v in Voters(p.members, c, t)
    ensures counted + {v} <= Voters(p.members, c, t) && |counted + {v}| == |counted| + 1 <= |p.members|
  {
    SizeBelow(|p.members|, counted + {v});
  }

  /** The counter, reset when it elected, never reaches the quorum again. */
  lemma CountElectsOnce(p: Proto, c: nat, t: int, count: int, counted: set<nat>, v: nat)
    requires Sound(p) && ElectionOk(p, c, t, count, counted) && v !in counted && v in Voters(p.members, c, t)
    requires count + 1 >= Quorum(|p.members|)
    ensures t !in p.led && Majority(|p.members|, Voters(p.members, c, t)) && |counted + {v}| == Quorum(|p.members|)
  {
    CountGrows(p, c, t, count, counted, v);
    SubsetSize(counted + {v}, Voters(p.members, c, t));
    if t in p.led { OneWinner(p, c, t); }
  }

  lemma BecomesLeader(s: Node, i: nat, n: nat, m: Member, led: Terms)
    requires NodeOk(s, i, n, m, led)
    ensures NodeOk(BecomeLeader(s), i, n, m, led[m.term := Led(i, m.log)])
  {
    Reads(s, m.log);
  }

  lemma StepsDown(s: Node, i: nat, n: nat, m: Member, led: Terms, t: int)
    requires NodeOk(s, i, n, m, led) && MemberOk(m, n, led) && m.term < t
    ensures NodeOk(StepDown(s, t), i, n, m.(term := Max(m.term, t)), led)
  {
  }

  /** The caller only took over the later term of a reply, if it was later, and the call ended. */
  ghost predicate TookTerm(w: World, v: World, i: nat, t: int, pk: Packet)
    requires i < |w.sys.nodes| == |w.hist.proto.members|
  {
    var s, m := w.sys.nodes[i], w.hist.proto.members[i];
    && v.sys == w.sys.(nodes := w.sys.nodes[i := if s.currentTerm < t then StepDown(s, t) else s],
                       net := w.sys.net - {pk})
    && v.hist == WithMember(w.hist, i, m.(term := Max(m.term, t)))
  }

  lemma TookTermKeeps(w: World, v: World, i: nat, t: int, pk: Packet)
    requires Inv(w) && i < |w.sys.nodes| && TookTerm(w, v, i, t, pk)
    ensures Inv(v) && HistoryGrows(w.hist, v.hist) && v.sys.nodes[i].halted == w.sys.nodes[i].halted
  {
    var n, m := |w.sys.nodes|, w.hist.proto.members[i];
    assert MemberOk(m, n, w.hist.proto.led);
    LaterTerm(m, n, w.hist.proto.led, t);
    if m.term < t { StepsDown(w.sys.nodes[i], i, n, m, w.hist.proto.led, t); }
    MemberFrame(w.hist, i, m.(term := Max(m.term, t)));
    NetEnded(w.sys.net, w.hist, v.hist, pk);
    MemberStepKeeps(w, v, i, m.(term := Max(m.term, t)));
  }

  /** A reply of a later term, of an earlier one, or without a vote. */
  lemma ReturnVoteIdle(w: World, pk: Packet)
    requires Ready(w) && pk.VoteReturn? && pk.from < |w.sys.nodes|
    requires pk.vreply.term != w.sys.nodes[pk.from].currentTerm || !pk.vreply.voteGranted
    requires (pk.from, pk.vargs.term) in w.sys.votes
    requires w.hist.proto.members[pk.from].term == w.sys.nodes[pk.from].currentTerm
    ensures TookTerm(w, ReturnVoteStep(w, pk), pk.from, pk.vreply.term, pk)
  {
    assert w.sys.votes[(pk.from, pk.vargs.term) := w.sys.votes[(pk.from, pk.vargs.term)]] == w.sys.votes;
  }

  lemma CountFrame(h: History, c: nat, t: int, v: nat)
    ensures var g := CountedVote(h, c, t, v, h.proto);
            Grows(h.proto, h.proto) && HistoryGrows(h, g) && SameAcked(h, g)
  {
  }

  /** One vote more, short of a majority. */
  lemma CountedElection(p: Proto, c: nat, t: int, count: int, counted: set<nat>, v: nat)
    requires ElectionOk(p, c, t, count, counted) && v !in counted && v in Voters(p.members, c, t)
    requires count + 1 < Quorum(|p.members|)
    ensures ElectionOk(p, c, t, count + 1, counted + {v})
  {
    CountGrows(p, c, t, count, counted, v);
  }

  /** A granted vote under way is from a voter not counted yet. */
  lemma GrantedFacts(net: set<Packet>, votes: map<(nat, int), int>, h: History, pk: Packet)
    requires NetOk(net, h) && ElectionsOk(votes, h.counted, h.proto) && pk in net && pk.VoteReturn? && pk.vreply.voteGranted
    requires (pk.from, pk.vargs.term) in votes
    ensures var key := (pk.from, pk.vargs.term);
            && key in h.counted && ElectionOk(h.proto, pk.from, pk.vargs.term, votes[key], h.counted[key])
            && pk.to !in h.counted[key] && pk.to in Voters(h.proto.members, pk.from, pk.vargs.term)
  {
    hide ElectionOk, Distinct, Voters;
    assert PacketOk(h, pk) && Uncounted(h, KeyOf(pk));
  }

  lemma CountParts(net: set<Packet>, votes: map<(nat, int), int>, h: History, pk: Packet)
    requires NetOk(net, h) && ElectionsOk(votes, h.counted, h.proto) && pk in net && pk.VoteReturn? && pk.vreply.voteGranted
    requires (pk.from, pk.vargs.term) in votes && votes[(pk.from, pk.vargs.term)] + 1 < Quorum(|h.proto.members|)
    ensures var key := (pk.from, pk.vargs.term); var g := CountedVote(h, pk.from, pk.vargs.term, pk.to, h.proto);
            && HistoryGrows(h, g) && SameAcked(h, g) && NetOk(net - {pk}, g)
            && ElectionsOk(votes[key := votes[key] + 1], g.counted, h.proto)
  {
    hide NetOk, ElectionOk, ElectionsOk, HistoryGrows, SameAcked, Grows, Voters;
    var c, t, p := pk.from, pk.vargs.term, h.proto;
    GrantedFacts(net, votes, h, pk);
    CountedElection(p, c, t, votes[(c, t)], h.counted[(c, t)], pk.to);
    CountFrame(h, c, t, pk.to);
    CountedNet(net, h, pk, p);
    ElectionAdded(votes, h.counted, p, p, (c, t), votes[(c, t)] + 1, h.counted[(c, t)] + {pk.to});
  }

  lemma ReturnVoteCounts(w: World, v: World, pk: Packet)
    requires Inv(w) && pk in w.sys.net && pk.VoteReturn?
    requires var key := (pk.from, pk.vargs.term);
             && key in w.sys.votes && w.sys.votes[key] + 1 < Quorum(|w.sys.nodes|)
             && v.sys == w.sys.(net := w.sys.net - {pk}, votes := w.sys.votes[key := w.sys.votes[key] + 1])
             && v.hist == CountedVote(w.hist, pk.from, pk.vargs.term, pk.to, w.hist.proto)
    requires pk.vreply.voteGranted
    ensures Inv(v) && HistoryGrows(w.hist, v.hist)
  {
    hide NodeOk, MemberOk, LedOk, RoundOk, NetOk, ElectionsOk, Grows;
    CountParts(w.sys.net, w.sys.votes, w.hist, pk);
    RoundsKept(w.sys.rounds, w.hist, v.hist);
  }

  lemma ElectFrame(h: History, c: nat, t: int, v: nat)
    requires Sound(h.proto) && c < |h.proto.members| && t !in h.proto.led && 1 <= t == h.proto.members[c].term
    requires Majority(|h.proto.members|, Voters(h.proto.members, c, t))
    ensures var q := Elect(h.proto, c, t); var g := CountedVote(h, c, t, v, q);
            && Grows(h.proto, q) && Sound(q) && OnlyMember(h.proto, q, c) && q.members == h.proto.members
            && HistoryGrows(h, g) && SameAcked(h, g)
  {
    ElectSound(h.proto, c, t);
  }

  /** The vote that completes a majority. */
  lemma ReturnVoteElects(w: World, v: World, pk: Packet)
    requires Inv(w) && pk in w.sys.net && pk.VoteReturn? && pk.from < |w.sys.nodes|
    requires var key := (pk.from, pk.vargs.term);
             && key in w.sys.votes && w.sys.votes[key] + 1 >= Quorum(|w.sys.nodes|)
             && v.sys == w.sys.(nodes := w.sys.nodes[pk.from := BecomeLeader(w.sys.nodes[pk.from])],
                                net := w.sys.net - {pk}, votes := w.sys.votes[key := 0])
             && v.hist == CountedVote(w.hist, pk.from, pk.vargs.term, pk.to, Elect(w.hist.proto, pk.from, pk.vargs.term))
    requires pk.vreply.voteGranted && pk.vargs.term == w.sys.nodes[pk.from].currentTerm
    ensures Inv(v) && HistoryGrows(w.hist, v.hist)
  {
    hide RoundOk, Distinct;
    var c, t, p := pk.from, pk.vargs.term, w.hist.proto;
    var q, counted := Elect(p, c, t), w.hist.counted[(c, t)];
    assert PacketOk(w.hist, pk) && Uncounted(w.hist, KeyOf(pk)) && MemberOk(p.members[c], |p.members|, p.led);
    assert ElectionOk(p, c, t, w.sys.votes[(c, t)], counted);
    CountElectsOnce(p, c, t, w.sys.votes[(c, t)], counted, pk.to);
    CountGrows(p, c, t, w.sys.votes[(c, t)], counted, pk.to);
    ElectFrame(w.hist, c, t, pk.to);
    CountedNet(w.sys.net, w.hist, pk, q);
    BecomesLeader(w.sys.nodes[c], c, |w.sys.nodes|, p.members[c], p.led);
    NodesKept(w.sys.nodes, p, v.sys.nodes, q, c);
    ElectionAdded(w.sys.votes, w.hist.counted, p, q, (c, t), 0, counted + {pk.to});
    RoundsKept(w.sys.rounds, w.hist, v.hist);
  }

  /** A node that has the quorum to be elected is not a leader yet. */
  lemma NotLeaderYet(w: World, pk: Packet)
    requires Inv(w) && pk in w.sys.net && pk.VoteReturn? && pk.from < |w.sys.nodes| && pk.vreply.voteGranted
    requires pk.vargs.term == w.sys.nodes[pk.from].currentTerm
    ensures var key := (pk.from, pk.vargs.term);
            key in w.sys.votes && (w.sys.votes[key] + 1 >= Quorum(|w.sys.nodes|) ==> w.sys.nodes[pk.from].status != Leader)
  {
    var c, t, p := pk.from, pk.vargs.term, w.hist.proto;
    assert PacketOk(w.hist, pk) && Uncounted(w.hist, KeyOf(pk));
    assert ElectionOk(p, c, t, w.sys.votes[(c, t)], w.hist.counted[(c, t)]);
    if w.sys.votes[(c, t)] + 1 >= Quorum(|w.sys.nodes|) {
      CountElectsOnce(p, c, t, w.sys.votes[(c, t)], w.hist.counted[(c, t)], pk.to);
    }
  }

  /** A granted vote of the current term was counted, and elected the caller if it completed a majority. */
  ghost predicate Tallied(w: World, v: World, pk: Packet)
    requires pk.VoteReturn? && pk.from < |w.sys.nodes| && pk.from < |w.hist.proto.members|
    requires (pk.from, pk.vargs.term) in w.sys.votes
  {
    var key, s := (pk.from, pk.vargs.term), w.sys.nodes[pk.from];
    if w.sys.votes[key] + 1 < Quorum(|w.sys.nodes|) then
      && v.sys == w.sys.(net := w.sys.net - {pk}, votes := w.sys.votes[key := w.sys.votes[key] + 1])
      && v.hist == CountedVote(w.hist, pk.from, pk.vargs.term, pk.to, w.hist.proto)
    else
      && v.sys == w.sys.(nodes := w.sys.nodes[pk.from := BecomeLeader(s)],
                         net := w.sys.net - {pk}, votes := w.sys.votes[key := 0])
      && v.hist == CountedVote(w.hist, pk.from, pk.vargs.term, pk.to, Elect(w.hist.proto, pk.from, pk.vargs.term))
  }

  lemma ReturnVoteIs(w: World, pk: Packet)
    requires Ready(w) && pk.VoteReturn? && pk.from < |w.sys.nodes|
    requires pk.vreply.voteGranted && pk.vreply.term == pk.vargs.term == w.sys.nodes[pk.from].currentTerm
    requires var key := (pk.from, pk.vargs.term);
             key in w.sys.votes && (w.sys.votes[key] + 1 >= Quorum(|w.sys.nodes|) ==> w.sys.nodes[pk.from].status != Leader)
    ensures Tallied(w, ReturnVoteStep(w, pk), pk)
  {
    assert w.sys.nodes[pk.from := w.sys.nodes[pk.from]] == w.sys.nodes;
  }

  lemma TalliedKeeps(w: World, v: World, pk: Packet)
    requires Inv(w) && pk in w.sys.net && pk.VoteReturn? && pk.from < |w.sys.nodes| && pk.vreply.voteGranted
    requires pk.vargs.term == w.sys.nodes[pk.from].currentTerm && (pk.from, pk.vargs.term) in w.sys.votes
    requires Tallied(w, v, pk)
    ensures Inv(v) && HistoryGrows(w.hist, v.hist) && v.sys.nodes[pk.from].halted == w.sys.nodes[pk.from].halted
  {
    if w.sys.votes[(pk.from, pk.vargs.term)] + 1 < Quorum(|w.sys.nodes|) {
      ReturnVoteCounts(w, v, pk);
    } else {
      ReturnVoteElects(w, v, pk);
    }
  }

  lemma CallerFacts(w: World, pk: Packet)
    requires Inv(w) && pk in w.sys.net && pk.VoteReturn?
    ensures pk.from < |w.sys.nodes| && pk.to < |w.sys.nodes| && (pk.from, pk.vargs.term) in w.sys.votes
    ensures w.hist.proto.members[pk.from].term == w.sys.nodes[pk.from].currentTerm
    ensures pk.vreply.voteGranted ==> pk.vreply.term == pk.vargs.term
  {
    assert PacketOk(w.hist, pk);
  }

  lemma ReturnVoteKeeps(w: World, pk: Packet)
    requires Inv(w) && Ready(w) && pk in w.sys.net && pk.VoteReturn? && pk.from < |w.sys.nodes|
    requires !w.sys.nodes[pk.from].halted
    ensures var v := ReturnVoteStep(w, pk);
            Inv(v) && HistoryGrows(w.hist, v.hist) && !v.sys.nodes[pk.from].halted
  {
    CallerFacts(w, pk);
    if pk.vreply.term == w.sys.nodes[pk.from].currentTerm && pk.vreply.voteGranted {
      NotLeaderYet(w, pk);
      ReturnVoteIs(w, pk);
      TalliedKeeps(w, ReturnVoteStep(w, pk), pk);
    } else {
      ReturnVoteIdle(w, pk);
      TookTermKeeps(w, ReturnVoteStep(w, pk), pk.from, pk.vreply.term, pk);
    }
  }

  // AppendEntries.

  lemma KnownSame(led: Terms, f: Log, t: int, l: Log, u: int)
    requires Known(led, f, t) && Known(led, l, u)
    ensures SameEntries(f, l) && Indexed(f) && Indexed(l)
  {
  }

  lemma CallIsBatch(h: History, round: nat, from: nat, a: AppendArgs)
    requires AppendArgsOk(h, round, from, a) && Sound(h.proto)
    ensures BatchOf(h.proto.led[a.term].log, a) && Known(h.proto.led, h.proto.led[a.term].log, a.term)
  {
    assert LedOk(h.proto, a.term);
  }

  /** A member that accepted a batch of term t. */
  function Written(m: Member, t: int, prev: nat, es: Log): Member
    requires prev <= |m.log|
  {
    var hi := prev + |es|;
    var a := if t in m.acked && hi < m.acked[t] then m.acked[t] else hi;
    m.(term := Max(m.term, t), log := Overlay(m.log, prev, es), acked := m.acked[t := a])
  }

  lemma WrittenOk(m: Member, n: nat, led: Terms, a: AppendArgs)
    requires MemberOk(m, n, led) && a.term in led && m.term <= a.term
    requires BatchOf(led[a.term].log, a) && Known(led, led[a.term].log, a.term) && a.prevLogIndex <= |m.log|
    ensures var w := Written(m, a.term, a.prevLogIndex, a.entries);
            MemberOk(w, n, led) && MemberGrows(m, w) && |m.log| <= |w.log|
  {
    KnownGrows(led, led, m.log, m.term, a.term);
    OverlayKnown(led, m.log, a.prevLogIndex, a.entries, led[a.term].log, a.term);
  }

  lemma OverlaidTerm(f: Log, l: Log, a: AppendArgs)
    requires BatchOf(l, a) && a.prevLogIndex <= |f| && TermOf(f, a.prevLogIndex) == a.prevLogTerm
    ensures var last, g := a.prevLogIndex + |a.entries|, Overlay(f, a.prevLogIndex, a.entries);
            last <= |l| && last <= |g| && TermOf(g, last) == TermOf(l, last)
  {
    var last, g := a.prevLogIndex + |a.entries|, Overlay(f, a.prevLogIndex, a.entries);
    if a.entries != [] {
      assert g[last - 1] == a.entries[|a.entries| - 1] == l[last - 1];
    } else {
      assert g == f;
    }
  }

  /** An accepting node ends with the term that the round wrote at its end. */
  lemma AcceptedHolds(s: Node, g: Log, f: Log, l: Log, a: AppendArgs)
    requires Represents(s, g) && a.prevLogIndex >= s.snapIndex && BatchOf(l, a)
    requires a.prevLogIndex <= |f| && TermOf(f, a.prevLogIndex) == a.prevLogTerm
    requires g == Overlay(f, a.prevLogIndex, a.entries)
    ensures var last := a.prevLogIndex + |a.entries|;
            last <= |g| && Holds(s, last, TermOf(l, last))
  {
    OverlaidTerm(f, l, a);
    hide Overlay, BatchOf, TermOf;
    Reads(s, g);
  }

  lemma AcceptedNode(s: Node, i: nat, n: nat, m: Member, led: Terms, a: AppendArgs)
    requires NodeOk(s, i, n, m, led) && MemberOk(m, n, led) && Accepts(s, m.log, a)
    requires Represents(Accepted(s, m.log, a), Overlay(m.log, a.prevLogIndex, a.entries))
    requires 0 <= a.leaderCommit <= a.prevLogIndex + |a.entries|
    ensures NodeOk(Accepted(s, m.log, a), i, n, Written(m, a.term, a.prevLogIndex, a.entries), led)
  {
  }

  lemma AdoptedNode(s: Node, i: nat, n: nat, m: Member, led: Terms, t: int, halted: bool)
    requires NodeOk(s, i, n, m, led) && MemberOk(m, n, led) && m.term <= t
    ensures NodeOk(Adopt(s, t).(halted := halted), i, n, m.(term := Max(m.term, t)), led)
  {
  }

  /** The member after AppendEntries. */
  function Appended(s: Node, m: Member, a: AppendArgs): Member
    requires 0 <= s.snapIndex
  {
    if Accepts(s, m.log, a) then Written(m, a.term, a.prevLogIndex, a.entries)
    else m.(term := Max(m.term, a.term))
  }

  lemma AppendedNode(s: Node, i: nat, n: nat, m: Member, led: Terms, a: AppendArgs)
    requires NodeOk(s, i, n, m, led) && MemberOk(m, n, led) && !s.halted
    requires a.term in led && BatchOf(led[a.term].log, a) && Known(led, led[a.term].log, a.term)
    ensures NodeOk(HandleAppend(s, a).node, i, n, Appended(s, m, a), led)
    ensures MemberOk(Appended(s, m, a), n, led) && MemberGrows(m, Appended(s, m, a)) && |m.log| <= |Appended(s, m, a).log|
  {
    KnownSame(led, m.log, m.term, led[a.term].log, a.term);
    if Accepts(s, m.log, a) {
      AcceptOutcome(s, m.log, led[a.term].log, a);
      AcceptedNode(s, i, n, m, led, a);
      WrittenOk(m, n, led, a);
    } else {
      AppendOutcome(s, m.log, led[a.term].log, a);
      LaterTerm(m, n, led, a.term);
      if m.term <= a.term { AdoptedNode(s, i, n, m, led, a.term, StrandedBy(s, a)); }
    }
  }

  function AppendedHistory(h: History, pk: Packet, s: Node, ans: Answer<AppendReply>): History
    requires pk.AppendCall? && pk.to < |h.proto.members| && 0 <= s.snapIndex
  {
    var g := WithMember(h, pk.to, Appended(s, h.proto.members[pk.to], pk.args));
    if Accepts(s, h.proto.members[pk.to].log, pk.args)
    then g.(rounds := Held(h.rounds, pk.round, ans.node, pk.to)) else g
  }

  lemma AppendStepIs(w: World, pk: Packet, ans: Answer<AppendReply>)
    requires Ready(w) && pk.AppendCall? && pk.to < |w.sys.nodes|
    requires var s, m := w.sys.nodes[pk.to], w.hist.proto.members[pk.to];
             && 0 <= s.snapIndex && s.currentTerm == m.term
             && (Accepts(s, m.log, pk.args) <==> !ans.node.halted && ans.reply.success)
             && ans.node.currentTerm == Max(m.term, pk.args.term)
    ensures AnsweredAppend(w, pk, ans).hist == AppendedHistory(w.hist, pk, w.sys.nodes[pk.to], ans)
  {
  }

  lemma HeldGrows(h: History, g: History, r: nat, s: Node, v: nat)
    requires Uneventful(h, g.(rounds := h.rounds)) && g.rounds == Held(h.rounds, r, s, v)
    ensures Uneventful(h, g)
  {
  }

  lemma AppendedFrame(h: History, pk: Packet, s: Node, ans: Answer<AppendReply>)
    requires Sound(h.proto) && pk.AppendCall? && pk.to < |h.proto.members| && 0 <= s.snapIndex
    requires var m := h.proto.members[pk.to]; var w := Appended(s, m, pk.args);
             MemberGrows(m, w) && MemberOk(w, |h.proto.members|, h.proto.led) && |m.log| <= |w.log|
    ensures var g := AppendedHistory(h, pk, s, ans);
            Sound(g.proto) && OnlyMember(h.proto, g.proto, pk.to) && Uneventful(h, g)
  {
    var u := Appended(s, h.proto.members[pk.to], pk.args);
    MemberFrame(h, pk.to, u);
    if Accepts(s, h.proto.members[pk.to].log, pk.args) {
      HeldGrows(h, AppendedHistory(h, pk, s, ans), pk.round, ans.node, pk.to);
    }
  }

  /** What AppendEntries answers, in terms of the follower's whole log. */
  ghost predicate AppendAnswer(s: Node, m: Member, l: Log, a: AppendArgs, ans: Answer<AppendReply>)
    requires 0 <= s.snapIndex
  {
    && (ans.node.halted <==> StrandedBy(s, a))
    && ans.node.currentTerm == Max(m.term, a.term)
    && (!ans.node.halted ==>
          && ans.reply.appState == AppNormal
          && (ans.reply.success <==> Accepts(s, m.log, a))
          && ans.reply.term == Max(m.term, a.term)
          && (!ans.reply.success ==>
                if ans.reply.updateNextIndex == NO_UPDATE then a.term < m.term
                else a.term >= m.term && 1 <= ans.reply.updateNextIndex <= a.prevLogIndex))
    && (Accepts(s, m.log, a) ==>
          var last := a.prevLogIndex + |a.entries|;
          !ans.node.halted && 0 <= last <= |l| && Holds(ans.node, last, TermOf(l, last)))
  }

  lemma AppendAnswers(s: Node, i: nat, n: nat, m: Member, led: Terms, a: AppendArgs)
    requires NodeOk(s, i, n, m, led) && MemberOk(m, n, led) && !s.halted
    requires a.term in led && BatchOf(led[a.term].log, a) && Known(led, led[a.term].log, a.term)
    ensures AppendAnswer(s, m, led[a.term].log, a, HandleAppend(s, a))
  {
    var l := led[a.term].log;
    KnownSame(led, m.log, m.term, l, a.term);
    AppendOutcome(s, m.log, l, a);
    if Accepts(s, m.log, a) {
      AcceptOutcome(s, m.log, l, a);
      AcceptedHolds(Accepted(s, m.log, a), Overlay(m.log, a.prevLogIndex, a.entries), m.log, l, a);
    }
  }

  lemma AppendAnswered(h: History, pk: Packet, s: Node, ans: Answer<AppendReply>)
    requires pk.AppendCall? && pk.to < |h.proto.members| && pk.from < |h.proto.members| && 0 <= s.snapIndex
    requires pk.from != pk.to && AppendArgsOk(h, pk.round, pk.from, pk.args)
    requires var m := h.proto.members[pk.to];
             s.currentTerm == m.term && AppendAnswer(s, m, h.proto.led[pk.args.term].log, pk.args, ans) && !ans.node.halted
    requires AppendArgsOk(AppendedHistory(h, pk, s, ans), pk.round, pk.from, pk.args)
    ensures var back := AppendReturn(pk.round, pk.from, pk.to, pk.args, ans.reply);
            PacketOk(AppendedHistory(h, pk, s, ans), back) && KeyOf(back) == KeyOf(pk)
  {
    if Accepts(s, h.proto.members[pk.to].log, pk.args) {
      assert Holds(ans.node, h.rounds[pk.round].last, h.rounds[pk.round].lastTerm);
      assert pk.to in AppendedHistory(h, pk, s, ans).rounds[pk.round].held;
    }
  }

  lemma DeliverAppendKeeps(w: World, pk: Packet)
    requires Inv(w) && Ready(w) && pk in w.sys.net && pk.AppendCall? && pk.to < |w.sys.nodes|
    requires !w.sys.nodes[pk.to].halted
    ensures var v := DeliverAppendStep(w, pk);
            Inv(v) && HistoryGrows(w.hist, v.hist)
            && (v.sys.nodes[pk.to].halted <==> StrandedBy(w.sys.nodes[pk.to], pk.args))
  {
    var v, h := DeliverAppendStep(w, pk), w.hist;
    var s, m, n := w.sys.nodes[pk.to], h.proto.members[pk.to], |w.sys.nodes|;
    var ans := HandleAppend(s, pk.args);
    assert PacketOk(h, pk) && MemberOk(m, n, h.proto.led);
    CallIsBatch(h, pk.round, pk.from, pk.args);
    AppendAnswers(s, pk.to, n, m, h.proto.led, pk.args);
    AppendedNode(s, pk.to, n, m, h.proto.led, pk.args);
    AppendStepIs(w, pk, ans);
    AppendedFrame(h, pk, s, ans);
    PacketKept(h, v.hist, pk);
    if ans.node.halted {
      NetEnded(w.sys.net, h, v.hist, pk);
    } else {
      AppendAnswered(h, pk, s, ans);
      NetAnswered(w.sys.net, h, v.hist, pk, AppendReturn(pk.round, pk.from, pk.to, pk.args, ans.reply));
    }
    UneventfulKeeps(w, v, pk.to);
  }
}
